/**
 The keeper of the exchange (x/dex/keeper) over its store, together with the parts
 of the asset keeper (x/asset/ft/keeper/keeper_dex.go) and of the delay keeper
 (x/delay/keeper) it drives. Each method is shown to do to the store what the state
 machine in Exchange does to the open orders.
 */
module DexKeeper {
  import opened Bytes
  import opened StoreKeys
  import opened SortedLists
  import opened Types
  import opened Ledgers
  import opened Amounts
  import opened Priority
  import opened Iterator
  import opened Finder
  import opened Matching
  import opened Actions
  import opened Orders
  import opened Engine
  import opened Exchange
  import opened Delay
  import opened Store
  import opened Settlement
  import opened KeeperFacts

  class Keeper {
    /** The denoms whose expected amounts the asset module records. */
    const whitelisting: set<Denom>
    var store: Store
    var height: nat
    var time: nat
    /** The bank transfers made so far. */
    var transfers: seq<CoinToSend>
    /** The state the store represents. */
    ghost var state: State

    /** The store represents a solvent state that satisfies the invariant. */
    ghost predicate Sound()
      reads this
    {
      Inv(state) && Solvent(state) && Represents(store, state, whitelisting)
    }

    ghost predicate Valid()
      reads this
    {
      Sound() && height == state.height && time == state.time
    }

    constructor (params: Params, whitelisting: set<Denom>)
      requires ValidParams(params)
      ensures Valid() && state == Initial(params) && transfers == [] && this.whitelisting == whitelisting
    {
      hide Inv, Solvent, Represents, Initial, Empty;
      this.whitelisting := whitelisting;
      store := Empty(params);
      height := 0;
      time := 0;
      transfers := [];
      state := Initial(params);
      new;
      InitialInv(params);
      EmptyRepresents(params, whitelisting);
    }

    // ----- sequences, order IDs, books -----

    method GenNextOrderSequence() returns (sequence: nat)
      modifies this`store
      ensures sequence == old(store.orderSequence) + 1
      ensures store == old(store).(orderSequence := sequence)
    {
      sequence := store.orderSequence + 1;
      store := store.(orderSequence := sequence);
    }

    /** An order ID can be reserved once and is never released. */
    method ReserveOrderID(account: Account, id: OrderID) returns (ok: bool)
      modifies this`store
      ensures ok <==> (account, id) !in old(store.reserved)
      ensures ok ==> store == old(store).(reserved := old(store.reserved) + {(account, id)})
      ensures !ok ==> store == old(store)
    {
      if (account, id) in store.reserved {
        return false;
      }
      store := store.(reserved := store.reserved + {(account, id)});
      ok := true;
    }

    /** The IDs of the book of a pair and of its inverse, generated if they do not exist. */
    method GetOrGenOrderBookIDs(base: Denom, quote: Denom) returns (ids: Option<(nat, nat)>)
      requires BooksPaired(store.books, store.bookSequence) && BookDataMatch(store.books, store.bookData) && base != quote
      modifies this`store
      ensures ids.Some? <==> Joinable(base) && Joinable(quote)
      ensures ids.Some? ==>
                var books := store.books;
                && (books, store.bookSequence) == WithBooks(old(store.books), old(store.bookSequence), base, quote)
                && store == old(store).(books := books, bookSequence := store.bookSequence, bookData := store.bookData)
                && BookDataMatch(books, store.bookData)
                && (base, quote) in books && (quote, base) in books
                && ids.value == (books[(base, quote)], books[(quote, base)])
    {
      hide LexLess, Joinable, BooksPaired, BookDataMatch, WithBooks;
      var denom0, denom1 := quote, base;
      if LexLess(base, quote) {
        denom0, denom1 := base, quote;
      }
      if !Joinable(denom0) || !Joinable(denom1) {
        return None;
      }
      var id0 := GetOrGenOrderBookID0(denom0, denom1);
      PairLookup(old(store.books), old(store.bookSequence), base, quote);
      if denom0 == base {
        return Some((id0, id0 + 1));
      }
      return Some((id0 + 1, id0));
    }

    /** The ID of the book of a pair in canonical order. */
    method GetOrGenOrderBookID0(denom0: Denom, denom1: Denom) returns (id0: nat)
      requires BooksPaired(store.books, store.bookSequence) && BookDataMatch(store.books, store.bookData) && denom0 != denom1
      modifies this`store
      ensures var books, n := old(store.books), old(store.bookSequence);
              && (if (denom0, denom1) in books then store == old(store)
                  else store == old(store).(books := books[(denom0, denom1) := n + 1][(denom1, denom0) := n + 2],
                                            bookSequence := n + 2, bookData := store.bookData))
              && BookDataMatch(store.books, store.bookData)
              && (denom0, denom1) in store.books && id0 == store.books[(denom0, denom1)]
    {
      hide BooksPaired, BookDataMatch;
      if (denom0, denom1) in store.books {
        id0 := store.books[(denom0, denom1)];
      } else {
        id0 := GenOrderBookIDsFromDenoms(denom0, denom1);
      }
    }

    method GenOrderBookIDsFromDenoms(denom0: Denom, denom1: Denom) returns (id0: nat)
      requires BooksPaired(store.books, store.bookSequence) && BookDataMatch(store.books, store.bookData)
      requires denom0 != denom1 && (denom0, denom1) !in store.books
      modifies this`store
      ensures var n := old(store.bookSequence);
              && id0 == n + 1
              && store == old(store).(books := old(store.books)[(denom0, denom1) := n + 1][(denom1, denom0) := n + 2],
                                      bookSequence := n + 2, bookData := store.bookData)
              && BookDataMatch(store.books, store.bookData)
    {
      hide BooksPaired, BookDataMatch;
      NewPairData(store.books, store.bookData, store.bookSequence, denom0, denom1);
      id0 := GenNextOrderBookID();
      SaveOrderBookIDWithData(id0, denom0, denom1);
      var id1 := GenNextOrderBookID();
      SaveOrderBookIDWithData(id1, denom1, denom0);
    }

    method GenNextOrderBookID() returns (id: nat)
      modifies this`store
      ensures id == old(store.bookSequence) + 1
      ensures store == old(store).(bookSequence := id)
    {
      id := store.bookSequence + 1;
      store := store.(bookSequence := id);
    }

    method SaveOrderBookIDWithData(id: nat, base: Denom, quote: Denom)
      modifies this`store
      ensures store == old(store).(books := old(store.books)[(base, quote) := id], bookData := old(store.bookData)[id := (base, quote)])
    {
      store := store.(books := store.books[(base, quote) := id]);
      store := store.(bookData := store.bookData[id := (base, quote)]);
    }

    // ----- counters of orders per account and denom -----

    method IncrementAccountDenomsOrdersCounter(account: Account, maxOrdersPerDenom: nat, denoms: seq<Denom>) returns (ok: bool)
      requires |denoms| == 2 && denoms[0] != denoms[1]
      modifies this`store
      ensures ok <==> (&& Joinable(denoms[0]) && Joinable(denoms[1])
                       && Get(old(store.counts), (account, denoms[0])) < maxOrdersPerDenom
                       && Get(old(store.counts), (account, denoms[1])) < maxOrdersPerDenom)
      ensures ok ==> store == old(store).(counts := Incremented(Incremented(old(store.counts), account, denoms[0]), account, denoms[1]))
    {
      var i := 0;
      while i < |denoms|
        invariant 0 <= i <= 2
        invariant store == old(store).(counts := if i == 0 then old(store.counts)
                                                 else if i == 1 then Incremented(old(store.counts), account, denoms[0])
                                                 else Incremented(Incremented(old(store.counts), account, denoms[0]), account, denoms[1]))
        invariant 0 < i ==> Joinable(denoms[0]) && Get(old(store.counts), (account, denoms[0])) < maxOrdersPerDenom
        invariant 1 < i ==> Joinable(denoms[1]) && Get(old(store.counts), (account, denoms[1])) < maxOrdersPerDenom
      {
        if !Joinable(denoms[i]) {
          return false;
        }
        store := store.(counts := Incremented(store.counts, account, denoms[i]));
        if store.counts[(account, denoms[i])] > maxOrdersPerDenom {
          return false;
        }
        i := i + 1;
      }
      ok := true;
    }

    method DecrementAccountDenomOrdersCounter(account: Account, denoms: seq<Denom>) returns (ok: bool)
      requires |denoms| == 2 && denoms[0] != denoms[1]
      modifies this`store
      ensures ok <==> (&& Joinable(denoms[0]) && Joinable(denoms[1])
                       && 0 < Get(old(store.counts), (account, denoms[0])) && 0 < Get(old(store.counts), (account, denoms[1])))
      ensures ok ==> store == old(store).(counts := Decremented(Decremented(old(store.counts), account, denoms[0]), account, denoms[1]))
    {
      var i := 0;
      while i < |denoms|
        invariant 0 <= i <= 2
        invariant 0 < i ==> Joinable(denoms[0]) && 0 < Get(old(store.counts), (account, denoms[0]))
        invariant 1 < i ==> Joinable(denoms[1]) && 0 < Get(old(store.counts), (account, denoms[1]))
        invariant store == old(store).(counts := if i == 0 then old(store.counts)
                                                 else if i == 1 then Decremented(old(store.counts), account, denoms[0])
                                                 else Decremented(Decremented(old(store.counts), account, denoms[0]), account, denoms[1]))
      {
        if !Joinable(denoms[i]) {
          return false;
        }
        if Get(store.counts, (account, denoms[i])) == 0 {
          return false;
        }
        store := store.(counts := Decremented(store.counts, account, denoms[i]));
        i := i + 1;
      }
      ok := true;
    }

    // ----- scheduled expiries -----

    /** Schedules the expiry: by height if there is one, else by time. */
    method DelayGoodTilCancellation(goodTil: GoodTil, sequence: nat, creator: Account) returns (ok: bool)
      modifies this`store
      ensures ok <==> (&& HeightItem(Some(goodTil), creator, sequence).Keys !! old(store.blockItems).Keys
                       && TimeItem(Some(goodTil), creator, sequence).Keys !! old(store.timeItems).Keys
                       && (goodTil.height == 0 && goodTil.time.Some? ==> 0 <= goodTil.time.value))
      ensures ok ==> store == old(store).(blockItems := old(store.blockItems) + HeightItem(Some(goodTil), creator, sequence),
                                          timeItems := old(store.timeItems) + TimeItem(Some(goodTil), creator, sequence))
    {
      hide HeightItemID, TimeItemID, HeightItem, TimeItem;
      NonEmptyItemIDs(sequence);
      ScheduledItems(goodTil, creator, sequence, store.blockItems, store.timeItems);
      if goodTil.height > 0 {
        ok := StoreBlockExecution(HeightItemID(sequence), CancelGoodTil(creator, sequence), goodTil.height);
        return;
      }
      if goodTil.time.Some? {
        ok := StoreDelayedExecution(TimeItemID(sequence), CancelGoodTil(creator, sequence), goodTil.time.value);
        return;
      }
      ok := true;
    }

    /** Stores an item under its due height unless its key is taken. */
    method StoreBlockExecution(id: bytes, data: CancelGoodTil, height: nat) returns (ok: bool)
      modifies this`store
      ensures ok <==> CreateItemKey(id, height).Some? && CreateItemKey(id, height).value !in old(store.blockItems)
      ensures ok ==> store == old(store).(blockItems := old(store.blockItems)[CreateItemKey(id, height).value := data])
      ensures !ok ==> store == old(store)
    {
      var key := CreateItemKey(id, height);
      if key.None? || key.value in store.blockItems {
        return false;
      }
      store := store.(blockItems := store.blockItems[key.value := data]);
      ok := true;
    }

    /** Stores an item under its due time, in whole seconds, unless its key is taken. */
    method StoreDelayedExecution(id: bytes, data: CancelGoodTil, time: int) returns (ok: bool)
      modifies this`store
      ensures ok <==> CreateItemKey(id, Unix(time)).Some? && CreateItemKey(id, Unix(time)).value !in old(store.timeItems)
      ensures ok ==> store == old(store).(timeItems := old(store.timeItems)[CreateItemKey(id, Unix(time)).value := data])
      ensures !ok ==> store == old(store)
    {
      var key := CreateItemKey(id, Unix(time));
      if key.None? || key.value in store.timeItems {
        return false;
      }
      store := store.(timeItems := store.timeItems[key.value := data]);
      ok := true;
    }

    /** Removes whatever the expiry may be scheduled under. */
    method RemoveGoodTilDelay(goodTil: GoodTil, sequence: nat) returns (ok: bool)
      modifies this`store
      ensures ok <==> (goodTil.time.Some? ==> 0 <= goodTil.time.value)
      ensures ok ==> store == old(store).(blockItems := old(store.blockItems) - HeightKeys(Some(goodTil), sequence),
                                          timeItems := old(store.timeItems) - TimeKeys(Some(goodTil), sequence))
    {
      hide HeightItemID, TimeItemID;
      NonEmptyItemIDs(sequence);
      if goodTil.height > 0 {
        var key := CreateItemKey(HeightItemID(sequence), goodTil.height);
        if key.None? {
          return false;
        }
        store := store.(blockItems := store.blockItems - {key.value});
      }
      if goodTil.time.Some? {
        var key := CreateItemKey(TimeItemID(sequence), Unix(goodTil.time.value));
        if key.None? {
          return false;
        }
        store := store.(timeItems := store.timeItems - {key.value});
      }
      ok := true;
    }

    // ----- saving and removing orders -----

    method SaveOrderBookRecord(record: Record)
      modifies this`store
      ensures store == old(store).(records := old(store.records)[EntryOf(record) := DataOfRecord(record)])
    {
      store := store.(records := store.records[EntryOf(record) := DataOfRecord(record)]);
    }

    /** Saves the record, the order data, the ID and the denom entries of an order. */
    method SaveOrderWithOrderBookRecord(order: Order, record: Record, reserve: Option<Coin>) returns (ok: bool)
      requires order.price.Some?
      modifies this`store
      ensures ok <==> order.orderType.Limit? && order.timeInForce.GTC? && Joinable(order.baseDenom) && Joinable(order.quoteDenom)
      ensures store == old(store).(records := store.records, orders := store.orders, idToSequence := store.idToSequence,
                                   denomSequences := store.denomSequences)
      ensures ok ==>
                var a, q := record.account, record.sequence;
                store == old(store).(
                  records := old(store.records)[EntryOf(record) := DataOfRecord(record)],
                  orders := old(store.orders)[q := OrderData(order.id, record.book, order.price.value, order.quantity, order.side,
                                                             order.goodTil, reserve)],
                  idToSequence := old(store.idToSequence)[(a, record.id) := q],
                  denomSequences := old(store.denomSequences) + {(a, order.baseDenom, q)} + {(a, order.quoteDenom, q)})
    {
      if !order.orderType.Limit? {
        return false;
      }
      if !order.timeInForce.GTC? {
        return false;
      }
      SaveOrderBookRecord(record);
      store := store.(orders := store.orders[record.sequence :=
                                  OrderData(order.id, record.book, order.price.value, order.quantity, order.side, order.goodTil, reserve)]);
      store := store.(idToSequence := store.idToSequence[(record.account, record.id) := record.sequence]);
      ok := SaveAccountDenomOrderSequence(record.account, [order.baseDenom, order.quoteDenom], record.sequence);
    }

    method SaveAccountDenomOrderSequence(account: Account, denoms: seq<Denom>, sequence: nat) returns (ok: bool)
      requires |denoms| == 2
      modifies this`store
      ensures ok <==> Joinable(denoms[0]) && Joinable(denoms[1])
      ensures ok ==> store == old(store).(denomSequences := old(store.denomSequences) + {(account, denoms[0], sequence)} + {(account, denoms[1], sequence)})
      ensures store == old(store).(denomSequences := store.denomSequences)
    {
      for i := 0 to |denoms|
        invariant store == old(store).(denomSequences := old(store.denomSequences) + set j | 0 <= j < i :: (account, denoms[j], sequence))
        invariant forall j | 0 <= j < i :: Joinable(denoms[j])
      {
        if !Joinable(denoms[i]) {
          return false;
        }
        store := store.(denomSequences := store.denomSequences + {(account, denoms[i], sequence)});
      }
      ok := true;
    }

    method RemoveAccountDenomOrderSequence(account: Account, denoms: seq<Denom>, sequence: nat) returns (ok: bool)
      requires |denoms| == 2
      modifies this`store
      ensures ok <==> Joinable(denoms[0]) && Joinable(denoms[1])
      ensures ok ==> store == old(store).(denomSequences := old(store.denomSequences) - {(account, denoms[0], sequence)} - {(account, denoms[1], sequence)})
      ensures store == old(store).(denomSequences := store.denomSequences)
    {
      for i := 0 to |denoms|
        invariant store == old(store).(denomSequences := old(store.denomSequences) - set j | 0 <= j < i :: (account, denoms[j], sequence))
        invariant forall j | 0 <= j < i :: Joinable(denoms[j])
      {
        if !Joinable(denoms[i]) {
          return false;
        }
        store := store.(denomSequences := store.denomSequences - {(account, denoms[i], sequence)});
      }
      ok := true;
    }

    /**
     Enters what is left of an order into every index. It fails only if one of the two
     counters is at its limit.
     */
    method CreateOrder(params: Params, order: Order, record: Record, ghost open: map<nat, OpenOrder>, ghost o: OpenOrder)
      returns (ok: bool)
      requires order.orderType.Limit? && order.timeInForce.GTC? && order.price.Some?
      requires o == OpenOrder(record, order.baseDenom, order.quoteDenom, order.quantity, order.goodTil, ReserveFor(params))
      requires record.price == order.price.value && record.side == order.side && record.id == order.id
      requires TimeItemsMatch(store.timeItems, open) && HeightItemsMatch(store.blockItems, open)
      requires record.sequence !in open && WellFormed(o, record.sequence)
      modifies this`store
      ensures ok <==> (&& Get(old(store.counts), (record.account, order.baseDenom)) < params.maxOrdersPerDenom
                       && Get(old(store.counts), (record.account, order.quoteDenom)) < params.maxOrdersPerDenom)
      ensures ok ==> store == WithOrder(old(store), o, record.sequence)
    {
      hide HeightItemsMatch, TimeItemsMatch, WellFormed, Incremented, Joinable, HeightItem, TimeItem, EntryOf, DataOfRecord;
      NewOrderFacts(o, record.sequence);
      ghost var q := record.sequence;
      HeightItemAdded(store.blockItems, open, q, o);
      TimeItemAdded(store.timeItems, open, q, o);
      var denoms := [order.baseDenom, order.quoteDenom];
      assert denoms[0] == order.baseDenom && denoms[1] == order.quoteDenom;
      ok := IncrementAccountDenomsOrdersCounter(record.account, params.maxOrdersPerDenom, denoms);
      if !ok {
        return;
      }
      ok := SaveOrderWithOrderBookRecord(order, record, ReserveFor(params));
      if !ok {
        return;
      }
      if order.goodTil.Some? {
        assert order.goodTil == Some(order.goodTil.value);
        ok := DelayGoodTilCancellation(order.goodTil.value, record.sequence, record.account);
      } else {
        NothingDelayed(store.blockItems, store.timeItems, record.account, record.sequence);
      }
    }

    /** Takes an open order out of every index; none of the lookups on the way can fail. */
    method RemoveOrderByRecord(record: Record, ghost open: map<nat, OpenOrder>, ghost n: nat) returns (ok: bool)
      requires Indexed(store, open, n) && AllWellFormed(open)
      requires record.sequence in open && record.sequence < n && SameBookEntry(open[record.sequence].record, record)
      requires BooksKnown(store.bookData, open)
      modifies this`store
      ensures ok
      ensures var o := open[record.sequence];
              && 0 < Get(old(store.counts), (o.record.account, o.baseDenom))
              && 0 < Get(old(store.counts), (o.record.account, o.quoteDenom)) && o.baseDenom != o.quoteDenom
              && store == WithoutOrder(old(store), o, record.sequence)
              && Indexed(store, open - {record.sequence}, n)
    {
      hide Indexed, AllWellFormed, SameBookEntry, BooksKnown, Joinable, HeightKeys, TimeKeys, Decremented, EntryOf, Get;
      WithoutOrderIndexed(store, open, n, record.sequence);
      RemovalFacts(store, open, n, record);
      ghost var o := open[record.sequence];
      store := store.(records := store.records - {EntryOf(record)});
      if record.sequence !in store.orders {
        return false;
      }
      var data := store.orders[record.sequence];
      ok := RemoveExpiry(data.goodTil, record.sequence);
      if !ok {
        return;
      }
      store := store.(orders := store.orders - {record.sequence});
      store := store.(idToSequence := store.idToSequence - {(record.account, record.id)});
      ok := RemoveFromDenoms(record);
    }

    /** Takes what is scheduled for an order, if anything, off the delayed items. */
    method RemoveExpiry(goodTil: Option<GoodTil>, sequence: nat) returns (ok: bool)
      modifies this`store
      ensures ok <==> (goodTil.Some? && goodTil.value.time.Some? ==> 0 <= goodTil.value.time.value)
      ensures ok ==> store == old(store).(blockItems := old(store.blockItems) - HeightKeys(goodTil, sequence),
                                          timeItems := old(store.timeItems) - TimeKeys(goodTil, sequence))
    {
      hide HeightKeys, TimeKeys;
      if goodTil.None? {
        NothingDelayed(store.blockItems, store.timeItems, 0, sequence);
        return true;
      }
      ok := RemoveGoodTilDelay(goodTil.value, sequence);
    }

    /** Takes an order out of the counters and entries of its two denoms. */
    method RemoveFromDenoms(record: Record) returns (ok: bool)
      requires record.book in store.bookData ==>
                 var pair := store.bookData[record.book]; pair.0 != pair.1
      modifies this`store
      ensures ok <==> record.book in old(store.bookData) &&
                      var pair := old(store.bookData)[record.book];
                      && Joinable(pair.0) && Joinable(pair.1)
                      && 0 < Get(old(store.counts), (record.account, pair.0)) && 0 < Get(old(store.counts), (record.account, pair.1))
      ensures ok ==>
                var pair, a, q := old(store.bookData)[record.book], record.account, record.sequence;
                store == old(store).(
                  counts := Decremented(Decremented(old(store.counts), a, pair.0), a, pair.1),
                  denomSequences := old(store.denomSequences) - {(a, pair.0, q)} - {(a, pair.1, q)})
    {
      hide Joinable;
      if record.book !in store.bookData {
        return false;
      }
      var pair := store.bookData[record.book];
      var denoms := [pair.0, pair.1];
      assert denoms[0] == pair.0 && denoms[1] == pair.1;
      ok := DecrementAccountDenomOrdersCounter(record.account, denoms);
      if !ok {
        return;
      }
      ok := RemoveAccountDenomOrderSequence(record.account, denoms, record.sequence);
    }

    // ----- ledgers of the asset module -----

    /** A coin is available if it is covered by funds that nothing locks. */
    method ValidateCoinIsNotLockedByDEXAndBank(account: Account, coin: Coin) returns (ok: bool)
      ensures ok <==> SpendFits(store.locked, store.funds, account, coin)
    {
      var available := Get(store.funds, (account, coin.denom)) - Get(store.locked, (account, coin.denom));
      ok := coin.amount <= available;
    }

    method DEXIncreaseLocked(account: Account, coin: Coin) returns (ok: bool)
      modifies this`store
      ensures ok <==> 0 < coin.amount && SpendFits(old(store.locked), old(store.funds), account, coin)
      ensures ok ==> store == old(store).(locked := SetBalance(old(store.locked), account, coin.denom,
                                                               Get(old(store.locked), (account, coin.denom)) + coin.amount))
    {
      if coin.amount <= 0 {
        return false;
      }
      ok := ValidateCoinIsNotLockedByDEXAndBank(account, coin);
      if !ok {
        return;
      }
      store := store.(locked := SetBalance(store.locked, account, coin.denom, Get(store.locked, (account, coin.denom)) + coin.amount));
      ok := true;
    }

    method DEXDecreaseLocked(account: Account, coin: Coin) returns (ok: bool)
      modifies this`store
      ensures ok <==> 0 < coin.amount <= Get(old(store.locked), (account, coin.denom))
      ensures ok ==> store == old(store).(locked := SetBalance(old(store.locked), account, coin.denom,
                                                               Get(old(store.locked), (account, coin.denom)) - coin.amount))
    {
      if coin.amount <= 0 {
        return false;
      }
      if Get(store.locked, (account, coin.denom)) < coin.amount {
        return false;
      }
      store := store.(locked := SetBalance(store.locked, account, coin.denom, Get(store.locked, (account, coin.denom)) - coin.amount));
      ok := true;
    }

    method DEXIncreaseExpectedToReceive(account: Account, coin: Coin) returns (ok: bool)
      modifies this`store
      ensures ok <==> 0 < coin.amount
      ensures ok ==> store == if coin.denom !in whitelisting then old(store)
                              else old(store).(expected := SetBalance(old(store.expected), account, coin.denom,
                                                                      Get(old(store.expected), (account, coin.denom)) + coin.amount))
    {
      if coin.amount <= 0 {
        return false;
      }
      if coin.denom !in whitelisting {
        return true;
      }
      store := store.(expected := SetBalance(store.expected, account, coin.denom, Get(store.expected, (account, coin.denom)) + coin.amount));
      ok := true;
    }

    method DEXDecreaseExpectedToReceive(account: Account, coin: Coin) returns (ok: bool)
      modifies this`store
      ensures ok <==> 0 < coin.amount && (coin.denom in whitelisting ==> coin.amount <= Get(old(store.expected), (account, coin.denom)))
      ensures ok ==> store == if coin.denom !in whitelisting then old(store)
                              else old(store).(expected := SetBalance(old(store.expected), account, coin.denom,
                                                                      Get(old(store.expected), (account, coin.denom)) - coin.amount))
    {
      if coin.amount <= 0 {
        return false;
      }
      if coin.denom !in whitelisting {
        return true;
      }
      if Get(store.expected, (account, coin.denom)) < coin.amount {
        return false;
      }
      store := store.(expected := SetBalance(store.expected, account, coin.denom, Get(store.expected, (account, coin.denom)) - coin.amount));
      ok := true;
    }

    method IncreaseAllLocked(items: seq<AccountCoin>) returns (ok: bool)
      modifies this`store
      ensures ok <==> Fits(old(store.locked), old(store.funds), items)
      ensures ok ==> store == old(store).(locked := store.locked) && Moved(old(store.locked), store.locked, items, [], None)
    {
      hide Moved, SetBalance, Fits;
      MovedNothing(store.locked, None);
      FitsFacts(store.locked, store.funds, []);
      assert items[..0] == [] && items[..|items|] == items;
      for i := 0 to |items|
        invariant Fits(old(store.locked), old(store.funds), items[..i]) && store == old(store).(locked := store.locked)
        invariant Moved(old(store.locked), store.locked, items[..i], [], None)
      {
        ghost var now := store.locked;
        FitsNext(old(store.locked), now, store.funds, items, i);
        ok := DEXIncreaseLocked(items[i].account, items[i].coin);
        if !ok {
          return;
        }
        FitsFacts(old(store.locked), old(store.funds), items[..i + 1]);
        MovedUp(old(store.locked), now, items, i, None);
      }
      ok := true;
    }

    method DecreaseAllLocked(items: seq<AccountCoin>) returns (ok: bool)
      modifies this`store
      ensures ok <==> Payable(old(store.locked), items, None)
      ensures ok ==> store == old(store).(locked := store.locked) && Moved(old(store.locked), store.locked, [], items, None)
    {
      hide Moved, SetBalance, Payable;
      MovedNothing(store.locked, None);
      assert items[..0] == [] && items[..|items|] == items;
      for i := 0 to |items|
        invariant Positive(items[..i]) && store == old(store).(locked := store.locked)
        invariant Moved(old(store.locked), store.locked, [], items[..i], None)
      {
        ghost var now := store.locked;
        ok := DEXDecreaseLocked(items[i].account, items[i].coin);
        if !ok {
          NotPayable(old(store.locked), now, items, i, None);
          return;
        }
        MovedDown(old(store.locked), now, items, i, None);
      }
      PaidUp(old(store.locked), store.locked, items, None);
      ok := true;
    }

    method IncreaseAllExpectedToReceive(items: seq<AccountCoin>) returns (ok: bool)
      modifies this`store
      ensures ok <==> Positive(items)
      ensures ok ==> store == old(store).(expected := store.expected) &&
                     Moved(old(store.expected), store.expected, items, [], Some(whitelisting))
    {
      hide Moved, SetBalance;
      MovedNothing(store.expected, Some(whitelisting));
      assert items[..0] == [] && items[..|items|] == items;
      for i := 0 to |items|
        invariant Positive(items[..i]) && store == old(store).(expected := store.expected)
        invariant Moved(old(store.expected), store.expected, items[..i], [], Some(whitelisting))
      {
        ghost var now := store.expected;
        ok := DEXIncreaseExpectedToReceive(items[i].account, items[i].coin);
        if !ok {
          return;
        }
        MovedUp(old(store.expected), now, items, i, Some(whitelisting));
      }
      ok := true;
    }

    method DecreaseAllExpectedToReceive(items: seq<AccountCoin>) returns (ok: bool)
      modifies this`store
      ensures ok <==> Payable(old(store.expected), items, Some(whitelisting))
      ensures ok ==> store == old(store).(expected := store.expected) &&
                     Moved(old(store.expected), store.expected, [], items, Some(whitelisting))
    {
      hide Moved, SetBalance, Payable;
      MovedNothing(store.expected, Some(whitelisting));
      assert items[..0] == [] && items[..|items|] == items;
      for i := 0 to |items|
        invariant Positive(items[..i]) && store == old(store).(expected := store.expected)
        invariant Moved(old(store.expected), store.expected, [], items[..i], Some(whitelisting))
      {
        ghost var now := store.expected;
        ok := DEXDecreaseExpectedToReceive(items[i].account, items[i].coin);
        if !ok {
          NotPayable(old(store.expected), now, items, i, Some(whitelisting));
          return;
        }
        MovedDown(old(store.expected), now, items, i, Some(whitelisting));
      }
      PaidUp(old(store.expected), store.expected, items, Some(whitelisting));
      ok := true;
    }

    /** The asset module's rules admit the amounts, and what the creator is to spend is free. */
    method DEXCheckOrderAmounts(creator: Account, expectedToSpend: Coin, admit: bool) returns (ok: bool)
      ensures ok <==> admit && SpendFits(store.locked, store.funds, creator, expectedToSpend)
    {
      ok := ValidateCoinIsNotLockedByDEXAndBank(creator, expectedToSpend);
      ok := ok && admit;
    }

    /**
     Executes the actions of a matching. It succeeds exactly if the asset module admits the
     amounts, what is spent and locked is free, no ledger would fall below zero and every
     transfer can be paid; then ledgers move by the sums and the transfers are made.
     */
    method DEXExecuteActions(actions: DEXActions, creator: Account, admit: bool) returns (ok: bool)
      requires actions.creatorExpectedToSpend.Some?
      modifies this`store, this`transfers
      ensures ok <==> (&& admit && SpendFits(old(store.locked), old(store.funds), creator, actions.creatorExpectedToSpend.value)
                       && Fits(old(store.locked), old(store.funds), actions.increaseLocked)
                       && Bearable(old(store.locked), actions.increaseLocked, actions.decreaseLocked, None)
                       && Bearable(old(store.expected), actions.increaseExpectedToReceive, actions.decreaseExpectedToReceive, Some(whitelisting))
                       && Sendable(old(store.funds), actions.send))
      ensures ok ==>
                && store == old(store).(locked := store.locked, expected := store.expected, funds := AfterSends(old(store.funds), actions.send))
                && Moved(old(store.locked), store.locked, actions.increaseLocked, actions.decreaseLocked, None)
                && Moved(old(store.expected), store.expected, actions.increaseExpectedToReceive, actions.decreaseExpectedToReceive,
                         Some(whitelisting))
                && transfers == old(transfers) + actions.send
    {
      hide Moved, Payable, Bearable, Positive, Fits, SpendFits, Sendable, AfterSends;
      BearableIsPositive(store.locked, actions.increaseLocked, actions.decreaseLocked, None);
      BearableIsPositive(store.expected, actions.increaseExpectedToReceive, actions.decreaseExpectedToReceive, Some(whitelisting));
      FitsFacts(store.locked, store.funds, actions.increaseLocked);
      ok := DEXCheckOrderAmounts(creator, actions.creatorExpectedToSpend.value, admit);
      if !ok {
        return;
      }
      ok := IncreaseAllLocked(actions.increaseLocked);
      if !ok {
        return;
      }
      ghost var locked := store.locked;
      ok := DecreaseAllLocked(actions.decreaseLocked);
      MovedBoth(old(store.locked), locked, store.locked, actions.increaseLocked, actions.decreaseLocked, None);
      if !ok {
        return;
      }
      ok := IncreaseAllExpectedToReceive(actions.increaseExpectedToReceive);
      if !ok {
        return;
      }
      ghost var expected := store.expected;
      ok := DecreaseAllExpectedToReceive(actions.decreaseExpectedToReceive);
      MovedBoth(old(store.expected), expected, store.expected, actions.increaseExpectedToReceive, actions.decreaseExpectedToReceive,
                Some(whitelisting));
      if !ok {
        return;
      }
      ok := SendAllCoins(actions.send);
    }

    /** Makes transfers one after another until one cannot be paid. */
    method SendAllCoins(sends: seq<CoinToSend>) returns (ok: bool)
      modifies this`store, this`transfers
      ensures ok <==> Sendable(old(store.funds), sends)
      ensures ok ==> store == old(store).(funds := AfterSends(old(store.funds), sends)) && transfers == old(transfers) + sends
    {
      hide SetBalance;
      assert sends[..0] == [] && sends[..|sends|] == sends && sends[0..] == sends;
      for i := 0 to |sends|
        invariant store == old(store).(funds := store.funds) && transfers == old(transfers) + sends[..i]
        invariant Sendable(old(store.funds), sends) <==> Sendable(store.funds, sends[i..])
        invariant Sendable(store.funds, sends[i..]) ==> AfterSends(old(store.funds), sends) == AfterSends(store.funds, sends[i..])
      {
        assert sends[..i + 1] == sends[..i] + [sends[i]] && sends[i..][0] == sends[i] && sends[i..][1..] == sends[i + 1..];
        ok := SendCoins(sends[i]);
        if !ok {
          return;
        }
      }
      ok := true;
    }

    /** Moves a coin between two accounts, exactly if the sender's funds cover it. */
    method SendCoins(send: CoinToSend) returns (ok: bool)
      modifies this`store, this`transfers
      ensures ok <==> 0 <= send.coin.amount <= Get(old(store.funds), (send.from, send.coin.denom))
      ensures ok ==> store == old(store).(funds := AfterSend(old(store.funds), send)) && transfers == old(transfers) + [send]
    {
      var from, to, d, amount := send.from, send.to, send.coin.denom, send.coin.amount;
      if amount < 0 || Get(store.funds, (from, d)) < amount {
        return false;
      }
      store := store.(funds := SetBalance(store.funds, from, d, Get(store.funds, (from, d)) - amount));
      store := store.(funds := SetBalance(store.funds, to, d, Get(store.funds, (to, d)) + amount));
      transfers := transfers + [send];
      ok := true;
    }

    // ----- settling a matching -----

    method RemoveRecords(records: seq<Record>, ghost open: map<nat, OpenOrder>, ghost n: nat) returns (ok: bool)
      requires Indexed(store, open, n) && AllWellFormed(open) && BooksKnown(store.bookData, open)
      requires RemovalsOf(open, records) && forall q | q in open :: q < n
      modifies this`store
      ensures ok
      ensures Indexed(store, open - Sequences(records), n) && OnlyIndexes(old(store), store)
    {
      hide Indexed, WellFormed, SameBookEntry;
      assert records[..0] == [] && records[..|records|] == records;
      assert open - Sequences([]) == open;
      for i := 0 to |records|
        invariant Indexed(store, open - Sequences(records[..i]), n) && OnlyIndexes(old(store), store)
      {
        RemovedNext(open, records, i);
        ok := RemoveOrderByRecord(records[i], open - Sequences(records[..i]), n);
        if !ok {
          return;
        }
      }
      ok := true;
    }

    /**
     Settles a matching: closed makers leave every index, the maker that stays is saved, and
     the ledgers follow. Without a trade, and without anything to lock, nothing happens.
     */
    method ApplyMatchingResult(mr: MatchingResult, admit: bool, ghost b: Batch) returns (ok: bool)
      requires GoodBatch(b) && Indexed(store, Before(b), b.n) && BooksKnown(store.bookData, Before(b))
      requires Balanced(store, whitelisting, b.open, b.n)
      requires Carries(mr.ftActions, b)
      requires mr.ftActions.creatorExpectedToSpend.Some? ==> SendsCovered(mr.ftActions, mr.takerAddress, store.funds)
      requires mr.recordsToRemove == ClosedRecords(b.fills) && mr.recordToUpdate == UpdatedRecord(b.fills)
      modifies this`store, this`transfers
      ensures mr.ftActions.creatorExpectedToSpend.None? ==> ok && store == old(store) && transfers == old(transfers)
      ensures mr.ftActions.creatorExpectedToSpend.Some? ==>
                (ok <==> (&& admit && SpendFits(old(store.locked), old(store.funds), mr.takerAddress, mr.ftActions.creatorExpectedToSpend.value)
                          && Fits(old(store.locked), old(store.funds), mr.ftActions.increaseLocked)))
      ensures mr.ftActions.creatorExpectedToSpend.Some? && ok ==>
                && Indexed(store, After(b), b.n) && Balanced(store, whitelisting, After(b), b.n) && SameBooks(old(store), store)
                && Sendable(old(store.funds), mr.ftActions.send) && store.funds == AfterSends(old(store.funds), mr.ftActions.send)
                && transfers == old(transfers) + mr.ftActions.send
    {
      hide SendsCovered, SpendFits, Fits, Sendable, AfterSends, GoodBatch, Indexed, Balanced, Carries, Before, After, ClosedRecords, UpdatedRecord, WellFormed, RemovalsOf, Moved, Bearable, SameBookEntry;
      BatchGoodFills(b);
      if mr.ftActions.creatorExpectedToSpend.None? {
        return true;
      }
      BatchRemovals(b);
      ok := RemoveRecords(mr.recordsToRemove, Before(b), b.n);
      if !ok {
        return;
      }
      if mr.recordToUpdate.Some? {
        ghost var rest := Before(b) - Sequences(mr.recordsToRemove);
        UpdatedIndexed(store, rest, b.n, mr.recordToUpdate.value);
        SaveOrderBookRecord(mr.recordToUpdate.value);
      }
      BalancedApart(old(store), store, b.open, b.n, whitelisting);
      BatchBearable(b, store, mr.ftActions, whitelisting);
      ghost var mid := store;
      if SpendFits(store.locked, store.funds, mr.takerAddress, mr.ftActions.creatorExpectedToSpend.value) {
        CoveredIfFree(mr.ftActions, mr.takerAddress, store.locked, store.funds);
      }
      ok := DEXExecuteActions(mr.ftActions, mr.takerAddress, admit);
      if ok {
        BatchBalanced(b, mid, store, mr.ftActions, whitelisting);
        LedgersApart(mid, store, After(b), b.n);
      }
    }

    // ----- placing an order -----

    /** Reads both books in key order and matches the order with what they hold. */
    method FindMatches(env: Env, orderBookID: nat, invertedOrderBookID: nat, order: Order, ghost x: State)
      returns (mr: Option<MatchingResult>)
      requires Inv(x) && HasRoom(x, order) && Accepted(x, env, order)
      requires OrdersMatch(store.orders, x.open) && RecordsMatch(store.records, x.open) && store.orderSequence == x.sequence
      requires PairBooks(Registered(x, order), order, orderBookID, invertedOrderBookID)
      modifies this`store
      ensures store == old(store).(orderSequence := x.sequence + 1)
      ensures mr.Some? && fresh(mr.value)
      ensures AllWellFormed(x.open) && ValidOrder(order)
      ensures var out := Matched(x, env, order);
              && GoodFills(out.fills) && ResultReflects(mr.value, out.fills, order, store.orders)
              && mr.value.takerIsFilled == out.filled && mr.value.takerRecord == out.taker
    {
      hide Inv, Accepted, ValidOrder, WellFormed, OrdersMatch, RecordsMatch, Makers, MatchAll, Ready, Reflects, InitialBalance,
           MatchingFinder.Valid, MatchingFinder.Plan, DataKnown, PositiveReserves, GoodFill, HasRoom, Registered, Matched, TakerOf,
           ConvertOrderToRecord, ResultReflects;
      InvWellFormed(x);
      AcceptedIsValid(x, env, order);
      ValidOrderFacts(order);
      RegisteredInv(x, env, order);
      RegisteredKeeps(x, order);
      var mf := NewMatchingFinder(orderBookID, invertedOrderBookID, order, Registered(x, order));
      var balance := InitialBalance(order, env.spendable);
      MatchedFold(x, env, order, orderBookID);
      if balance.None? {
        return None;
      }
      var sequence := GenNextOrderSequence();
      var engine := new MatchingEngine(mf, store.orders);
      var taker := ConvertOrderToRecord(order.creator, orderBookID, order, sequence, balance.value);
      ReservesPositive(store.orders, x.open);
      mr := engine.MatchOrder(taker, order);
      MatchedDataKnown(x, env, order, store.orders);
    }

    /** A finder whose plan is the makers in price-time priority. */
    method NewMatchingFinder(orderBookID: nat, invertedOrderBookID: nat, order: Order, ghost y: State) returns (mf: MatchingFinder)
      requires Inv(y) && RecordsMatch(store.records, y.open) && PairBooks(y, order, orderBookID, invertedOrderBookID)
      requires order.orderType.Limit? ==> order.price.Some?
      ensures fresh(mf) && fresh(mf.directOBIterator) && fresh(mf.invertedOBIterator)
      ensures mf.Valid() && mf.order == order
      ensures AllWellFormed(y.open) && mf.Plan() == Makers(y.open, order)
    {
      hide Inv, WellFormed, RecordsMatch, SideRecords, SideListing, OneSide, Merge, Queue, Makers, Offers, OrderBookIterator.Valid,
           OrderBookIterator.Remaining, MatchingFinder.Valid, MatchingFinder.Plan;
      InvWellFormed(y);
      StreamsAreMakers(store.records, y, order);
      StreamsOffered(store.records, orderBookID, order.side.Opposite());
      StreamsOffered(store.records, invertedOrderBookID, order.side);
      var direct := NewOrderBookSideIterator(orderBookID, order.side.Opposite());
      var inverted := NewOrderBookSideIterator(invertedOrderBookID, order.side);
      mf := new MatchingFinder(order, direct, inverted);
    }

    /** An iterator over the stored records of one side of a book. */
    method NewOrderBookSideIterator(orderBookID: nat, side: Side) returns (it: OrderBookIterator)
      requires OneSide(SideRecords(store.records, orderBookID, side), side)
      ensures fresh(it) && it.Valid()
      ensures it.Remaining() == Queue(side, SideListing(SideRecords(store.records, orderBookID, side), side))
    {
      hide SideRecords, OrderBookIterator.Valid, OrderBookIterator.Remaining, OldestFirst;
      StreamsOffered(store.records, orderBookID, side);
      it := new OrderBookIterator(SideListing(SideRecords(store.records, orderBookID, side), side), side.Buy?);
    }

    /** Settles a matching of which nothing is to rest. */
    method SettleOnly(env: Env, order: Order, mr: MatchingResult, ghost x: State) returns (ok: bool)
      requires Placing(x, env, order) && Solvent(x) && Represents(store, Registered(x, order), whitelisting)
      requires MatchedBy(mr, x, env, order, store.orders) && !Rests(order, Matched(x, env, order))
      modifies this`store, this`transfers
      ensures var out := Matched(x, env, order);
              if Spent(out.fills) == 0 then ok && store == old(store) && transfers == old(transfers)
              else && ok == Admitted(x, env, order, out)
                   && (ok ==> Transferred(old(transfers), transfers, out.fills, order))
                   && (ok ==> Represents(store, PayFills(Registered(x, order), out.fills, order).(open := ApplyFills(x.open, out.fills)), whitelisting))
    {
      hide Placing, MatchedBy, Indexed, Balanced, GoodBatch, Carries, Matched, ApplyFills, Registered, BookDataMatch, Spent, Transferred, Solvent, Rests,
           Affordable, PayFills, SendsCovered, SpendFits, Fits, Sendable, AfterSends, FundsMatch;
      PlacingFacts(x, env, order);
      RegisteredKeeps(x, order);
      ghost var y, fills := Registered(x, order), Matched(x, env, order).fills;
      ghost var b := Batch(x.open, fills, order, store.orders, None, y.sequence, y.sequence + 1);
      PlacementBatch(x, env, order, store, None, whitelisting);
      SettlingCarries(mr, x, env, order, store, whitelisting);
      SettlingTransfers(mr, x, env, order, store.orders, transfers);
      if Spent(fills) != 0 {
        SpendAffordable(mr, x, env, order, store, whitelisting);
        SettlingCovered(mr, x, env, order, store, whitelisting);
      }
      ok := ApplyMatchingResult(mr, env.assetsAdmit, b);
      if ok && Spent(fills) != 0 {
        SettlingFunds(mr, x, env, order, old(store), whitelisting);
      }
    }

    /** Lets what is left of the order rest, and settles the matching. */
    method SettleAndRest(env: Env, order: Order, mr: MatchingResult, ghost x: State) returns (ok: bool)
      requires Placing(x, env, order) && Solvent(x) && Represents(store, Registered(x, order), whitelisting)
      requires MatchedBy(mr, x, env, order, store.orders) && Rests(order, Matched(x, env, order))
      modifies this`store, this`transfers, mr`ftActions, mr`takerRecord
      ensures LockedAmount(order.side, Matched(x, env, order).taker.remaining, Matched(x, env, order).taker.price).Some?
      ensures ok <==> CreateAllowed(x, order) && Admitted(x, env, order, Matched(x, env, order))
      ensures ok ==> Transferred(old(transfers), transfers, Matched(x, env, order).fills, order)
      ensures ok ==>
                var y, out := Registered(x, order), Matched(x, env, order);
                Represents(store, PayFills(y, out.fills, order).(open := ApplyFills(x.open, out.fills)[y.sequence := RestingOrder(x.params, order, out.taker)]), whitelisting)
    {
      hide Placing, MatchedBy, Indexed, Balanced, GoodBatch, Carries, Matched, ApplyFills, Registered, BookDataMatch, Rests, RestingOrder,
           WellFormed, TimeItemsMatch, HeightItemsMatch, CreateAllowed, WithTakerLimits, ExpectedOf, WithOrder, After, Before, MulCeil, Owns, Transferred, Solvent,
           Affordable, PayFills, SendsCovered, SpendFits, Fits, Sendable, AfterSends, FundsMatch, Reflects;
      PlacingFacts(x, env, order);
      RegisteredKeeps(x, order);
      RestingFacts(x, env, order);
      ghost var y, out := Registered(x, order), Matched(x, env, order);
      ghost var o := RestingOrder(x.params, order, out.taker);
      ghost var b := Batch(x.open, out.fills, order, store.orders, Some(o), y.sequence, y.sequence + 1);
      PlacementBatch(x, env, order, store, Some(o), whitelisting);
      RestingCarries(mr, x, env, order, store, whitelisting);
      RestIndexed(x, env, order, store, whitelisting);
      SettlingTransfers(mr, x, env, order, store.orders, transfers);
      RestingSettles(mr, x, env, order, store, whitelisting);
      ok := EnterTaker(env, order, mr, x);
      if !ok {
        return;
      }
      ok := ApplyMatchingResult(mr, env.assetsAdmit, b);
      if ok {
        FundsSettled(x, env, order, old(store), mr.ftActions.send, whitelisting);
      }
    }

    /** Locks what is left of the order and enters it into every index. */
    method EnterTaker(env: Env, order: Order, mr: MatchingResult, ghost x: State) returns (ok: bool)
      requires Placing(x, env, order) && Represents(store, Registered(x, order), whitelisting)
      requires Rests(order, Matched(x, env, order)) && mr.takerAddress == order.creator && mr.takerRecord == Matched(x, env, order).taker
      modifies this`store, mr`ftActions, mr`takerRecord
      ensures LockedAmount(order.side, Matched(x, env, order).taker.remaining, Matched(x, env, order).taker.price).Some?
      ensures ok <==> CreateAllowed(x, order)
      ensures var o := RestingOrder(x.params, order, Matched(x, env, order).taker);
              && 0 <= o.record.remaining && 0 < o.record.price.num
              && (ok ==> && store == WithOrder(old(store), o, x.sequence + 1)
                         && mr.ftActions == WithTakerLimits(old(mr.ftActions), order.creator, Coin(order.SpendDenom(), o.record.spendable),
                                                            Coin(order.ReceiveDenom(), ExpectedOf(o.record)), x.params.orderReserve))
    {
      hide Placing, Represents, Matched, Registered, Rests, RestingOrder, Resting, WellFormed, TimeItemsMatch, HeightItemsMatch, CreateAllowed,
           WithTakerLimits, ExpectedOf, WithOrder, MulCeil, Owns, Indexed, Balanced;
      PlacingFacts(x, env, order);
      RestingFacts(x, env, order);
      CountersAllow(x, env, order, store, whitelisting);
      RestIndexed(x, env, order, store, whitelisting);
      ghost var o := RestingOrder(x.params, order, Matched(x, env, order).taker);
      ok := mr.IncreaseTakerLimitsForRecord(store.params.orderReserve, order);
      if !ok {
        return;
      }
      ok := CreateOrder(store.params, order, mr.takerRecord, x.open, o);
    }

    /** Matches an order and concludes it as its type and time in force demand. */
    method MatchOrder(env: Env, orderBookID: nat, invertedOrderBookID: nat, order: Order, ghost x: State) returns (ok: bool)
      requires Placing(x, env, order) && Solvent(x) && PairBooks(Registered(x, order), order, orderBookID, invertedOrderBookID)
      requires Represents(store, Registered(x, order).(sequence := x.sequence), whitelisting)
      modifies this`store, this`transfers
      ensures ok <==> Place(x, env, order).Some?
      ensures ok ==> Represents(store, Place(x, env, order).value, whitelisting)
      ensures ok ==> Transferred(old(transfers), transfers, SettledFills(x, env, order), order)
    {
      hide Solvent, Admitted, PayFills, SettledFills, Place, Inv, Accepted, HasRoom, ValidOrder, Matched, ApplyFills, Registered, Represents, RestingOrder, Resting, WellFormed, CreateAllowed,
           Spent, ResultReflects, PairBooks, OrdersMatch, RecordsMatch, IsExecutableAsMaker, MulCeil, GoodFill, Transferred;
      NothingTransferred(transfers, order);
      PlacingFacts(x, env, order);
      ValidOrderFacts(order);
      PlaceCases(x, env, order);
      EnrolledFacts(x, order, store, whitelisting);
      var found := FindMatches(env, orderBookID, invertedOrderBookID, order, x);
      NextSequence(x, env, order, old(store), whitelisting);
      if found.None? {
        return false;
      }
      var mr := found.value;
      match order.orderType {
        case Limit =>
          match order.timeInForce {
            case GTC =>
              if mr.takerIsFilled || !IsExecutableAsMaker(mr.takerRecord) {
                ok := SettleOnly(env, order, mr, x);
              } else {
                ok := SettleAndRest(env, order, mr, x);
              }
            case IOC =>
              ok := SettleOnly(env, order, mr, x);
            case FOK =>
              if mr.takerRecord.remaining > 0 {
                return true;
              }
              ok := SettleOnly(env, order, mr, x);
            case UnspecifiedTime =>
              return false;
          }
        case Market =>
          match order.timeInForce {
            case IOC =>
              ok := SettleOnly(env, order, mr, x);
            case _ =>
              return false;
          }
        case UnspecifiedType =>
          return false;
      }
    }

    /**
     Places an order. It succeeds exactly when the state machine admits the placement, and then
     the store represents the state after it and every maker and taker has been paid what the
     fills say; on failure the caller drops all changes.
     */
    method PlaceOrder(env: Env, order: Order) returns (ok: bool)
      requires Valid() && Room(state, PlaceOp(env, order))
      modifies this`store, this`transfers, this`state
      ensures ok <==> Place(old(state), env, order).Some?
      ensures ok ==> Valid() && state == Place(old(state), env, order).value
      ensures ok ==> Transferred(old(transfers), transfers, SettledFills(old(state), env, order), order)
    {
      hide Place, Inv, Solvent, ValidOrder, Validated, Registered, Joinable, Indexed, Balanced, BookDataMatch, FundsMatch, Transferred, SettledFills, HasRoom;
      ghost var x := state;
      NotAccepted(x, env, order);
      if !Validated(store.params, height, time, env, order) {
        return false;
      }
      ok := ReserveOrderID(order.creator, order.id);
      if !ok {
        return;
      }
      UnusedID(old(store), x, order, whitelisting);
      if (order.creator, order.id) in store.idToSequence {
        return false;
      }
      EnrollFacts(x, env, order);
      var ids := GetOrGenOrderBookIDs(order.baseDenom, order.quoteDenom);
      if ids.None? {
        return false;
      }
      Enrolled(x, order, old(store), store, whitelisting);
      ok := MatchOrder(env, ids.value.0, ids.value.1, order, x);
      if ok {
        PlacedSound(x, env, order);
        state := Place(x, env, order).value;
      }
    }

    // ----- cancelling -----

    /** Takes locked coins and an expected amount off the ledgers of an account. */
    method DEXDecreaseLimits(account: Account, lockedCoins: seq<Coin>, expected: Coin) returns (ok: bool)
      modifies this`store
      ensures ok <==> (&& Payable(old(store.locked), Charged(account, lockedCoins), None)
                       && Payable(old(store.expected), [AccountCoin(account, expected)], Some(whitelisting)))
      ensures ok ==>
                && store == old(store).(locked := store.locked, expected := store.expected)
                && Moved(old(store.locked), store.locked, [], Charged(account, lockedCoins), None)
                && Moved(old(store.expected), store.expected, [], [AccountCoin(account, expected)], Some(whitelisting))
    {
      hide Moved, Payable, Charged;
      ok := UnlockCoins(account, lockedCoins);
      if !ok {
        return;
      }
      ok := DecreaseExpected(account, expected);
    }

    method UnlockCoins(account: Account, coins: seq<Coin>) returns (ok: bool)
      modifies this`store
      ensures ok <==> Payable(old(store.locked), Charged(account, coins), None)
      ensures ok ==>
                && store == old(store).(locked := store.locked)
                && Moved(old(store.locked), store.locked, [], Charged(account, coins), None)
    {
      hide Moved, SetBalance, Payable, Charged;
      ghost var items := Charged(account, coins);
      ChargedItems(account, coins);
      MovedNothing(store.locked, None);
      assert items[..0] == [] && items[..|items|] == items;
      for i := 0 to |coins|
        invariant Positive(items[..i]) && store == old(store).(locked := store.locked)
        invariant Moved(old(store.locked), store.locked, [], items[..i], None)
      {
        ghost var now := store.locked;
        ok := DEXDecreaseLocked(account, coins[i]);
        if !ok {
          NotPayable(old(store.locked), now, items, i, None);
          return;
        }
        MovedDown(old(store.locked), now, items, i, None);
      }
      PaidUp(old(store.locked), store.locked, items, None);
      ok := true;
    }

    method DecreaseExpected(account: Account, coin: Coin) returns (ok: bool)
      modifies this`store
      ensures ok <==> Payable(old(store.expected), [AccountCoin(account, coin)], Some(whitelisting))
      ensures ok ==>
                && store == old(store).(expected := store.expected)
                && Moved(old(store.expected), store.expected, [], [AccountCoin(account, coin)], Some(whitelisting))
    {
      hide Moved, SetBalance, Payable;
      ghost var item := [AccountCoin(account, coin)];
      MovedNothing(store.expected, Some(whitelisting));
      assert item[..0] == [] && item[..1] == item;
      ok := DEXDecreaseExpectedToReceive(account, coin);
      if ok {
        MovedDown(old(store.expected), old(store.expected), item, 0, Some(whitelisting));
        PaidUp(old(store.expected), store.expected, item, Some(whitelisting));
      } else {
        NotPayable(old(store.expected), old(store.expected), item, 0, Some(whitelisting));
      }
    }

    /** Cancels the account's open order of the given ID; there is no other reason to fail than its absence. */
    method CancelOrder(account: Account, id: OrderID) returns (ok: bool)
      requires Sound()
      modifies this`store, this`state
      ensures Sound()
      ensures ok <==> Cancel(old(state), account, id).Some?
      ensures state == OrElse(Cancel(old(state), account, id), old(state))
    {
      hide Inv, Indexed, Balanced, BookDataMatch, Cancel, WellFormed, SameBookEntry, LockedCoins, MulCeil, Charged, Payable, ExpectedOf;
      ghost var x := state;
      ghost var n := x.sequence + 1;
      CancelLookup(store, x, account, id, whitelisting);
      if (account, id) !in store.idToSequence {
        return false;
      }
      var sequence := store.idToSequence[(account, id)];
      if sequence !in store.orders {
        return false;
      }
      var data := store.orders[sequence];
      var key := EntryKey(data.book, data.side, data.price, sequence);
      if key !in store.records {
        return false;
      }
      var record := ToRecord(key, store.records[key]);
      if data.book !in store.bookData {
        return false;
      }
      var pair := store.bookData[data.book];
      var spendDenom, receiveDenom := pair.0, pair.1;
      if data.side.Buy? {
        spendDenom, receiveDenom := pair.1, pair.0;
      }
      ok := RemoveOrderByRecord(record, x.open, n);
      if !ok {
        return;
      }
      var lockedCoins := LockedCoins(Coin(spendDenom, record.spendable), data.reserve);
      var expected := ExpectedAmount(data.side, record.remaining, data.price);
      if expected.None? {
        return false;
      }
      BalancedApart(old(store), store, x.open, n, whitelisting);
      ReleaseBalanced(store, whitelisting, x.open, n, sequence);
      ghost var mid := store;
      ok := DEXDecreaseLimits(account, lockedCoins, Coin(receiveDenom, expected.value));
      LedgersApart(mid, store, x.open - {sequence}, n);
      CancelKeepsInv(x, account, id);
      FewerOrdersSolvent(x, {sequence});
      state := Cancel(x, account, id).value;
    }

    /** Cancels the account's order that has the ID of the order on record under a sequence. */
    method CancelOrderBySequence(account: Account, sequence: nat) returns (ok: bool)
      requires Sound()
      modifies this`store, this`state
      ensures Sound()
      ensures sequence !in old(state).open ==> !ok && state == old(state)
      ensures sequence in old(state).open ==>
                var y := Cancel(old(state), account, old(state).open[sequence].record.id);
                (ok <==> y.Some?) && state == OrElse(y, old(state))
    {
      hide Inv, Cancel, RecordsMatch, IdsMatch, DenomsMatch, CountsMatch, TotalsMatch, TimeItemsMatch, HeightItemsMatch, Balanced, BookDataMatch;
      if sequence !in store.orders {
        return false;
      }
      ok := CancelOrder(account, store.orders[sequence].id);
    }

    /** Cancels all and only the account's orders that touch the denom. */
    method CancelOrdersByDenom(allowed: bool, account: Account, denom: Denom) returns (ok: bool)
      requires Sound()
      modifies this`store, this`state
      ensures Sound()
      ensures ok <==> CancelByDenom(old(state), allowed, account, denom).Some?
      ensures state == OrElse(CancelByDenom(old(state), allowed, account, denom), old(state))
    {
      hide Sound, Inv, Represents, Joinable, Listing, Cancel, Elements, SequencesOf, Touching;
      if !allowed {
        return false;
      }
      if !Joinable(denom) {
        return false;
      }
      ghost var x := state;
      NatLessTotal(SequencesOf(store.denomSequences, account, denom));
      var scan := Listing(SequencesOf(store.denomSequences, account, denom), NatLess);
      SoundParts();
      ScanFacts(store, x, account, denom, whitelisting);
      assert scan[..0] == [] && scan[..|scan|] == scan;
      NothingRemoved(map[], x);
      for i := 0 to |scan|
        invariant Sound() && state == x.(open := x.open - Elements(scan[..i]))
      {
        SoundParts();
        ScanNext(x, state, account, denom, scan, i);
        ok := CancelOrderBySequence(account, scan[i]);
        if !ok {
          return;
        }
      }
      ok := true;
    }

    lemma SoundParts()
      requires Sound()
      ensures Inv(state) && Solvent(state) && Represents(store, state, whitelisting)
    {
    }

    // ----- the start of a block -----

    /** Executes the items that are due by time, oldest first. */
    method ExecuteDelayedItems() returns (ok: bool)
      requires Sound()
      modifies this`store, this`state
      ensures ok && Sound()
      ensures state == old(state).(open := old(state).open - DueByTime(old(state).open, time))
    {
      hide Sound, Inv, Represents, Agenda, DueByTime, Executed, Elements, TimeItemsMatch, Targets, ItemKeys, Cancel, Ascending;
      ghost var x := state;
      var items := store.timeItems;
      SoundParts();
      TimeItemKeys(store, x, whitelisting);
      var agenda := Agenda(items.Keys);
      AgendaOrdered(items.Keys);
      assert agenda[..0] == [] && agenda[..|agenda|] == agenda;
      NothingRemoved(items, x);
      for i := 0 to |agenda|
        invariant Sound() && state == x.(open := x.open - Executed(items, agenda[..i]))
        invariant forall j | 0 <= j < i :: agenda[j].when * NANOS <= time
      {
        var key := agenda[i];
        AgendaKey(agenda, i);
        if key.when * NANOS > time {
          TimesExecuted(items, x.open, agenda, i, time);
          return true;
        }
        SoundParts();
        NextItem(items, x, state, agenda, i);
        ok := CancelOrderBySequence(items[key].creator, items[key].sequence);
        if !ok {
          return;
        }
        SoundParts();
        TimeItemGone(items, x.open, store, state, key, whitelisting);
        store := store.(timeItems := store.timeItems - {key});
      }
      TimesExecuted(items, x.open, agenda, |agenda|, time);
      ok := true;
    }

    /** Executes the items that are due by height, lowest first. */
    method ExecuteBlockItems() returns (ok: bool)
      requires Sound()
      modifies this`store, this`state
      ensures ok && Sound()
      ensures state == old(state).(open := old(state).open - DueByHeight(old(state).open, height))
    {
      hide Sound, Inv, Represents, Agenda, DueByHeight, Executed, Elements, HeightItemsMatch, Targets, ItemKeys, Cancel, Ascending;
      ghost var x := state;
      var items := store.blockItems;
      SoundParts();
      BlockItemKeys(store, x, whitelisting);
      var agenda := Agenda(items.Keys);
      AgendaOrdered(items.Keys);
      assert agenda[..0] == [] && agenda[..|agenda|] == agenda;
      NothingRemoved(items, x);
      for i := 0 to |agenda|
        invariant Sound() && state == x.(open := x.open - Executed(items, agenda[..i]))
        invariant forall j | 0 <= j < i :: agenda[j].when < height
      {
        var key := agenda[i];
        AgendaKey(agenda, i);
        if key.when >= height {
          HeightsExecuted(items, x.open, agenda, i, height);
          return true;
        }
        SoundParts();
        NextItem(items, x, state, agenda, i);
        ok := CancelOrderBySequence(items[key].creator, items[key].sequence);
        if !ok {
          return;
        }
        SoundParts();
        BlockItemGone(items, x.open, store, state, key, whitelisting);
        store := store.(blockItems := store.blockItems - {key});
      }
      HeightsExecuted(items, x.open, agenda, |agenda|, height);
      ok := true;
    }

    /** Starts a block: exactly the orders that are due expire, and nothing can fail. */
    method BeginBlocker(newHeight: nat, newTime: nat) returns (ok: bool)
      requires Sound()
      modifies this`store, this`state, this`height, this`time
      ensures ok && Valid()
      ensures state == BeginBlock(old(state), newHeight, newTime)
    {
      hide Inv, Solvent, Represents, DueByTime, DueByHeight, Expiring;
      ghost var x := state;
      height, time := newHeight, newTime;
      ok := ExecuteDelayedItems();
      if !ok {
        return;
      }
      ok := ExecuteBlockItems();
      ExpiringSplit(x, height, time);
      BeginBlockKeepsInv(x, height, time);
      StepKeepsSolvent(x, BeginBlockOp(height, time));
      ClockApart(store, state, BeginBlock(x, height, time), whitelisting);
      state := BeginBlock(x, height, time);
    }

    // ----- parameters and money from outside -----

    method SetParams(authorised: bool, params: Params) returns (ok: bool)
      requires Sound()
      modifies this`store, this`state
      ensures Sound()
      ensures ok <==> UpdateParams(old(state), authorised, params).Some?
      ensures state == OrElse(UpdateParams(old(state), authorised, params), old(state))
    {
      hide Inv, Solvent, Indexed, Balanced, BookDataMatch, FundsMatch, ValidParams;
      if !authorised || !ValidParams(params) {
        return false;
      }
      ghost var x := state;
      store := store.(params := params);
      state := state.(params := params);
      UpdateParamsKeepsInv(x, params);
      SameFunds(x, state);
      ParamsApart(old(store), store, x, whitelisting);
      ok := true;
    }

    /** Money reaches an account from outside the exchange. */
    method Deposit(account: Account, denom: Denom, amount: nat)
      requires Sound()
      modifies this`store, this`state
      ensures Sound() && state == Credit(old(state), account, denom, amount)
    {
      hide Inv, Solvent, Indexed, Balanced, BookDataMatch, SetBalance, FundsMatch;
      ghost var x := state;
      store := store.(funds := SetBalance(store.funds, account, denom, Get(store.funds, (account, denom)) + amount));
      state := Credit(state, account, denom, amount);
      StepKeepsSolvent(x, DepositOp(account, denom, amount));
      FundsApart(x, state.funds);
      CreditOnRecord(old(store), store, x, account, denom, amount, whitelisting);
    }

    /** Money leaves an account for outside the exchange, exactly if nothing locks it. */
    method WithdrawCoin(account: Account, denom: Denom, amount: nat) returns (ok: bool)
      requires Sound()
      modifies this`store, this`state
      ensures Sound()
      ensures ok <==> Withdraw(old(state), account, denom, amount).Some?
      ensures state == OrElse(Withdraw(old(state), account, denom, amount), old(state))
    {
      hide Inv, Solvent, Indexed, Balanced, BookDataMatch, SetBalance, FundsMatch, Free;
      ghost var x := state;
      FreeInStore(store, x, account, denom, whitelisting);
      ok := ValidateCoinIsNotLockedByDEXAndBank(account, Coin(denom, amount));
      if !ok {
        return;
      }
      store := store.(funds := SetBalance(store.funds, account, denom, Get(store.funds, (account, denom)) - amount));
      state := Credit(state, account, denom, 0 - amount);
      StepKeepsSolvent(x, WithdrawOp(account, denom, amount));
      FundsApart(x, state.funds);
      CreditOnRecord(old(store), store, x, account, denom, 0 - amount, whitelisting);
    }

    // ----- transactions -----

    /**
     Delivers one message, starts one block or moves money from outside. A message that fails
     leaves no trace; the transfers grow by exactly what a placement settles.
     */
    method Deliver(op: Op) returns (ok: bool)
      requires Valid() && Room(state, op)
      modifies this
      ensures Valid() && state == Step(old(state), op)
      ensures ok <==> Succeeds(old(state), op)
      ensures !ok ==> store == old(store) && transfers == old(transfers) && state == old(state)
      ensures forall a, b, d :: SentBetween(transfers, a, b, d) == SentBetween(old(transfers), a, b, d) + StepPaid(old(state), op, a, b, d)
    {
      hide Inv, Solvent, Represents, Place, Cancel, BeginBlock, SettledFills, Room, SentBetween, UpdateParams, Withdraw;
      var snapshot, log := store, transfers;
      StepKeepsClock(state, op);
      match op {
        case PlaceOp(env, order) =>
          ok := PlaceOrder(env, order);
          FailedPaysNothing(old(state), env, order);
        case CancelOp(account, id) =>
          ok := CancelOrder(account, id);
        case CancelByDenomOp(allowed, account, denom) =>
          ok := CancelOrdersByDenom(allowed, account, denom);
        case BeginBlockOp(newHeight, newTime) =>
          ok := BeginBlocker(newHeight, newTime);
        case UpdateParamsOp(authorised, params) =>
          ok := SetParams(authorised, params);
        case DepositOp(account, denom, amount) =>
          Deposit(account, denom, amount);
          ok := true;
        case WithdrawOp(account, denom, amount) =>
          ok := WithdrawCoin(account, denom, amount);
      }
      if !ok {
        store, transfers := snapshot, log;
        state := old(state);
      }
    }

    /**
     Any sequence of messages and blocks drives the store as it drives the state machine, and
     makes exactly the transfers its fills demand.
     */
    method Execute(ops: seq<Op>)
      requires Valid() && Feasible(state, ops)
      modifies this
      ensures Valid() && state == Run(old(state), ops)
      ensures forall a, b, d :: SentBetween(transfers, a, b, d) == SentBetween(old(transfers), a, b, d) + RunPaid(old(state), ops, a, b, d)
    {
      hide Inv, Solvent, Represents, Step, Run, Feasible, StepPaid, RunPaid, SentBetween, Room;
      assert ops[0..] == ops;
      SoundParts();
      for i := 0 to |ops|
        invariant Valid() && Inv(state) && Feasible(state, ops[i..])
        invariant Run(state, ops[i..]) == Run(old(state), ops)
        invariant forall a, b, d :: SentBetween(transfers, a, b, d) + RunPaid(state, ops[i..], a, b, d)
                                 == SentBetween(old(transfers), a, b, d) + RunPaid(old(state), ops, a, b, d)
      {
        RunStep(state, ops[i..]);
        assert ops[i..][1..] == ops[i + 1..];
        var _ := Deliver(ops[i]);
        SoundParts();
      }
      RunStep(state, []);
    }
  }
}
