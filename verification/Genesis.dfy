/**
 Exporting the exchange to a genesis state and starting from it again
 (x/dex/genesis.go, x/delay/genesis.go).
 */
module Genesis {
  import opened Bytes
  import opened StoreKeys
  import opened Price
  import opened Types
  import opened Amounts
  import opened Orders
  import opened Exchange
  import opened Delay
  import opened Store
  import opened KeeperFacts
  import opened DexKeeper

  datatype GenesisOrder = GenesisOrder(order: Order, sequence: nat, remaining: int, spendable: int, reserve: Option<Coin>)

  datatype OrderBook = OrderBook(id: nat, base: Denom, quote: Denom)

  datatype OrdersCount = OrdersCount(account: Account, denom: Denom, count: nat)

  datatype GenesisState = GenesisState(
    params: Params,
    orders: seq<GenesisOrder>,
    orderBooks: seq<OrderBook>,
    orderSequence: nat,
    counts: seq<OrdersCount>,
    reserved: seq<(Account, OrderID)>
  )

  /** How an open order is exported. */
  ghost function GenesisOf(o: OpenOrder): GenesisOrder
    requires Canonical(o.record.price)
  {
    GenesisOrder(Order(o.record.account, Limit, o.record.id, o.baseDenom, o.quoteDenom, Some(o.record.price), o.quantity, o.record.side,
                       o.goodTil, GTC),
                 o.record.sequence, o.record.remaining, o.record.spendable, o.reserve)
  }

  // ----- what an export holds -----

  ghost predicate HasSequence(orders: seq<GenesisOrder>, q: nat) {
    exists i :: 0 <= i < |orders| && orders[i].sequence == q
  }

  ghost predicate HasBook(books: seq<OrderBook>, id: nat) {
    exists i :: 0 <= i < |books| && books[i].id == id
  }

  ghost predicate HasCount(counts: seq<OrdersCount>, a: Account, d: Denom) {
    exists i :: 0 <= i < |counts| && counts[i].account == a && counts[i].denom == d
  }

  lemma MoreOrders(orders: seq<GenesisOrder>, o: GenesisOrder, q: nat)
    ensures HasSequence(orders + [o], q) <==> HasSequence(orders, q) || o.sequence == q
  {
    var all := orders + [o];
    assert all[|orders|] == o;
    if i :| 0 <= i < |orders| && orders[i].sequence == q { assert all[i] == orders[i]; }
  }

  lemma MoreBooks(books: seq<OrderBook>, b: OrderBook, id: nat)
    ensures HasBook(books + [b], id) <==> HasBook(books, id) || b.id == id
  {
    var all := books + [b];
    assert all[|books|] == b;
    if i :| 0 <= i < |books| && books[i].id == id { assert all[i] == books[i]; }
  }

  lemma MoreCounts(counts: seq<OrdersCount>, c: OrdersCount, a: Account, d: Denom)
    ensures HasCount(counts + [c], a, d) <==> HasCount(counts, a, d) || (c.account == a && c.denom == d)
  {
    var all := counts + [c];
    assert all[|counts|] == c;
    if i :| 0 <= i < |counts| && counts[i].account == a && counts[i].denom == d { assert all[i] == counts[i]; }
  }

  ghost predicate ExportedOrder(g: GenesisOrder, open: map<nat, OpenOrder>) {
    g.sequence in open && Canonical(open[g.sequence].record.price) && g == GenesisOf(open[g.sequence])
  }

  /** Every open order once. */
  ghost predicate ExportsOrders(orders: seq<GenesisOrder>, open: map<nat, OpenOrder>) {
    && (forall i | 0 <= i < |orders| :: ExportedOrder(orders[i], open))
    && (forall i, j | 0 <= i < j < |orders| :: orders[i].sequence != orders[j].sequence)
    && (forall q | q in open :: HasSequence(orders, q))
  }

  ghost predicate ExportsBooks(books: seq<OrderBook>, data: map<nat, Pair>) {
    && (forall i | 0 <= i < |books| :: books[i].id in data && data[books[i].id] == (books[i].base, books[i].quote))
    && (forall id | id in data :: HasBook(books, id))
  }

  ghost predicate ExportsCounts(counts: seq<OrdersCount>, stored: map<(Account, Denom), nat>) {
    && (forall i | 0 <= i < |counts| ::
          (counts[i].account, counts[i].denom) in stored && stored[(counts[i].account, counts[i].denom)] == counts[i].count)
    && (forall a, d | (a, d) in stored :: HasCount(counts, a, d))
  }

  ghost predicate ExportsReserved(ids: seq<(Account, OrderID)>, reserved: set<(Account, OrderID)>) {
    forall k :: k in ids <==> k in reserved
  }

  ghost predicate Exports(g: GenesisState, st: Store, x: State) {
    && g.params == st.params
    && ExportsOrders(g.orders, x.open) && ExportsBooks(g.orderBooks, st.bookData) && g.orderSequence == st.orderSequence
    && ExportsCounts(g.counts, st.counts) && ExportsReserved(g.reserved, st.reserved)
  }

  // ----- exporting -----

  /** The orders collected so far are those of the IDs that are not left in keys, each once. */
  ghost predicate Collected(out: seq<GenesisOrder>, ids: map<(Account, OrderID), nat>, keys: set<(Account, OrderID)>, open: map<nat, OpenOrder>) {
    && (forall i | 0 <= i < |out| ::
          && ExportedOrder(out[i], open)
          && var k := (out[i].order.creator, out[i].order.id); k in ids && k !in keys && ids[k] == out[i].sequence)
    && (forall k | k in ids && k !in keys :: HasSequence(out, ids[k]))
    && (forall i, j | 0 <= i < j < |out| :: out[i].sequence != out[j].sequence)
  }

  lemma CollectedNone(ids: map<(Account, OrderID), nat>, open: map<nat, OpenOrder>)
    ensures Collected([], ids, ids.Keys, open)
  {
  }

  lemma CollectedNext(out: seq<GenesisOrder>, ids: map<(Account, OrderID), nat>, keys: set<(Account, OrderID)>, open: map<nat, OpenOrder>,
                      key: (Account, OrderID), order: GenesisOrder)
    requires Collected(out, ids, keys, open) && key in keys && key in ids && ExportedOrder(order, open)
    requires key == (order.order.creator, order.order.id) && ids[key] == order.sequence
    requires forall k, l | k in ids && l in ids && ids[k] == ids[l] :: k == l
    ensures Collected(out + [order], ids, keys - {key}, open)
  {
    hide ExportedOrder, HasSequence;
    forall q: nat ensures HasSequence(out + [order], q) <==> HasSequence(out, q) || order.sequence == q {
      MoreOrders(out, order, q);
    }
  }

  lemma CollectedAll(out: seq<GenesisOrder>, ids: map<(Account, OrderID), nat>, open: map<nat, OpenOrder>)
    requires Collected(out, ids, {}, open) && forall q | q in open :: exists k :: k in ids && ids[k] == q
    ensures ExportsOrders(out, open)
  {
    hide ExportedOrder, HasSequence;
  }

  /** Collects the open orders through the index of order IDs; no lookup fails. */
  method GetAccountsOrders(st: Store, ghost x: State, ghost whitelisting: set<Denom>) returns (orders: Option<seq<GenesisOrder>>)
    requires Inv(x) && Represents(st, x, whitelisting)
    ensures orders.Some? && ExportsOrders(orders.value, x.open)
  {
    hide Inv, Represents, ExportedOrder, Collected, WellFormed, BooksKnown, MulCeil, SameBookEntry, Owns, Listed;
    CollectedNone(st.idToSequence, x.open);
    var keys := st.idToSequence.Keys;
    var out: seq<GenesisOrder> := [];
    while keys != {}
      invariant keys <= st.idToSequence.Keys
      invariant Collected(out, st.idToSequence, keys, x.open)
      decreases |keys|
    {
      var key :| key in keys;
      ExportLookup(st, x, key.0, key.1, whitelisting);
      var sequence := st.idToSequence[key];
      if sequence !in st.orders {
        return None;
      }
      var data := st.orders[sequence];
      if data.book !in st.bookData {
        return None;
      }
      var pair := st.bookData[data.book];
      var entry := EntryKey(data.book, data.side, data.price, sequence);
      if entry !in st.records {
        return None;
      }
      var record := st.records[entry];
      var order := GenesisOrder(Order(key.0, Limit, record.id, pair.0, pair.1, Some(data.price), data.quantity, data.side, data.goodTil, GTC),
                                sequence, record.remaining, record.spendable, data.reserve);
      IdsDistinct(st, x, whitelisting);
      CollectedNext(out, st.idToSequence, keys, x.open, key, order);
      out := out + [order];
      keys := keys - {key};
    }
    AllExported(st, x, whitelisting);
    CollectedAll(out, st.idToSequence, x.open);
    orders := Some(out);
  }

  lemma ExportLookup(st: Store, x: State, account: Account, id: OrderID, whitelisting: set<Denom>)
    requires Inv(x) && Represents(st, x, whitelisting) && (account, id) in st.idToSequence
    ensures var q := st.idToSequence[(account, id)];
            && q in x.open && q in st.orders
            && var data, o := st.orders[q], x.open[q];
               var entry := EntryKey(data.book, data.side, data.price, q);
               && data.book in st.bookData && entry in st.records && Canonical(data.price)
               && var pair, r := st.bookData[data.book], st.records[entry];
                  r.id == id && ExportedOrder(GenesisOrder(Order(account, Limit, r.id, pair.0, pair.1, Some(data.price), data.quantity, data.side, data.goodTil, GTC),
                                             q, r.remaining, r.spendable, data.reserve), x.open)
  {
    hide Inv, Represents, BooksKnown, SameBookEntry, MulCeil, ExpectedOf, CeilMul, ToRat, Canonical;
    OwnerLookup(st, x, account, id, whitelisting);
    OrderLookup(st, x, st.idToSequence[(account, id)], whitelisting);
  }

  lemma IdsDistinct(st: Store, x: State, whitelisting: set<Denom>)
    requires Represents(st, x, whitelisting)
    ensures forall k, l | k in st.idToSequence && l in st.idToSequence && st.idToSequence[k] == st.idToSequence[l] :: k == l
  {
    hide OrdersMatch, RecordsMatch, DenomsMatch, CountsMatch, TotalsMatch, TimeItemsMatch, HeightItemsMatch, Balanced, BookDataMatch;
    forall k, l | k in st.idToSequence && l in st.idToSequence && st.idToSequence[k] == st.idToSequence[l] ensures k == l {
      assert (k.0, k.1) == k && (l.0, l.1) == l;
    }
  }

  lemma AllExported(st: Store, x: State, whitelisting: set<Denom>)
    requires Represents(st, x, whitelisting)
    ensures forall q | q in x.open :: exists k :: k in st.idToSequence && st.idToSequence[k] == q
  {
    hide OrdersMatch, RecordsMatch, DenomsMatch, CountsMatch, TotalsMatch, TimeItemsMatch, HeightItemsMatch, Balanced, BookDataMatch;
    forall q | q in x.open ensures exists k :: k in st.idToSequence && st.idToSequence[k] == q {
      assert (x.open[q].record.account, x.open[q].record.id) in st.idToSequence;
    }
  }

  method GetOrderBooksWithID(data: map<nat, Pair>) returns (books: seq<OrderBook>)
    ensures ExportsBooks(books, data)
  {
    var keys := data.Keys;
    books := [];
    while keys != {}
      invariant keys <= data.Keys
      invariant forall i | 0 <= i < |books| :: books[i].id in data && data[books[i].id] == (books[i].base, books[i].quote)
      invariant forall id | id in data && id !in keys :: HasBook(books, id)
      decreases |keys|
    {
      var id :| id in keys;
      var book := OrderBook(id, data[id].0, data[id].1);
      forall other: nat ensures HasBook(books + [book], other) <==> HasBook(books, other) || id == other {
        MoreBooks(books, book, other);
      }
      books := books + [book];
      keys := keys - {id};
    }
  }

  method GetAccountsDenomsOrdersCounts(stored: map<(Account, Denom), nat>) returns (counts: seq<OrdersCount>)
    ensures ExportsCounts(counts, stored)
  {
    var keys := stored.Keys;
    counts := [];
    while keys != {}
      invariant keys <= stored.Keys
      invariant forall i | 0 <= i < |counts| ::
                  (counts[i].account, counts[i].denom) in stored && stored[(counts[i].account, counts[i].denom)] == counts[i].count
      invariant forall a, d | (a, d) in stored && (a, d) !in keys :: HasCount(counts, a, d)
      decreases |keys|
    {
      var k :| k in keys;
      assert (k.0, k.1) == k;
      var count := OrdersCount(k.0, k.1, stored[k]);
      forall a, d ensures HasCount(counts + [count], a, d) <==> HasCount(counts, a, d) || (k.0 == a && k.1 == d) {
        MoreCounts(counts, count, a, d);
      }
      counts := counts + [count];
      keys := keys - {k};
    }
  }

  method ExportReserveOrderIDs(reserved: set<(Account, OrderID)>) returns (ids: seq<(Account, OrderID)>)
    ensures ExportsReserved(ids, reserved)
  {
    var keys := reserved;
    ids := [];
    while keys != {}
      invariant keys <= reserved && forall k :: k in ids <==> k in reserved && k !in keys
      decreases |keys|
    {
      var k :| k in keys;
      ids := ids + [k];
      keys := keys - {k};
    }
  }

  /** Exporting never fails and lists every open order, book, counter and reserved ID. */
  method ExportGenesis(st: Store, ghost x: State, ghost whitelisting: set<Denom>) returns (g: Option<GenesisState>)
    requires Inv(x) && Represents(st, x, whitelisting)
    ensures g.Some? && Exports(g.value, st, x)
  {
    hide Inv, Represents, ExportsOrders, ExportsBooks, ExportsCounts, ExportsReserved;
    var orders := GetAccountsOrders(st, x, whitelisting);
    if orders.None? {
      return None;
    }
    var books := GetOrderBooksWithID(st.bookData);
    var counts := GetAccountsDenomsOrdersCounts(st.counts);
    var reserved := ExportReserveOrderIDs(st.reserved);
    g := Some(GenesisState(st.params, orders.value, books, st.orderSequence, counts, reserved));
  }

  // ----- validating -----

  ghost function BookDenoms(books: seq<OrderBook>): set<Denom> {
    (set i | 0 <= i < |books| :: books[i].base) + (set i | 0 <= i < |books| :: books[i].quote)
  }

  ghost predicate GenesisValid(g: GenesisState) {
    && ValidParams(g.params)
    && (forall i, j | 0 <= i < j < |g.orders| :: g.orders[i].sequence != g.orders[j].sequence)
    && (forall i | 0 <= i < |g.orders| ::
          && g.orders[i].order.baseDenom in BookDenoms(g.orderBooks) && g.orders[i].order.quoteDenom in BookDenoms(g.orderBooks)
          && ValidOrder(g.orders[i].order))
  }

  method CollectDenoms(books: seq<OrderBook>) returns (denoms: set<Denom>)
    ensures denoms == BookDenoms(books)
  {
    denoms := {};
    for i := 0 to |books|
      invariant denoms == (set j | 0 <= j < i :: books[j].base) + (set j | 0 <= j < i :: books[j].quote)
    {
      denoms := denoms + {books[i].base} + {books[i].quote};
    }
  }

  method Validate(g: GenesisState) returns (ok: bool)
    ensures ok <==> GenesisValid(g)
  {
    hide ValidOrder, BookDenoms, ValidParams;
    if !ValidParams(g.params) {
      return false;
    }
    var denoms := CollectDenoms(g.orderBooks);
    var usedSequence: set<nat> := {};
    for i := 0 to |g.orders|
      invariant usedSequence == set j | 0 <= j < i :: g.orders[j].sequence
      invariant forall j, k | 0 <= j < k < i :: g.orders[j].sequence != g.orders[k].sequence
      invariant forall j | 0 <= j < i :: g.orders[j].order.baseDenom in denoms && g.orders[j].order.quoteDenom in denoms && ValidOrder(g.orders[j].order)
    {
      var o := g.orders[i];
      if o.sequence in usedSequence {
        return false;
      }
      usedSequence := usedSequence + {o.sequence};
      if o.order.baseDenom !in denoms || o.order.quoteDenom !in denoms {
        return false;
      }
      if !ValidOrder(o.order) {
        return false;
      }
    }
    ok := true;
  }

  // ----- starting from a genesis state -----

  /** g was exported from the store st of state x. */
  ghost predicate From(g: GenesisState, st: Store, x: State, whitelisting: set<Denom>) {
    Inv(x) && Represents(st, x, whitelisting) && Exports(g, st, x)
  }

  /** The part of a store that belongs to the exchange itself. */
  function DexPart(st: Store): Store {
    st.(locked := map[], expected := map[], funds := map[], timeItems := map[], blockItems := map[])
  }

  ghost predicate PairListed(books: seq<OrderBook>, base: Denom, quote: Denom) {
    exists i :: 0 <= i < |books| && books[i].base == base && books[i].quote == quote
  }

  /** The pairs saved are those listed. */
  ghost predicate PairsOf(books: seq<OrderBook>, saved: map<Pair, nat>) {
    forall a, b :: (a, b) in saved <==> PairListed(books, a, b)
  }

  ghost predicate BooksJoinable(books: seq<OrderBook>) {
    forall i | 0 <= i < |books| :: Joinable(books[i].base) && Joinable(books[i].quote)
  }

  ghost predicate CountsJoinable(counts: seq<OrdersCount>) {
    forall i | 0 <= i < |counts| :: Joinable(counts[i].denom)
  }

  /** An order that can be entered: a good-til-cancelled limit order whose pair has a book. */
  predicate Enterable(g: GenesisOrder, books: map<Pair, nat>) {
    && g.order.price.Some? && g.order.orderType.Limit? && g.order.timeInForce.GTC?
    && Joinable(g.order.baseDenom) && Joinable(g.order.quoteDenom) && (g.order.baseDenom, g.order.quoteDenom) in books
  }

  /** A genesis state the exchange can start from. */
  ghost predicate Startable(g: GenesisState) {
    && GenesisValid(g) && BooksJoinable(g.orderBooks) && CountsJoinable(g.counts)
    && forall i | 0 <= i < |g.orders| ::
         var o := g.orders[i].order;
         && o.price.Some? && o.orderType.Limit? && o.timeInForce.GTC? && Joinable(o.baseDenom) && Joinable(o.quoteDenom)
         && PairListed(g.orderBooks, o.baseDenom, o.quoteDenom)
  }

  // ----- what a genesis state starts -----

  /** Both book indexes with the listed books, and the largest ID. */
  ghost function BooksOf(books: seq<OrderBook>): (map<Pair, nat>, map<nat, Pair>, nat) {
    if |books| == 0 then (map[], map[], 0)
    else
      var (ids, data, last) := BooksOf(books[..|books| - 1]);
      var b := books[|books| - 1];
      (ids[(b.base, b.quote) := b.id], data[b.id := (b.base, b.quote)], if b.id > last then b.id else last)
  }

  ghost function CountsOf(counts: seq<OrdersCount>): map<(Account, Denom), nat> {
    if |counts| == 0 then map[]
    else
      var c := counts[|counts| - 1];
      CountsOf(counts[..|counts| - 1])[(c.account, c.denom) := c.count]
  }

  /** The order on record under the book of its pair. */
  ghost function Enter(st: Store, g: GenesisOrder): Store
    requires Enterable(g, st.books)
  {
    var order, q, a := g.order, g.sequence, g.order.creator;
    var r := Record(st.books[(order.baseDenom, order.quoteDenom)], order.side, order.price.value, q, order.id, a, g.remaining, g.spendable);
    st.(records := st.records[EntryOf(r) := DataOfRecord(r)],
        orders := st.orders[q := OrderData(order.id, r.book, order.price.value, order.quantity, order.side, order.goodTil, g.reserve)],
        idToSequence := st.idToSequence[(a, order.id) := q],
        denomSequences := st.denomSequences + {(a, order.baseDenom, q)} + {(a, order.quoteDenom, q)})
  }

  /** Orders entered one after another; what cannot be entered is passed over. */
  ghost function EnterAll(st: Store, orders: seq<GenesisOrder>): Store {
    if |orders| == 0 then st
    else
      var before, g := EnterAll(st, orders[..|orders| - 1]), orders[|orders| - 1];
      if Enterable(g, before.books) then Enter(before, g) else before
  }

  /** The store of an exchange started from a genesis state. */
  ghost function Started(g: GenesisState): Store {
    var (books, data, last) := BooksOf(g.orderBooks);
    var empty := Empty(g.params).(books := books, bookData := data, bookSequence := last);
    EnterAll(empty, g.orders).(orderSequence := g.orderSequence, reserved := (set k | k in g.reserved), counts := CountsOf(g.counts))
  }

  lemma NoBooksYet(books: seq<OrderBook>)
    ensures BooksOf(books[..0]) == (map[], map[], 0)
  {
  }

  lemma BooksOfNext(books: seq<OrderBook>, i: nat)
    requires i < |books|
    ensures var (ids, data, last) := BooksOf(books[..i]); var b := books[i];
            BooksOf(books[..i + 1]) == (ids[(b.base, b.quote) := b.id], data[b.id := (b.base, b.quote)], if b.id > last then b.id else last)
  {
    assert books[..i + 1][..i] == books[..i];
  }

  lemma NoCountsYet(counts: seq<OrdersCount>)
    ensures CountsOf(counts[..0]) == map[]
  {
  }

  lemma CountsOfNext(counts: seq<OrdersCount>, i: nat)
    requires i < |counts|
    ensures CountsOf(counts[..i + 1]) == CountsOf(counts[..i])[(counts[i].account, counts[i].denom) := counts[i].count]
  {
    assert counts[..i + 1][..i] == counts[..i];
  }

  lemma NoneEntered(st: Store, orders: seq<GenesisOrder>)
    ensures EnterAll(st, orders[..0]) == st
  {
  }

  lemma EnterAllNext(st: Store, orders: seq<GenesisOrder>, i: nat)
    requires i < |orders|
    ensures var before := EnterAll(st, orders[..i]);
            Enterable(orders[i], before.books) ==> EnterAll(st, orders[..i + 1]) == Enter(before, orders[i])
  {
    hide Enterable;
    assert orders[..i + 1][..i] == orders[..i];
  }

  /** Entering orders concerns the order indexes only, and keeps each order that has a sequence of its own. */
  lemma {:induction false} EnterAllHolds(st: Store, orders: seq<GenesisOrder>, i: nat)
    requires i < |orders| && forall j, l | 0 <= j < l < |orders| :: orders[j].sequence != orders[l].sequence
    requires (forall j | 0 <= j < |orders| :: Enterable(orders[j], st.books)) && Enterable(orders[i], st.books)
    ensures var y, g := EnterAll(st, orders), orders[i]; var o := g.order; var book := st.books[(o.baseDenom, o.quoteDenom)];
            var key := EntryKey(book, o.side, o.price.value, g.sequence);
            && y.books == st.books
            && g.sequence in y.orders && y.orders[g.sequence] == OrderData(o.id, book, o.price.value, o.quantity, o.side, o.goodTil, g.reserve)
            && key in y.records && y.records[key] == EntryData(o.id, o.creator, g.remaining, g.spendable)
            && (o.creator, o.baseDenom, g.sequence) in y.denomSequences && (o.creator, o.quoteDenom, g.sequence) in y.denomSequences
    decreases |orders|
  {
    hide Joinable;
    var n := |orders| - 1;
    var rest := orders[..n];
    EnterAllBooks(st, rest);
    if i < n {
      EnterAllHolds(st, rest, i);
    }
  }

  lemma {:induction false} EnterAllBooks(st: Store, orders: seq<GenesisOrder>)
    ensures EnterAll(st, orders).books == st.books
    decreases |orders|
  {
    hide Enterable;
    if |orders| != 0 {
      EnterAllBooks(st, orders[..|orders| - 1]);
    }
  }

  /** A started exchange has valid parameters and holds every order listed, under its own sequence and the book of its pair. */
  lemma StartedHoldsEveryOrder(g: GenesisState, i: nat)
    requires Startable(g) && i < |g.orders|
    ensures var y, e := Started(g), g.orders[i]; var o := e.order;
            && y.params.priceTickExponent < 0 && y.params.quantityStepExponent < 0 && 0 < y.params.maxOrdersPerDenom && 0 <= y.params.orderReserve.amount
            && o.price.Some? && (o.baseDenom, o.quoteDenom) in y.books
            && var key := EntryKey(y.books[(o.baseDenom, o.quoteDenom)], o.side, o.price.value, e.sequence);
               && e.sequence in y.orders
               && y.orders[e.sequence] == OrderData(o.id, key.book, o.price.value, o.quantity, o.side, o.goodTil, e.reserve)
               && key in y.records && y.records[key] == EntryData(o.id, o.creator, e.remaining, e.spendable)
               && 0 < o.quantity && o.baseDenom != o.quoteDenom
  {
    hide BooksOf, EnterAll, CountsOf, PairListed, Joinable, ValidOrderID, MulCeil, BookDenoms, ValidDenom;
    var (books, data, last) := BooksOf(g.orderBooks);
    var empty := Empty(g.params).(books := books, bookData := data, bookSequence := last);
    BooksOfPairs(g.orderBooks);
    forall j | 0 <= j < |g.orders| ensures Enterable(g.orders[j], empty.books) {
      var o := g.orders[j].order;
      assert PairListed(g.orderBooks, o.baseDenom, o.quoteDenom);
    }
    EnterAllHolds(empty, g.orders, i);
    EnterAllBooks(empty, g.orders);
    EnterAllParams(empty, g.orders);
  }

  lemma {:induction false} EnterAllParams(st: Store, orders: seq<GenesisOrder>)
    ensures EnterAll(st, orders).params == st.params
    decreases |orders|
  {
    hide Enterable;
    if |orders| != 0 {
      EnterAllParams(st, orders[..|orders| - 1]);
    }
  }

  lemma {:induction false} BooksOfPairs(books: seq<OrderBook>)
    ensures PairsOf(books, BooksOf(books).0)
    decreases |books|
  {
    hide PairsOf;
    if |books| == 0 {
      NoPairs(books);
      assert books[..0] == books;
    } else {
      var n := |books| - 1;
      BooksOfPairs(books[..n]);
      PairsNext(books[..n], books[n], BooksOf(books[..n]).0);
      assert books[..n] + [books[n]] == books;
    }
  }

  // ----- starting -----

  /** Saves books and remembers the largest ID. */
  method InitBooks(k: Keeper, books: seq<OrderBook>, ghost data: map<nat, Pair>, ghost ids: map<Pair, nat>) returns (ok: bool, maxID: nat)
    requires k.store.books == map[] && k.store.bookData == map[]
    modifies k`store
    ensures k.store == old(k.store).(books := k.store.books, bookData := k.store.bookData)
    ensures ok <==> BooksJoinable(books)
    ensures ok ==> PairsOf(books, k.store.books) && (k.store.books, k.store.bookData, maxID) == BooksOf(books)
    ensures ExportsBooks(books, data) && BookDataMatch(ids, data) && KeysJoinable(ids) ==>
              && ok && k.store.bookData == data && k.store.books == ids
              && (forall id | id in data :: id <= maxID) && (maxID == 0 || maxID in data)
  {
    hide ExportsBooks, BookDataMatch, KeysJoinable, Joinable, BooksJoinable, Saved, PairsOf, BooksOf;
    assert books[..|books|] == books;
    maxID := 0;
    NoBooksYet(books);
    SavedNone(books, data, ids);
    for i := 0 to |books|
      invariant k.store == old(k.store).(books := k.store.books, bookData := k.store.bookData)
      invariant Saved(books, i, k.store.bookData, k.store.books, maxID, data, ids)
      invariant (k.store.books, k.store.bookData, maxID) == BooksOf(books[..i])
    {
      var b := books[i];
      BooksOfNext(books, i);
      SavedNext(books, i, k.store.bookData, k.store.books, maxID, data, ids);
      if !Joinable(b.base) || !Joinable(b.quote) {
        return false, maxID;
      }
      k.SaveOrderBookIDWithData(b.id, b.base, b.quote);
      if b.id > maxID {
        maxID := b.id;
      }
    }
    SavedAll(books, k.store.bookData, k.store.books, maxID, data, ids);
    ok := true;
  }

  /** Only what belongs there has been restored. */
  ghost predicate BooksPart(data': map<nat, Pair>, data: map<nat, Pair>, ids': map<Pair, nat>, ids: map<Pair, nat>) {
    && (forall id | id in data' :: id in data && data'[id] == data[id])
    && (forall p | p in ids' :: p in ids && ids'[p] == ids[p])
  }

  /** All of the given books have been restored, and no ID exceeds maxID. */
  ghost predicate Seen(books: seq<OrderBook>, data: map<nat, Pair>, ids: map<Pair, nat>, maxID: nat) {
    forall b | b in books :: b.id in data && (b.base, b.quote) in ids && b.id <= maxID
  }

  /** The first n books are saved; if they were exported, what is saved agrees with what was exported. */
  ghost predicate Saved(books: seq<OrderBook>, n: nat, data': map<nat, Pair>, ids': map<Pair, nat>, maxID: nat, data: map<nat, Pair>, ids: map<Pair, nat>)
    requires n <= |books|
  {
    && Seen(books[..n], data', ids', maxID) && BooksJoinable(books[..n]) && PairsOf(books[..n], ids')
    && (ExportsBooks(books, data) && BookDataMatch(ids, data) && KeysJoinable(ids) ==>
          BooksPart(data', data, ids', ids) && (maxID == 0 || maxID in data))
  }

  lemma SavedNone(books: seq<OrderBook>, data: map<nat, Pair>, ids: map<Pair, nat>)
    ensures Saved(books, 0, map[], map[], 0, data, ids)
  {
    hide PairsOf, ExportsBooks, BookDataMatch, KeysJoinable, Joinable;
    NoBooks(data, ids);
    NoPairs(books);
  }

  lemma SavedNext(books: seq<OrderBook>, n: nat, data': map<nat, Pair>, ids': map<Pair, nat>, maxID: nat, data: map<nat, Pair>, ids: map<Pair, nat>)
    requires n < |books| && Saved(books, n, data', ids', maxID, data, ids)
    ensures var b := books[n];
            if Joinable(b.base) && Joinable(b.quote)
            then Saved(books, n + 1, data'[b.id := (b.base, b.quote)], ids'[(b.base, b.quote) := b.id], if b.id > maxID then b.id else maxID, data, ids)
            else !BooksJoinable(books) && !(ExportsBooks(books, data) && BookDataMatch(ids, data) && KeysJoinable(ids))
  {
    hide Seen, PairsOf, ExportsBooks, BookDataMatch, KeysJoinable, Joinable, BooksPart;
    var b := books[n];
    assert books[..n + 1] == books[..n] + [b];
    SeenNext(books[..n], b, data', ids', maxID);
    PairsNext(books[..n], b, ids');
    if ExportsBooks(books, data) && BookDataMatch(ids, data) && KeysJoinable(ids) {
      BookAt(books, data, ids, n);
      PartAdded(data', data, ids', ids, b);
    }
  }

  lemma SavedAll(books: seq<OrderBook>, data': map<nat, Pair>, ids': map<Pair, nat>, maxID: nat, data: map<nat, Pair>, ids: map<Pair, nat>)
    requires Saved(books, |books|, data', ids', maxID, data, ids)
    ensures BooksJoinable(books) && PairsOf(books, ids')
    ensures ExportsBooks(books, data) && BookDataMatch(ids, data) && KeysJoinable(ids) ==>
              && data' == data && ids' == ids
              && (forall id | id in data :: id <= maxID) && (maxID == 0 || maxID in data)
  {
    hide Seen, PairsOf, ExportsBooks, BookDataMatch, KeysJoinable, Joinable, BooksPart;
    assert books[..|books|] == books;
    if ExportsBooks(books, data) && BookDataMatch(ids, data) && KeysJoinable(ids) {
      BooksRestored(books, data, ids, data', ids', maxID);
    }
  }

  lemma NoPairs(books: seq<OrderBook>)
    ensures PairsOf(books[..0], map[])
  {
  }

  lemma PairsNext(books: seq<OrderBook>, b: OrderBook, saved: map<Pair, nat>)
    requires PairsOf(books, saved)
    ensures PairsOf(books + [b], saved[(b.base, b.quote) := b.id])
  {
    hide PairListed;
    forall base, quote ensures PairListed(books + [b], base, quote) <==> PairListed(books, base, quote) || (b.base == base && b.quote == quote) {
      MorePairs(books, b, base, quote);
    }
  }

  lemma MorePairs(books: seq<OrderBook>, b: OrderBook, base: Denom, quote: Denom)
    ensures PairListed(books + [b], base, quote) <==> PairListed(books, base, quote) || (b.base == base && b.quote == quote)
  {
    var all := books + [b];
    assert all[|books|] == b;
    if i :| 0 <= i < |books| && books[i].base == base && books[i].quote == quote { assert all[i] == books[i]; }
  }

  lemma NoBooks(data: map<nat, Pair>, ids: map<Pair, nat>)
    ensures BooksPart(map[], data, map[], ids) && Seen([], map[], map[], 0)
  {
  }

  lemma PartAdded(data': map<nat, Pair>, data: map<nat, Pair>, ids': map<Pair, nat>, ids: map<Pair, nat>, b: OrderBook)
    requires BooksPart(data', data, ids', ids)
    requires b.id in data && data[b.id] == (b.base, b.quote) && (b.base, b.quote) in ids && ids[(b.base, b.quote)] == b.id
    ensures BooksPart(data'[b.id := (b.base, b.quote)], data, ids'[(b.base, b.quote) := b.id], ids)
  {
  }

  lemma SeenNext(books: seq<OrderBook>, b: OrderBook, data: map<nat, Pair>, ids: map<Pair, nat>, maxID: nat)
    requires Seen(books, data, ids, maxID)
    ensures Seen(books + [b], data[b.id := (b.base, b.quote)], ids[(b.base, b.quote) := b.id], if b.id > maxID then b.id else maxID)
  {
  }

  lemma BookAt(books: seq<OrderBook>, data: map<nat, Pair>, ids: map<Pair, nat>, i: nat)
    requires ExportsBooks(books, data) && BookDataMatch(ids, data) && KeysJoinable(ids) && i < |books|
    ensures var b := books[i];
            && b.id in data && data[b.id] == (b.base, b.quote) && (b.base, b.quote) in ids && ids[(b.base, b.quote)] == b.id
            && Joinable(b.base) && Joinable(b.quote)
  {
    hide Joinable;
  }

  ghost predicate KeysJoinable(ids: map<Pair, nat>) {
    forall a, b | (a, b) in ids :: Joinable(a) && Joinable(b)
  }

  lemma BooksRestored(books: seq<OrderBook>, data: map<nat, Pair>, ids: map<Pair, nat>, data': map<nat, Pair>, ids': map<Pair, nat>, maxID: nat)
    requires ExportsBooks(books, data) && BookDataMatch(ids, data) && BooksPart(data', data, ids', ids) && Seen(books, data', ids', maxID)
    ensures data' == data && ids' == ids
    ensures forall id | id in data :: id <= maxID
  {
    forall id | id in data ensures id in data' && id <= maxID {
      assert HasBook(books, id);
    }
    forall p | p in ids ensures p in ids' {
      assert (p.0, p.1) == p;
      assert HasBook(books, ids[p]);
    }
  }

  // ----- orders -----

  /** The orders among the first i of an export. */
  ghost function Loaded(open: map<nat, OpenOrder>, orders: seq<GenesisOrder>, i: nat): map<nat, OpenOrder>
    requires i <= |orders|
  {
    map q | q in open && HasSequence(orders[..i], q) :: open[q]
  }

  ghost predicate OrdersLoaded(st: Store, open: map<nat, OpenOrder>) {
    OrdersMatch(st.orders, open) && RecordsMatch(st.records, open) && IdsMatch(st.idToSequence, open) && DenomsMatch(st.denomSequences, open)
  }

  lemma NothingLoaded(st: Store, open: map<nat, OpenOrder>, orders: seq<GenesisOrder>)
    requires st.orders == map[] && st.records == map[] && st.idToSequence == map[] && st.denomSequences == {}
    ensures OrdersLoaded(st, Loaded(open, orders, 0))
  {
    assert Loaded(open, orders, 0) == map[];
  }

  lemma LoadedNext(x: State, orders: seq<GenesisOrder>, i: nat)
    requires Inv(x) && ExportsOrders(orders, x.open) && i < |orders|
    ensures var q, part := orders[i].sequence, Loaded(x.open, orders, i);
            && q in x.open && q !in part && AllWellFormed(part) && Loaded(x.open, orders, i + 1) == part[q := x.open[q]]
            && (forall p | p in part :: !Owns(part[p], x.open[q].record.account, x.open[q].record.id))
  {
    hide WellFormed, BooksPaired, Uncrossed, Alive, Listed, ExportedOrder;
    var q, part := orders[i].sequence, Loaded(x.open, orders, i);
    assert ExportedOrder(orders[i], x.open);
    ExportedInOpen(orders[i], x.open);
    assert orders[..i + 1] == orders[..i] + [orders[i]];
    forall p: nat ensures HasSequence(orders[..i + 1], p) <==> HasSequence(orders[..i], p) || q == p {
      MoreOrders(orders[..i], orders[i], p);
    }
    assert !HasSequence(orders[..i], q);
  }

  lemma ExportedInOpen(g: GenesisOrder, open: map<nat, OpenOrder>)
    requires ExportedOrder(g, open)
    ensures g.sequence in open
  {
  }

  /** Saving the next exported order extends every index by it. */
  lemma OrderLoaded(st: Store, st': Store, x: State, orders: seq<GenesisOrder>, i: nat)
    requires Inv(x) && ExportsOrders(orders, x.open) && i < |orders| && OrdersLoaded(st, Loaded(x.open, orders, i))
    requires orders[i].sequence in x.open
    requires var q, o := orders[i].sequence, x.open[orders[i].sequence];
             var a := o.record.account;
             && st'.records == st.records[EntryOf(o.record) := DataOfRecord(o.record)]
             && st'.orders == st.orders[q := o.Data()]
             && st'.idToSequence == st.idToSequence[(a, o.record.id) := q]
             && st'.denomSequences == st.denomSequences + {(a, o.baseDenom, q)} + {(a, o.quoteDenom, q)}
    ensures OrdersLoaded(st', Loaded(x.open, orders, i + 1))
  {
    hide Inv, ExportsOrders, OrdersMatch, RecordsMatch, DenomsMatch, Loaded, WellFormed;
    LoadedNext(x, orders, i);
    var q, part := orders[i].sequence, Loaded(x.open, orders, i);
    var o := x.open[q];
    InvWellFormed(x);
    WellFormedSequence(x.open, q);
    OrdersAdded(st.orders, part, q, o);
    RecordsAdded(st.records, part, q, o);
    NotLoaded(st.idToSequence, part, o);
    IdsAdded(st.idToSequence, part, q, o);
    DenomsAdded(st.denomSequences, part, q, o);
  }

  lemma NotLoaded(ids: map<(Account, OrderID), nat>, part: map<nat, OpenOrder>, o: OpenOrder)
    requires IdsMatch(ids, part) && forall p | p in part :: !Owns(part[p], o.record.account, o.record.id)
    ensures (o.record.account, o.record.id) !in ids
  {
  }

  lemma AllLoaded(x: State, orders: seq<GenesisOrder>)
    ensures ExportsOrders(orders, x.open) ==> Loaded(x.open, orders, |orders|) == x.open
  {
    assert orders[..|orders|] == orders;
  }

  /** The open orders determine each index. */
  lemma IndexesUnique(a: Store, b: Store, open: map<nat, OpenOrder>)
    requires OrdersLoaded(a, open) && OrdersLoaded(b, open)
    ensures a.orders == b.orders && a.records == b.records && a.idToSequence == b.idToSequence && a.denomSequences == b.denomSequences
  {
    RecordsUnique(a.records, b.records, open);
    IdsUnique(a.idToSequence, b.idToSequence, open);
    DenomsUnique(a.denomSequences, b.denomSequences, open);
  }

  lemma RecordsUnique(a: map<EntryKey, EntryData>, b: map<EntryKey, EntryData>, open: map<nat, OpenOrder>)
    requires RecordsMatch(a, open) && RecordsMatch(b, open)
    ensures a == b
  {
  }

  lemma IdsUnique(a: map<(Account, OrderID), nat>, b: map<(Account, OrderID), nat>, open: map<nat, OpenOrder>)
    requires IdsMatch(a, open) && IdsMatch(b, open)
    ensures a == b
  {
    forall k | k in a ensures k in b && a[k] == b[k] { assert (k.0, k.1) == k; }
    forall k | k in b ensures k in a && a[k] == b[k] { assert (k.0, k.1) == k; }
  }

  lemma DenomsUnique(a: set<(Account, Denom, nat)>, b: set<(Account, Denom, nat)>, open: map<nat, OpenOrder>)
    requires DenomsMatch(a, open) && DenomsMatch(b, open)
    ensures a == b
  {
    forall e | e in a ensures e in b { assert (e.0, e.1, e.2) == e; }
    forall e | e in b ensures e in a { assert (e.0, e.1, e.2) == e; }
  }

  lemma ExportedFacts(g: GenesisOrder, x: State)
    requires Inv(x) && ExportedOrder(g, x.open)
    ensures g.sequence in x.open
    ensures var o, order := x.open[g.sequence], g.order;
            && order.orderType.Limit? && order.timeInForce.GTC? && order.price.Some?
            && Joinable(order.baseDenom) && Joinable(order.quoteDenom)
            && (order.baseDenom, order.quoteDenom) in x.books
            && Record(x.books[(order.baseDenom, order.quoteDenom)], order.side, order.price.value, g.sequence, order.id, order.creator,
                      g.remaining, g.spendable) == o.record
            && OrderData(order.id, o.record.book, order.price.value, order.quantity, order.side, order.goodTil, g.reserve) == o.Data()
            && order.baseDenom == o.baseDenom && order.quoteDenom == o.quoteDenom
            && ValidOrder(order)
  {
    hide CeilMul, ToRat, MulCeil, Uncrossed, BooksPaired, Alive, ValidOrderID;
  }

  /** Saves every order of a genesis state into the indexes. */
  method InitOrders(k: Keeper, orders: seq<GenesisOrder>, ghost x: State) returns (ok: bool)
    requires k.store.orders == map[] && k.store.records == map[] && k.store.idToSequence == map[] && k.store.denomSequences == {}
    modifies k`store
    ensures k.store == old(k.store).(orders := k.store.orders, records := k.store.records, idToSequence := k.store.idToSequence,
                                     denomSequences := k.store.denomSequences)
    ensures ok <==> forall i | 0 <= i < |orders| :: Enterable(orders[i], old(k.store.books))
    ensures ok ==> k.store == EnterAll(old(k.store), orders)
    ensures Inv(x) && ExportsOrders(orders, x.open) && old(k.store.books) == x.books ==> ok && OrdersLoaded(k.store, x.open)
  {
    hide Inv, ExportsOrders, OrdersLoaded, Enterable, Enter, EnterAll;
    assert orders[..|orders|] == orders;
    NoneEntered(k.store, orders);
    ExportLoaded(k.store, x, orders, |orders|);
    for i := 0 to |orders|
      invariant k.store == EnterAll(old(k.store), orders[..i])
      invariant k.store == old(k.store).(orders := k.store.orders, records := k.store.records, idToSequence := k.store.idToSequence,
                                         denomSequences := k.store.denomSequences)
      invariant forall j | 0 <= j < i :: Enterable(orders[j], old(k.store.books))
    {
      EnterAllNext(old(k.store), orders, i);
      ok := InitOrder(k, orders[i]);
      if !ok {
        return;
      }
    }
    AllLoaded(x, orders);
    ok := true;
  }

  /** Entering exported orders extends every index by them. */
  lemma {:induction false} ExportLoaded(st: Store, x: State, orders: seq<GenesisOrder>, n: nat)
    requires st.orders == map[] && st.records == map[] && st.idToSequence == map[] && st.denomSequences == {} && n <= |orders|
    ensures EnterAll(st, orders[..n]).books == st.books
    ensures Inv(x) && ExportsOrders(orders, x.open) && st.books == x.books ==>
              && OrdersLoaded(EnterAll(st, orders[..n]), Loaded(x.open, orders, n))
              && forall i | 0 <= i < n :: Enterable(orders[i], st.books)
    decreases n
  {
    hide Inv, ExportsOrders, OrdersLoaded, Loaded, Enterable;
    if n == 0 {
      NothingLoaded(st, x.open, orders);
    } else {
      ExportLoaded(st, x, orders, n - 1);
      assert orders[..n][..n - 1] == orders[..n - 1];
      ExportEntered(EnterAll(st, orders[..n - 1]), x, orders, n - 1);
    }
  }

  lemma ExportedAt(orders: seq<GenesisOrder>, open: map<nat, OpenOrder>, i: nat)
    requires ExportsOrders(orders, open) && i < |orders|
    ensures ExportedOrder(orders[i], open)
  {
  }

  /** An exported order can be entered, and entering it extends every index by it. */
  lemma ExportEntered(before: Store, x: State, orders: seq<GenesisOrder>, i: nat)
    requires i < |orders|
    ensures Inv(x) && ExportsOrders(orders, x.open) && before.books == x.books ==>
              && Enterable(orders[i], before.books)
              && (OrdersLoaded(before, Loaded(x.open, orders, i)) ==> OrdersLoaded(Enter(before, orders[i]), Loaded(x.open, orders, i + 1)))
  {
    hide Inv, ExportsOrders, OrdersLoaded, ExportedOrder, Joinable, ValidOrder, Loaded;
    if Inv(x) && ExportsOrders(orders, x.open) && before.books == x.books {
      ExportedAt(orders, x.open, i);
      ExportedFacts(orders[i], x);
      if OrdersLoaded(before, Loaded(x.open, orders, i)) {
        OrderLoaded(before, Enter(before, orders[i]), x, orders, i);
      }
    }
  }

  /** Saves one order under the book of its pair, which must exist. */
  method InitOrder(k: Keeper, g: GenesisOrder) returns (ok: bool)
    modifies k`store
    ensures ok <==> Enterable(g, old(k.store.books))
    ensures ok ==> k.store == Enter(old(k.store), g)
    ensures k.store == old(k.store).(orders := k.store.orders, records := k.store.records, idToSequence := k.store.idToSequence,
                                     denomSequences := k.store.denomSequences)
  {
    hide Joinable;
    var order := g.order;
    if !Joinable(order.baseDenom) || !Joinable(order.quoteDenom) || (order.baseDenom, order.quoteDenom) !in k.store.books {
      return false;
    }
    if order.price.None? {
      return false;
    }
    var record := Record(k.store.books[(order.baseDenom, order.quoteDenom)], order.side, order.price.value, g.sequence, order.id, order.creator,
                         g.remaining, g.spendable);
    ok := k.SaveOrderWithOrderBookRecord(order, record, g.reserve);
  }

  method InitCounts(k: Keeper, counts: seq<OrdersCount>, ghost stored: map<(Account, Denom), nat>) returns (ok: bool)
    requires k.store.counts == map[]
    modifies k`store
    ensures k.store == old(k.store).(counts := k.store.counts)
    ensures ok <==> CountsJoinable(counts)
    ensures ok ==> k.store.counts == CountsOf(counts)
    ensures ExportsCounts(counts, stored) && (forall a, d | (a, d) in stored :: Joinable(d)) ==> ok && k.store.counts == stored
  {
    hide Joinable, ExportsCounts, CountsOf;
    assert counts[..|counts|] == counts;
    NoCountsYet(counts);
    ghost var good := ExportsCounts(counts, stored) && forall a, d | (a, d) in stored :: Joinable(d);
    for i := 0 to |counts|
      invariant k.store == old(k.store).(counts := k.store.counts) && k.store.counts == CountsOf(counts[..i])
      invariant good ==> CountsPart(k.store.counts, stored)
      invariant forall j | 0 <= j < i :: (counts[j].account, counts[j].denom) in k.store.counts
      invariant forall j | 0 <= j < i :: Joinable(counts[j].denom)
    {
      CountsOfNext(counts, i);
      if good {
        CountAt(counts, stored, i);
      }
      if !Joinable(counts[i].denom) {
        return false;
      }
      k.store := k.store.(counts := k.store.counts[(counts[i].account, counts[i].denom) := counts[i].count]);
    }
    if good {
      CountsRestored(counts, stored, k.store.counts);
    }
    ok := true;
  }

  ghost predicate CountsPart(part: map<(Account, Denom), nat>, stored: map<(Account, Denom), nat>) {
    forall key | key in part :: key in stored && part[key] == stored[key]
  }

  lemma CountAt(counts: seq<OrdersCount>, stored: map<(Account, Denom), nat>, i: nat)
    requires ExportsCounts(counts, stored) && i < |counts|
    ensures (counts[i].account, counts[i].denom) in stored && stored[(counts[i].account, counts[i].denom)] == counts[i].count
  {
  }

  lemma CountsRestored(counts: seq<OrdersCount>, stored: map<(Account, Denom), nat>, part: map<(Account, Denom), nat>)
    requires ExportsCounts(counts, stored) && CountsPart(part, stored)
    requires forall j | 0 <= j < |counts| :: (counts[j].account, counts[j].denom) in part
    ensures part == stored
  {
    forall key | key in stored ensures key in part {
      assert (key.0, key.1) == key;
      assert HasCount(counts, key.0, key.1);
    }
  }

  method ImportReservedOrderIDs(k: Keeper, ids: seq<(Account, OrderID)>)
    requires k.store.reserved == {}
    modifies k`store
    ensures k.store == old(k.store).(reserved := k.store.reserved)
    ensures forall key :: key in k.store.reserved <==> key in ids
  {
    for i := 0 to |ids|
      invariant k.store == old(k.store).(reserved := k.store.reserved)
      invariant forall key :: key in k.store.reserved <==> key in ids[..i]
    {
      k.store := k.store.(reserved := k.store.reserved + {ids[i]});
    }
    assert ids[..|ids|] == ids;
  }

  /**
   Starts an empty store from a genesis state, exactly if it is startable; the store then holds what
   the state lists, entered in order. A state that was exported from a running exchange is startable
   and restores exactly what the exchange itself keeps: parameters, both book indexes and their
   sequence, all order indexes, counters, the order sequence and reserved IDs.
   */
  method InitGenesis(k: Keeper, g: GenesisState, ghost st: Store, ghost x: State) returns (ok: bool)
    requires k.store == Empty(k.store.params)
    modifies k`store
    ensures ok <==> Startable(g)
    ensures ok ==> k.store == Started(g)
    ensures From(g, st, x, k.whitelisting) ==> ok && k.store == DexPart(st)
  {
    hide Inv, ExportsOrders, ExportsBooks, ExportsCounts, ExportsReserved, GenesisValid, OrdersLoaded, BookDataMatch, BooksPaired,
         KeysJoinable, Joinable, From, PairListed, BooksJoinable, CountsJoinable, BooksOf, EnterAll, CountsOf;
    ghost var good := From(g, st, x, k.whitelisting);
    if good {
      ExportIsValid(g, st, x, k.whitelisting);
      FromFacts(g, st, x, k.whitelisting);
    }
    ok := Validate(g);
    if !ok {
      return;
    }
    k.store := k.store.(params := g.params);
    ok := InitBookSequence(k, g.orderBooks, st, x);
    if !ok {
      return;
    }
    assert k.store.bookSequence == BooksOf(g.orderBooks).2;
    ok := InitOrders(k, g.orders, x);
    if !ok {
      return;
    }
    if good {
      IndexesUnique(k.store, st, x.open);
    }
    k.store := k.store.(orderSequence := g.orderSequence);
    ImportReservedOrderIDs(k, g.reserved);
    if good {
      SameReserved(g.reserved, k.store.reserved, st.reserved);
    }
    ok := InitCounts(k, g.counts, st.counts);
  }

  /** Saves the books and continues their sequence from the largest ID. */
  method InitBookSequence(k: Keeper, books: seq<OrderBook>, ghost st: Store, ghost x: State) returns (ok: bool)
    requires k.store == Empty(k.store.params)
    modifies k`store
    ensures ok <==> BooksJoinable(books)
    ensures ok ==> PairsOf(books, k.store.books) && (k.store.books, k.store.bookData, k.store.bookSequence) == BooksOf(books)
    ensures k.store == old(k.store).(books := k.store.books, bookData := k.store.bookData, bookSequence := k.store.bookSequence)
    ensures ExportsBooks(books, st.bookData) && BookDataMatch(st.books, st.bookData) && KeysJoinable(st.books) && st.books == x.books
            && BooksPaired(x.books, x.bookSequence) ==>
              ok && k.store.bookData == st.bookData && k.store.books == st.books && k.store.bookSequence == x.bookSequence
  {
    hide ExportsBooks, BookDataMatch, BooksPaired, KeysJoinable, PairListed, BooksJoinable, BooksOf;
    var maxID;
    ok, maxID := InitBooks(k, books, st.bookData, st.books);
    if !ok {
      return;
    }
    if maxID != 0 {
      k.store := k.store.(bookSequence := maxID);
    }
    if ExportsBooks(books, st.bookData) && BookDataMatch(st.books, st.bookData) && KeysJoinable(st.books) && st.books == x.books
       && BooksPaired(x.books, x.bookSequence)
    {
      LastBookID(x, st.bookData, maxID);
    }
  }

  lemma FromFacts(g: GenesisState, st: Store, x: State, whitelisting: set<Denom>)
    requires From(g, st, x, whitelisting)
    ensures BookDataMatch(st.books, st.bookData) && KeysJoinable(st.books) && st.books == x.books && st.bookSequence == x.bookSequence
    ensures OrdersLoaded(st, x.open) && forall a, d | (a, d) in st.counts :: Joinable(d)
    ensures Exports(g, st, x) && Inv(x) && BooksPaired(x.books, x.bookSequence) && st.orderSequence == x.sequence && st.params == x.params
  {
    hide WellFormed, Uncrossed, Alive, Listed, TotalsMatch, Balanced, TimeItemsMatch, HeightItemsMatch, BookDataMatch, Joinable, LexLess;
  }

  lemma SameReserved(ids: seq<(Account, OrderID)>, a: set<(Account, OrderID)>, b: set<(Account, OrderID)>)
    requires ExportsReserved(ids, b) && forall k :: k in a <==> k in ids
    ensures a == b
  {
  }

  /** The largest book ID is the book sequence. */
  lemma LastBookID(x: State, data: map<nat, Pair>, maxID: nat)
    requires BooksPaired(x.books, x.bookSequence) && BookDataMatch(x.books, data)
    requires (forall id | id in data :: id <= maxID) && (maxID == 0 || maxID in data)
    ensures maxID == x.bookSequence
  {
    hide LexLess, Joinable;
    if 0 < x.bookSequence {
      var a, b :| (a, b) in x.books && x.books[(a, b)] == x.bookSequence;
    }
    if maxID != 0 {
      var pair := data[maxID];
      assert (pair.0, pair.1) == pair;
    }
  }

  lemma ExportIsValid(g: GenesisState, st: Store, x: State, whitelisting: set<Denom>)
    requires From(g, st, x, whitelisting)
    ensures GenesisValid(g)
  {
    hide Inv, Indexed, Balanced, BookDenoms, ValidOrder, ExportedOrder, BookDataMatch, ValidParams, WellFormed;
    InvWellFormed(x);
    forall i | 0 <= i < |g.orders|
      ensures g.orders[i].order.baseDenom in BookDenoms(g.orderBooks) && g.orders[i].order.quoteDenom in BookDenoms(g.orderBooks)
      ensures ValidOrder(g.orders[i].order)
    {
      ExportedAt(g.orders, x.open, i);
      ExportedFacts(g.orders[i], x);
      var order := g.orders[i].order;
      BookListed(g.orderBooks, st.books, st.bookData, order.baseDenom, order.quoteDenom);
    }
  }

  lemma BookListed(books: seq<OrderBook>, ids: map<Pair, nat>, data: map<nat, Pair>, base: Denom, quote: Denom)
    requires ExportsBooks(books, data) && BookDataMatch(ids, data) && (base, quote) in ids
    ensures base in BookDenoms(books) && quote in BookDenoms(books)
  {
    assert HasBook(books, ids[(base, quote)]);
    var i :| 0 <= i < |books| && books[i].id == ids[(base, quote)];
    assert books[i].base == base && books[i].quote == quote;
  }

  // ----- delayed items -----

  /** An item with its execution time in nanoseconds, or with its block height. */
  datatype DelayedItem =
    | DelayedItem(id: bytes, time: int, data: CancelGoodTil)
    | BlockItem(id: bytes, height: nat, data: CancelGoodTil)

  /** The key an item is stored under. */
  function KeyOf(item: DelayedItem): Option<ItemKey> {
    CreateItemKey(item.id, if item.DelayedItem? then Unix(item.time) else item.height)
  }

  /** An item that has a key. */
  predicate Importable(item: DelayedItem) {
    item.id != [] && (item.DelayedItem? ==> 0 <= item.time)
  }

  ghost predicate HasItem(list: seq<DelayedItem>, k: ItemKey) {
    exists i :: 0 <= i < |list| && KeyOf(list[i]) == Some(k)
  }

  lemma MoreItems(list: seq<DelayedItem>, item: DelayedItem, k: ItemKey)
    ensures HasItem(list + [item], k) <==> HasItem(list, k) || KeyOf(item) == Some(k)
  {
    hide KeyOf;
    var all := list + [item];
    assert all[|list|] == item;
    if i :| 0 <= i < |list| && KeyOf(list[i]) == Some(k) { assert all[i] == list[i]; }
  }

  /** The items of a list whose keys exist and differ. */
  ghost predicate Holds(now: Items, list: seq<DelayedItem>) {
    && (forall j | 0 <= j < |list| :: KeyOf(list[j]).Some? && KeyOf(list[j]).value in now && now[KeyOf(list[j]).value] == list[j].data)
    && (forall k | k in now :: HasItem(list, k))
    && (forall j, l | 0 <= j < l < |list| :: KeyOf(list[j]) != KeyOf(list[l]))
  }

  lemma HoldsMore(now: Items, list: seq<DelayedItem>, item: DelayedItem)
    requires Holds(now, list) && KeyOf(item).Some?
    ensures KeyOf(item).value in now <==> exists j :: 0 <= j < |list| && KeyOf(list[j]) == KeyOf(item)
    ensures KeyOf(item).value !in now ==> Holds(now[KeyOf(item).value := item.data], list + [item])
  {
    hide KeyOf;
    var all, key := list + [item], KeyOf(item).value;
    if key in now {
      assert HasItem(list, key);
    }
    forall k ensures HasItem(all, k) <==> HasItem(list, k) || key == k {
      MoreItems(list, item, k);
    }
  }

  /** A list of items determines them. */
  lemma HoldsUnique(now: Items, items: Items, list: seq<DelayedItem>)
    requires Holds(now, list) && Holds(items, list)
    ensures now == items
  {
    hide KeyOf;
    forall k | k in now ensures k in items && now[k] == items[k] { assert HasItem(list, k); }
    forall k | k in items ensures k in now { assert HasItem(list, k); }
  }

  /** The item that an entry of the store is exported as: with its whole second, or its height. */
  function ItemOf(byHeight: bool, k: ItemKey, data: CancelGoodTil): DelayedItem {
    if byHeight then BlockItem(k.id, k.when, data) else DelayedItem(k.id, k.when * NANOS, data)
  }

  lemma ItemOfKey(byHeight: bool, k: ItemKey, data: CancelGoodTil)
    requires k.id != []
    ensures KeyOf(ItemOf(byHeight, k, data)) == Some(k)
  {
  }

  /** Lists every item of one of the two queues. */
  method ExportItems(items: Items, byHeight: bool) returns (list: seq<DelayedItem>)
    requires ItemKeys(items.Keys)
    ensures Holds(items, list) && forall i | 0 <= i < |list| :: list[i].BlockItem? == byHeight
  {
    hide Holds, KeyOf;
    var keys := items.Keys;
    list := [];
    ghost var done: Items := map[];
    HoldsNothing();
    while keys != {}
      invariant keys <= items.Keys && done == items - keys && Holds(done, list)
      invariant forall i | 0 <= i < |list| :: list[i].BlockItem? == byHeight
      decreases |keys|
    {
      var key :| key in keys;
      var item := ItemOf(byHeight, key, items[key]);
      ItemOfKey(byHeight, key, items[key]);
      HoldsMore(done, list, item);
      list := list + [item];
      keys := keys - {key};
      done := done[key := items[key]];
    }
    assert done == items;
  }

  /**
   Importing adds a list to the items stored. It fails exactly on an empty identifier, a time
   before the epoch, and a key that is taken, by the store or earlier in the list.
   */
  method ImportItems(items: Items, list: seq<DelayedItem>) returns (out: Option<Items>)
    ensures out.Some? <==> (&& (forall i | 0 <= i < |list| :: Importable(list[i]) && KeyOf(list[i]).value !in items)
                            && (forall i, j | 0 <= i < j < |list| :: KeyOf(list[i]) != KeyOf(list[j])))
    ensures out.Some? ==> Holds(out.value - items.Keys, list) && out.value == (out.value - items.Keys) + items
  {
    hide Holds;
    var now := items;
    ghost var added: Items := map[];
    assert list[..0] == [] && list[..|list|] == list;
    HoldsNothing();
    for i := 0 to |list|
      invariant now == items + added && added.Keys !! items.Keys && Holds(added, list[..i])
      invariant forall j | 0 <= j < i :: Importable(list[j]) && KeyOf(list[j]).value !in items
    {
      var key := KeyOf(list[i]);
      if key.None? {
        return None;
      }
      HoldsMore(added, list[..i], list[i]);
      assert list[..i + 1] == list[..i] + [list[i]];
      if key.value in now {
        if key.value in added {
          ghost var j :| 0 <= j < |list[..i]| && KeyOf(list[..i][j]) == KeyOf(list[i]);
          assert KeyOf(list[j]) == KeyOf(list[i]);
        }
        return None;
      }
      now := now[key.value := list[i].data];
      added := added[key.value := list[i].data];
    }
    HoldsDistinct(added, list);
    assert now - items.Keys == added;
    out := Some(now);
  }

  lemma HoldsNothing()
    ensures Holds(map[], [])
  {
  }

  lemma HoldsDistinct(now: Items, list: seq<DelayedItem>)
    requires Holds(now, list)
    ensures forall i, j | 0 <= i < j < |list| :: KeyOf(list[i]) != KeyOf(list[j])
  {
  }

  /** The items of a running exchange, by time and by height, survive an export and an import into an empty store unchanged. */
  method ReimportItems(st: Store, ghost x: State, ghost whitelisting: set<Denom>) returns (out: Option<(Items, Items)>)
    requires Inv(x) && Represents(st, x, whitelisting)
    ensures out == Some((st.timeItems, st.blockItems))
  {
    hide Inv, Represents, ItemKeys;
    TimeItemKeys(st, x, whitelisting);
    BlockItemKeys(st, x, whitelisting);
    var timeItems := ReimportQueue(st.timeItems, false);
    var blockItems := ReimportQueue(st.blockItems, true);
    out := Some((timeItems.value, blockItems.value));
  }

  method ReimportQueue(items: Items, byHeight: bool) returns (out: Option<Items>)
    requires ItemKeys(items.Keys)
    ensures out == Some(items)
  {
    hide KeyOf;
    var list := ExportItems(items, byHeight);
    HoldsKeys(items, list);
    out := ImportItems(map[], list);
    assert out.value - {} == out.value;
    HoldsUnique(out.value, items, list);
  }

  lemma HoldsKeys(items: Items, list: seq<DelayedItem>)
    requires Holds(items, list)
    ensures forall i | 0 <= i < |list| :: Importable(list[i])
  {
  }
}
