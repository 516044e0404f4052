/**
 Facts about the store that the keeper's methods rest on.
 */
module KeeperFacts {
  import opened Bytes
  import opened StoreKeys
  import opened Price
  import opened SortedLists
  import opened Types
  import opened Ledgers
  import opened Keys
  import opened Amounts
  import opened Priority
  import opened Iterator
  import opened Finder
  import opened Matching
  import opened Actions
  import opened Orders
  import opened Engine
  import opened Exchange
  import opened Delay
  import opened Store
  import opened Settlement

  // ----- scans and agendas -----

  predicate NatLess(a: nat, b: nat) {
    a < b
  }

  lemma NatLessTotal(s: set<nat>)
    ensures StrictTotal(s, NatLess)
  {
  }

  /** The sequences an account has on record under a denom. */
  function SequencesOf(entries: set<(Account, Denom, nat)>, account: Account, denom: Denom): set<nat> {
    set e | e in entries && e.0 == account && e.1 == denom :: e.2
  }

  lemma ScanFacts(st: Store, x: State, account: Account, denom: Denom, whitelisting: set<Denom>)
    requires Represents(st, x, whitelisting)
    ensures var s := SequencesOf(st.denomSequences, account, denom);
            && s == Touching(x.open, account, denom)
            && StrictTotal(s, NatLess)
            && Elements(Listing(s, NatLess)) == s && Increasing(Listing(s, NatLess), NatLess)
  {
    hide OrdersMatch, RecordsMatch, IdsMatch, TotalsMatch, TimeItemsMatch, HeightItemsMatch, Balanced, BookDataMatch, Touches, Listing;
    var s := SequencesOf(st.denomSequences, account, denom);
    forall q ensures q in s <==> q in Touching(x.open, account, denom) {
      assert q in s <==> (account, denom, q) in st.denomSequences by {
        if (account, denom, q) in st.denomSequences { assert (account, denom, q).2 in s; }
      }
    }
    NatLessTotal(s);
    ListingFacts(s, NatLess);
  }

  lemma NothingRemoved(items: Items, x: State)
    ensures x.(open := x.open - Elements([])) == x && x.(open := x.open - Executed(items, [])) == x
  {
  }

  lemma AgendaKey(agenda: seq<ItemKey>, i: nat)
    requires i < |agenda|
    ensures agenda[i] in Elements(agenda)
  {
  }

  lemma ScanNext(x: State, y: State, account: Account, denom: Denom, scan: seq<nat>, i: nat)
    requires Inv(y) && i < |scan| && y == x.(open := x.open - Elements(scan[..i]))
    requires Elements(scan) == Touching(x.open, account, denom) && Increasing(scan, NatLess)
    ensures scan[i] in y.open
    ensures Cancel(y, account, y.open[scan[i]].record.id) == Some(x.(open := x.open - Elements(scan[..i + 1])))
  {
    hide Inv, Cancel;
    var q := scan[i];
    assert q in Elements(scan);
    forall j | 0 <= j < i ensures scan[j] != q {
      assert NatLess(scan[j], scan[i]);
    }
    assert q !in Elements(scan[..i]);
    CancelOwn(y, account, y.open[q].record.id, q);
    assert Elements(scan[..i + 1]) == Elements(scan[..i]) + {q};
    assert y.open - {q} == x.open - Elements(scan[..i + 1]);
  }

  ghost function DueByTime(open: map<nat, OpenOrder>, time: nat): set<nat> {
    set q | q in open && ExpiresByTime(open[q]) && Unix(open[q].goodTil.value.time.value) * NANOS <= time
  }

  ghost function DueByHeight(open: map<nat, OpenOrder>, height: nat): set<nat> {
    set q | q in open && ExpiresByHeight(open[q]) && open[q].goodTil.value.height < height
  }

  /** The orders that the given items cancel. */
  ghost function Executed(items: Items, keys: seq<ItemKey>): set<nat> {
    set k | k in keys && k in items :: items[k].sequence
  }

  /** Each item cancels an open order of its creator, and no two items cancel the same one. */
  ghost predicate Targets(items: Items, open: map<nat, OpenOrder>) {
    && (forall k | k in items :: items[k].sequence in open && items[k].creator == open[items[k].sequence].record.account)
    && (forall k, l | k in items && l in items && items[k].sequence == items[l].sequence :: k == l)
  }

  lemma TimeItemKeys(st: Store, x: State, whitelisting: set<Denom>)
    requires Inv(x) && Represents(st, x, whitelisting)
    ensures TimeItemsMatch(st.timeItems, x.open) && Targets(st.timeItems, x.open) && ItemKeys(st.timeItems.Keys)
  {
    hide Inv, OrdersMatch, RecordsMatch, IdsMatch, DenomsMatch, CountsMatch, TotalsMatch, HeightItemsMatch, Balanced, BookDataMatch, TimeItemID;
    forall q: nat ensures TimeItemID(q) != [] {
      NonEmptyItemIDs(q);
    }
  }

  lemma BlockItemKeys(st: Store, x: State, whitelisting: set<Denom>)
    requires Inv(x) && Represents(st, x, whitelisting)
    ensures HeightItemsMatch(st.blockItems, x.open) && Targets(st.blockItems, x.open) && ItemKeys(st.blockItems.Keys)
  {
    hide Inv, OrdersMatch, RecordsMatch, IdsMatch, DenomsMatch, CountsMatch, TotalsMatch, TimeItemsMatch, Balanced, BookDataMatch, HeightItemID;
    forall q: nat ensures HeightItemID(q) != [] {
      NonEmptyItemIDs(q);
    }
  }

  /** Ascending due times: what is due is a prefix. */
  ghost predicate Ascending(agenda: seq<ItemKey>) {
    forall i, j | 0 <= i < j < |agenda| :: agenda[i].when <= agenda[j].when
  }

  lemma AgendaOrdered(s: set<ItemKey>)
    requires ItemKeys(s)
    ensures Elements(Agenda(s)) == s && Ascending(Agenda(s))
    ensures forall j, k | 0 <= j < k < |Agenda(s)| :: Agenda(s)[j] != Agenda(s)[k]
  {
    hide Agenda, LexLess;
    AgendaSorted(s);
    forall j, k | 0 <= j < k < |Agenda(s)| ensures Agenda(s)[j] != Agenda(s)[k] {
      LexIrreflexive(Agenda(s)[j].id);
    }
  }

  lemma NextItem(items: Items, x: State, y: State, agenda: seq<ItemKey>, i: nat)
    requires Inv(y) && Targets(items, x.open) && i < |agenda| && y == x.(open := x.open - Executed(items, agenda[..i]))
    requires Elements(agenda) == items.Keys && forall j, k | 0 <= j < k < |agenda| :: agenda[j] != agenda[k]
    ensures agenda[i] in items
    ensures var c := items[agenda[i]];
            && c.sequence in y.open && c.sequence !in x.open - Executed(items, agenda[..i + 1])
            && Cancel(y, c.creator, y.open[c.sequence].record.id) == Some(x.(open := x.open - Executed(items, agenda[..i + 1])))
  {
    hide Inv, Cancel;
    assert agenda[i] in Elements(agenda);
    var c := items[agenda[i]];
    forall k | k in agenda[..i] && k in items ensures items[k].sequence != c.sequence {
    }
    CancelOwn(y, c.creator, y.open[c.sequence].record.id, c.sequence);
    assert agenda[..i + 1] == agenda[..i] + [agenda[i]];
    assert Executed(items, agenda[..i + 1]) == Executed(items, agenda[..i]) + {c.sequence};
    assert y.open - {c.sequence} == x.open - Executed(items, agenda[..i + 1]);
  }

  /** Cancelling the order has already removed the item. */
  lemma TimeItemGone(items: Items, open: map<nat, OpenOrder>, st: Store, y: State, key: ItemKey, whitelisting: set<Denom>)
    requires TimeItemsMatch(items, open) && Represents(st, y, whitelisting)
    requires key in items && items[key].sequence !in y.open
    ensures st.(timeItems := st.timeItems - {key}) == st
  {
    hide OrdersMatch, RecordsMatch, IdsMatch, DenomsMatch, CountsMatch, TotalsMatch, HeightItemsMatch, Balanced, BookDataMatch, TimeItemID;
    if key in st.timeItems {
      ItemIDsInjective(items[key].sequence, st.timeItems[key].sequence);
    }
  }

  lemma BlockItemGone(items: Items, open: map<nat, OpenOrder>, st: Store, y: State, key: ItemKey, whitelisting: set<Denom>)
    requires HeightItemsMatch(items, open) && Represents(st, y, whitelisting)
    requires key in items && items[key].sequence !in y.open
    ensures st.(blockItems := st.blockItems - {key}) == st
  {
    hide OrdersMatch, RecordsMatch, IdsMatch, DenomsMatch, CountsMatch, TotalsMatch, TimeItemsMatch, Balanced, BookDataMatch, HeightItemID;
    if key in st.blockItems {
      ItemIDsInjective(items[key].sequence, st.blockItems[key].sequence);
    }
  }

  /** Stopping at the first item that is not due executes exactly the expiries that are. */
  lemma TimesExecuted(items: Items, open: map<nat, OpenOrder>, agenda: seq<ItemKey>, i: nat, time: nat)
    requires TimeItemsMatch(items, open) && Elements(agenda) == items.Keys && Ascending(agenda) && i <= |agenda|
    requires forall j | 0 <= j < i :: agenda[j].when * NANOS <= time
    requires i < |agenda| ==> time < agenda[i].when * NANOS
    ensures Executed(items, agenda[..i]) == DueByTime(open, time)
  {
    hide TimeItemID;
    forall q | q in DueByTime(open, time) ensures q in Executed(items, agenda[..i]) {
      var k := TimeKey(open[q].goodTil.value, q);
      assert k in Elements(agenda);
      var j :| 0 <= j < |agenda| && agenda[j] == k;
      assert j < i;
      assert agenda[..i][j] == k;
    }
  }

  lemma HeightsExecuted(items: Items, open: map<nat, OpenOrder>, agenda: seq<ItemKey>, i: nat, height: nat)
    requires HeightItemsMatch(items, open) && Elements(agenda) == items.Keys && Ascending(agenda) && i <= |agenda|
    requires forall j | 0 <= j < i :: agenda[j].when < height
    requires i < |agenda| ==> height <= agenda[i].when
    ensures Executed(items, agenda[..i]) == DueByHeight(open, height)
  {
    hide HeightItemID;
    forall q | q in DueByHeight(open, height) ensures q in Executed(items, agenda[..i]) {
      var k := HeightKey(open[q].goodTil.value, q);
      assert k in Elements(agenda);
      var j :| 0 <= j < |agenda| && agenda[j] == k;
      assert j < i;
      assert agenda[..i][j] == k;
    }
  }

  /** Expiring by time and then by height is expiring everything that is due. */
  lemma ExpiringSplit(x: State, height: nat, time: nat)
    requires Inv(x)
    ensures var open := x.open - DueByTime(x.open, time);
            x.open - Expiring(x.open, height, time) == open - DueByHeight(open, height)
  {
    hide Resting, BooksPaired, Uncrossed, Alive, Unix;
  }

  // ----- starting, runs and the clock -----

  function Empty(params: Params): Store {
    Store(params, map[], 0, map[], 0, map[], map[], map[], map[], {}, {}, map[], map[], map[], map[], map[])
  }

  lemma EmptyRepresents(params: Params, whitelisting: set<Denom>)
    ensures Represents(Empty(params), Initial(params), whitelisting) && Initial(params).height == 0 && Initial(params).time == 0
  {
    hide Total;
    forall m, a, d ensures Total(m, map[], a, d, 1) == 0 {
      NothingOpen(m, a, d);
    }
  }

  lemma NothingOpen(m: Measure, a: Account, d: Denom)
    ensures Total(m, map[], a, d, 1) == 0
  {
    TotalExtend(m, map[], a, d, 0, 1);
  }

  lemma RunStep(x: State, ops: seq<Op>)
    requires Inv(x) && Feasible(x, ops)
    ensures ops == [] ==> Run(x, ops) == x && forall a, b, d :: RunPaid(x, ops, a, b, d) == 0
    ensures ops != [] ==> (&& Room(x, ops[0]) && Inv(Step(x, ops[0])) && Feasible(Step(x, ops[0]), ops[1..])
                           && Run(x, ops) == Run(Step(x, ops[0]), ops[1..])
                           && forall a, b, d :: RunPaid(x, ops, a, b, d) == StepPaid(x, ops[0], a, b, d) + RunPaid(Step(x, ops[0]), ops[1..], a, b, d))
  {
    hide Inv, Step, Room, StepPaid;
    if ops != [] {
      StepKeepsInv(x, ops[0]);
    }
  }

  lemma StepKeepsClock(x: State, op: Op)
    requires Inv(x)
    ensures !op.BeginBlockOp? ==> Step(x, op).height == x.height && Step(x, op).time == x.time
  {
    hide Inv, Place, ValidParams, Free, WithBooks;
    if op.PlaceOp? && Place(x, op.env, op.order).Some? {
      PlaceShape(x, op.env, op.order);
    }
  }

  /** What the store represents does not depend on the clock. */
  lemma ClockApart(st: Store, x: State, y: State, whitelisting: set<Denom>)
    requires Represents(st, x, whitelisting) && y == x.(height := y.height, time := y.time)
    ensures Represents(st, y, whitelisting)
  {
    hide Indexed, Balanced, BookDataMatch;
  }

  /** A placement keeps the state sound and its clock. */
  lemma PlacedSound(x: State, env: Env, o: Order)
    requires Inv(x) && Solvent(x) && Room(x, PlaceOp(env, o)) && Place(x, env, o).Some?
    ensures var y := Place(x, env, o).value; Inv(y) && Solvent(y) && y.height == x.height && y.time == x.time
  {
    hide Inv, Solvent, Place, Accepted, HasRoom, SettledFills, ApplyFills, Stays, PayFills, WithBooks;
    PlaceShape(x, env, o);
    PlaceKeepsInv(x, env, o);
    PlaceKeepsSolvent(x, env, o);
    RegisteredKeeps(x, o);
  }

  /** A placement that fails settles nothing. */
  lemma FailedPaysNothing(x: State, env: Env, o: Order)
    requires Inv(x)
    ensures Place(x, env, o).None? ==> forall a, b, d :: Paid(SettledFills(x, env, o), o, a, b, d) == 0
  {
    hide Inv, Place;
  }

  // ----- what a change of one part leaves alone -----

  /** Only indexes of open orders differ. */
  ghost predicate OnlyIndexes(a: Store, b: Store) {
    SameBooks(a, b) && a.locked == b.locked && a.expected == b.expected && a.funds == b.funds
  }

  /** Parameters, books, sequences and reserved IDs are the same. */
  ghost predicate SameBooks(a: Store, b: Store) {
    && a.books == b.books && a.bookSequence == b.bookSequence && a.bookData == b.bookData
    && a.orderSequence == b.orderSequence && a.reserved == b.reserved && a.params == b.params
  }

  lemma ParamsApart(before: Store, st: Store, x: State, whitelisting: set<Denom>)
    requires Represents(before, x, whitelisting) && st == before.(params := st.params)
    ensures Represents(st, x.(params := st.params), whitelisting)
  {
    hide OrdersMatch, RecordsMatch, IdsMatch, DenomsMatch, CountsMatch, TotalsMatch, TimeItemsMatch, HeightItemsMatch, ExpectedMatch, BookDataMatch, FundsMatch;
  }

  /** The ledgers in the store give the free funds. */
  lemma FreeInStore(st: Store, x: State, a: Account, d: Denom, whitelisting: set<Denom>)
    requires Represents(st, x, whitelisting)
    ensures Get(st.funds, (a, d)) - Get(st.locked, (a, d)) == Free(x, a, d)
  {
    hide Indexed, BookDataMatch, Total, ExpectedMatch;
  }

  lemma CreditOnRecord(before: Store, st: Store, x: State, a: Account, d: Denom, amount: int, whitelisting: set<Denom>)
    requires Represents(before, x, whitelisting) && 0 <= Get(before.funds, (a, d)) + amount
    requires st == before.(funds := SetBalance(before.funds, a, d, Get(before.funds, (a, d)) + amount))
    ensures Represents(st, Credit(x, a, d, amount), whitelisting)
  {
    hide OrdersMatch, RecordsMatch, IdsMatch, DenomsMatch, CountsMatch, TotalsMatch, TimeItemsMatch, HeightItemsMatch, ExpectedMatch, BookDataMatch;
  }

  /** Ledgers a store keeps stay balanced. */
  lemma BalancedApart(before: Store, st: Store, open: map<nat, OpenOrder>, n: nat, whitelisting: set<Denom>)
    requires Balanced(before, whitelisting, open, n) && before.locked == st.locked && before.expected == st.expected
    ensures Balanced(st, whitelisting, open, n)
  {
  }

  /** The indexes do not depend on the ledgers. */
  lemma LedgersApart(before: Store, st: Store, open: map<nat, OpenOrder>, n: nat)
    requires Indexed(before, open, n) && st == before.(locked := st.locked, expected := st.expected, funds := st.funds)
    ensures Indexed(st, open, n)
  {
  }

  // ----- looking up an order -----

  /** Cancelling by owner and ID is removing the one order under the sequence on record. */
  lemma CancelLookup(st: Store, x: State, account: Account, id: OrderID, whitelisting: set<Denom>)
    requires Inv(x) && Represents(st, x, whitelisting)
    ensures (account, id) in st.idToSequence <==> Cancel(x, account, id).Some?
    ensures (account, id) in st.idToSequence ==>
              var q := st.idToSequence[(account, id)];
              && q in x.open && q < x.sequence + 1 && Owns(x.open[q], account, id)
              && Cancel(x, account, id).value == x.(open := x.open - {q})
              && AllWellFormed(x.open) && BooksKnown(st.bookData, x.open)
              && var o := x.open[q];
                 && q in st.orders && st.orders[q] == o.Data()
                 && EntryKey(o.record.book, o.record.side, o.record.price, q) == EntryOf(o.record)
                 && EntryOf(o.record) in st.records && ToRecord(EntryOf(o.record), st.records[EntryOf(o.record)]) == o.record
                 && o.record.book in st.bookData && st.bookData[o.record.book] == (o.baseDenom, o.quoteDenom)
                 && SameBookEntry(o.record, o.record) && o.record.sequence == q
                 && 0 <= o.record.remaining && 0 < o.record.price.num
                 && ExpectedAmount(o.record.side, o.record.remaining, o.record.price) == Some(ExpectedOf(o.record) as int)
  {
    hide Inv, Represents, Cancel, Owns, WellFormed, BooksKnown, SameBookEntry, MulCeil, ExpectedOf;
    OwnerLookup(st, x, account, id, whitelisting);
    if (account, id) in st.idToSequence {
      var q := st.idToSequence[(account, id)];
      CancelOwn(x, account, id, q);
      OrderLookup(st, x, q, whitelisting);
    }
  }

  /** Open orders are found by owner and ID. */
  lemma OwnerLookup(st: Store, x: State, account: Account, id: OrderID, whitelisting: set<Denom>)
    requires Inv(x) && Represents(st, x, whitelisting)
    ensures (account, id) in st.idToSequence ==>
              var q := st.idToSequence[(account, id)]; q in x.open && Owns(x.open[q], account, id)
    ensures (account, id) !in st.idToSequence ==> Cancel(x, account, id) == None
  {
    hide Inv, OrdersMatch, RecordsMatch, DenomsMatch, CountsMatch, TotalsMatch, TimeItemsMatch, HeightItemsMatch, Balanced, BookDataMatch;
  }

  /** Everything on record about an open order. */
  lemma OrderLookup(st: Store, x: State, q: nat, whitelisting: set<Denom>)
    requires Inv(x) && Represents(st, x, whitelisting) && q in x.open
    ensures var o := x.open[q];
            && q < x.sequence + 1 && AllWellFormed(x.open) && BooksKnown(st.bookData, x.open)
            && q in st.orders && st.orders[q] == o.Data()
            && EntryKey(o.record.book, o.record.side, o.record.price, q) == EntryOf(o.record)
            && EntryOf(o.record) in st.records && ToRecord(EntryOf(o.record), st.records[EntryOf(o.record)]) == o.record
            && o.record.book in st.bookData && st.bookData[o.record.book] == (o.baseDenom, o.quoteDenom)
            && SameBookEntry(o.record, o.record) && o.record.sequence == q
            && 0 <= o.record.remaining && 0 < o.record.price.num
            && ExpectedAmount(o.record.side, o.record.remaining, o.record.price) == Some(ExpectedOf(o.record) as int)
  {
    hide CeilMul, MulCeil, ToRat, LexLess, Uncrossed, Alive, BooksPaired, IdsMatch, DenomsMatch, CountsMatch, TotalsMatch, TimeItemsMatch, HeightItemsMatch,
         Balanced, IsExecutableAsMaker;
    RestingAmounts(x.open[q].record);
  }

  /** The pair of every open order can be looked up by its book ID. */
  ghost predicate BooksKnown(data: map<nat, Pair>, open: map<nat, OpenOrder>) {
    forall q | q in open :: open[q].record.book in data && data[open[q].record.book] == (open[q].baseDenom, open[q].quoteDenom)
  }

  // ----- indexes and delayed items of one order -----

  /** Everything a removal looks up is there. */
  lemma RemovalFacts(st: Store, open: map<nat, OpenOrder>, n: nat, record: Record)
    requires Indexed(st, open, n) && AllWellFormed(open) && BooksKnown(st.bookData, open)
    requires record.sequence in open && SameBookEntry(open[record.sequence].record, record)
    ensures var o := open[record.sequence];
            && record.sequence in st.orders && st.orders[record.sequence].goodTil == o.goodTil
            && (o.goodTil.Some? && o.goodTil.value.time.Some? ==> 0 <= o.goodTil.value.time.value)
            && record.book in st.bookData && st.bookData[record.book] == (o.baseDenom, o.quoteDenom)
            && o.baseDenom != o.quoteDenom && Joinable(o.baseDenom) && Joinable(o.quoteDenom)
            && EntryOf(record) == EntryOf(o.record) && record.account == o.record.account && record.id == o.record.id
  {
    hide Resting, RecordsMatch, IdsMatch, DenomsMatch, CountsMatch, TotalsMatch, TimeItemsMatch, HeightItemsMatch, Joinable;
  }

  lemma NewOrderFacts(o: OpenOrder, q: nat)
    requires WellFormed(o, q)
    ensures o.baseDenom != o.quoteDenom && Joinable(o.baseDenom) && Joinable(o.quoteDenom) && Schedulable(o.goodTil)
  {
  }

  /** An order without a good-til adds nothing to the delayed items and takes nothing off. */
  lemma NothingDelayed(blockItems: Items, timeItems: Items, creator: Account, sequence: nat)
    ensures blockItems + HeightItem(None, creator, sequence) == blockItems && timeItems + TimeItem(None, creator, sequence) == timeItems
    ensures blockItems - HeightKeys(None, sequence) == blockItems && timeItems - TimeKeys(None, sequence) == timeItems
  {
  }

  lemma NonEmptyItemIDs(sequence: nat)
    ensures HeightItemID(sequence) != [] && TimeItemID(sequence) != []
  {
  }

  /** An expiry is scheduled under one key: its height, or failing that its time. */
  lemma ScheduledItems(g: GoodTil, creator: Account, sequence: nat, blockItems: Items, timeItems: Items)
    ensures var hs, ts := HeightItem(Some(g), creator, sequence), TimeItem(Some(g), creator, sequence);
            var c := CancelGoodTil(creator, sequence);
            if 0 < g.height then
              && ts == map[] && timeItems + ts == timeItems && ts.Keys !! timeItems.Keys
              && (hs.Keys !! blockItems.Keys <==> HeightKey(g, sequence) !in blockItems)
              && blockItems + hs == blockItems[HeightKey(g, sequence) := c]
            else
              && hs == map[] && blockItems + hs == blockItems && hs.Keys !! blockItems.Keys
              && if g.time.Some? && 0 <= g.time.value then
                   && (ts.Keys !! timeItems.Keys <==> TimeKey(g, sequence) !in timeItems)
                   && timeItems + ts == timeItems[TimeKey(g, sequence) := c]
                 else ts == map[] && timeItems + ts == timeItems && ts.Keys !! timeItems.Keys
  {
    hide HeightKey, TimeKey;
  }

  // ----- books and their data -----

  /** Fresh IDs for a new pair keep the book data the inverse of the book IDs. */
  lemma NewPairData(books: map<Pair, nat>, data: map<nat, Pair>, n: nat, a: Denom, b: Denom)
    requires BooksPaired(books, n) && BookDataMatch(books, data) && a != b && (a, b) !in books
    ensures BookDataMatch(books[(a, b) := n + 1][(b, a) := n + 2], data[n + 1 := (a, b)][n + 2 := (b, a)])
  {
    hide LexLess;
  }

  /** Where the books of a pair are found, or how they are generated. */
  lemma PairLookup(books: map<Pair, nat>, n: nat, base: Denom, quote: Denom)
    requires BooksPaired(books, n) && base != quote && Joinable(base) && Joinable(quote)
    ensures var (d0, d1) := if LexLess(base, quote) then (base, quote) else (quote, base);
            && WithBooks(books, n, base, quote) ==
               (if (d0, d1) in books then (books, n) else (books[(d0, d1) := n + 1][(d1, d0) := n + 2], n + 2))
            && ((d0, d1) in books ==> (d1, d0) in books && books[(d1, d0)] == books[(d0, d1)] + 1)
  {
    hide LexLess;
    LexTotal(base, quote);
    WithBooksPaired(books, n, base, quote);
  }

  /** The IDs of an order's book and of its inverse book. */
  ghost predicate PairBooks(y: State, o: Order, book: nat, inverted: nat) {
    && (o.baseDenom, o.quoteDenom) in y.books && y.books[(o.baseDenom, o.quoteDenom)] == book
    && (o.quoteDenom, o.baseDenom) in y.books && y.books[(o.quoteDenom, o.baseDenom)] == inverted
  }

  /** Book IDs lead back to the denoms of every open order and of the new one. */
  lemma PairsKnown(x: State, env: Env, o: Order, data: map<nat, Pair>)
    requires Placing(x, env, o) && BookDataMatch(Registered(x, o).books, data)
    ensures BooksKnown(data, x.open)
    ensures TakerOf(x, env, o).book in data && data[TakerOf(x, env, o).book] == (o.baseDenom, o.quoteDenom)
  {
    hide WellFormed, WithBooks, Uncrossed, Alive, BooksPaired, Accepted, TakerOf;
    RegisteredInv(x, env, o);
  }

  // ----- reading the makers -----

  /** Everything on one side can be offered to a finder. */
  lemma StreamsOffered(records: map<EntryKey, EntryData>, book: nat, side: Side)
    requires OneSide(SideRecords(records, book, side), side)
    ensures var listing := SideListing(SideRecords(records, book, side), side);
            && AllCanonical(listing) && Offers(Queue(side, listing), side)
            && (forall r | r in Queue(side, listing) :: r in SideRecords(records, book, side))
  {
    hide Canonical, SideListing, Queue, SideRecords, Ahead;
    var s := SideRecords(records, book, side);
    var listing := SideListing(s, side);
    QueueSorted(side, side, s);
    SideListingElements(s, side);
    forall r | r in Queue(side, listing) ensures r in s {
      assert r in Elements(Queue(side, listing));
    }
    forall r | r in listing ensures r in s {
      assert r in Elements(listing);
    }
  }

  lemma SideListingElements(s: set<Record>, side: Side)
    requires OneSide(s, side)
    ensures Elements(SideListing(s, side)) == s
  {
    hide KeyLess, Storable;
    KeyLessTotal(s);
    ListingFacts(s, KeyLess);
  }

  lemma MatchedFold(x: State, env: Env, o: Order, book: nat)
    requires AllWellFormed(x.open) && ValidOrder(o) && TakerOf(x, env, o).book == book
    ensures InitialBalance(o, env.spendable).Some?
    ensures var taker := ConvertOrderToRecord(o.creator, book, o, x.sequence + 1, InitialBalance(o, env.spendable).value);
            && taker.side == o.side && Ready(taker, Makers(x.open, o))
            && Matched(x, env, o) == MatchAll(taker, Makers(x.open, o))
  {
    hide WellFormed, ValidOrder, Makers, MatchAll, Ready, InitialBalance, WithBooks;
    TakerReady(x.open, o, book, x.sequence + 1, env.spendable);
  }

  lemma ReservesPositive(orders: map<nat, OrderData>, open: map<nat, OpenOrder>)
    requires OrdersMatch(orders, open) && AllWellFormed(open)
    ensures PositiveReserves(orders) && DataOf(orders, open)
  {
    hide Resting;
  }

  /** The data of every maker is on record. */
  lemma MatchedDataKnown(x: State, env: Env, o: Order, orders: map<nat, OrderData>)
    requires AllWellFormed(x.open) && ValidOrder(o) && OrdersMatch(orders, x.open)
    ensures DataKnown(Matched(x, env, o).fills, orders)
  {
    hide WellFormed, ValidOrder, Matched, GoodFill;
    MatchedFills(x, env, o);
  }

  // ----- entering a placement -----

  ghost predicate Placing(x: State, env: Env, o: Order) {
    Inv(x) && HasRoom(x, o) && Accepted(x, env, o)
  }

  lemma PlacingFacts(x: State, env: Env, o: Order)
    requires Placing(x, env, o)
    ensures Inv(x) && AllWellFormed(x.open) && ValidOrder(o) && Registered(x, o).sequence == x.sequence + 1
    ensures Registered(x, o).params == x.params && Registered(x, o).funds == x.funds
    ensures (o.orderType.Limit? ==> o.price.Some?) && o.baseDenom != o.quoteDenom
  {
  }

  lemma ValidOrderFacts(o: Order)
    requires ValidOrder(o)
    ensures !o.orderType.UnspecifiedType? && (o.orderType.Limit? ==> o.price.Some? && !o.timeInForce.UnspecifiedTime?)
    ensures o.orderType.Market? ==> o.timeInForce.IOC?
    ensures o.baseDenom != o.quoteDenom
  {
  }

  lemma EnrollFacts(x: State, env: Env, o: Order)
    requires Inv(x) && Validated(x.params, x.height, x.time, env, o)
    ensures BooksPaired(x.books, x.bookSequence) && o.baseDenom != o.quoteDenom
  {
  }

  lemma NotAccepted(x: State, env: Env, o: Order)
    requires Inv(x)
    ensures !Accepted(x, env, o) ==> Place(x, env, o) == None
  {
  }

  /** An ID that was not reserved belongs to no open order. */
  lemma UnusedID(st: Store, x: State, o: Order, whitelisting: set<Denom>)
    requires Inv(x) && (o.creator, o.id) !in x.reserved && Represents(st, x, whitelisting)
    ensures (o.creator, o.id) !in st.idToSequence
  {
    hide WellFormed, BooksPaired, Uncrossed, Alive, TotalsMatch, Balanced, BookDataMatch, DenomsMatch, RecordsMatch, TimeItemsMatch, HeightItemsMatch;
  }

  /** The store after the ID and the books are registered, the sequence not yet. */
  lemma Enrolled(x: State, o: Order, st: Store, st': Store, whitelisting: set<Denom>)
    requires Represents(st, x, whitelisting)
    requires var (books, n) := WithBooks(x.books, x.bookSequence, o.baseDenom, o.quoteDenom);
             && st' == st.(reserved := st.reserved + {(o.creator, o.id)}, books := books, bookSequence := n, bookData := st'.bookData)
             && BookDataMatch(books, st'.bookData)
    ensures Represents(st', Registered(x, o).(sequence := x.sequence), whitelisting)
  {
    hide OrdersMatch, RecordsMatch, IdsMatch, DenomsMatch, CountsMatch, TotalsMatch, TimeItemsMatch, HeightItemsMatch, ExpectedMatch, BookDataMatch, WithBooks;
  }

  lemma EnrolledFacts(x: State, o: Order, st: Store, whitelisting: set<Denom>)
    requires Represents(st, Registered(x, o).(sequence := x.sequence), whitelisting)
    ensures OrdersMatch(st.orders, x.open) && RecordsMatch(st.records, x.open) && st.orderSequence == x.sequence
  {
  }

  /** Drawing the next sequence number changes no total. */
  lemma NextSequence(x: State, env: Env, o: Order, st: Store, whitelisting: set<Denom>)
    requires Placing(x, env, o) && Represents(st, Registered(x, o).(sequence := x.sequence), whitelisting)
    ensures Represents(st.(orderSequence := x.sequence + 1), Registered(x, o), whitelisting)
  {
    hide WellFormed, Uncrossed, Alive, Accepted, BooksPaired, OrdersMatch, RecordsMatch, IdsMatch, DenomsMatch, TimeItemsMatch,
         HeightItemsMatch, Total, WithBooks, BookDataMatch;
    var n := x.sequence + 1;
    forall m, a, d ensures Total(m, x.open, a, d, n + 1) == Total(m, x.open, a, d, n) {
      TotalExtend(m, x.open, a, d, n, n + 1);
    }
  }

  /** How a placement that is accepted ends. */
  lemma PlaceCases(x: State, env: Env, o: Order)
    requires Placing(x, env, o)
    ensures AllWellFormed(x.open) && ValidOrder(o)
    ensures var out, y := Matched(x, env, o), Registered(x, o);
            if Killed(o, out) then Place(x, env, o) == Some(y)
            else if Rests(o, out) then
              && LockedAmount(o.side, out.taker.remaining, out.taker.price).Some?
              && Place(x, env, o) ==
                 if CreateAllowed(x, o) && Admitted(x, env, o, out)
                 then Some(PayFills(y, out.fills, o).(open := ApplyFills(x.open, out.fills)[y.sequence := RestingOrder(x.params, o, out.taker)]))
                 else None
            else
              Place(x, env, o) ==
              if Spent(out.fills) == 0 then Some(y)
              else if Admitted(x, env, o, out) then Some(PayFills(y, out.fills, o).(open := ApplyFills(x.open, out.fills)))
              else None
    ensures SettledFills(x, env, o) ==
            if Place(x, env, o).None? || Killed(o, Matched(x, env, o)) || (!Rests(o, Matched(x, env, o)) && Spent(Matched(x, env, o).fills) == 0)
            then [] else Matched(x, env, o).fills
  {
    hide Inv, PayFills, Admitted, Matched, ApplyFills, CreateAllowed, Spent, Registered, RestingOrder, IsExecutableAsMaker, MulCeil, ValidOrder;
    InvWellFormed(x);
    AcceptedIsValid(x, env, o);
    if Rests(o, Matched(x, env, o)) {
      RestingLocked(x, env, o);
    }
  }

  // ----- settling a placement -----

  /** The result object holds the outcome of the matching. */
  ghost predicate MatchedBy(mr: MatchingResult, x: State, env: Env, o: Order, orders: map<nat, OrderData>)
    requires Placing(x, env, o)
    reads mr
  {
    var out := Matched(x, env, o);
    && GoodFills(out.fills) && ResultReflects(mr, out.fills, o, orders)
    && mr.takerIsFilled == out.filled && mr.takerRecord == out.taker
  }

  lemma PlacementBatch(x: State, env: Env, o: Order, st: Store, rest: Option<OpenOrder>, whitelisting: set<Denom>)
    requires Placing(x, env, o) && Represents(st, Registered(x, o), whitelisting)
    requires rest.Some? ==> (&& WellFormed(rest.value, x.sequence + 1)
                             && rest.value.baseDenom == o.baseDenom && rest.value.quoteDenom == o.quoteDenom
                             && rest.value.record.book == TakerOf(x, env, o).book)
    ensures var b := Batch(x.open, Matched(x, env, o).fills, o, st.orders, rest, x.sequence + 1, x.sequence + 2);
            && GoodBatch(b) && BooksKnown(st.bookData, Before(b)) && (rest.Some? ==> Before(b) == x.open[x.sequence + 1 := rest.value])
            && After(b) == Joined(ApplyFills(x.open, Matched(x, env, o).fills), rest, x.sequence + 1)
  {
    hide Placing, Inv, Indexed, Balanced, WellFormed, Matched, ApplyFills, GoodFill, CounterFills, BookDataMatch, TakerOf, FillsOf, GoodFills;
    PlacingFacts(x, env, o);
    MatchedFills(x, env, o);
    MatchedClosed(x, env, o);
    IndexedData(st, x.open, x.sequence + 2);
    SequencesBounded(x);
    PairsKnown(x, env, o, st.bookData);
  }

  lemma IndexedData(st: Store, open: map<nat, OpenOrder>, n: nat)
    requires Indexed(st, open, n)
    ensures DataOf(st.orders, open)
  {
  }

  lemma MatchedClosed(x: State, env: Env, o: Order)
    requires AllWellFormed(x.open) && ValidOrder(o)
    ensures var fills := Matched(x, env, o).fills; forall i | 0 <= i < |fills| - 1 :: fills[i].closed
  {
    hide WellFormed, ValidOrder, Makers, MatchAll, Ready, GoodFill;
    var taker := TakerOf(x, env, o);
    TakerReady(x.open, o, taker.book, taker.sequence, env.spendable);
    OnlyLastStaysOpen(taker, Makers(x.open, o));
  }

  lemma RemovedNext(open: map<nat, OpenOrder>, records: seq<Record>, i: nat)
    requires RemovalsOf(open, records) && i < |records| && AllWellFormed(open)
    ensures var rest, q := open - Sequences(records[..i]), records[i].sequence;
            && q in rest && rest[q] == open[q] && SameBookEntry(rest[q].record, records[i]) && AllWellFormed(rest)
            && rest - {q} == open - Sequences(records[..i + 1])
            && forall p | p in rest :: p in open && rest[p] == open[p]
  {
    hide WellFormed, SameBookEntry;
    assert records[..i + 1] == records[..i] + [records[i]];
    assert Sequences(records[..i + 1]) == Sequences(records[..i]) + {records[i].sequence};
  }

  /** What settling a batch does to the open orders, in the two steps of the keeper. */
  lemma BatchRemovals(b: Batch)
    requires GoodBatch(b)
    ensures var open, rest := Before(b), Before(b) - Sequences(ClosedRecords(b.fills));
            && AllWellFormed(open) && AllWellFormed(rest) && RemovalsOf(open, ClosedRecords(b.fills))
            && (forall q | q in open :: q < b.n)
            && (forall q | q in rest :: q in open)
            && match UpdatedRecord(b.fills)
               case None => After(b) == rest
               case Some(r) => && r.sequence in rest && SameBookEntry(rest[r.sequence].record, r)
                               && After(b) == rest[r.sequence := rest[r.sequence].(record := r)]
  {
    hide WellFormed, ClosedRecords, ApplyFills, SameBookEntry, GoodFill, RemovalsOf, IsCounter;
    var open := Before(b);
    if b.rest.Some? {
      AppliedBesideNew(b.open, b.fills, b.q, b.rest.value);
    }
    assert FillsOf(open, b.fills) && ApplyFills(open, b.fills) == After(b);
    ClosedRemovals(open, b.fills);
    SettledIsApplied(open, b.fills);
  }

  lemma SettlingCarries(mr: MatchingResult, x: State, env: Env, o: Order, st: Store, whitelisting: set<Denom>)
    requires Placing(x, env, o) && MatchedBy(mr, x, env, o, st.orders)
    ensures var b := Batch(x.open, Matched(x, env, o).fills, o, st.orders, None, x.sequence + 1, x.sequence + 2);
            && GoodFills(b.fills) && Carries(mr.ftActions, b)
            && mr.recordsToRemove == ClosedRecords(b.fills) && mr.recordToUpdate == UpdatedRecord(b.fills)
            && (mr.ftActions.creatorExpectedToSpend.None? <==> Spent(b.fills) == 0)
  {
    hide Placing, Matched, Sum, GoodFill, Unlocked, Unexpected, ClosedRecords, UpdatedRecord, Spent, Received, Paid, SentBetween;
    forall a, d ensures Sum([], a, d) == 0 {
      SumOfNothing(a, d);
    }
  }

  lemma BearableIsPositive(ledger: Ledger, plus: seq<AccountCoin>, minus: seq<AccountCoin>, only: Option<set<Denom>>)
    ensures Bearable(ledger, plus, minus, only) ==> Positive(plus) && Positive(minus)
  {
  }

  /** The bank transfers grew by exactly what the fills make the parties pay each other. */
  ghost predicate Transferred(before: seq<CoinToSend>, after: seq<CoinToSend>, fills: seq<Fill>, order: Order) {
    forall a, b, d :: SentBetween(after, a, b, d) == SentBetween(before, a, b, d) + Paid(fills, order, a, b, d)
  }

  lemma NothingTransferred(before: seq<CoinToSend>, order: Order)
    ensures Transferred(before, before, [], order)
  {
  }

  lemma SettlingTransfers(mr: MatchingResult, x: State, env: Env, o: Order, orders: map<nat, OrderData>, before: seq<CoinToSend>)
    requires Placing(x, env, o) && MatchedBy(mr, x, env, o, orders)
    ensures Transferred(before, before + mr.ftActions.send, Matched(x, env, o).fills, o)
  {
    hide Placing, Matched, Sum, GoodFill, Unlocked, Unexpected, ClosedRecords, UpdatedRecord, Spent, Received, Paid, SentBetween;
    PlacingFacts(x, env, o);
    forall a, b, d
      ensures SentBetween(before + mr.ftActions.send, a, b, d) == SentBetween(before, a, b, d) + Paid(Matched(x, env, o).fills, o, a, b, d)
    {
      SentTogether(before, mr.ftActions.send, a, b, d);
    }
  }

  // ----- funds of a placement -----

  /** The ledgers in the store give the free funds of the state before the placement. */
  lemma FreeOnRecord(x: State, env: Env, o: Order, st: Store, whitelisting: set<Denom>, a: Account, d: Denom)
    requires Placing(x, env, o) && Represents(st, Registered(x, o), whitelisting)
    ensures Get(st.funds, (a, d)) - Get(st.locked, (a, d)) == Free(x, a, d) && Get(st.funds, (a, d)) == Funds(x, a, d)
  {
    hide Placing, Inv, Indexed, BookDataMatch, Total, WithBooks, ExpectedMatch;
    PlacingFacts(x, env, o);
    SequencesBounded(x);
    TotalExtend(Locked, x.open, a, d, x.sequence + 1, x.sequence + 2);
  }

  /** A matching of which nothing rests passes the funds checks exactly if it is affordable. */
  lemma SpendAffordable(mr: MatchingResult, x: State, env: Env, o: Order, st: Store, whitelisting: set<Denom>)
    requires Placing(x, env, o) && Represents(st, Registered(x, o), whitelisting) && MatchedBy(mr, x, env, o, st.orders)
    requires Spent(Matched(x, env, o).fills) != 0 && !Rests(o, Matched(x, env, o))
    ensures mr.ftActions.creatorExpectedToSpend.Some? && mr.takerAddress == o.creator
    ensures (&& SpendFits(st.locked, st.funds, o.creator, mr.ftActions.creatorExpectedToSpend.value)
             && Fits(st.locked, st.funds, mr.ftActions.increaseLocked))
       <==> Affordable(x, o, Matched(x, env, o))
  {
    hide Placing, Represents, Matched, Rests, Spent, Received, Unlocked, Unexpected, Paid, SentBetween, Sum, Free, GoodFill, Outgoing, Incoming, PaidBy, PaidTo;
    FreeOnRecord(x, env, o, st, whitelisting, o.creator, o.SpendDenom());
  }

  /** So does a matching of which something rests. */
  lemma RestAffordable(x: State, env: Env, o: Order, st: Store, actions: DEXActions, whitelisting: set<Denom>)
    requires Placing(x, env, o) && Represents(st, Registered(x, o), whitelisting) && Rests(o, Matched(x, env, o))
    requires GoodFills(Matched(x, env, o).fills) && Reflects(actions, Matched(x, env, o).fills, o, st.orders)
    ensures LockedAmount(o.side, Matched(x, env, o).taker.remaining, Matched(x, env, o).taker.price).Some?
    ensures var r := RestingOrder(x.params, o, Matched(x, env, o).taker);
            && 0 <= r.record.remaining && 0 < r.record.price.num
            && var y := WithTakerLimits(actions, o.creator, Coin(o.SpendDenom(), r.record.spendable),
                                        Coin(o.ReceiveDenom(), ExpectedOf(r.record)), x.params.orderReserve);
               && y.creatorExpectedToSpend == Some(Coin(o.SpendDenom(), Spent(Matched(x, env, o).fills) + r.record.spendable))
               && y.send == actions.send
               && ((&& SpendFits(st.locked, st.funds, o.creator, y.creatorExpectedToSpend.value)
                    && Fits(st.locked, st.funds, y.increaseLocked))
                   <==> Affordable(x, o, Matched(x, env, o)))
  {
    hide Placing, Represents, Matched, Rests, Spent, Free, GoodFill, Reflects, WithTakerLimits, RestLocks, MulCeil, ExpectedOf, RestingOrder, Resting,
         Owns, Fits;
    PlacingFacts(x, env, o);
    RestingFacts(x, env, o);
    var r := RestingOrder(x.params, o, Matched(x, env, o).taker);
    WellFormedPledge(r, x.sequence + 1);
    SpentNonNegative(Matched(x, env, o).fills);
    var spend, reserve := Coin(o.SpendDenom(), r.record.spendable), x.params.orderReserve;
    FreeOnRecord(x, env, o, st, whitelisting, o.creator, spend.denom);
    FreeOnRecord(x, env, o, st, whitelisting, o.creator, reserve.denom);
    LimitsFit(actions, Matched(x, env, o).fills, o, st.orders, spend, Coin(o.ReceiveDenom(), ExpectedOf(r.record)), reserve, st.locked, st.funds);
    RestLocksIs(x, env, o);
  }

  lemma RestLocksIs(x: State, env: Env, o: Order)
    requires Placing(x, env, o) && Rests(o, Matched(x, env, o))
    ensures LockedAmount(o.side, Matched(x, env, o).taker.remaining, Matched(x, env, o).taker.price).Some?
    ensures RestLocks(o, Matched(x, env, o)) == RestingOrder(x.params, o, Matched(x, env, o).taker).record.spendable
  {
    hide Matched, Rests, MulCeil, Resting, Owns, Inv;
    PlacingFacts(x, env, o);
    RestingFacts(x, env, o);
  }

  /** What the actions of an order that rests ask to be free. */
  lemma LimitsFit(actions: DEXActions, fills: seq<Fill>, o: Order, orders: map<nat, OrderData>, spend: Coin, expected: Coin, reserve: Coin,
                  locked: Ledger, funds: Ledger)
    requires GoodFills(fills) && Reflects(actions, fills, o, orders) && spend.denom == o.SpendDenom() && 0 < spend.amount
    ensures var y := WithTakerLimits(actions, o.creator, spend, expected, reserve);
            var a, c, r := o.creator, spend, reserve;
            && y.creatorExpectedToSpend == Some(Coin(c.denom, Spent(fills) + c.amount)) && y.send == actions.send
            && (Fits(locked, funds, y.increaseLocked) <==>
                  if 0 < r.amount && c.denom == r.denom then Get(locked, (a, c.denom)) + c.amount + r.amount <= Get(funds, (a, c.denom))
                  else && Get(locked, (a, c.denom)) + c.amount <= Get(funds, (a, c.denom))
                       && (0 < r.amount ==> Get(locked, (a, r.denom)) + r.amount <= Get(funds, (a, r.denom))))
  {
    hide Spent, Received, Unlocked, Unexpected, Paid, SentBetween, GoodFill, Outgoing, Incoming, PaidBy, PaidTo, Sum, Fits, PositiveSends, Positive;
    FitsOne(locked, funds, AccountCoin(o.creator, spend));
    if 0 < reserve.amount {
      FitsTwo(locked, funds, o.creator, spend, reserve);
    }
  }

  lemma WellFormedPledge(o: OpenOrder, q: nat)
    requires WellFormed(o, q)
    ensures 0 < o.record.spendable
  {
    hide CeilMul, ExpectedOf, ToRat;
    RestingAmounts(o.record);
  }

  lemma FitsOne(locked: Ledger, funds: Ledger, item: AccountCoin)
    requires 0 < item.coin.amount
    ensures AppendOrAdd([], item) == [item]
    ensures Fits(locked, funds, [item])
       <==> Get(locked, (item.account, item.coin.denom)) + item.coin.amount <= Get(funds, (item.account, item.coin.denom))
  {
    var items := [item];
    assert items[0] == item && Sum(items[1..], item.account, item.coin.denom) == 0;
  }

  /** A balance and a reserve to be locked are checked together only if they share a denom. */
  lemma FitsTwo(locked: Ledger, funds: Ledger, a: Account, c: Coin, r: Coin)
    requires 0 < c.amount && 0 < r.amount
    ensures Fits(locked, funds, AppendOrAdd([AccountCoin(a, c)], AccountCoin(a, r)))
       <==> if c.denom == r.denom then Get(locked, (a, c.denom)) + c.amount + r.amount <= Get(funds, (a, c.denom))
            else Get(locked, (a, c.denom)) + c.amount <= Get(funds, (a, c.denom)) && Get(locked, (a, r.denom)) + r.amount <= Get(funds, (a, r.denom))
  {
    var first, second := AccountCoin(a, c), AccountCoin(a, r);
    if c.denom == r.denom {
      assert [first][1..] == [];
      FitsOne(locked, funds, AccountCoin(a, Coin(c.denom, c.amount + r.amount)));
    } else {
      FitsOne(locked, funds, second);
      var items := [first, second];
      assert [first][1..] == [] && items[1..] == [second] && items[0] == first && items[1] == second;
      assert AppendOrAdd([first], second) == items;
      assert Sum([second], a, c.denom) == 0 && Sum([second], a, r.denom) == r.amount by { assert [second][1..] == []; }
    }
  }

  /** In a solvent state makers have what they are to send, and the taker sends what it declares. */
  lemma PlacementCovered(x: State, env: Env, o: Order, st: Store, actions: DEXActions, spend: int, whitelisting: set<Denom>)
    requires Placing(x, env, o) && Solvent(x) && Represents(st, Registered(x, o), whitelisting)
    requires var fills := Matched(x, env, o).fills;
             && GoodFills(fills) && PositiveSends(actions.send) && Spent(fills) <= spend
             && forall a, d :: Outgoing(actions.send, a, d) == PaidBy(fills, o, a, d)
    requires actions.creatorExpectedToSpend == Some(Coin(o.SpendDenom(), spend))
    ensures SendsCovered(actions, o.creator, st.funds)
  {
    hide Placing, Inv, Represents, Matched, Total, Spent, GoodFill, Outgoing, PaidBy, PaidTo, Unpledged, PositiveSends, Free, IsCounter, ApplyFills, WellFormed;
    PlacingFacts(x, env, o);
    SequencesBounded(x);
    MatchedFills(x, env, o);
    var fills, n := Matched(x, env, o).fills, x.sequence + 1;
    ApplyFillsShape(x.open, fills);
    forall a, d ensures Outgoing(actions.send, a, d) <= if a == o.creator && d == o.SpendDenom() then spend else Get(st.funds, (a, d)) {
      FreeOnRecord(x, env, o, st, whitelisting, a, d);
      PaidFromPledges(fills, o, a, d);
      if a == o.creator && d == o.SpendDenom() {
        UnpledgedElsewhere(fills, o.ReceiveDenom(), a, d);
      }
      ApplyFillsTotals(Pledged, x.open, fills, DataFor(x.open), o, a, d, n);
      TotalNonNegative(Pledged, ApplyFills(x.open, fills), a, d, n);
      assert Total(Pledged, x.open, a, d, n) <= Funds(x, a, d);
    }
  }

  /** The transfers leave the funds the fills leave. */
  lemma FundsSettled(x: State, env: Env, o: Order, st: Store, sends: seq<CoinToSend>, whitelisting: set<Denom>)
    requires Placing(x, env, o) && Represents(st, Registered(x, o), whitelisting) && Sendable(st.funds, sends)
    requires var fills := Matched(x, env, o).fills;
             forall a, d :: Outgoing(sends, a, d) == PaidBy(fills, o, a, d) && Incoming(sends, a, d) == PaidTo(fills, o, a, d)
    ensures var y := PayFills(Registered(x, o), Matched(x, env, o).fills, o);
            y == Registered(x, o).(funds := y.funds) && FundsMatch(AfterSends(st.funds, sends), y.funds)
  {
    hide Placing, Inv, Represents, Matched, PayFills, Outgoing, Incoming, PaidBy, PaidTo, Sendable, Free, Registered;
    PlacingFacts(x, env, o);
    var y := PayFills(Registered(x, o), Matched(x, env, o).fills, o);
    PayFillsFunds(Registered(x, o), Matched(x, env, o).fills, o, o.creator, o.baseDenom);
    forall a, d ensures Get(AfterSends(st.funds, sends), (a, d)) == FundsIn(y.funds, a, d) {
      AfterSendsFlow(st.funds, sends, a, d);
      PayFillsFunds(Registered(x, o), Matched(x, env, o).fills, o, a, d);
      FreeOnRecord(x, env, o, st, whitelisting, a, d);
      assert Funds(y, a, d) == FundsIn(y.funds, a, d);
    }
  }

  lemma SettlingCovered(mr: MatchingResult, x: State, env: Env, o: Order, st: Store, whitelisting: set<Denom>)
    requires Placing(x, env, o) && Solvent(x) && Represents(st, Registered(x, o), whitelisting) && MatchedBy(mr, x, env, o, st.orders)
    requires Spent(Matched(x, env, o).fills) != 0
    ensures SendsCovered(mr.ftActions, o.creator, st.funds)
  {
    hide Placing, Solvent, Represents, Matched, Spent, Received, Unlocked, Unexpected, Paid, SentBetween, Sum, Positive, GoodFill, Outgoing, Incoming, PaidBy,
         PaidTo, PositiveSends, SendsCovered;
    PlacingFacts(x, env, o);
    PlacementCovered(x, env, o, st, mr.ftActions, Spent(Matched(x, env, o).fills), whitelisting);
  }

  lemma SettlingFunds(mr: MatchingResult, x: State, env: Env, o: Order, st: Store, whitelisting: set<Denom>)
    requires Placing(x, env, o) && Represents(st, Registered(x, o), whitelisting) && MatchedBy(mr, x, env, o, st.orders)
    requires Sendable(st.funds, mr.ftActions.send)
    ensures var y := PayFills(Registered(x, o), Matched(x, env, o).fills, o);
            y == Registered(x, o).(funds := y.funds) && FundsMatch(AfterSends(st.funds, mr.ftActions.send), y.funds)
  {
    hide Placing, Represents, Matched, Spent, Received, Unlocked, Unexpected, Paid, SentBetween, Sum, Positive, GoodFill, Outgoing, Incoming, PaidBy,
         PaidTo, PositiveSends, Sendable, PayFills, Registered;
    FundsSettled(x, env, o, st, mr.ftActions.send, whitelisting);
  }

  /** The actions for a matching of which something rests: covered, affordable as stated, and the transfers of the fills. */
  lemma RestingSettles(mr: MatchingResult, x: State, env: Env, o: Order, st: Store, whitelisting: set<Denom>)
    requires Placing(x, env, o) && Solvent(x) && Represents(st, Registered(x, o), whitelisting) && Rests(o, Matched(x, env, o))
    requires MatchedBy(mr, x, env, o, st.orders)
    ensures LockedAmount(o.side, Matched(x, env, o).taker.remaining, Matched(x, env, o).taker.price).Some?
    ensures var fills := Matched(x, env, o).fills;
            forall a, d :: Outgoing(mr.ftActions.send, a, d) == PaidBy(fills, o, a, d) && Incoming(mr.ftActions.send, a, d) == PaidTo(fills, o, a, d)
    ensures var r := RestingOrder(x.params, o, Matched(x, env, o).taker);
            && 0 <= r.record.remaining && 0 < r.record.price.num
            && var y := WithTakerLimits(mr.ftActions, o.creator, Coin(o.SpendDenom(), r.record.spendable),
                                        Coin(o.ReceiveDenom(), ExpectedOf(r.record)), x.params.orderReserve);
               && SendsCovered(y, o.creator, st.funds) && y.send == mr.ftActions.send
               && ((&& SpendFits(st.locked, st.funds, o.creator, y.creatorExpectedToSpend.value)
                    && Fits(st.locked, st.funds, y.increaseLocked))
                   <==> Affordable(x, o, Matched(x, env, o)))
  {
    hide Placing, Solvent, Represents, Matched, Spent, Received, Unlocked, Unexpected, Paid, SentBetween, Sum, Positive, GoodFill, Outgoing, Incoming, PaidBy,
         PaidTo, PositiveSends, SendsCovered, SpendFits, Fits, Affordable, WithTakerLimits, RestingOrder, ExpectedOf, MulCeil, WellFormed, Owns;
    PlacingFacts(x, env, o);
    RestingFacts(x, env, o);
    RestAffordable(x, env, o, st, mr.ftActions, whitelisting);
    var r := RestingOrder(x.params, o, Matched(x, env, o).taker);
    WellFormedPledge(r, x.sequence + 1);
    var y := WithTakerLimits(mr.ftActions, o.creator, Coin(o.SpendDenom(), r.record.spendable),
                             Coin(o.ReceiveDenom(), ExpectedOf(r.record)), x.params.orderReserve);
    PlacementCovered(x, env, o, st, y, Spent(Matched(x, env, o).fills) + r.record.spendable, whitelisting);
  }

  // ----- what rests of a placement -----

  /** What is left of an order that rests is a well-formed open order. */
  lemma RestingFacts(x: State, env: Env, o: Order)
    requires Placing(x, env, o) && Rests(o, Matched(x, env, o))
    ensures o.orderType.Limit? && o.timeInForce.GTC? && o.price.Some?
    ensures var taker := Matched(x, env, o).taker;
            && LockedAmount(o.side, taker.remaining, taker.price).Some?
            && var r := RestingOrder(x.params, o, taker);
               && WellFormed(r, x.sequence + 1) && 0 <= r.record.remaining && 0 < r.record.price.num
               && r == OpenOrder(r.record, o.baseDenom, o.quoteDenom, o.quantity, o.goodTil, ReserveFor(x.params))
               && r.record == taker.(spendable := LockedAmount(o.side, taker.remaining, taker.price).value)
               && r.record.price == o.price.value && r.record.side == o.side && r.record.id == o.id
               && r.record.account == o.creator && r.record.sequence == x.sequence + 1 && r.record.book == TakerOf(x, env, o).book
               && LockedAmount(o.side, taker.remaining, o.price.value) == Some(r.record.spendable)
               && ExpectedAmount(o.side, taker.remaining, o.price.value) == Some(ExpectedOf(r.record) as int)
               && x.sequence + 1 !in x.open
               && forall p | p in x.open :: !Owns(x.open[p], o.creator, o.id)
  {
    hide Matched, CeilMul, MulCeil, WithBooks, Uncrossed, IsExecutableAsMaker, ToRat, BooksPaired, Alive, Validated, TakerOf;
    PlacingFacts(x, env, o);
    RestingLocked(x, env, o);
    RestingWellFormed(x, env, o);
    RestingAmounts(RestingOrder(x.params, o, Matched(x, env, o).taker).record);
  }

  /** The counters in the store decide whether one more order is allowed. */
  lemma CountersAllow(x: State, env: Env, o: Order, st: Store, whitelisting: set<Denom>)
    requires Placing(x, env, o) && Represents(st, Registered(x, o), whitelisting)
    ensures CreateAllowed(x, o)
       <==> (&& Get(st.counts, (o.creator, o.baseDenom)) < x.params.maxOrdersPerDenom
             && Get(st.counts, (o.creator, o.quoteDenom)) < x.params.maxOrdersPerDenom)
  {
    hide WellFormed, Uncrossed, Alive, Accepted, BooksPaired, OrdersMatch, RecordsMatch, IdsMatch, DenomsMatch, TimeItemsMatch,
         HeightItemsMatch, Balanced, Total, WithBooks, BookDataMatch;
    var n := x.sequence + 1;
    TotalExtend(Count, x.open, o.creator, o.baseDenom, n, n + 1);
    TotalExtend(Count, x.open, o.creator, o.quoteDenom, n, n + 1);
  }

  /** Entering the resting order keeps every index right and touches nothing else. */
  lemma RestIndexed(x: State, env: Env, o: Order, st: Store, whitelisting: set<Denom>)
    requires Placing(x, env, o) && Rests(o, Matched(x, env, o)) && Represents(st, Registered(x, o), whitelisting)
    ensures LockedAmount(o.side, Matched(x, env, o).taker.remaining, Matched(x, env, o).taker.price).Some?
    ensures var r, q := RestingOrder(x.params, o, Matched(x, env, o).taker), x.sequence + 1;
            && TimeItemsMatch(st.timeItems, x.open) && HeightItemsMatch(st.blockItems, x.open)
            && Indexed(WithOrder(st, r, q), x.open[q := r], q + 1)
            && Balanced(WithOrder(st, r, q), whitelisting, x.open, q + 1)
            && OnlyIndexes(st, WithOrder(st, r, q)) && st.params == x.params
  {
    hide Placing, WellFormed, OrdersMatch, RecordsMatch, IdsMatch, DenomsMatch, CountsMatch, TotalsMatch, TimeItemsMatch, HeightItemsMatch, ExpectedMatch,
         BookDataMatch, WithBooks, Matched, Rests, Incremented, HeightItem, TimeItem, RestingOrder;
    PlacingFacts(x, env, o);
    RestingFacts(x, env, o);
    WithOrderIndexed(st, x.open, x.sequence + 2, RestingOrder(x.params, o, Matched(x, env, o).taker), x.sequence + 1);
  }

  lemma RestingCarries(mr: MatchingResult, x: State, env: Env, o: Order, st: Store, whitelisting: set<Denom>)
    requires Placing(x, env, o) && Rests(o, Matched(x, env, o)) && MatchedBy(mr, x, env, o, st.orders)
    ensures LockedAmount(o.side, Matched(x, env, o).taker.remaining, Matched(x, env, o).taker.price).Some?
    ensures var r := RestingOrder(x.params, o, Matched(x, env, o).taker);
            var b := Batch(x.open, Matched(x, env, o).fills, o, st.orders, Some(r), x.sequence + 1, x.sequence + 2);
            && GoodFills(b.fills) && 0 <= r.record.remaining && 0 < r.record.price.num
            && mr.recordsToRemove == ClosedRecords(b.fills) && mr.recordToUpdate == UpdatedRecord(b.fills)
            && mr.takerAddress == o.creator && mr.takerRecord == Matched(x, env, o).taker
            && var y := WithTakerLimits(mr.ftActions, o.creator, Coin(o.SpendDenom(), r.record.spendable),
                                        Coin(o.ReceiveDenom(), ExpectedOf(r.record)), x.params.orderReserve);
               Carries(y, b) && y.creatorExpectedToSpend.Some?
  {
    hide Placing, Matched, Sum, GoodFill, Unlocked, Unexpected, ClosedRecords, UpdatedRecord, Spent, Received, Paid, SentBetween,
         AppendOrAdd, CeilMul, ToRat, Weight, Positive, MulCeil, Rests, RestingOrder, Canonical, ExpectedOf;
    PlacingFacts(x, env, o);
    RestingFacts(x, env, o);
    var r := RestingOrder(x.params, o, Matched(x, env, o).taker);
    assert o.SpendDenom() == r.SpendDenom() && o.ReceiveDenom() == r.ReceiveDenom();
    var y := WithTakerLimits(mr.ftActions, o.creator, Coin(o.SpendDenom(), r.record.spendable),
                             Coin(o.ReceiveDenom(), ExpectedOf(r.record)), x.params.orderReserve);
    TakerLimitSums(mr.ftActions, r, x.params.orderReserve, o.creator, o.baseDenom);
    forall a, d ensures Sum(y.increaseLocked, a, d) == Weight(Locked, r, a, d)
                     && Sum(y.increaseExpectedToReceive, a, d) == Weight(Expected, r, a, d)
    {
      TakerLimitSums(mr.ftActions, r, x.params.orderReserve, a, d);
    }
  }
}
