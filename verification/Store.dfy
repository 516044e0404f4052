/**
 What the exchange keeps in the key-value store, and how all of it is determined
 by the set of open orders. Typed keys stand for the byte keys of x/dex/types/keys.go.
 */
module Store {
  import opened Bytes
  import opened Price
  import opened StoreKeys
  import opened Types
  import opened Ledgers
  import opened Orders
  import opened Exchange
  import opened Delay
  import opened Amounts
  import opened Priority
  import opened Finder

  datatype EntryKey = EntryKey(book: nat, side: Side, price: Price, sequence: nat)

  datatype EntryData = EntryData(id: OrderID, account: Account, remaining: int, spendable: int)

  /** The message executed when an order expires. */
  datatype CancelGoodTil = CancelGoodTil(creator: Account, sequence: nat)

  type Items = map<ItemKey, CancelGoodTil>

  datatype Store = Store(
    params: Params,                                 // 0x00
    books: map<Pair, nat>,                          // 0x01
    bookSequence: nat,                              // 0x02
    bookData: map<nat, Pair>,                       // 0x03
    orderSequence: nat,                             // 0x04
    orders: map<nat, OrderData>,                    // 0x05
    idToSequence: map<(Account, OrderID), nat>,     // 0x06
    records: map<EntryKey, EntryData>,              // 0x07
    counts: map<(Account, Denom), nat>,             // 0x09
    denomSequences: set<(Account, Denom, nat)>,     // 0x10
    reserved: set<(Account, OrderID)>,              // 0x11
    locked: Ledger,                                 // balances locked by the exchange, in the asset module
    expected: Ledger,                               // amounts expected to be received, in the asset module
    funds: Ledger,                                  // bank balances less what vesting locks
    timeItems: Items,                               // delayed items by time
    blockItems: Items                               // delayed items by height
  )

  function EntryOf(r: Record): EntryKey {
    EntryKey(r.book, r.side, r.price, r.sequence)
  }

  function DataOfRecord(r: Record): EntryData {
    EntryData(r.id, r.account, r.remaining, r.spendable)
  }

  function ToRecord(k: EntryKey, d: EntryData): Record {
    Record(k.book, k.side, k.price, k.sequence, d.id, d.account, d.remaining, d.spendable)
  }

  // ----- each index against the open orders -----

  ghost predicate OrdersMatch(orders: map<nat, OrderData>, open: map<nat, OpenOrder>) {
    && (forall q | q in open :: q in orders && orders[q] == open[q].Data())
    && (forall q | q in orders :: q in open)
  }

  ghost predicate RecordsMatch(records: map<EntryKey, EntryData>, open: map<nat, OpenOrder>) {
    && (forall q | q in open :: EntryOf(open[q].record) in records
                             && records[EntryOf(open[q].record)] == DataOfRecord(open[q].record))
    && (forall k | k in records :: k.sequence in open && EntryOf(open[k.sequence].record) == k)
  }

  ghost predicate IdsMatch(ids: map<(Account, OrderID), nat>, open: map<nat, OpenOrder>) {
    && (forall q | q in open :: (open[q].record.account, open[q].record.id) in ids
                             && ids[(open[q].record.account, open[q].record.id)] == q)
    && (forall a, i | (a, i) in ids :: ids[(a, i)] in open && Owns(open[ids[(a, i)]], a, i))
  }

  ghost predicate DenomsMatch(entries: set<(Account, Denom, nat)>, open: map<nat, OpenOrder>) {
    forall a: Account, d: Denom, q: nat :: (a, d, q) in entries <==> q in open && Touches(open[q], a, d)
  }

  /** A counter or ledger holds the totals over the open orders. */
  ghost predicate TotalsMatch(m: Measure, ledger: Ledger, open: map<nat, OpenOrder>, n: nat) {
    forall a, d :: Get(ledger, (a, d)) == Total(m, open, a, d, n)
  }

  ghost predicate CountsMatch(counts: map<(Account, Denom), nat>, open: map<nat, OpenOrder>, n: nat) {
    TotalsMatch(Count, counts, open, n) && forall a, d | (a, d) in counts :: Joinable(d)
  }

  /** Only denoms with whitelisting have their expected amounts recorded. */
  ghost predicate ExpectedMatch(ledger: Ledger, whitelisting: set<Denom>, open: map<nat, OpenOrder>, n: nat) {
    forall a, d :: Get(ledger, (a, d)) == if d in whitelisting then Total(Expected, open, a, d, n) else 0
  }

  // ----- scheduled expiries -----

  predicate ExpiresByHeight(o: OpenOrder) {
    o.goodTil.Some? && 0 < o.goodTil.value.height
  }

  predicate ExpiresByTime(o: OpenOrder) {
    o.goodTil.Some? && o.goodTil.value.height == 0 && o.goodTil.value.time.Some? && 0 <= o.goodTil.value.time.value
  }

  function HeightKey(g: GoodTil, q: nat): ItemKey {
    ItemKey(g.height, HeightItemID(q))
  }

  function TimeKey(g: GoodTil, q: nat): ItemKey
    requires g.time.Some? && 0 <= g.time.value
  {
    ItemKey(Unix(g.time.value), TimeItemID(q))
  }

  ghost predicate HeightItemsMatch(items: Items, open: map<nat, OpenOrder>) {
    && (forall q | q in open && ExpiresByHeight(open[q]) ::
          var k := HeightKey(open[q].goodTil.value, q);
          k in items && items[k] == CancelGoodTil(open[q].record.account, q))
    && (forall k | k in items ::
          var q := items[k].sequence;
          && q in open && ExpiresByHeight(open[q]) && k == HeightKey(open[q].goodTil.value, q)
          && items[k].creator == open[q].record.account)
  }

  ghost predicate TimeItemsMatch(items: Items, open: map<nat, OpenOrder>) {
    && (forall q | q in open && ExpiresByTime(open[q]) ::
          var k := TimeKey(open[q].goodTil.value, q);
          k in items && items[k] == CancelGoodTil(open[q].record.account, q))
    && (forall k | k in items ::
          var q := items[k].sequence;
          && q in open && ExpiresByTime(open[q]) && k == TimeKey(open[q].goodTil.value, q)
          && items[k].creator == open[q].record.account)
  }

  /** The book data index is the inverse of the book IDs. */
  ghost predicate BookDataMatch(books: map<Pair, nat>, data: map<nat, Pair>) {
    && (forall a, b | (a, b) in books :: books[(a, b)] in data && data[books[(a, b)]] == (a, b))
    && (forall i | i in data :: data[i] in books && books[data[i]] == i)
  }

  /** All indexes agree on the open orders; n bounds their sequences. */
  ghost predicate Indexed(st: Store, open: map<nat, OpenOrder>, n: nat) {
    && OrdersMatch(st.orders, open)
    && RecordsMatch(st.records, open)
    && IdsMatch(st.idToSequence, open)
    && DenomsMatch(st.denomSequences, open)
    && CountsMatch(st.counts, open, n)
    && TimeItemsMatch(st.timeItems, open)
    && HeightItemsMatch(st.blockItems, open)
  }

  ghost predicate Balanced(st: Store, whitelisting: set<Denom>, open: map<nat, OpenOrder>, n: nat) {
    && TotalsMatch(Locked, st.locked, open, n)
    && ExpectedMatch(st.expected, whitelisting, open, n)
  }

  ghost predicate FundsMatch(ledger: Ledger, funds: map<(Account, Denom), int>) {
    forall a, d :: Get(ledger, (a, d)) == FundsIn(funds, a, d)
  }

  /** The store holds exactly what the state determines. */
  ghost predicate Represents(st: Store, x: State, whitelisting: set<Denom>) {
    && st.books == x.books && st.bookSequence == x.bookSequence && BookDataMatch(st.books, st.bookData)
    && st.orderSequence == x.sequence && st.reserved == x.reserved && st.params == x.params && FundsMatch(st.funds, x.funds)
    && Indexed(st, x.open, x.sequence + 1)
    && Balanced(st, whitelisting, x.open, x.sequence + 1)
  }

  // ----- a new order -----

  lemma OrdersAdded(orders: map<nat, OrderData>, open: map<nat, OpenOrder>, q: nat, o: OpenOrder)
    requires OrdersMatch(orders, open)
    ensures OrdersMatch(orders[q := o.Data()], open[q := o])
  {
  }

  lemma RecordsAdded(records: map<EntryKey, EntryData>, open: map<nat, OpenOrder>, q: nat, o: OpenOrder)
    requires RecordsMatch(records, open) && q !in open && o.record.sequence == q && AllWellFormed(open)
    ensures RecordsMatch(records[EntryOf(o.record) := DataOfRecord(o.record)], open[q := o])
  {
    hide Resting;
  }

  lemma IdsAdded(ids: map<(Account, OrderID), nat>, open: map<nat, OpenOrder>, q: nat, o: OpenOrder)
    requires IdsMatch(ids, open) && q !in open && (o.record.account, o.record.id) !in ids
    ensures IdsMatch(ids[(o.record.account, o.record.id) := q], open[q := o])
  {
  }

  lemma DenomsAdded(entries: set<(Account, Denom, nat)>, open: map<nat, OpenOrder>, q: nat, o: OpenOrder)
    requires DenomsMatch(entries, open) && q !in open
    ensures var a := o.record.account;
            DenomsMatch(entries + {(a, o.baseDenom, q)} + {(a, o.quoteDenom, q)}, open[q := o])
  {
  }

  function Incremented(counts: map<(Account, Denom), nat>, a: Account, d: Denom): map<(Account, Denom), nat> {
    counts[(a, d) := Get(counts, (a, d)) + 1]
  }

  lemma CountsAdded(counts: map<(Account, Denom), nat>, open: map<nat, OpenOrder>, q: nat, o: OpenOrder, n: nat)
    requires CountsMatch(counts, open, n) && q !in open && q < n && o.baseDenom != o.quoteDenom && Joinable(o.baseDenom) && Joinable(o.quoteDenom)
    ensures var a := o.record.account;
            CountsMatch(Incremented(Incremented(counts, a, o.baseDenom), a, o.quoteDenom), open[q := o], n)
  {
    hide Total;
    forall a, d ensures Total(Count, open[q := o], a, d, n) == Total(Count, open, a, d, n) + Weight(Count, o, a, d) {
      TotalSet(Count, open, q, o, a, d, n);
    }
  }

  /** What an expiry adds to the items delayed by height: an item if it has a height. */
  function HeightItem(g: Option<GoodTil>, creator: Account, q: nat): Items {
    if g.Some? && 0 < g.value.height then map[HeightKey(g.value, q) := CancelGoodTil(creator, q)] else map[]
  }

  /** What an expiry adds to the items delayed by time: an item only if it has no height. */
  function TimeItem(g: Option<GoodTil>, creator: Account, q: nat): Items {
    if g.Some? && g.value.height == 0 && g.value.time.Some? && 0 <= g.value.time.value
    then map[TimeKey(g.value, q) := CancelGoodTil(creator, q)] else map[]
  }

  lemma HeightItemAdded(items: Items, open: map<nat, OpenOrder>, q: nat, o: OpenOrder)
    requires HeightItemsMatch(items, open) && q !in open
    ensures HeightItem(o.goodTil, o.record.account, q).Keys !! items.Keys
    ensures HeightItemsMatch(items + HeightItem(o.goodTil, o.record.account, q), open[q := o])
  {
    hide HeightItemID;
    forall p | p in open ensures HeightItemID(p) != HeightItemID(q) {
      ItemIDsInjective(p, q);
    }
  }

  lemma TimeItemAdded(items: Items, open: map<nat, OpenOrder>, q: nat, o: OpenOrder)
    requires TimeItemsMatch(items, open) && q !in open
    ensures TimeItem(o.goodTil, o.record.account, q).Keys !! items.Keys
    ensures TimeItemsMatch(items + TimeItem(o.goodTil, o.record.account, q), open[q := o])
  {
    hide TimeItemID;
    forall p | p in open ensures TimeItemID(p) != TimeItemID(q) {
      ItemIDsInjective(p, q);
    }
  }

  /** The store with a new order under sequence q in every index. */
  ghost function WithOrder(st: Store, o: OpenOrder, q: nat): Store {
    var a := o.record.account;
    st.(records := st.records[EntryOf(o.record) := DataOfRecord(o.record)],
        orders := st.orders[q := o.Data()],
        idToSequence := st.idToSequence[(a, o.record.id) := q],
        denomSequences := st.denomSequences + {(a, o.baseDenom, q)} + {(a, o.quoteDenom, q)},
        counts := Incremented(Incremented(st.counts, a, o.baseDenom), a, o.quoteDenom),
        blockItems := st.blockItems + HeightItem(o.goodTil, o.record.account, q),
        timeItems := st.timeItems + TimeItem(o.goodTil, o.record.account, q))
  }

  lemma WithOrderIndexed(st: Store, open: map<nat, OpenOrder>, n: nat, o: OpenOrder, q: nat)
    requires Indexed(st, open, n) && q !in open && q < n && AllWellFormed(open) && WellFormed(o, q)
    requires forall p | p in open :: !Owns(open[p], o.record.account, o.record.id)
    ensures Indexed(WithOrder(st, o, q), open[q := o], n)
  {
    hide OrdersMatch, RecordsMatch, DenomsMatch, CountsMatch, TimeItemsMatch, HeightItemsMatch, Incremented, HeightItem, TimeItem, Resting;
    OrdersAdded(st.orders, open, q, o);
    RecordsAdded(st.records, open, q, o);
    IdsAdded(st.idToSequence, open, q, o);
    DenomsAdded(st.denomSequences, open, q, o);
    CountsAdded(st.counts, open, q, o, n);
    HeightItemAdded(st.blockItems, open, q, o);
    TimeItemAdded(st.timeItems, open, q, o);
  }

  // ----- a closed order -----

  lemma OrdersRemoved(orders: map<nat, OrderData>, open: map<nat, OpenOrder>, q: nat)
    requires OrdersMatch(orders, open)
    ensures OrdersMatch(orders - {q}, open - {q})
  {
  }

  lemma RecordsRemoved(records: map<EntryKey, EntryData>, open: map<nat, OpenOrder>, q: nat)
    requires RecordsMatch(records, open) && q in open && AllWellFormed(open)
    ensures RecordsMatch(records - {EntryOf(open[q].record)}, open - {q})
  {
    hide Resting;
  }

  lemma IdsRemoved(ids: map<(Account, OrderID), nat>, open: map<nat, OpenOrder>, q: nat)
    requires IdsMatch(ids, open) && q in open
    ensures IdsMatch(ids - {(open[q].record.account, open[q].record.id)}, open - {q})
  {
  }

  lemma DenomsRemoved(entries: set<(Account, Denom, nat)>, open: map<nat, OpenOrder>, q: nat)
    requires DenomsMatch(entries, open) && q in open
    ensures var a := open[q].record.account;
            DenomsMatch(entries - {(a, open[q].baseDenom, q)} - {(a, open[q].quoteDenom, q)}, open - {q})
  {
  }

  function Decremented(counts: map<(Account, Denom), nat>, a: Account, d: Denom): map<(Account, Denom), nat>
    requires 0 < Get(counts, (a, d))
  {
    counts[(a, d) := Get(counts, (a, d)) - 1]
  }

  /** The counters of an open order's denoms are never zero, so closing it can always count down. */
  lemma CountsRemoved(counts: map<(Account, Denom), nat>, open: map<nat, OpenOrder>, q: nat, n: nat)
    requires CountsMatch(counts, open, n) && q in open && q < n && AllWellFormed(open)
    ensures var a := open[q].record.account;
            && 0 < Get(counts, (a, open[q].baseDenom)) && 0 < Get(counts, (a, open[q].quoteDenom))
            && open[q].baseDenom != open[q].quoteDenom
            && CountsMatch(Decremented(Decremented(counts, a, open[q].baseDenom), a, open[q].quoteDenom), open - {q}, n)
  {
    hide Total, Resting;
    var o := open[q];
    var a := o.record.account;
    TotalAtLeast(Count, open, q, a, o.baseDenom, n);
    TotalAtLeast(Count, open, q, a, o.quoteDenom, n);
    forall b, d ensures Total(Count, open - {q}, b, d, n) == Total(Count, open, b, d, n) - Weight(Count, o, b, d) {
      TotalRemove(Count, open, q, b, d, n);
    }
  }

  /** The keys under which an expiry of order q may be scheduled by height. */
  function HeightKeys(g: Option<GoodTil>, q: nat): set<ItemKey> {
    if g.Some? && 0 < g.value.height then {HeightKey(g.value, q)} else {}
  }

  function TimeKeys(g: Option<GoodTil>, q: nat): set<ItemKey> {
    if g.Some? && g.value.time.Some? && 0 <= g.value.time.value then {TimeKey(g.value, q)} else {}
  }

  lemma HeightItemRemoved(items: Items, open: map<nat, OpenOrder>, q: nat)
    requires HeightItemsMatch(items, open) && q in open
    ensures HeightItemsMatch(items - HeightKeys(open[q].goodTil, q), open - {q})
  {
    hide HeightItemID;
    forall p | p in open && p != q ensures HeightItemID(p) != HeightItemID(q) {
      ItemIDsInjective(p, q);
    }
  }

  /** Removing a time that was never scheduled, because a height took precedence, removes nothing. */
  lemma TimeItemRemoved(items: Items, open: map<nat, OpenOrder>, q: nat)
    requires TimeItemsMatch(items, open) && q in open
    ensures TimeItemsMatch(items - TimeKeys(open[q].goodTil, q), open - {q})
  {
    hide TimeItemID;
    forall p | p in open && p != q ensures TimeItemID(p) != TimeItemID(q) {
      ItemIDsInjective(p, q);
    }
  }

  /** The store with an order taken out of every index. */
  ghost function WithoutOrder(st: Store, o: OpenOrder, q: nat): Store
    requires 0 < Get(st.counts, (o.record.account, o.baseDenom)) && 0 < Get(st.counts, (o.record.account, o.quoteDenom))
    requires o.baseDenom != o.quoteDenom
  {
    var a := o.record.account;
    st.(records := st.records - {EntryOf(o.record)},
        orders := st.orders - {q},
        idToSequence := st.idToSequence - {(a, o.record.id)},
        denomSequences := st.denomSequences - {(a, o.baseDenom, q)} - {(a, o.quoteDenom, q)},
        counts := Decremented(Decremented(st.counts, a, o.baseDenom), a, o.quoteDenom),
        blockItems := st.blockItems - HeightKeys(o.goodTil, q),
        timeItems := st.timeItems - TimeKeys(o.goodTil, q))
  }

  lemma WithoutOrderIndexed(st: Store, open: map<nat, OpenOrder>, n: nat, q: nat)
    requires Indexed(st, open, n) && q in open && q < n && AllWellFormed(open)
    ensures var o := open[q];
            && 0 < Get(st.counts, (o.record.account, o.baseDenom)) && 0 < Get(st.counts, (o.record.account, o.quoteDenom))
            && o.baseDenom != o.quoteDenom
            && Indexed(WithoutOrder(st, o, q), open - {q}, n)
  {
    hide OrdersMatch, RecordsMatch, IdsMatch, DenomsMatch, CountsMatch, TimeItemsMatch, HeightItemsMatch, Decremented, HeightKeys, TimeKeys;
    OrdersRemoved(st.orders, open, q);
    RecordsRemoved(st.records, open, q);
    IdsRemoved(st.idToSequence, open, q);
    DenomsRemoved(st.denomSequences, open, q);
    CountsRemoved(st.counts, open, q, n);
    HeightItemRemoved(st.blockItems, open, q);
    TimeItemRemoved(st.timeItems, open, q);
  }

  // ----- an order whose quantities change -----

  lemma RecordsUpdated(records: map<EntryKey, EntryData>, open: map<nat, OpenOrder>, r: Record)
    requires RecordsMatch(records, open) && AllWellFormed(open)
    requires r.sequence in open && SameBookEntry(open[r.sequence].record, r)
    ensures RecordsMatch(records[EntryOf(r) := DataOfRecord(r)], open[r.sequence := open[r.sequence].(record := r)])
  {
    hide Resting;
  }

  lemma CountsUpdated(counts: map<(Account, Denom), nat>, open: map<nat, OpenOrder>, r: Record, n: nat)
    requires CountsMatch(counts, open, n)
    requires r.sequence in open && r.sequence < n && SameBookEntry(open[r.sequence].record, r)
    ensures CountsMatch(counts, open[r.sequence := open[r.sequence].(record := r)], n)
  {
    hide Total;
    var q, o := r.sequence, open[r.sequence].(record := r);
    forall a, d ensures Total(Count, open[q := o], a, d, n) == Total(Count, open, a, d, n) {
      TotalSet(Count, open, q, o, a, d, n);
    }
  }

  /** Whatever does not depend on quantities stays as it is. */
  lemma StaysIndexed(st: Store, open: map<nat, OpenOrder>, r: Record)
    requires r.sequence in open && SameBookEntry(open[r.sequence].record, r)
    ensures var open' := open[r.sequence := open[r.sequence].(record := r)];
            && (OrdersMatch(st.orders, open) ==> OrdersMatch(st.orders, open'))
            && (IdsMatch(st.idToSequence, open) ==> IdsMatch(st.idToSequence, open'))
            && (DenomsMatch(st.denomSequences, open) ==> DenomsMatch(st.denomSequences, open'))
  {
    assert open[r.sequence].(record := r).Data() == open[r.sequence].Data();
  }

  lemma ItemsStay(st: Store, open: map<nat, OpenOrder>, r: Record)
    requires r.sequence in open && SameBookEntry(open[r.sequence].record, r)
    ensures var open' := open[r.sequence := open[r.sequence].(record := r)];
            && (TimeItemsMatch(st.timeItems, open) ==> TimeItemsMatch(st.timeItems, open'))
            && (HeightItemsMatch(st.blockItems, open) ==> HeightItemsMatch(st.blockItems, open'))
  {
    hide HeightKey, TimeKey;
  }

  /** Only the record index follows a change of quantities. */
  lemma UpdatedIndexed(st: Store, open: map<nat, OpenOrder>, n: nat, r: Record)
    requires Indexed(st, open, n) && AllWellFormed(open)
    requires r.sequence in open && r.sequence < n && SameBookEntry(open[r.sequence].record, r)
    ensures Indexed(st.(records := st.records[EntryOf(r) := DataOfRecord(r)]), open[r.sequence := open[r.sequence].(record := r)], n)
  {
    hide OrdersMatch, RecordsMatch, IdsMatch, DenomsMatch, CountsMatch, TimeItemsMatch, HeightItemsMatch, AllWellFormed;
    RecordsUpdated(st.records, open, r);
    CountsUpdated(st.counts, open, r, n);
    StaysIndexed(st, open, r);
    ItemsStay(st, open, r);
  }

  // ----- reading one side of a book -----

  function SideRecords(records: map<EntryKey, EntryData>, book: nat, side: Side): set<Record> {
    set k | k in records && k.book == book && k.side == side :: ToRecord(k, records[k])
  }

  /** An open order rests in the book of its own pair and in no other. */
  lemma BookDecidesPair(y: State, q: nat, base: Denom, quote: Denom)
    requires Inv(y) && q in y.open && (base, quote) in y.books
    ensures y.open[q].record.book == y.books[(base, quote)] <==> y.open[q].baseDenom == base && y.open[q].quoteDenom == quote
  {
    hide WellFormed, Uncrossed, Alive, LexLess;
  }

  lemma EntriesAreRecords(records: map<EntryKey, EntryData>, open: map<nat, OpenOrder>)
    requires RecordsMatch(records, open)
    ensures forall k | k in records :: k.sequence in open && open[k.sequence].record == ToRecord(k, records[k])
    ensures forall q | q in open :: EntryOf(open[q].record) in records && EntryOf(open[q].record).book == open[q].record.book
                                 && ToRecord(EntryOf(open[q].record), records[EntryOf(open[q].record)]) == open[q].record
  {
  }

  /** The records under one side of a pair's book are those of the open orders there. */
  lemma SideRecordsOpen(records: map<EntryKey, EntryData>, y: State, base: Denom, quote: Denom, side: Side)
    requires Inv(y) && RecordsMatch(records, y.open) && (base, quote) in y.books
    ensures SideRecords(records, y.books[(base, quote)], side)
         == set q | q in y.open && y.open[q].baseDenom == base && y.open[q].quoteDenom == quote && y.open[q].record.side == side
                 :: y.open[q].record
  {
    hide Inv, RecordsMatch;
    EntriesAreRecords(records, y.open);
    forall q | q in y.open
      ensures y.open[q].record.book == y.books[(base, quote)] <==> y.open[q].baseDenom == base && y.open[q].quoteDenom == quote
    {
      BookDecidesPair(y, q, base, quote);
    }
  }

  lemma SideRecordsOneSide(records: map<EntryKey, EntryData>, y: State, base: Denom, quote: Denom, side: Side)
    requires Inv(y) && RecordsMatch(records, y.open) && (base, quote) in y.books
    ensures OneSide(SideRecords(records, y.books[(base, quote)], side), side)
    ensures forall r | r in SideRecords(records, y.books[(base, quote)], side) :: Canonical(r.price)
  {
    hide CeilMul, Uncrossed, Alive, BooksPaired, RecordsMatch, SideRecords, Canonical;
    SideRecordsOpen(records, y, base, quote, side);
  }

  /** The two streams of a finder over the store merge to the makers in price-time priority. */
  lemma StreamsAreMakers(records: map<EntryKey, EntryData>, y: State, o: Order)
    requires Inv(y) && RecordsMatch(records, y.open)
    requires (o.baseDenom, o.quoteDenom) in y.books && (o.quoteDenom, o.baseDenom) in y.books
    ensures var direct := SideRecords(records, y.books[(o.baseDenom, o.quoteDenom)], o.side.Opposite());
            var inverted := SideRecords(records, y.books[(o.quoteDenom, o.baseDenom)], o.side);
            && OneSide(direct, o.side.Opposite()) && OneSide(inverted, o.side)
            && (forall a, b | a in direct && b in inverted :: a.sequence != b.sequence)
            && Merge(Queue(o.side.Opposite(), SideListing(direct, o.side.Opposite())),
                     Queue(o.side, SideListing(inverted, o.side)), AcceptsBy(o), AheadFor(o.side))
               == Makers(y.open, o)
  {
    hide Inv, RecordsMatch, SideRecords, WellFormed, Merge, Queue, SideListing, OneSide;
    InvWellFormed(y);
    var direct := SideRecords(records, y.books[(o.baseDenom, o.quoteDenom)], o.side.Opposite());
    var inverted := SideRecords(records, y.books[(o.quoteDenom, o.baseDenom)], o.side);
    SideRecordsOpen(records, y, o.baseDenom, o.quoteDenom, o.side.Opposite());
    SideRecordsOpen(records, y, o.quoteDenom, o.baseDenom, o.side);
    SideRecordsOneSide(records, y, o.baseDenom, o.quoteDenom, o.side.Opposite());
    SideRecordsOneSide(records, y, o.quoteDenom, o.baseDenom, o.side);
    assert direct + inverted == MakerRecords(y.open, o.baseDenom, o.quoteDenom, o.side);
    MakersDistinct(y.open, o.baseDenom, o.quoteDenom, o.side);
    DistinctStreams(direct, inverted, o.side);
    FinderYieldsPriorityList(o, direct, inverted);
  }

  lemma DistinctStreams(direct: set<Record>, inverted: set<Record>, side: Side)
    requires DistinctSeqs(direct + inverted) && OneSide(direct, side.Opposite()) && OneSide(inverted, side)
    ensures forall a, b | a in direct && b in inverted :: a.sequence != b.sequence
  {
    hide Storable;
  }
}
