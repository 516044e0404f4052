/**
 The exchange as a state machine over its open orders: what placing, cancelling
 and expiring orders do, and what holds in every reachable state.
 */
module Exchange {
  import opened Bytes
  import opened Rational
  import opened Price
  import opened SortedLists
  import opened StoreKeys
  import opened Ticks
  import opened Types
  import opened Amounts
  import opened Priority
  import opened Matching
  import opened Orders
  import opened Engine

  type Pair = (Denom, Denom)

  /**
   Everything that is not derived from something else. Funds are bank balances less what
   vesting locks in them.
   */
  datatype State = State(
    open: map<nat, OpenOrder>,
    sequence: nat,
    books: map<Pair, nat>,
    bookSequence: nat,
    reserved: set<(Account, OrderID)>,
    params: Params,
    funds: map<(Account, Denom), int>,
    height: nat,
    time: nat
  )

  /** A unified reference amount times 10^18. */
  type RefAmount = n: nat | 0 < n witness 1

  type Int32 = n: int | -0x8000_0000 <= n < 0x8000_0000

  datatype Params = Params(
    defaultRefAmount: RefAmount,
    priceTickExponent: Int32,
    quantityStepExponent: Int32,
    maxOrdersPerDenom: Uint64,
    orderReserve: Coin
  )

  /**
   What a placement reads from outside the exchange: the reference amounts set for the two
   denoms, whether the denoms have a supply, the balance the asset module reports as spendable,
   and whether its rules on features, limits and extensions admit the resulting amounts.
   */
  datatype Env = Env(
    baseRefAmount: Option<RefAmount>,
    quoteRefAmount: Option<RefAmount>,
    denomsExist: bool,
    spendable: nat,
    assetsAdmit: bool
  )

  // ----- parameters -----

  predicate ValidDenom(d: Denom) {
    && 3 <= |d| <= 128 && ((0x61 <= d[0] <= 0x7A) || (0x41 <= d[0] <= 0x5A))
    && forall i | 0 <= i < |d| :: IsIDChar(d[i]) && d[i] != 0x2B
  }

  predicate ValidParams(p: Params) {
    && p.priceTickExponent < 0 && p.quantityStepExponent < 0 && 0 < p.maxOrdersPerDenom
    && ValidDenom(p.orderReserve.denom) && 0 <= p.orderReserve.amount
  }

  function RefAmountOf(amount: Option<RefAmount>, params: Params): RefAmount {
    if amount.Some? then amount.value else params.defaultRefAmount
  }

  // ----- validation -----

  predicate IsIDChar(b: byte) {
    || (0x61 <= b <= 0x7A) || (0x41 <= b <= 0x5A) || (0x2F <= b <= 0x3A)  // a-z, A-Z, '/', 0-9, ':'
    || b == 0x2B || b == 0x2D || b == 0x2E || b == 0x5F                   // + - . _
  }

  predicate ValidOrderID(id: OrderID) {
    1 <= |id| <= 40 && forall i | 0 <= i < |id| :: IsIDChar(id[i])
  }

  /** Stateless validation of an order. */
  predicate ValidOrder(o: Order) {
    && ValidOrderID(o.id)
    && o.baseDenom != [] && o.quoteDenom != [] && o.baseDenom != o.quoteDenom
    && 0 < o.quantity < INT_LIMIT
    && match o.orderType
       case Limit =>
         && (o.goodTil.Some? ==> o.goodTil.value.height != 0 || o.goodTil.value.time.Some?)
         && !o.timeInForce.UnspecifiedTime?
         && o.price.Some?
         && LockedAmount(o.side, o.quantity, o.price.value).Some?
         && ExpectedAmount(o.side, o.quantity, o.price.value).Some?
       case Market => o.price == None && o.goodTil == None && o.timeInForce.IOC?
       case UnspecifiedType => false
  }

  predicate ValidGoodTil(g: GoodTil, height: nat, time: nat) {
    && (g.height > 0 ==> g.height > height)
    && (g.time.Some? ==> g.time.value > time)
  }

  predicate Validated(params: Params, height: nat, time: nat, env: Env, o: Order) {
    var baseURA, quoteURA := RefAmountOf(env.baseRefAmount, params), RefAmountOf(env.quoteRefAmount, params);
    && ValidOrder(o) && env.denomsExist
    && IsQuantityStepValid(o.quantity, OrderQuantityStep(baseURA, params.quantityStepExponent).0)
    && (o.orderType.Limit? ==> IsPriceTickValid(PriceOf(o.price.value), ComputePriceTick(baseURA, quoteURA, params.priceTickExponent).0))
    && (o.goodTil.Some? ==> ValidGoodTil(o.goodTil.value, height, time))
  }

  // ----- order books -----

  /** Both directions of a pair get an ID, the lexicographically smaller denom first. */
  function WithBooks(books: map<Pair, nat>, bookSequence: nat, base: Denom, quote: Denom): (map<Pair, nat>, nat) {
    var (d0, d1) := if LexLess(base, quote) then (base, quote) else (quote, base);
    if (d0, d1) in books then (books, bookSequence)
    else (books[(d0, d1) := bookSequence + 1][(d1, d0) := bookSequence + 2], bookSequence + 2)
  }

  /** Directions of a pair come together, under consecutive IDs, IDs are not shared, and the last one is in use. */
  ghost predicate BooksPaired(books: map<Pair, nat>, bookSequence: nat) {
    && (forall a, b | (a, b) in books :: a != b && Joinable(a) && Joinable(b) && 1 <= books[(a, b)] <= bookSequence)
    && (forall a, b | (a, b) in books :: (b, a) in books)
    && (forall a, b | (a, b) in books && LexLess(a, b) :: books[(b, a)] == books[(a, b)] + 1)
    && (forall a, b, c, d | (a, b) in books && (c, d) in books && books[(a, b)] == books[(c, d)] :: a == c && b == d)
    && (0 < bookSequence ==> exists a, b :: (a, b) in books && books[(a, b)] == bookSequence)
  }

  lemma NewPair(books: map<Pair, nat>, n: nat, a: Denom, b: Denom)
    requires BooksPaired(books, n) && a != b && (a, b) !in books && LexLess(a, b) && !LexLess(b, a) && Joinable(a) && Joinable(b)
    ensures BooksPaired(books[(a, b) := n + 1][(b, a) := n + 2], n + 2)
    ensures (b, a) !in books
  {
    hide LexLess;
    assert (b, a) in books[(a, b) := n + 1][(b, a) := n + 2];
  }

  /** The two books of a pair exist afterwards, and no existing book changes. */
  lemma WithBooksPaired(books: map<Pair, nat>, n: nat, base: Denom, quote: Denom)
    requires BooksPaired(books, n) && base != quote && Joinable(base) && Joinable(quote)
    ensures var (books', n') := WithBooks(books, n, base, quote);
            && BooksPaired(books', n') && n <= n' <= n + 2
            && (base, quote) in books' && (quote, base) in books'
            && (forall a, b | (a, b) in books :: (a, b) in books' && books'[(a, b)] == books[(a, b)])
  {
    var (a, b) := if LexLess(base, quote) then (base, quote) else (quote, base);
    LexTotal(base, quote);
    LexAsymmetric(a, b);
    if (a, b) !in books {
      NewPair(books, n, a, b);
    }
  }

  // ----- makers -----

  /** o can be a maker for a taker on the given side of the given pair. */
  predicate IsCounter(base: Denom, quote: Denom, side: Side, o: OpenOrder) {
    || (o.baseDenom == base && o.quoteDenom == quote && o.record.side != side)
    || (o.baseDenom == quote && o.quoteDenom == base && o.record.side == side)
  }

  ghost function MakerRecords(open: map<nat, OpenOrder>, base: Denom, quote: Denom, side: Side): set<Record> {
    set q | q in open && IsCounter(base, quote, side, open[q]) :: open[q].record
  }

  lemma MakersDistinct(open: map<nat, OpenOrder>, base: Denom, quote: Denom, side: Side)
    requires AllWellFormed(open)
    ensures DistinctSeqs(MakerRecords(open, base, quote, side))
  {
    hide Resting;
  }

  /** The makers for an order in price-time priority. */
  ghost function Makers(open: map<nat, OpenOrder>, o: Order): seq<Record>
    requires AllWellFormed(open)
  {
    MakersDistinct(open, o.baseDenom, o.quoteDenom, o.side);
    PriorityList(o, MakerRecords(open, o.baseDenom, o.quoteDenom, o.side))
  }

  lemma MakersElements(open: map<nat, OpenOrder>, o: Order)
    requires AllWellFormed(open)
    ensures Elements(Makers(open, o)) == Acceptable(MakerRecords(open, o.baseDenom, o.quoteDenom, o.side), AcceptsBy(o))
    ensures forall m | m in Makers(open, o) ::
              && m.sequence in open && open[m.sequence].record == m
              && IsCounter(o.baseDenom, o.quoteDenom, o.side, open[m.sequence]) && Accepts(o, m)
  {
    hide Resting, Accepts, AheadFor;
    var s := MakerRecords(open, o.baseDenom, o.quoteDenom, o.side);
    MakersDistinct(open, o.baseDenom, o.quoteDenom, o.side);
    AheadStrictTotal(o.side, Acceptable(s, AcceptsBy(o)));
    ListingFacts(Acceptable(s, AcceptsBy(o)), AheadFor(o.side));
    forall m | m in Makers(open, o)
      ensures && m.sequence in open && open[m.sequence].record == m
              && IsCounter(o.baseDenom, o.quoteDenom, o.side, open[m.sequence]) && Accepts(o, m)
    {
      assert m in Elements(Makers(open, o));
    }
  }

  // ----- matching -----

  /** The balance an incoming order may spend. */
  function InitialBalance(o: Order, spendable: nat): Option<int> {
    match o.orderType
    case Limit => if o.price.Some? then LockedAmount(o.side, o.quantity, o.price.value) else None
    case Market => if o.side.Sell? && o.quantity < spendable then Some(o.quantity) else Some(spendable)
    case UnspecifiedType => None
  }

  function TakerRecord(book: nat, o: Order, sequence: nat, balance: int): Record {
    ConvertOrderToRecord(o.creator, book, o, sequence, balance)
  }

  lemma TakerReady(open: map<nat, OpenOrder>, o: Order, book: nat, sequence: nat, spendable: nat)
    requires AllWellFormed(open) && ValidOrder(o)
    ensures InitialBalance(o, spendable).Some?
    ensures Ready(TakerRecord(book, o, sequence, InitialBalance(o, spendable).value), Makers(open, o))
  {
    hide Resting, CeilMul, MulCeil, IsPriceMatches, EffectivePrice, Makers, ValidOrderID;
    var balance := InitialBalance(o, spendable).value;
    var taker := TakerRecord(book, o, sequence, balance);
    MakersElements(open, o);
    if o.orderType.Limit? {
      MulCeilIsCeiling(o.quantity, o.price.value);
      CeilMulLeast(o.quantity, PriceOf(o.price.value), CeilMul(o.quantity, PriceOf(o.price.value)));
    }
    forall m | m in Makers(open, o) ensures Resting(m) && PriceAccepted(taker, m) {
    }
  }

  /** The open orders after the given fills. */
  ghost function ApplyFills(open: map<nat, OpenOrder>, fills: seq<Fill>): map<nat, OpenOrder> {
    if |fills| == 0 then open
    else
      var f, before := fills[|fills| - 1], ApplyFills(open, fills[..|fills| - 1]);
      var q := f.maker.sequence;
      if f.closed then before - {q}
      else if q in before then before[q := before[q].(record := f.after)]
      else before
  }

  /** Fills of distinct open orders. */
  ghost predicate FillsOf(open: map<nat, OpenOrder>, fills: seq<Fill>) {
    && (forall i | 0 <= i < |fills| ::
          GoodFill(fills[i]) && fills[i].maker.sequence in open && open[fills[i].maker.sequence].record == fills[i].maker)
    && (forall i, j | 0 <= i < j < |fills| :: fills[i].maker.sequence != fills[j].maker.sequence)
  }

  lemma FillsOfPrefix(open: map<nat, OpenOrder>, fills: seq<Fill>)
    requires FillsOf(open, fills) && 0 < |fills|
    ensures FillsOf(open, fills[..|fills| - 1])
    ensures forall i | 0 <= i < |fills| - 1 :: fills[i].maker.sequence != fills[|fills| - 1].maker.sequence
  {
    hide GoodFill;
  }

  /** Orders that no fill concerns stay as they are. */
  lemma {:induction false} ApplyFillsKeeps(open: map<nat, OpenOrder>, fills: seq<Fill>, q: nat)
    requires forall i | 0 <= i < |fills| :: fills[i].maker.sequence != q
    ensures q in ApplyFills(open, fills) <==> q in open
    ensures q in open ==> ApplyFills(open, fills)[q] == open[q]
    decreases |fills|
  {
    if |fills| != 0 {
      ApplyFillsKeeps(open, fills[..|fills| - 1], q);
    }
  }

  /** An order that a fill concerns is gone or carries the fill's record. */
  lemma {:induction false} ApplyFillsAt(open: map<nat, OpenOrder>, fills: seq<Fill>, i: nat)
    requires FillsOf(open, fills) && i < |fills|
    ensures var q, out := fills[i].maker.sequence, ApplyFills(open, fills);
            && (q in out <==> !fills[i].closed)
            && (q in out ==> out[q] == open[q].(record := fills[i].after))
    decreases |fills|
  {
    hide GoodFill;
    var prefix, q := fills[..|fills| - 1], fills[i].maker.sequence;
    FillsOfPrefix(open, fills);
    if i < |fills| - 1 {
      ApplyFillsAt(open, prefix, i);
      assert fills[i] == prefix[i];
      assert fills[|fills| - 1].maker.sequence != q;
    } else {
      ApplyFillsKeeps(open, prefix, q);
    }
  }

  /** What fills do to each open order, in one statement. */
  lemma ApplyFillsShape(open: map<nat, OpenOrder>, fills: seq<Fill>)
    requires FillsOf(open, fills) && AllWellFormed(open)
    ensures AllWellFormed(ApplyFills(open, fills))
    ensures forall q | q in ApplyFills(open, fills) ::
              && q in open
              && ApplyFills(open, fills)[q] == open[q].(record := ApplyFills(open, fills)[q].record)
              && SameBookEntry(open[q].record, ApplyFills(open, fills)[q].record)
    ensures forall i | 0 <= i < |fills| && fills[i].closed :: fills[i].maker.sequence !in ApplyFills(open, fills)
  {
    hide GoodFill, Resting, ApplyFills;
    var out := ApplyFills(open, fills);
    forall q | q in out
      ensures q in open && WellFormed(out[q], q) && SameBookEntry(open[q].record, out[q].record)
           && out[q] == open[q].(record := out[q].record)
    {
      if i :| 0 <= i < |fills| && fills[i].maker.sequence == q {
        ApplyFillsAt(open, fills, i);
        FilledRecord(fills[i]);
      } else {
        ApplyFillsKeeps(open, fills, q);
      }
    }
    forall i | 0 <= i < |fills| && fills[i].closed ensures fills[i].maker.sequence !in out {
      ApplyFillsAt(open, fills, i);
    }
  }

  /** Same key, owner and ID; only the quantities may differ. */
  ghost predicate SameBookEntry(a: Record, b: Record) {
    b == a.(remaining := b.remaining, spendable := b.spendable)
  }

  lemma FilledRecord(f: Fill)
    requires GoodFill(f)
    ensures SameBookEntry(f.maker, f.after)
    ensures !f.closed ==> Resting(f.after)
  {
  }

  // ----- fills and totals -----

  /** A fill takes off the maker's contributions exactly what it unlocks and what it no longer expects. */
  lemma FillWeights(f: Fill, o: OpenOrder, order: Order, a: Account, d: Denom)
    requires GoodFill(f) && o.record == f.maker && IsCounter(order.baseDenom, order.quoteDenom, order.side, o)
    requires order.baseDenom != order.quoteDenom
    ensures 0 <= f.after.remaining && 0 < f.after.price.num
    ensures Weight(Locked, o, a, d) - (if f.closed then 0 else Weight(Locked, o.(record := f.after), a, d))
         == Unlocks(f, o.reserve, order.ReceiveDenom(), a, d)
    ensures Weight(Pledged, o, a, d) - (if f.closed then 0 else Weight(Pledged, o.(record := f.after), a, d))
         == Unlocks(f, None, order.ReceiveDenom(), a, d)
    ensures Weight(Expected, o, a, d) - (if f.closed then 0 else Weight(Expected, o.(record := f.after), a, d))
         == Unexpects(f, order.SpendDenom(), a, d)
  {
    hide CeilMul, MulCeil, Canonical, ExpectedOf, ToRat;
    GoodFillSpends(f);
  }

  /** The reserves on record are those of the open orders. */
  ghost predicate DataOf(orders: map<nat, OrderData>, open: map<nat, OpenOrder>) {
    forall q | q in open :: q in orders && orders[q].reserve == open[q].reserve
  }

  ghost predicate CounterFills(open: map<nat, OpenOrder>, fills: seq<Fill>, order: Order) {
    forall i | 0 <= i < |fills| ::
      fills[i].maker.sequence in open &&
      IsCounter(order.baseDenom, order.quoteDenom, order.side, open[fills[i].maker.sequence])
  }

  ghost function Removed(m: Measure, fills: seq<Fill>, orders: map<nat, OrderData>, order: Order, a: Account, d: Denom): int
    requires GoodFills(fills)
  {
    match m
    case Locked => Unlocked(fills, orders, order.ReceiveDenom(), a, d)
    case Pledged => Unpledged(fills, order.ReceiveDenom(), a, d)
    case Expected => Unexpected(fills, orders, order.SpendDenom(), a, d)
    case Count => 0
  }

  /**
   Settling fills one by one lowers each ledger total by exactly the sums the matching
   collects for that ledger.
   */
  lemma {:induction false} ApplyFillsTotals(m: Measure, open: map<nat, OpenOrder>, fills: seq<Fill>, orders: map<nat, OrderData>,
                                            order: Order, a: Account, d: Denom, n: nat)
    requires !m.Count? && FillsOf(open, fills) && GoodFills(fills) && DataOf(orders, open) && CounterFills(open, fills, order)
    requires order.baseDenom != order.quoteDenom && forall q | q in open :: q < n
    ensures Total(m, ApplyFills(open, fills), a, d, n) == Total(m, open, a, d, n) - Removed(m, fills, orders, order, a, d)
    decreases |fills|
  {
    hide GoodFill, Weight, Unlocks, Unexpects, IsCounter;
    if |fills| != 0 {
      var prefix, f := fills[..|fills| - 1], fills[|fills| - 1];
      var before, q := ApplyFills(open, prefix), f.maker.sequence;
      FillsOfPrefix(open, fills);
      ApplyFillsTotals(m, open, prefix, orders, order, a, d, n);
      ApplyFillsKeeps(open, prefix, q);
      FillWeights(f, open[q], order, a, d);
      if f.closed {
        TotalRemove(m, before, q, a, d, n);
      } else {
        TotalSet(m, before, q, open[q].(record := f.after), a, d, n);
      }
    }
  }

  // ----- crossing -----

  /** As a taker, a would trade with b. */
  ghost predicate Crosses(a: OpenOrder, b: OpenOrder) {
    && IsCounter(a.baseDenom, a.quoteDenom, a.record.side, b)
    && IsPriceMatches(a.record.side, ToRat(a.record.price), EffectivePrice(a.record.side, b.record))
  }

  ghost predicate Uncrossed(open: map<nat, OpenOrder>) {
    forall p, q | p in open && q in open :: !Crosses(open[p], open[q])
  }

  lemma CrossesSymmetric(a: OpenOrder, b: OpenOrder)
    requires 0 < a.record.price.num && 0 < b.record.price.num && a.baseDenom != a.quoteDenom
    ensures Crosses(a, b) <==> Crosses(b, a)
  {
    hide ToRat;
    ReciprocalFlips(PriceOf(a.record.price), PriceOf(b.record.price));
  }

  /** Whether orders cross depends on their prices, sides and denoms only. */
  lemma CrossesSameEntry(a: OpenOrder, b: OpenOrder, a': OpenOrder, b': OpenOrder)
    requires a' == a.(record := a'.record) && SameBookEntry(a.record, a'.record)
    requires b' == b.(record := b'.record) && SameBookEntry(b.record, b'.record)
    ensures Crosses(a', b') <==> Crosses(a, b)
  {
    hide ToRat, Le;
  }

  // ----- matching an order -----

  ghost function TakerOf(x: State, env: Env, o: Order): Record
    requires ValidOrder(o)
  {
    var books := WithBooks(x.books, x.bookSequence, o.baseDenom, o.quoteDenom).0;
    var book := if (o.baseDenom, o.quoteDenom) in books then books[(o.baseDenom, o.quoteDenom)] else 0;
    TakerRecord(book, o, x.sequence + 1, InitialBalance(o, env.spendable).value)
  }

  /** The outcome of matching an order with the open orders. */
  ghost function Matched(x: State, env: Env, o: Order): Outcome
    requires AllWellFormed(x.open) && ValidOrder(o)
  {
    var taker := TakerOf(x, env, o);
    TakerReady(x.open, o, taker.book, taker.sequence, env.spendable);
    MatchAll(taker, Makers(x.open, o))
  }

  /** The fills of a matching concern distinct open orders that were acceptable. */
  lemma MatchedFills(x: State, env: Env, o: Order)
    requires AllWellFormed(x.open) && ValidOrder(o)
    ensures var out := Matched(x, env, o);
            && FillsOf(x.open, out.fills) && GoodFills(out.fills) && CounterFills(x.open, out.fills, o)
  {
    hide GoodFill, WellFormed, IsCounter, Accepts, Makers, MatchAll, Ready;
    var taker, makers := TakerOf(x, env, o), Makers(x.open, o);
    TakerReady(x.open, o, taker.book, taker.sequence, env.spendable);
    OnlyLastStaysOpen(taker, makers);
    MakersElements(x.open, o);
    MakersSequences(x.open, o);
    var fills := Matched(x, env, o).fills;
    forall i | 0 <= i < |fills| ensures fills[i].maker in makers {
    }
  }

  lemma MakersSequences(open: map<nat, OpenOrder>, o: Order)
    requires AllWellFormed(open)
    ensures forall i, j | 0 <= i < j < |Makers(open, o)| :: Makers(open, o)[i].sequence != Makers(open, o)[j].sequence
  {
    hide Resting, Accepts, Ahead;
    var s := MakerRecords(open, o.baseDenom, o.quoteDenom, o.side);
    var ms, ahead := Makers(open, o), AheadFor(o.side);
    MakersDistinct(open, o.baseDenom, o.quoteDenom, o.side);
    AheadStrictTotal(o.side, Acceptable(s, AcceptsBy(o)));
    ListingFacts(Acceptable(s, AcceptsBy(o)), ahead);
    forall i, j | 0 <= i < j < |ms| ensures ms[i].sequence != ms[j].sequence {
      assert ms[i] in Elements(ms) && ms[j] in Elements(ms) && ahead(ms[i], ms[j]);
    }
  }

  // ----- placing an order -----

  ghost predicate Killed(o: Order, out: Outcome) {
    o.orderType.Limit? && o.timeInForce.FOK? && 0 < out.taker.remaining
  }

  /** What is left of the order stays in the book. */
  ghost predicate Rests(o: Order, out: Outcome) {
    o.orderType.Limit? && o.timeInForce.GTC? && !out.filled && IsExecutableAsMaker(out.taker)
  }

  function ReserveFor(params: Params): Option<Coin> {
    if 0 < params.orderReserve.amount then Some(params.orderReserve) else None
  }

  ghost function RestingOrder(params: Params, o: Order, taker: Record): OpenOrder
    requires LockedAmount(o.side, taker.remaining, taker.price).Some?
  {
    OpenOrder(taker.(spendable := LockedAmount(o.side, taker.remaining, taker.price).value),
              o.baseDenom, o.quoteDenom, o.quantity, o.goodTil, ReserveFor(params))
  }

  /** The counters leave room for one more order. */
  ghost predicate CreateAllowed(x: State, o: Order) {
    && Total(Count, x.open, o.creator, o.baseDenom, x.sequence + 1) < x.params.maxOrdersPerDenom
    && Total(Count, x.open, o.creator, o.quoteDenom, x.sequence + 1) < x.params.maxOrdersPerDenom
  }

  /** Everything a placement changes apart from the open orders. */
  ghost function Registered(x: State, o: Order): State {
    var (books, n) := WithBooks(x.books, x.bookSequence, o.baseDenom, o.quoteDenom);
    x.(sequence := x.sequence + 1, books := books, bookSequence := n, reserved := x.reserved + {(o.creator, o.id)})
  }

  lemma RegisteredKeeps(x: State, o: Order)
    ensures var y := Registered(x, o);
            y.open == x.open && y.funds == x.funds && y.params == x.params && y.height == x.height && y.time == x.time
  {
  }

  ghost predicate Accepted(x: State, env: Env, o: Order)
  {
    Validated(x.params, x.height, x.time, env, o) && (o.creator, o.id) !in x.reserved && Joinable(o.baseDenom) && Joinable(o.quoteDenom)
  }

  // ----- funds -----

  ghost function FundsIn(funds: map<(Account, Denom), int>, a: Account, d: Denom): int {
    if (a, d) in funds then funds[(a, d)] else 0
  }

  ghost function Funds(x: State, a: Account, d: Denom): int {
    FundsIn(x.funds, a, d)
  }

  /** The funds of an account that no order locks. */
  ghost function Free(x: State, a: Account, d: Denom): int {
    Funds(x, a, d) - Total(Locked, x.open, a, d, x.sequence + 1)
  }

  ghost function Credit(x: State, a: Account, d: Denom, amount: int): State {
    x.(funds := x.funds[(a, d) := Funds(x, a, d) + amount])
  }

  /** Both payments of a fill. */
  ghost function PayFill(x: State, f: Fill, o: Order): State {
    var spent := Credit(Credit(x, o.creator, o.SpendDenom(), -f.trade.takerSpends), f.maker.account, o.SpendDenom(), f.trade.takerSpends);
    Credit(Credit(spent, f.maker.account, o.ReceiveDenom(), -f.trade.takerReceives), o.creator, o.ReceiveDenom(), f.trade.takerReceives)
  }

  ghost function PayFills(x: State, fills: seq<Fill>, o: Order): State {
    if |fills| == 0 then x else PayFill(PayFills(x, fills[..|fills| - 1], o), fills[|fills| - 1], o)
  }

  lemma CreditFunds(x: State, a: Account, d: Denom, amount: int, b: Account, e: Denom)
    ensures Funds(Credit(x, a, d, amount), b, e) == Funds(x, b, e) + if a == b && d == e then amount else 0
    ensures Credit(x, a, d, amount) == x.(funds := Credit(x, a, d, amount).funds)
  {
  }

  lemma PayFillFunds(x: State, f: Fill, o: Order, a: Account, d: Denom)
    ensures Funds(PayFill(x, f, o), a, d) == Funds(x, a, d) - Pays(f, o, a, d) + Gets(f, o, a, d)
    ensures PayFill(x, f, o) == x.(funds := PayFill(x, f, o).funds)
  {
    hide Credit, Funds;
    var spend, receive, maker := o.SpendDenom(), o.ReceiveDenom(), f.maker.account;
    var x1 := Credit(x, o.creator, spend, -f.trade.takerSpends);
    var x2 := Credit(x1, maker, spend, f.trade.takerSpends);
    var x3 := Credit(x2, maker, receive, -f.trade.takerReceives);
    CreditFunds(x, o.creator, spend, -f.trade.takerSpends, a, d);
    CreditFunds(x1, maker, spend, f.trade.takerSpends, a, d);
    CreditFunds(x2, maker, receive, -f.trade.takerReceives, a, d);
    CreditFunds(x3, o.creator, receive, f.trade.takerReceives, a, d);
  }

  /** Payments change funds only, by what each account pays and receives. */
  lemma {:induction false} PayFillsFunds(x: State, fills: seq<Fill>, o: Order, a: Account, d: Denom)
    ensures Funds(PayFills(x, fills, o), a, d) == Funds(x, a, d) - PaidBy(fills, o, a, d) + PaidTo(fills, o, a, d)
    ensures PayFills(x, fills, o) == x.(funds := PayFills(x, fills, o).funds)
    decreases |fills|
  {
    hide PayFill, Funds, Pays, Gets;
    if |fills| != 0 {
      PayFillsFunds(x, fills[..|fills| - 1], o, a, d);
      PayFillFunds(PayFills(x, fills[..|fills| - 1], o), fills[|fills| - 1], o, a, d);
    }
  }

  /** What a resting order locks at its price, without the reserve. */
  ghost function RestLocks(o: Order, out: Outcome): int {
    if Rests(o, out) && LockedAmount(o.side, out.taker.remaining, out.taker.price).Some?
    then LockedAmount(o.side, out.taker.remaining, out.taker.price).value else 0
  }

  /**
   The funds checks of the asset module: what is spent and locked at the price must be free, and
   so must each amount to be locked. The reserve is not added to what is spent.
   */
  ghost predicate Affordable(x: State, o: Order, out: Outcome) {
    var reserve, spend, rest := x.params.orderReserve, o.SpendDenom(), RestLocks(o, out);
    && Spent(out.fills) + rest <= Free(x, o.creator, spend)
    && (Rests(o, out) && 0 < reserve.amount ==>
          reserve.amount + (if reserve.denom == spend then rest else 0) <= Free(x, o.creator, reserve.denom))
  }

  ghost predicate Admitted(x: State, env: Env, o: Order, out: Outcome) {
    env.assetsAdmit && Affordable(x, o, out)
  }

  /** The state after placing an order; none if the placement fails and everything is reverted. */
  ghost function Place(x: State, env: Env, o: Order): Option<State>
    requires Inv(x)
  {
    if !Accepted(x, env, o) then None
    else
      var out, y := Matched(x, env, o), Registered(x, o);
      if Killed(o, out) then Some(y)
      else if Rests(o, out) then
        RestingLocked(x, env, o);
        if !CreateAllowed(x, o) || !Admitted(x, env, o, out) then None
        else Some(PayFills(y, out.fills, o).(open := ApplyFills(x.open, out.fills)[y.sequence := RestingOrder(x.params, o, out.taker)]))
      else if Spent(out.fills) == 0 then Some(y)
      else if !Admitted(x, env, o, out) then None
      else Some(PayFills(y, out.fills, o).(open := ApplyFills(x.open, out.fills)))
  }

  /** How a placement changes the state: what it registers, the fills it settles and what rests of it. */
  lemma PlaceShape(x: State, env: Env, o: Order)
    requires Inv(x) && Place(x, env, o).Some?
    ensures Accepted(x, env, o) && ValidOrder(o) && AllWellFormed(x.open)
    ensures var y, r, fills := Place(x, env, o).value, Registered(x, o), SettledFills(x, env, o);
            && y == r.(open := y.open, funds := y.funds) && y.funds == PayFills(r, fills, o).funds
            && y.open == (if Stays(x, env, o) then ApplyFills(x.open, fills)[r.sequence := Remainder(x, env, o)] else ApplyFills(x.open, fills))
  {
    hide Inv, Accepted, Matched, ApplyFills, CreateAllowed, Admitted, WithBooks, RestingOrder, PayFills, IsExecutableAsMaker, Spent;
    InvWellFormed(x);
    AcceptedIsValid(x, env, o);
    NothingApplied(x.open);
    NothingPaid(Registered(x, o), o);
    PayFillsFunds(Registered(x, o), Matched(x, env, o).fills, o, o.creator, o.baseDenom);
  }

  lemma NothingApplied(open: map<nat, OpenOrder>)
    ensures ApplyFills(open, []) == open
  {
  }

  lemma NothingPaid(x: State, o: Order)
    ensures PayFills(x, [], o) == x
  {
  }

  /** Something of a placed order rests in the book. */
  ghost predicate Stays(x: State, env: Env, o: Order)
    requires Inv(x)
  {
    Place(x, env, o).Some? && !Killed(o, Matched(x, env, o)) && Rests(o, Matched(x, env, o))
  }

  /** What rests of it. */
  ghost function Remainder(x: State, env: Env, o: Order): OpenOrder
    requires Inv(x) && Stays(x, env, o)
  {
    RestingLocked(x, env, o);
    RestingOrder(x.params, o, Matched(x, env, o).taker)
  }

  /** The fills a placement settles: none if it fails, is killed or trades nothing. */
  ghost function SettledFills(x: State, env: Env, o: Order): seq<Fill>
    requires Inv(x)
  {
    if Place(x, env, o).None? then []
    else
      var out := Matched(x, env, o);
      if Killed(o, out) || (!Rests(o, out) && Spent(out.fills) == 0) then [] else out.fills
  }

  // ----- invariants -----

  /** An open order has not outlived its good-til. */
  ghost predicate Alive(g: Option<GoodTil>, height: nat, time: nat) {
    g.Some? ==> if 0 < g.value.height then height <= g.value.height
                else g.value.time.Some? && time < g.value.time.value
  }

  /** The order as it was placed is a valid order. */
  ghost predicate Listed(o: OpenOrder) {
    && ValidOrderID(o.record.id) && 0 < o.quantity < INT_LIMIT && 0 < o.record.price.num
    && LockedAmount(o.record.side, o.quantity, o.record.price).Some?
    && ExpectedAmount(o.record.side, o.quantity, o.record.price).Some?
  }

  lemma SameEntryListed(o: OpenOrder, r: Record)
    requires SameBookEntry(o.record, r)
    ensures Listed(o.(record := r)) <==> Listed(o)
  {
    hide MulCeil, ValidOrderID;
  }

  ghost predicate Inv(x: State) {
    && AllWellFormed(x.open) && ValidParams(x.params)
    && (forall q | q in x.open :: Listed(x.open[q]))
    && x.sequence <= MAX_UINT64 && x.bookSequence <= MAX_UINT32
    && (forall q | q in x.open :: 1 <= q <= x.sequence)
    && (forall q | q in x.open :: (x.open[q].record.account, x.open[q].record.id) in x.reserved)
    && (forall p, q | p in x.open && q in x.open && x.open[p].record.account == x.open[q].record.account
                    && x.open[p].record.id == x.open[q].record.id :: p == q)
    && BooksPaired(x.books, x.bookSequence)
    && (forall q | q in x.open :: (x.open[q].baseDenom, x.open[q].quoteDenom) in x.books
                               && x.books[(x.open[q].baseDenom, x.open[q].quoteDenom)] == x.open[q].record.book)
    && Uncrossed(x.open)
    && (forall q | q in x.open :: Alive(x.open[q].goodTil, x.height, x.time))
  }

  /** Sequence numbers have not run out; only a new pair needs new book IDs. */
  ghost predicate HasRoom(x: State, o: Order) {
    x.sequence < MAX_UINT64 && WithBooks(x.books, x.bookSequence, o.baseDenom, o.quoteDenom).1 <= MAX_UINT32
  }

  /** What is left of a valid limit order can always be priced. */
  lemma RestingLocked(x: State, env: Env, o: Order)
    requires AllWellFormed(x.open) && ValidOrder(o) && o.orderType.Limit?
    ensures var taker := Matched(x, env, o).taker;
            && taker.price == o.price.value && taker.side == o.side && 0 <= taker.remaining <= o.quantity
            && taker.sequence == x.sequence + 1 && taker.account == o.creator && taker.id == o.id
            && taker.book == TakerOf(x, env, o).book
            && CeilMul(taker.remaining, PriceOf(taker.price)) < INT_LIMIT
            && LockedAmount(o.side, taker.remaining, taker.price)
               == Some(if o.side.Buy? then CeilMul(taker.remaining, PriceOf(taker.price)) as int else taker.remaining)
  {
    hide Makers, MatchAll, Ready, CeilMul, MulCeil, ValidOrderID, Covered;
    var t := TakerOf(x, env, o);
    TakerReady(x.open, o, t.book, t.sequence, env.spendable);
    TakerAfterMatching(t, Makers(x.open, o));
    var taker := Matched(x, env, o).taker;
    MulCeilIsCeiling(o.quantity, o.price.value);
    MulCeilIsCeiling(taker.remaining, taker.price);
    CeilMulMono(taker.remaining, o.quantity, PriceOf(taker.price));
  }

  /** Dropping orders, or changing only their quantities, breaks nothing. */
  lemma FewerOrdersInv(x: State, open: map<nat, OpenOrder>)
    requires Inv(x) && AllWellFormed(open)
    requires forall q | q in open :: q in x.open && open[q] == x.open[q].(record := open[q].record)
                                  && SameBookEntry(x.open[q].record, open[q].record)
    ensures Inv(x.(open := open))
  {
    hide WellFormed, Crosses, BooksPaired, Alive, Listed;
    forall q | q in open ensures Listed(open[q]) {
      SameEntryListed(x.open[q], open[q].record);
    }
    forall p, q | p in open && q in open ensures !Crosses(open[p], open[q]) {
      CrossesSameEntry(x.open[p], x.open[q], open[p], open[q]);
    }
  }

  lemma RegisteredInv(x: State, env: Env, o: Order)
    requires Inv(x) && HasRoom(x, o) && Accepted(x, env, o)
    ensures Inv(Registered(x, o))
    ensures (o.baseDenom, o.quoteDenom) in Registered(x, o).books
    ensures TakerOf(x, env, o).book == Registered(x, o).books[(o.baseDenom, o.quoteDenom)]
  {
    hide WellFormed, Uncrossed, BooksPaired, Alive, WithBooks, Listed;
    WithBooksPaired(x.books, x.bookSequence, o.baseDenom, o.quoteDenom);
  }

  lemma AppliedInv(x: State, y: State, env: Env, o: Order)
    requires AllWellFormed(x.open) && ValidOrder(o) && Inv(y) && y.open == x.open
    ensures Inv(y.(open := ApplyFills(x.open, Matched(x, env, o).fills)))
  {
    hide WellFormed, Inv, ApplyFills, Matched, GoodFill;
    MatchedFills(x, env, o);
    InvWellFormed(y);
    ApplyFillsShape(y.open, Matched(x, env, o).fills);
    FewerOrdersInv(y, ApplyFills(y.open, Matched(x, env, o).fills));
  }

  lemma InvWellFormed(x: State)
    requires Inv(x)
    ensures AllWellFormed(x.open) && ValidParams(x.params)
  {
  }

  /** A new order that crosses nothing may join. */
  lemma NewOrderInv(x: State, o: OpenOrder)
    requires Inv(x) && x.sequence !in x.open && 1 <= x.sequence && WellFormed(o, x.sequence) && Listed(o)
    requires (o.record.account, o.record.id) in x.reserved
    requires forall q | q in x.open :: !(x.open[q].record.account == o.record.account && x.open[q].record.id == o.record.id)
    requires (o.baseDenom, o.quoteDenom) in x.books && x.books[(o.baseDenom, o.quoteDenom)] == o.record.book
    requires Alive(o.goodTil, x.height, x.time)
    requires forall q | q in x.open :: !Crosses(o, x.open[q])
    ensures Inv(x.(open := x.open[x.sequence := o]))
  {
    hide Crosses, Uncrossed, BooksPaired, Alive, WellFormed, Listed, ValidParams;
    StaysUncrossed(x, o);
  }

  lemma StaysUncrossed(x: State, o: OpenOrder)
    requires Inv(x) && WellFormed(o, x.sequence) && forall q | q in x.open :: !Crosses(o, x.open[q])
    ensures Uncrossed(x.open[x.sequence := o])
  {
    hide Inv, Crosses, WellFormed;
    var open := x.open[x.sequence := o];
    forall p, q | p in open && q in open ensures !Crosses(open[p], open[q]) {
      NotCrossing(x, o, p, q);
    }
  }

  lemma NotCrossing(x: State, o: OpenOrder, p: nat, q: nat)
    requires Inv(x) && WellFormed(o, x.sequence) && forall q | q in x.open :: !Crosses(o, x.open[q])
    requires p == x.sequence || p in x.open
    requires q == x.sequence || q in x.open
    ensures var open := x.open[x.sequence := o]; !Crosses(open[p], open[q])
  {
    hide IsPriceMatches, BooksPaired, Alive, Listed;
    if p != x.sequence && q == x.sequence {
      CrossesSymmetric(x.open[p], o);
    }
  }

  /** A taker that was not closed has removed everything it crosses. */
  lemma NothingLeftToCross(x: State, env: Env, o: Order, taker: OpenOrder, q: nat)
    requires AllWellFormed(x.open) && ValidOrder(o) && o.orderType.Limit? && !Matched(x, env, o).filled
    requires taker.baseDenom == o.baseDenom && taker.quoteDenom == o.quoteDenom
    requires taker.record.side == o.side && taker.record.price == o.price.value
    requires q in ApplyFills(x.open, Matched(x, env, o).fills)
    ensures !Crosses(taker, ApplyFills(x.open, Matched(x, env, o).fills)[q])
  {
    hide GoodFill, WellFormed, Makers, MatchAll, Ready, ApplyFills, ToRat, Le, ValidOrderID, MulCeil, EffectivePrice;
    var t, makers := TakerOf(x, env, o), Makers(x.open, o);
    TakerReady(x.open, o, t.book, t.sequence, env.spendable);
    OnlyLastStaysOpen(t, makers);
    MatchedFills(x, env, o);
    var fills := Matched(x, env, o).fills;
    ApplyFillsShape(x.open, fills);
    var out := ApplyFills(x.open, fills)[q];
    if Crosses(taker, out) {
      CrossesSameEntry(taker, x.open[q], taker, out);
      CrossedIsMaker(x.open, o, taker, q);
      var i :| 0 <= i < |makers| && makers[i] == x.open[q].record;
      assert fills[i].closed && fills[i].maker == makers[i];
      WellFormedSequence(x.open, q);
    }
  }

  lemma WellFormedSequence(open: map<nat, OpenOrder>, q: nat)
    requires AllWellFormed(open) && q in open
    ensures open[q].record.sequence == q
  {
  }

  lemma CrossedIsMaker(open: map<nat, OpenOrder>, o: Order, taker: OpenOrder, q: nat)
    requires AllWellFormed(open) && q in open && Crosses(taker, open[q]) && o.orderType.Limit? && o.price.Some?
    requires taker.baseDenom == o.baseDenom && taker.quoteDenom == o.quoteDenom
    requires taker.record.side == o.side && taker.record.price == o.price.value
    ensures open[q].record in Makers(open, o)
  {
    hide WellFormed, ToRat, Le, EffectivePrice, Makers;
    MakersElements(open, o);
    var r := open[q].record;
    assert r in MakerRecords(open, o.baseDenom, o.quoteDenom, o.side);
    assert Accepts(o, r);
    assert r in Elements(Makers(open, o));
  }

  lemma RestingWellFormed(x: State, env: Env, o: Order)
    requires Inv(x) && HasRoom(x, o) && Accepted(x, env, o) && Rests(o, Matched(x, env, o))
    ensures LockedAmount(o.side, Matched(x, env, o).taker.remaining, Matched(x, env, o).taker.price).Some?
    ensures WellFormed(RestingOrder(x.params, o, Matched(x, env, o).taker), x.sequence + 1)
  {
    hide Matched, CeilMul, MulCeil, WithBooks, Uncrossed, IsExecutableAsMaker, ToRat, ValidOrderID;
    RestingLocked(x, env, o);
    WithBooksPaired(x.books, x.bookSequence, o.baseDenom, o.quoteDenom);
    ExecutableIffOneLot(Matched(x, env, o).taker);
  }

  /** Placing an order keeps the invariant. */
  lemma PlaceKeepsInv(x: State, env: Env, o: Order)
    requires Inv(x) && HasRoom(x, o) && Place(x, env, o).Some?
    ensures Inv(Place(x, env, o).value)
  {
    hide Inv, Matched, ApplyFills, Rests, RestingOrder, CreateAllowed, Admitted, Spent, Killed, ValidOrder, WellFormed, WithBooks, PayFills;
    InvWellFormed(x);
    RegisteredInv(x, env, o);
    var y, out := Registered(x, o), Matched(x, env, o);
    AcceptedIsValid(x, env, o);
    AppliedInv(x, y, env, o);
    if !Killed(o, out) && Rests(o, out) {
      PlaceRestingInv(x, env, o);
    }
    var z := Place(x, env, o).value;
    PayFillsFunds(y, out.fills, o, o.creator, o.baseDenom);
    FundsApart(z, y.funds);
    FundsApart(z.(funds := y.funds), z.funds);
  }

  /** The invariant does not concern funds. */
  lemma FundsApart(x: State, funds: map<(Account, Denom), int>)
    ensures Inv(x) <==> Inv(x.(funds := funds))
  {
    hide WellFormed, Uncrossed, BooksPaired, Alive, Listed, ValidParams;
  }

  lemma AcceptedIsValid(x: State, env: Env, o: Order)
    requires Accepted(x, env, o)
    ensures ValidOrder(o)
  {
  }

  lemma PlaceRestingInv(x: State, env: Env, o: Order)
    requires Inv(x) && HasRoom(x, o) && Accepted(x, env, o) && Rests(o, Matched(x, env, o))
    requires Inv(Registered(x, o).(open := ApplyFills(x.open, Matched(x, env, o).fills)))
    ensures LockedAmount(o.side, Matched(x, env, o).taker.remaining, Matched(x, env, o).taker.price).Some?
    ensures Inv(Registered(x, o).(open := ApplyFills(x.open, Matched(x, env, o).fills)[x.sequence + 1 := RestingOrder(x.params, o, Matched(x, env, o).taker)]))
  {
    hide Matched, ApplyFills, Uncrossed, BooksPaired, MulCeil, IsExecutableAsMaker, WellFormed, ValidOrderID, WithBooks, GoodFill,
         IsPriceTickValid, IsQuantityStepValid, OrderQuantityStep, ComputePriceTick;
    RestingLocked(x, env, o);
    RestingWellFormed(x, env, o);
    RegisteredInv(x, env, o);
    MatchedFills(x, env, o);
    ApplyFillsShape(x.open, Matched(x, env, o).fills);
    var y := Registered(x, o).(open := ApplyFills(x.open, Matched(x, env, o).fills));
    var order := RestingOrder(x.params, o, Matched(x, env, o).taker);
    forall q | q in y.open ensures !Crosses(order, y.open[q]) {
      NothingLeftToCross(x, env, o, order, q);
    }
    NewOrderInv(y, order);
  }

  // ----- cancelling and expiring -----

  ghost predicate Owns(o: OpenOrder, account: Account, id: OrderID) {
    o.record.account == account && o.record.id == id
  }

  /** Cancelling succeeds exactly when the account has an open order of that ID. */
  ghost function Cancel(x: State, account: Account, id: OrderID): Option<State> {
    if q :| q in x.open && Owns(x.open[q], account, id) then Some(x.(open := x.open - {q})) else None
  }

  /** An account's order ID names one open order, so a cancel removes that one. */
  lemma CancelOwn(x: State, account: Account, id: OrderID, q: nat)
    requires Inv(x) && q in x.open && Owns(x.open[q], account, id)
    ensures Cancel(x, account, id) == Some(x.(open := x.open - {q}))
  {
    hide WellFormed, BooksPaired, Uncrossed, Alive;
  }

  ghost predicate Touches(o: OpenOrder, account: Account, denom: Denom) {
    o.record.account == account && (o.baseDenom == denom || o.quoteDenom == denom)
  }

  ghost function Touching(open: map<nat, OpenOrder>, account: Account, denom: Denom): set<nat> {
    set q | q in open && Touches(open[q], account, denom)
  }

  /** Cancels all and only the account's orders that touch the denom. */
  ghost function CancelByDenom(x: State, allowed: bool, account: Account, denom: Denom): Option<State> {
    if !allowed || !Joinable(denom) then None else Some(x.(open := x.open - Touching(x.open, account, denom)))
  }

  /** A good-til that has passed; a height takes precedence over a time. */
  predicate Due(g: GoodTil, height: nat, time: nat) {
    if 0 < g.height then g.height < height
    else g.time.Some? && Unix(g.time.value) * NANOS <= time
  }

  ghost function Expiring(open: map<nat, OpenOrder>, height: nat, time: nat): set<nat> {
    set q | q in open && open[q].goodTil.Some? && Due(open[q].goodTil.value, height, time)
  }

  /** The start of a block expires exactly the orders that are due. */
  ghost function BeginBlock(x: State, height: nat, time: nat): State {
    x.(open := x.open - Expiring(x.open, height, time), height := height, time := time)
  }

  lemma NotDueIsAlive(g: Option<GoodTil>, height: nat, time: nat, height': nat, time': nat)
    requires Alive(g, height, time) && !(g.Some? && Due(g.value, height', time'))
    ensures Alive(g, height', time')
  {
  }

  lemma BeginBlockKeepsInv(x: State, height: nat, time: nat)
    requires Inv(x)
    ensures Inv(BeginBlock(x, height, time))
  {
    hide WellFormed, Uncrossed, BooksPaired, Alive, Due, Listed;
    var open := x.open - Expiring(x.open, height, time);
    FewerOrdersInv(x, open);
    forall q | q in open ensures Alive(open[q].goodTil, height, time) {
      NotDueIsAlive(open[q].goodTil, x.height, x.time, height, time);
    }
  }

  lemma CancelKeepsInv(x: State, account: Account, id: OrderID)
    requires Inv(x) && Cancel(x, account, id).Some?
    ensures Inv(Cancel(x, account, id).value)
  {
    hide WellFormed, Uncrossed, BooksPaired, Alive, Listed;
    FewerOrdersInv(x, Cancel(x, account, id).value.open);
  }

  lemma CancelByDenomKeepsInv(x: State, allowed: bool, account: Account, denom: Denom)
    requires Inv(x) && CancelByDenom(x, allowed, account, denom).Some?
    ensures Inv(CancelByDenom(x, allowed, account, denom).value)
  {
    hide WellFormed, Uncrossed, BooksPaired, Alive, Listed;
    FewerOrdersInv(x, CancelByDenom(x, allowed, account, denom).value.open);
  }

  // ----- parameters and money from outside -----

  /** Governance sets parameters that are valid. */
  ghost function UpdateParams(x: State, authorised: bool, params: Params): Option<State> {
    if authorised && ValidParams(params) then Some(x.(params := params)) else None
  }

  /** Whatever leaves an account outside the exchange must not be locked. */
  ghost function Withdraw(x: State, a: Account, d: Denom, amount: nat): Option<State> {
    if amount <= Free(x, a, d) then Some(Credit(x, a, d, 0 - amount)) else None
  }

  // ----- runs -----

  datatype Op =
    | PlaceOp(env: Env, order: Order)
    | CancelOp(account: Account, id: OrderID)
    | CancelByDenomOp(allowed: bool, account: Account, denom: Denom)
    | BeginBlockOp(height: nat, time: nat)
    | UpdateParamsOp(authorised: bool, params: Params)
    | DepositOp(account: Account, denom: Denom, amount: nat)
    | WithdrawOp(account: Account, denom: Denom, amount: nat)

  ghost function OrElse(y: Option<State>, x: State): State {
    if y.Some? then y.value else x
  }

  /** One message or block start, or a change of funds from outside; what fails changes nothing. */
  ghost function Step(x: State, op: Op): State
    requires Inv(x)
  {
    match op
    case PlaceOp(env, order) => OrElse(Place(x, env, order), x)
    case CancelOp(account, id) => OrElse(Cancel(x, account, id), x)
    case CancelByDenomOp(allowed, account, denom) => OrElse(CancelByDenom(x, allowed, account, denom), x)
    case BeginBlockOp(height, time) => BeginBlock(x, height, time)
    case UpdateParamsOp(authorised, params) => OrElse(UpdateParams(x, authorised, params), x)
    case DepositOp(a, d, amount) => Credit(x, a, d, amount)
    case WithdrawOp(a, d, amount) => OrElse(Withdraw(x, a, d, amount), x)
  }

  /** The step does not fail; the start of a block and deposits never do. */
  ghost predicate Succeeds(x: State, op: Op)
    requires Inv(x)
  {
    match op
    case PlaceOp(env, order) => Place(x, env, order).Some?
    case CancelOp(account, id) => Cancel(x, account, id).Some?
    case CancelByDenomOp(allowed, account, denom) => CancelByDenom(x, allowed, account, denom).Some?
    case BeginBlockOp(height, time) => true
    case UpdateParamsOp(authorised, params) => UpdateParams(x, authorised, params).Some?
    case DepositOp(a, d, amount) => true
    case WithdrawOp(a, d, amount) => Withdraw(x, a, d, amount).Some?
  }

  /** A placement that is accepted finds a sequence number, and book IDs if its pair is new. */
  ghost predicate Room(x: State, op: Op) {
    op.PlaceOp? && Accepted(x, op.env, op.order) ==> HasRoom(x, op.order)
  }

  lemma StepKeepsInv(x: State, op: Op)
    requires Inv(x) && Room(x, op)
    ensures Inv(Step(x, op))
    ensures x.reserved <= Step(x, op).reserved && x.sequence <= Step(x, op).sequence
  {
    hide Inv, Place, HasRoom, ValidParams, WithBooks;
    match op
    case PlaceOp(env, order) =>
      if Place(x, env, order).Some? {
        PlaceShape(x, env, order);
        PlaceKeepsInv(x, env, order);
      }
    case CancelOp(account, id) =>
      if Cancel(x, account, id).Some? { CancelKeepsInv(x, account, id); }
    case CancelByDenomOp(allowed, account, denom) =>
      if CancelByDenom(x, allowed, account, denom).Some? { CancelByDenomKeepsInv(x, allowed, account, denom); }
    case BeginBlockOp(height, time) =>
      BeginBlockKeepsInv(x, height, time);
    case UpdateParamsOp(authorised, params) =>
      if UpdateParams(x, authorised, params).Some? { UpdateParamsKeepsInv(x, params); }
    case DepositOp(a, d, amount) =>
      FundsApart(x, Credit(x, a, d, amount).funds);
    case WithdrawOp(a, d, amount) =>
      FundsApart(x, Credit(x, a, d, 0 - amount).funds);
  }

  lemma UpdateParamsKeepsInv(x: State, params: Params)
    requires Inv(x) && ValidParams(params)
    ensures Inv(x.(params := params))
  {
    hide WellFormed, Uncrossed, BooksPaired, Alive, Listed, ValidParams;
  }

  /** Sequence numbers and book IDs last for a run: only placements that are accepted use any. */
  ghost predicate Feasible(x: State, ops: seq<Op>)
    requires Inv(x)
    decreases |ops|
  {
    |ops| == 0 || (Room(x, ops[0]) && (StepKeepsInv(x, ops[0]); Feasible(Step(x, ops[0]), ops[1..])))
  }

  ghost function Run(x: State, ops: seq<Op>): State
    requires Inv(x) && Feasible(x, ops)
    decreases |ops|
  {
    if |ops| == 0 then x
    else
      StepKeepsInv(x, ops[0]);
      Run(Step(x, ops[0]), ops[1..])
  }

  /** What a step makes one account pay to another in the exchange. */
  ghost function StepPaid(x: State, op: Op, from: Account, to: Account, d: Denom): int
    requires Inv(x)
  {
    if op.PlaceOp? then Paid(SettledFills(x, op.env, op.order), op.order, from, to, d) else 0
  }

  ghost function RunPaid(x: State, ops: seq<Op>, from: Account, to: Account, d: Denom): int
    requires Inv(x) && Feasible(x, ops)
    decreases |ops|
  {
    if |ops| == 0 then 0
    else
      StepKeepsInv(x, ops[0]);
      StepPaid(x, ops[0], from, to, d) + RunPaid(Step(x, ops[0]), ops[1..], from, to, d)
  }

  ghost function Initial(params: Params): State {
    State(map[], 0, map[], 0, {}, params, map[], 0, 0)
  }

  lemma InitialInv(params: Params)
    requires ValidParams(params)
    ensures Inv(Initial(params)) && Solvent(Initial(params))
  {
    hide ValidParams;
    forall a, d ensures Total(Pledged, map[], a, d, 1) == 0 {
      TotalExtend(Pledged, map[], a, d, 0, 1);
    }
  }

  /** Every state of every run satisfies the invariant, and used order IDs stay used. */
  lemma {:induction false} RunKeepsInv(x: State, ops: seq<Op>)
    requires Inv(x) && Feasible(x, ops)
    ensures Inv(Run(x, ops)) && x.reserved <= Run(x, ops).reserved && x.sequence <= Run(x, ops).sequence
    decreases |ops|
  {
    hide Inv, Step, Room;
    if |ops| != 0 {
      StepKeepsInv(x, ops[0]);
      RunKeepsInv(Step(x, ops[0]), ops[1..]);
    }
  }

  ghost function Placements(ops: seq<Op>): nat {
    if |ops| == 0 then 0 else (if ops[0].PlaceOp? then 1 else 0) + Placements(ops[1..])
  }

  /** A run is feasible if the numbers suffice for its placements; without placements it always is. */
  lemma {:induction false} FewPlacementsAreFeasible(x: State, ops: seq<Op>)
    requires Inv(x)
    requires x.sequence + Placements(ops) <= MAX_UINT64 || Placements(ops) == 0
    requires x.bookSequence + 2 * Placements(ops) <= MAX_UINT32 || Placements(ops) == 0
    ensures Feasible(x, ops)
    decreases |ops|
  {
    hide Inv, Step, Accepted;
    if |ops| != 0 {
      StepKeepsInv(x, ops[0]);
      StepUses(x, ops[0]);
      FewPlacementsAreFeasible(Step(x, ops[0]), ops[1..]);
    }
  }

  /** One placement uses at most one sequence number and two book IDs, anything else none. */
  lemma StepUses(x: State, op: Op)
    requires Inv(x)
    ensures Step(x, op).sequence <= x.sequence + (if op.PlaceOp? then 1 else 0)
    ensures Step(x, op).bookSequence <= x.bookSequence + (if op.PlaceOp? then 2 else 0)
  {
    hide Inv, Place, ValidParams;
    if op.PlaceOp? && Place(x, op.env, op.order).Some? {
      PlaceShape(x, op.env, op.order);
    }
  }

  // ----- solvency -----

  /** The funds of every account cover what its open orders have to pay. */
  ghost predicate Solvent(x: State) {
    forall a, d :: Total(Pledged, x.open, a, d, x.sequence + 1) <= Funds(x, a, d)
  }

  lemma {:induction false} PledgedWithinLocked(open: map<nat, OpenOrder>, a: Account, d: Denom, n: nat)
    requires AllWellFormed(open)
    ensures Total(Pledged, open, a, d, n) <= Total(Locked, open, a, d, n)
  {
    hide Resting;
    if n != 0 {
      PledgedWithinLocked(open, a, d, n - 1);
    }
  }

  /** Fewer orders pledge, lock and expect no more. */
  lemma {:induction false} FewerTotals(m: Measure, open: map<nat, OpenOrder>, gone: set<nat>, a: Account, d: Denom, n: nat)
    requires AllWellFormed(open)
    ensures Total(m, open - gone, a, d, n) <= Total(m, open, a, d, n)
  {
    hide WellFormed, Weight;
    if n != 0 {
      FewerTotals(m, open, gone, a, d, n - 1);
      if n - 1 in open {
        WeightNonNegative(m, open[n - 1], n - 1, a, d);
      }
    }
  }

  /** Closing orders keeps accounts solvent. */
  lemma FewerOrdersSolvent(x: State, gone: set<nat>)
    requires Solvent(x) && AllWellFormed(x.open)
    ensures Solvent(x.(open := x.open - gone))
  {
    hide Total, WellFormed;
    var y := x.(open := x.open - gone);
    forall a, d ensures Total(Pledged, y.open, a, d, y.sequence + 1) <= Funds(y, a, d) {
      FewerTotals(Pledged, x.open, gone, a, d, x.sequence + 1);
      assert Total(Pledged, x.open, a, d, x.sequence + 1) <= Funds(x, a, d);
    }
  }

  lemma SequencesBounded(x: State)
    requires Inv(x)
    ensures AllWellFormed(x.open) && forall q | q in x.open :: 1 <= q < x.sequence + 1
  {
    hide WellFormed;
  }

  /** The fills a placement settles concern distinct open counter orders. */
  lemma SettledFillsGood(x: State, env: Env, o: Order)
    requires Inv(x) && Place(x, env, o).Some?
    ensures var fills := SettledFills(x, env, o);
            FillsOf(x.open, fills) && GoodFills(fills) && CounterFills(x.open, fills, o) && o.baseDenom != o.quoteDenom
  {
    hide Inv, Place, Matched, GoodFill, IsCounter, WellFormed, Killed, Rests, Spent, ValidOrderID, MulCeil;
    PlaceShape(x, env, o);
    MatchedFills(x, env, o);
  }

  /** Ledger totals after a placement: as before, plus what rests, less what the fills release. */
  lemma PlacedTotals(m: Measure, x: State, env: Env, o: Order, orders: map<nat, OrderData>, a: Account, d: Denom)
    requires Inv(x) && Place(x, env, o).Some? && !m.Count? && DataOf(orders, x.open)
    ensures GoodFills(SettledFills(x, env, o))
    ensures var y := Place(x, env, o).value;
            Total(m, y.open, a, d, y.sequence + 1)
            == Total(m, x.open, a, d, x.sequence + 1) + (if Stays(x, env, o) then Weight(m, Remainder(x, env, o), a, d) else 0)
               - Removed(m, SettledFills(x, env, o), orders, o, a, d)
  {
    hide Inv, Place, SettledFills, Stays, Remainder, ApplyFills, GoodFill, IsCounter, WellFormed, Weight, Total, Removed, WithBooks;
    PlaceShape(x, env, o);
    SettledFillsGood(x, env, o);
    SequencesBounded(x);
    var n, fills := x.sequence + 1, SettledFills(x, env, o);
    var after := ApplyFills(x.open, fills);
    ApplyFillsShape(x.open, fills);
    ApplyFillsTotals(m, x.open, fills, orders, o, a, d, n);
    TotalExtend(m, after, a, d, n, n + 1);
    if Stays(x, env, o) {
      TotalSet(m, after, n, Remainder(x, env, o), a, d, n + 1);
    }
  }

  ghost function DataFor(open: map<nat, OpenOrder>): map<nat, OrderData> {
    map q | q in open :: open[q].Data()
  }

  /** The taker's funds check covers what it spends and what it pledges, and separately what it locks. */
  lemma StaysAffordable(x: State, env: Env, o: Order)
    requires Inv(x) && Place(x, env, o).Some? && (Stays(x, env, o) || SettledFills(x, env, o) != [])
    ensures var pledge := if Stays(x, env, o) then Remainder(x, env, o).record.spendable else 0;
            && Spent(SettledFills(x, env, o)) + pledge <= Free(x, o.creator, o.SpendDenom())
            && (Stays(x, env, o) && 0 < x.params.orderReserve.amount ==>
                  x.params.orderReserve.amount + (if x.params.orderReserve.denom == o.SpendDenom() then pledge else 0)
                  <= Free(x, o.creator, x.params.orderReserve.denom))
  {
    hide Inv, Matched, MulCeil, Free, Accepted, CreateAllowed, IsExecutableAsMaker, PayFills, ApplyFills;
    PlaceShape(x, env, o);
    if Stays(x, env, o) {
      RestingLocked(x, env, o);
    }
  }

  /** What rests is its creator's, spends what the order spends, and carries the reserve in force. */
  lemma RemainderIs(x: State, env: Env, o: Order)
    requires Inv(x) && Stays(x, env, o)
    ensures var r := Remainder(x, env, o);
            && r.record.account == o.creator && r.SpendDenom() == o.SpendDenom() && r.reserve == ReserveFor(x.params)
            && r.record.sequence == x.sequence + 1
  {
    hide Inv, Matched, MulCeil, IsExecutableAsMaker, CeilMul;
    PlaceShape(x, env, o);
    RestingLocked(x, env, o);
  }

  /** Placing keeps every account solvent: makers pay from what they pledged, the taker from free funds. */
  lemma PlaceKeepsSolvent(x: State, env: Env, o: Order)
    requires Inv(x) && Solvent(x) && Place(x, env, o).Some?
    ensures Solvent(Place(x, env, o).value)
  {
    hide Inv, Place, Total, Stays, Remainder, SettledFills, PayFills, Spent, WellFormed, GoodFill, Unpledged, PaidBy, PaidTo;
    PlaceShape(x, env, o);
    SettledFillsGood(x, env, o);
    var y, fills := Place(x, env, o).value, SettledFills(x, env, o);
    forall a, d ensures Total(Pledged, y.open, a, d, y.sequence + 1) <= Funds(y, a, d) {
      PlacedTotals(Pledged, x, env, o, DataFor(x.open), a, d);
      PayFillsFunds(Registered(x, o), fills, o, a, d);
      PaidFromPledges(fills, o, a, d);
      PledgedWithinLocked(x.open, a, d, x.sequence + 1);
      assert Total(Pledged, x.open, a, d, x.sequence + 1) <= Funds(x, a, d);
      if Stays(x, env, o) {
        RemainderIs(x, env, o);
      }
      if Stays(x, env, o) || fills != [] {
        StaysAffordable(x, env, o);
      } else {
        NothingSpent();
      }
      assert Funds(y, a, d) == Funds(PayFills(Registered(x, o), fills, o), a, d);
    }
  }

  lemma NothingSpent()
    ensures Spent([]) == 0
  {
  }

  lemma StepKeepsSolvent(x: State, op: Op)
    requires Inv(x) && Solvent(x)
    ensures Solvent(Step(x, op))
  {
    hide Inv, Place, Total, ValidParams;
    SequencesBounded(x);
    match op
    case PlaceOp(env, order) =>
      if Place(x, env, order).Some? { PlaceKeepsSolvent(x, env, order); }
    case CancelOp(account, id) =>
      if q :| q in x.open && Owns(x.open[q], account, id) && Cancel(x, account, id) == Some(x.(open := x.open - {q})) { FewerOrdersSolvent(x, {q}); }
    case CancelByDenomOp(allowed, account, denom) =>
      FewerOrdersSolvent(x, Touching(x.open, account, denom));
    case BeginBlockOp(height, time) =>
      FewerOrdersSolvent(x, Expiring(x.open, height, time));
      SameFunds(x.(open := x.open - Expiring(x.open, height, time)), Step(x, op));
    case UpdateParamsOp(authorised, params) =>
      SameFunds(x, Step(x, op));
    case DepositOp(a, d, amount) =>
      CreditSolvent(x, a, d, amount);
    case WithdrawOp(a, d, amount) =>
      if Withdraw(x, a, d, amount).Some? {
        PledgedWithinLocked(x.open, a, d, x.sequence + 1);
        CreditSolvent(x, a, d, 0 - amount);
      }
  }

  lemma SameFunds(x: State, y: State)
    requires Solvent(x) && y.open == x.open && y.sequence == x.sequence && y.funds == x.funds
    ensures Solvent(y)
  {
    hide Total;
    forall a, d ensures Total(Pledged, y.open, a, d, y.sequence + 1) <= Funds(y, a, d) {
      assert Total(Pledged, x.open, a, d, x.sequence + 1) <= Funds(x, a, d);
    }
  }

  lemma CreditSolvent(x: State, a: Account, d: Denom, amount: int)
    requires Solvent(x) && Total(Pledged, x.open, a, d, x.sequence + 1) <= Funds(x, a, d) + amount
    ensures Solvent(Credit(x, a, d, amount))
  {
    hide Total;
    var y := Credit(x, a, d, amount);
    forall b, e ensures Total(Pledged, y.open, b, e, y.sequence + 1) <= Funds(y, b, e) {
      assert Total(Pledged, x.open, b, e, x.sequence + 1) <= Funds(x, b, e);
    }
  }

  /** In every run the funds of every account cover what its open orders have to pay. */
  lemma {:induction false} RunKeepsSolvent(x: State, ops: seq<Op>)
    requires Inv(x) && Solvent(x) && Feasible(x, ops)
    ensures Solvent(Run(x, ops))
    decreases |ops|
  {
    hide Inv, Solvent, Step, Room;
    if |ops| != 0 {
      StepKeepsInv(x, ops[0]);
      StepKeepsSolvent(x, ops[0]);
      RunKeepsSolvent(Step(x, ops[0]), ops[1..]);
    }
  }

  // ----- reachable states -----

  ghost predicate ReachedBy(x: State, params: Params, ops: seq<Op>) {
    && ValidParams(params)
    && (InitialInv(params); Feasible(Initial(params), ops) && x == Run(Initial(params), ops))
  }

  /** A state of some run from an empty exchange. */
  ghost predicate Reachable(x: State) {
    exists params, ops :: ReachedBy(x, params, ops)
  }

  /** Every reachable state satisfies the invariant and is solvent. */
  lemma ReachableInv(x: State)
    requires Reachable(x)
    ensures Inv(x) && Solvent(x)
  {
    hide Inv, Solvent, Run, Feasible, ValidParams, Initial;
    var params, ops :| ReachedBy(x, params, ops);
    InitialInv(params);
    RunKeepsInv(Initial(params), ops);
    RunKeepsSolvent(Initial(params), ops);
  }
}
