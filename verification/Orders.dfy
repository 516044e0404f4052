/**
 Open orders and what each one contributes to the ledgers and counters.
 */
module Orders {
  import opened Bytes
  import opened Price
  import opened Types
  import opened Amounts
  import opened Matching
  import opened StoreKeys

  /** The stored part of an order that does not change while it is open. */
  datatype OrderData = OrderData(
    id: OrderID,
    book: nat,
    price: Price,
    quantity: int,
    side: Side,
    goodTil: Option<GoodTil>,
    reserve: Option<Coin>
  )

  /** An open order: its book record together with its denoms and its stored data. */
  datatype OpenOrder = OpenOrder(
    record: Record,
    baseDenom: Denom,
    quoteDenom: Denom,
    quantity: int,
    goodTil: Option<GoodTil>,
    reserve: Option<Coin>
  ) {
    function SpendDenom(): Denom {
      if record.side.Buy? then quoteDenom else baseDenom
    }

    function ReceiveDenom(): Denom {
      if record.side.Buy? then baseDenom else quoteDenom
    }

    function Data(): OrderData {
      OrderData(record.id, record.book, record.price, quantity, record.side, goodTil, reserve)
    }
  }

  /**
   A resting record: it can be executed as a maker, and its spendable balance is exactly
   what its remaining quantity locks.
   */
  ghost predicate Resting(r: Record) {
    && Storable(r)
    && 0 <= r.remaining && PriceOf(r.price).den <= r.remaining
    && CeilMul(r.remaining, PriceOf(r.price)) < INT_LIMIT
    && r.spendable == (if r.side.Buy? then CeilMul(r.remaining, PriceOf(r.price)) else r.remaining)
  }

  /** What a resting record expects to receive. */
  ghost function ExpectedOf(r: Record): nat
    requires 0 <= r.remaining && 0 < r.price.num
  {
    if r.side.Buy? then r.remaining else CeilMul(r.remaining, PriceOf(r.price))
  }

  lemma RestingAmounts(r: Record)
    requires Resting(r)
    ensures MakerOk(r) && IsExecutableAsMaker(r)
    ensures LockedAmount(r.side, r.remaining, r.price) == Some(r.spendable)
    ensures ExpectedAmount(r.side, r.remaining, r.price) == Some(ExpectedOf(r) as int)
    ensures 0 < r.remaining && 0 < r.spendable && 0 < ExpectedOf(r)
  {
    hide MulCeil, CeilMul;
    MulCeilIsCeiling(r.remaining, r.price);
    CeilMulPositive(r.remaining, PriceOf(r.price));
    ExecutableIffOneLot(r);
  }

  /**
   A fill through either book takes whole lots off a resting record and keeps the relation
   between its quantity and its balance: locked and expected amounts fall by exactly what
   was paid and received.
   */
  lemma FillKeepsAmounts(taker: Record, maker: Record)
    requires Matchable(taker) && Resting(maker)
    ensures MakerOk(maker)
    ensures var t := MatchRecords(taker, maker).0;
            var after := AfterMaker(taker, maker, t);
            && 0 <= after.remaining && 0 <= after.spendable
            && after.spendable == maker.spendable - t.takerReceives
            && ExpectedOf(after) == ExpectedOf(maker) - t.takerSpends
            && CeilMul(after.remaining, PriceOf(after.price)) < INT_LIMIT
            && (IsExecutableAsMaker(after) ==> Resting(after))
  {
    hide MatchRecords, Lots, CeilMul, ToRat, IsExecutableAsMaker;
    RestingAmounts(maker);
    var p, n := PriceOf(maker.price), Lots(taker, maker);
    MakerFill(taker, maker);
    LotsBoundedByMaker(taker, maker);
    CeilMulLots(maker.remaining, p, n);
    var after := AfterMaker(taker, maker, MatchRecords(taker, maker).0);
    CeilMulMono(after.remaining, maker.remaining, p);
    ExecutableIffOneLot(after);
  }

  /** A maker that a match closes trades a positive amount and keeps exactly remaining mod den(price). */
  lemma ClosedMakerLeavesRemainder(taker: Record, maker: Record)
    requires Matchable(taker) && Resting(maker)
    ensures MakerOk(maker)
    ensures var (t, close) := MatchRecords(taker, maker);
            !close.CloseTaker? ==>
              && AfterMaker(taker, maker, t).remaining == maker.remaining % PriceOf(maker.price).den
              && 0 < t.takerSpends && 0 < t.takerReceives
  {
    hide MatchRecords, Lots, CeilMul, ToRat, IsExecutableAsMaker;
    RestingAmounts(maker);
    var p, n := PriceOf(maker.price), Lots(taker, maker);
    ToRatPositive(maker.price);
    MakerFill(taker, maker);
    LotsBoundedByMaker(taker, maker);
    if !MatchRecords(taker, maker).1.CloseTaker? {
      OneLot(maker.remaining, p.den);
      PositiveProduct(n, SpendsPerLot(maker));
      PositiveProduct(n, ReceivesPerLot(maker));
    }
  }

  lemma OneLot(r: nat, d: nat)
    requires 0 < d <= r
    ensures 1 <= r / d && r - r / d * d == r % d
  {
  }

  lemma PositiveProduct(a: nat, b: nat)
    requires 0 < a && 0 < b
    ensures 0 < a * b
  {
  }

  // ----- contributions -----

  ghost function ReserveOf(reserve: Option<Coin>, denom: Denom): int {
    if reserve.Some? && reserve.value.denom == denom then reserve.value.amount else 0
  }

  /** What is kept or promised beside the open orders: pledged is what is locked without the reserves. */
  datatype Measure = Locked | Pledged | Expected | Count

  /** What an open order adds to a ledger of an account and denom. */
  ghost function Weight(m: Measure, o: OpenOrder, account: Account, denom: Denom): int {
    if o.record.account != account then 0
    else
      match m
      case Locked => (if o.SpendDenom() == denom then o.record.spendable else 0) + ReserveOf(o.reserve, denom)
      case Pledged => if o.SpendDenom() == denom then o.record.spendable else 0
      case Expected => if o.ReceiveDenom() == denom && 0 <= o.record.remaining && 0 < o.record.price.num then ExpectedOf(o.record) else 0
      case Count => if o.baseDenom == denom || o.quoteDenom == denom then 1 else 0
  }

  /** A well-formed open order under sequence q. */
  ghost predicate WellFormed(o: OpenOrder, q: nat) {
    && Resting(o.record) && o.record.sequence == q
    && o.baseDenom != o.quoteDenom && Joinable(o.baseDenom) && Joinable(o.quoteDenom)
    && (o.reserve.Some? ==> 0 < o.reserve.value.amount)
    && Schedulable(o.goodTil)
  }

  /** An expiry has a height or a time, and no time before the epoch. */
  predicate Schedulable(g: Option<GoodTil>) {
    g.Some? ==> (0 < g.value.height || g.value.time.Some?) && (g.value.time.Some? ==> 0 <= g.value.time.value)
  }

  lemma WeightNonNegative(m: Measure, o: OpenOrder, q: nat, account: Account, denom: Denom)
    requires WellFormed(o, q)
    ensures 0 <= Weight(m, o, account, denom)
  {
    hide CeilMul;
  }

  // ----- totals over all open orders -----

  /** The sum of the weights of the open orders with sequence below n. */
  ghost function Total(m: Measure, open: map<nat, OpenOrder>, account: Account, denom: Denom, n: nat): int {
    if n == 0 then 0
    else Total(m, open, account, denom, n - 1)
         + (if n - 1 in open then Weight(m, open[n - 1], account, denom) else 0)
  }

  lemma {:induction false} TotalAgrees(m: Measure, a: map<nat, OpenOrder>, b: map<nat, OpenOrder>, account: Account, denom: Denom, n: nat)
    requires forall q | q < n :: (q in a <==> q in b) && (q in a ==> a[q] == b[q])
    ensures Total(m, a, account, denom, n) == Total(m, b, account, denom, n)
  {
    if n != 0 {
      TotalAgrees(m, a, b, account, denom, n - 1);
    }
  }

  /** Opening or changing one order moves the total by the difference of its weights. */
  lemma {:induction false} TotalSet(m: Measure, open: map<nat, OpenOrder>, q: nat, o: OpenOrder, account: Account, denom: Denom, n: nat)
    requires q < n
    ensures Total(m, open[q := o], account, denom, n)
         == Total(m, open, account, denom, n)
            - (if q in open then Weight(m, open[q], account, denom) else 0) + Weight(m, o, account, denom)
  {
    hide Weight;
    if q == n - 1 {
      TotalAgrees(m, open[q := o], open, account, denom, n - 1);
    } else {
      TotalSet(m, open, q, o, account, denom, n - 1);
    }
  }

  /** Closing one order takes its weight off the total. */
  lemma {:induction false} TotalRemove(m: Measure, open: map<nat, OpenOrder>, q: nat, account: Account, denom: Denom, n: nat)
    requires q in open && q < n
    ensures Total(m, open - {q}, account, denom, n)
         == Total(m, open, account, denom, n) - Weight(m, open[q], account, denom)
  {
    hide Weight;
    if q == n - 1 {
      TotalAgrees(m, open - {q}, open, account, denom, n - 1);
    } else {
      TotalRemove(m, open, q, account, denom, n - 1);
    }
  }

  lemma {:induction false} TotalExtend(m: Measure, open: map<nat, OpenOrder>, account: Account, denom: Denom, n: nat, k: nat)
    requires n <= k && forall q | q in open :: q < n
    ensures Total(m, open, account, denom, k) == Total(m, open, account, denom, n)
  {
    if n < k {
      TotalExtend(m, open, account, denom, n, k - 1);
    }
  }

  ghost predicate AllWellFormed(open: map<nat, OpenOrder>) {
    forall q | q in open :: WellFormed(open[q], q)
  }

  lemma {:induction false} TotalNonNegative(m: Measure, open: map<nat, OpenOrder>, account: Account, denom: Denom, n: nat)
    requires AllWellFormed(open)
    ensures 0 <= Total(m, open, account, denom, n)
  {
    hide Weight, WellFormed;
    if n != 0 {
      TotalNonNegative(m, open, account, denom, n - 1);
      if n - 1 in open {
        WeightNonNegative(m, open[n - 1], n - 1, account, denom);
      }
    }
  }

  /** No total is below the weight of one of its orders. */
  lemma TotalAtLeast(m: Measure, open: map<nat, OpenOrder>, q: nat, account: Account, denom: Denom, n: nat)
    requires AllWellFormed(open) && q in open && q < n
    ensures Weight(m, open[q], account, denom) <= Total(m, open, account, denom, n)
  {
    hide Weight, WellFormed;
    TotalRemove(m, open, q, account, denom, n);
    TotalNonNegative(m, open - {q}, account, denom, n);
  }
}
