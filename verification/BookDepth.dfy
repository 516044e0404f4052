/**
 What the makers of a book offer an order, and when an order is too much for them.
 */
module BookDepth {
  import opened Arithmetic
  import opened Price
  import opened Types
  import opened Amounts
  import opened Priority
  import opened Matching
  import opened Orders
  import opened Engine

  // ----- what the makers of a book offer -----

  /** The whole lots of a maker. */
  function LotsOf(m: Record): nat
    requires 0 <= m.remaining && 0 < m.price.num
  {
    DivLargest(m.remaining, PriceOf(m.price).den, 0);
    m.remaining / PriceOf(m.price).den
  }

  /** What a taker pays for them. */
  function CostOf(m: Record): nat
    requires 0 <= m.remaining && 0 < m.price.num
  {
    LotsOf(m) * ReceivesPerLot(m)
  }

  /** What they take off the quantity of a taker on the given side. */
  function BaseOf(side: Side, m: Record): nat
    requires 0 <= m.remaining && 0 < m.price.num
  {
    LotsOf(m) * EffectivePrice(side, m).den
  }

  ghost predicate Offers(ms: seq<Record>) {
    forall m | m in ms :: 0 <= m.remaining && 0 < m.price.num
  }

  ghost function Cost(ms: seq<Record>): nat
    requires Offers(ms)
  {
    if |ms| == 0 then 0 else Cost(ms[..|ms| - 1]) + CostOf(ms[|ms| - 1])
  }

  ghost function Depth(side: Side, ms: seq<Record>): nat
    requires Offers(ms)
  {
    if |ms| == 0 then 0 else Depth(side, ms[..|ms| - 1]) + BaseOf(side, ms[|ms| - 1])
  }

  /** A limit order's makers, met in turn, cannot take the quantity. */
  ghost predicate TooThin(side: Side, ms: seq<Record>, quantity: int)
    requires Offers(ms)
  {
    |ms| == 0 || (Less(side, ms[0], quantity) && TooThin(side, ms[1..], quantity - BaseOf(side, ms[0])))
  }

  /** The makers, met in turn, can neither take what the taker wants nor use up what it pays with. */
  ghost predicate Outlasts(taker: Record, ms: seq<Record>)
    requires Offers(ms)
    decreases |ms|
  {
    |ms| == 0 || (LeavesTaker(taker, ms[0]) && Outlasts(Past(taker, ms[0]), ms[1..]))
  }

  /** The taker after it has taken all lots of a maker. */
  function Past(taker: Record, m: Record): Record
    requires 0 <= m.remaining && 0 < m.price.num
  {
    taker.(remaining := taker.remaining - BaseOf(taker.side, m), spendable := taker.spendable - CostOf(m))
  }

  lemma {:induction false} LimitOutlasts(taker: Record, ms: seq<Record>)
    requires Offers(ms) && !IsMarket(taker)
    ensures Outlasts(taker, ms) <==> TooThin(taker.side, ms, taker.remaining)
    decreases |ms|
  {
    hide Less, CostsLess, BaseOf, CostOf;
    if |ms| != 0 {
      LimitOutlasts(Past(taker, ms[0]), ms[1..]);
    }
  }

  // ----- what an order does to them -----

  /** An order leaves a maker behind exactly if the maker has less than it wants and pays for, and then takes all its lots. */
  lemma MeetsMaker(taker: Record, m: Record)
    requires Matchable(taker) && MakerOk(m)
    ensures ClosesTaker(taker, m) <==> !LeavesTaker(taker, m)
    ensures !ClosesTaker(taker, m) ==>
              && FillOf(taker, m).trade.takerSpends == CostOf(m) && FillOf(taker, m).trade.base == BaseOf(taker.side, m)
              && AfterTaker(taker, FillOf(taker, m).trade) == Past(taker, m)
  {
    hide MatchRecords, Lots, ToRat, IsExecutableAsMaker, LeavesTaker;
    MatchTradesLots(taker, m);
    NoneClosedImpossible(taker, m);
    MakerFill(taker, m);
    LotsBoundedByMaker(taker, m);
    TakerClosedIff(taker, m);
  }

  /** An order, limit or market, is not closed exactly if it outlasts the makers, and then has taken all lots of every one. */
  lemma {:induction false} TakesAll(taker: Record, ms: seq<Record>)
    requires Ready(taker, ms)
    ensures Offers(ms)
    ensures !MatchAll(taker, ms).filled <==> Outlasts(taker, ms)
    ensures !MatchAll(taker, ms).filled ==> AllLots(taker.side, ms, MatchAll(taker, ms).fills)
    decreases |ms|
  {
    hide MatchRecords, IsExecutableAsMaker, Covered, PriceAccepted, LeavesTaker, CostOf, BaseOf, Resting, FillOf, ClosesTaker, Past;
    ReadyOffers(taker, ms);
    if |ms| != 0 {
      ReadyNext(taker, ms);
      MeetsMaker(taker, ms[0]);
      OnlyLastStaysOpen(taker, ms);
      if !ClosesTaker(taker, ms[0]) {
        PastSide(taker, ms[0]);
        TakesAll(AfterTaker(taker, FillOf(taker, ms[0]).trade), ms[1..]);
      }
    }
  }

  lemma PastSide(taker: Record, m: Record)
    requires 0 <= m.remaining && 0 < m.price.num
    ensures Past(taker, m).side == taker.side
  {
    hide BaseOf, CostOf;
  }

  lemma ReadyOffers(taker: Record, ms: seq<Record>)
    requires Ready(taker, ms)
    ensures Offers(ms)
  {
    hide Covered, PriceAccepted, CeilMul;
  }

  /** Every maker is closed and has sold all its lots. */
  ghost predicate AllLots(side: Side, ms: seq<Record>, fills: seq<Fill>)
    requires Offers(ms)
  {
    && |fills| == |ms|
    && forall i | 0 <= i < |ms| ::
         fills[i].maker == ms[i] && fills[i].closed && fills[i].trade.takerSpends == CostOf(ms[i]) && fills[i].trade.base == BaseOf(side, ms[i])
  }

  lemma {:induction false} AllLotsSums(side: Side, ms: seq<Record>, fills: seq<Fill>)
    requires Offers(ms) && AllLots(side, ms, fills)
    ensures Spent(fills) == Cost(ms) && TradedBase(fills) == Depth(side, ms)
    decreases |ms|
  {
    hide CostOf, BaseOf;
    if |ms| != 0 {
      AllLotsSums(side, ms[..|ms| - 1], fills[..|ms| - 1]);
    }
  }
}
