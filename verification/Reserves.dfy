/**
 The order reserve and what an account has: when a placement leaves its creator with
 more locked than funds, said of the order and the book before it is placed.
 */
module Reserves {
  import opened Arithmetic
  import opened Bytes
  import opened Rational
  import opened Price
  import opened Types
  import opened Amounts
  import opened Priority
  import opened Matching
  import opened Orders
  import opened Engine
  import opened BookDepth
  import opened Exchange
  import opened Guarantees
  import opened Lifetimes

  // ----- what the creator gets back -----

  /** What comes back from the creator's own makers in a denom: what it pays itself, and their reserves. */
  ghost function OwnReturns(ms: seq<Record>, open: map<nat, OpenOrder>, creator: Account, d: Denom): int
    requires Offers(ms)
  {
    if |ms| == 0 then 0
    else
      var m := ms[|ms| - 1];
      OwnReturns(ms[..|ms| - 1], open, creator, d)
      + (if m.account == creator then CostOf(m) + (if m.sequence in open then ReserveOf(open[m.sequence].reserve, d) else 0) else 0)
  }

  lemma {:induction false} AllLotsReturns(side: Side, ms: seq<Record>, fills: seq<Fill>, o: Order, open: map<nat, OpenOrder>)
    requires Offers(ms) && AllLots(side, ms, fills) && GoodFills(fills) && o.baseDenom != o.quoteDenom
    ensures PaidTo(fills, o, o.creator, o.SpendDenom()) + Unlocked(fills, DataFor(open), o.ReceiveDenom(), o.creator, o.SpendDenom())
         == OwnReturns(ms, open, o.creator, o.SpendDenom())
    decreases |ms|
  {
    hide CostOf, BaseOf, GoodFill;
    if |ms| != 0 {
      AllLotsReturns(side, ms[..|ms| - 1], fills[..|ms| - 1], o, open);
    }
  }

  // ----- what a placement will do, read off the book -----

  lemma MakersOffer(x: State, o: Order)
    requires AllWellFormed(x.open)
    ensures Offers(Makers(x.open, o))
  {
    hide Makers, Accepts, IsCounter, CeilMul;
    MakersElements(x.open, o);
  }

  /** The order rests: the makers cannot take it, and a whole lot is left. */
  ghost predicate WillRest(x: State, o: Order)
    requires AllWellFormed(x.open)
  {
    MakersOffer(x, o);
    && o.orderType.Limit? && o.timeInForce.GTC? && o.price.Some?
    && TooThin(o.side, Makers(x.open, o), o.quantity)
    && PriceOf(o.price.value).den <= o.quantity - Depth(o.side, Makers(x.open, o))
  }

  /** What a quantity locks at the order's price. */
  ghost function Locks(o: Order, quantity: nat): nat
    requires o.price.Some?
  {
    if o.side.Buy? then CeilMul(quantity, PriceOf(o.price.value)) else quantity
  }

  /** The reserve is in the denom the order spends. */
  ghost predicate ReserveInSpend(x: State, o: Order) {
    0 < x.params.orderReserve.amount && x.params.orderReserve.denom == o.SpendDenom()
  }

  /**
   The condition before the placement: if the order will rest and the reserve is in the denom it
   spends, then the price of all makers' lots, what the rest locks and the reserve are free, counting
   what comes back from the creator's own makers.
   */
  ghost predicate ReserveFits(x: State, o: Order)
    requires AllWellFormed(x.open)
  {
    MakersOffer(x, o);
    var ms := Makers(x.open, o);
    WillRest(x, o) && ReserveInSpend(x, o) ==>
      Cost(ms) + Locks(o, o.quantity - Depth(o.side, ms)) + x.params.orderReserve.amount
      <= Free(x, o.creator, o.SpendDenom()) + OwnReturns(ms, x.open, o.creator, o.SpendDenom())
  }

  lemma MatchedAllLots(x: State, env: Env, o: Order)
    requires AllWellFormed(x.open) && ValidOrder(o) && o.orderType.Limit?
    ensures Offers(Makers(x.open, o))
    ensures var out := Matched(x, env, o);
            && (!out.filled <==> TooThin(o.side, Makers(x.open, o), o.quantity))
            && (!out.filled ==> AllLots(o.side, Makers(x.open, o), out.fills))
  {
    hide AllWellFormed, ValidOrder, Makers, MatchAll, Ready, WithBooks, InitialBalance, AllLots;
    var t := TakerOf(x, env, o);
    ValidLimit(o);
    TakerReady(x.open, o, t.book, t.sequence, env.spendable);
    TakesAll(t, Makers(x.open, o));
    LimitOutlasts(t, Makers(x.open, o));
  }

  lemma ValidLimit(o: Order)
    requires ValidOrder(o) && o.orderType.Limit?
    ensures o.price.Some? && 0 < o.quantity && LockedAmount(o.side, o.quantity, o.price.value) == Some(Locks(o, o.quantity) as int)
    ensures o.baseDenom != o.quoteDenom && !IsMarket(TakerRecord(0, o, 0, 0))
  {
    hide MulCeil, CeilMul, ToRat, ValidOrderID;
    MulCeilIsCeiling(o.quantity, o.price.value);
  }

  lemma RestPledges(x: State, env: Env, o: Order)
    requires Inv(x) && Stays(x, env, o)
    ensures AllWellFormed(x.open) && ValidOrder(o) && o.price.Some? && SettledFills(x, env, o) == Matched(x, env, o).fills
    ensures 0 <= Matched(x, env, o).taker.remaining
    ensures Remainder(x, env, o).record.spendable == Locks(o, Matched(x, env, o).taker.remaining)
  {
    hide Inv, Place, Matched, ValidOrder, AllWellFormed, IsExecutableAsMaker, CeilMul, MulCeil;
    PlaceShape(x, env, o);
    ValidLimit(o);
    RestingLocked(x, env, o);
  }

  /** Whether a placement that succeeds leaves something in the book, and what it then trades, is read off the book. */
  lemma StaysIffWillRest(x: State, env: Env, o: Order)
    requires Inv(x) && Place(x, env, o).Some?
    ensures AllWellFormed(x.open) && (Stays(x, env, o) <==> WillRest(x, o))
    ensures Stays(x, env, o) ==>
              var ms, fills := Makers(x.open, o), SettledFills(x, env, o);
              && Offers(ms) && AllLots(o.side, ms, fills)
              && Remainder(x, env, o).record.spendable == Locks(o, o.quantity - Depth(o.side, ms))
  {
    hide Inv, Place, Matched, Remainder, Makers, TooThin, Depth, AllLots, AllWellFormed, ValidOrder, IsExecutableAsMaker, Locks, Spent, TradedBase,
         InitialBalance;
    PlaceShape(x, env, o);
    MakersOffer(x, o);
    if o.orderType.Limit? {
      var out, ms := Matched(x, env, o), Makers(x.open, o);
      ValidLimit(o);
      MatchedAllLots(x, env, o);
      MatchedConserves(x, env, o);
      TakerPrice(x, env, o);
      ExecutableIffOneLot(out.taker);
      if !out.filled {
        AllLotsSums(o.side, ms, out.fills);
      }
      if Stays(x, env, o) {
        RestPledges(x, env, o);
      }
    }
  }

  lemma TakerPrice(x: State, env: Env, o: Order)
    requires AllWellFormed(x.open) && ValidOrder(o) && o.orderType.Limit?
    ensures o.price.Some? && Matched(x, env, o).taker.price == o.price.value
  {
    hide Matched, ValidOrder, AllWellFormed, CeilMul, MulCeil;
    ValidLimit(o);
    RestingLocked(x, env, o);
  }

  // ----- when a placement keeps every account backed -----

  /** A placement leaves no account with more locked than it has exactly if, before it, the reserve fits. */
  lemma KeepsBackedIffReserveFits(x: State, env: Env, o: Order)
    requires Inv(x) && Backed(x) && Place(x, env, o).Some?
    ensures AllWellFormed(x.open) && (Backed(Place(x, env, o).value) <==> ReserveFits(x, o))
  {
    hide Inv, Place, Backed, Stays, Remainder, SettledFills, Makers, AllLots, AllWellFormed, WillRest, Cost, Depth, Locks, OwnReturns, Free,
         Spent, PaidTo, Unlocked, GoodFill;
    PlaceShape(x, env, o);
    MakersOffer(x, o);
    PlaceKeepsBackedIff(x, env, o);
    StaysIffWillRest(x, env, o);
    SettledFillsGood(x, env, o);
    if Stays(x, env, o) {
      AllLotsSums(o.side, Makers(x.open, o), SettledFills(x, env, o));
      AllLotsReturns(o.side, Makers(x.open, o), SettledFills(x, env, o), o, x.open);
    }
  }

  /** The creator has what the whole order locks at its limit and the reserve on top. */
  ghost predicate FullyCovered(x: State, o: Order) {
    o.orderType.Limit? && o.timeInForce.GTC? && o.price.Some? && 0 <= o.quantity && ReserveInSpend(x, o) ==>
      Locks(o, o.quantity) + x.params.orderReserve.amount <= Free(x, o.creator, o.SpendDenom())
  }

  /** What a resting order spends and what its rest locks are never more than the whole order locks. */
  lemma CostsAtMostLocked(x: State, env: Env, o: Order)
    requires Inv(x) && Stays(x, env, o)
    ensures o.price.Some? && 0 < o.quantity
    ensures Spent(SettledFills(x, env, o)) + Remainder(x, env, o).record.spendable <= Locks(o, o.quantity)
  {
    hide Inv, Place, Matched, Stays, Remainder, SettledFills, ValidOrder, AllWellFormed, Locks, Spent, TradedBase, InitialBalance;
    StaysLimit(x, env, o);
    PlaceShape(x, env, o);
    ValidLimit(o);
    MatchedConserves(x, env, o);
    RestPledges(x, env, o);
    MatchedCovered(x, env, o);
    StartsLocked(x, env, o);
  }

  lemma MatchedCovered(x: State, env: Env, o: Order)
    requires AllWellFormed(x.open) && ValidOrder(o) && o.orderType.Limit? && o.price.Some?
    ensures var t := Matched(x, env, o).taker; 0 <= t.remaining && Locks(o, t.remaining) <= t.spendable
  {
    hide Makers, MatchAll, Ready, ValidOrder, AllWellFormed, Locks, TakerOf, Covered, InitialBalance;
    var t := TakerOf(x, env, o);
    StartsLocked(x, env, o);
    TakerIs(x, env, o);
    TakerReady(x.open, o, t.book, t.sequence, env.spendable);
    TakerAfterMatching(t, Makers(x.open, o));
    CoveredLocks(o, MatchAll(t, Makers(x.open, o)).taker);
  }

  lemma TakerIs(x: State, env: Env, o: Order)
    requires ValidOrder(o) && InitialBalance(o, env.spendable).Some?
    ensures var t := TakerOf(x, env, o); t == TakerRecord(t.book, o, t.sequence, InitialBalance(o, env.spendable).value)
  {
    hide WithBooks, InitialBalance, ValidOrder;
  }

  lemma StartsLocked(x: State, env: Env, o: Order)
    requires ValidOrder(o) && o.orderType.Limit? && o.price.Some?
    ensures InitialBalance(o, env.spendable) == LockedAmount(o.side, o.quantity, o.price.value) && InitialBalance(o, env.spendable).Some?
    ensures TakerOf(x, env, o).side == o.side && TakerOf(x, env, o).price == o.price.value
  {
    hide WithBooks, MulCeil, Locks, ValidOrder;
    ValidLimit(o);
  }

  /** What is left of a covered taker locks no more than it has left. */
  lemma CoveredLocks(o: Order, t: Record)
    requires Covered(t) && Matchable(t) && o.price.Some? && t.price == o.price.value && t.side == o.side
    ensures Locks(o, t.remaining) <= t.spendable
  {
    hide CeilMul, ToRat;
    CeilMulLeast(t.remaining, PriceOf(o.price.value), t.spendable);
  }

  /** An order fully covered together with its reserve keeps every account backed, whatever it meets. */
  lemma FullyCoveredKeepsBacked(x: State, env: Env, o: Order)
    requires Inv(x) && Backed(x) && Place(x, env, o).Some? && FullyCovered(x, o)
    ensures Backed(Place(x, env, o).value)
  {
    hide Inv, Place, Backed, Stays, Remainder, SettledFills, Locks, Free, Spent, PaidTo, Unlocked, Unpledged, PaidBy, GoodFill, WellFormed;
    PlaceKeepsBackedIff(x, env, o);
    if Stays(x, env, o) {
      StaysLimit(x, env, o);
      CostsAtMostLocked(x, env, o);
      PlaceShape(x, env, o);
      GivenBackNonNegative(x, env, o);
    }
  }

  lemma StaysLimit(x: State, env: Env, o: Order)
    requires Inv(x) && Stays(x, env, o)
    ensures Place(x, env, o).Some? && o.orderType.Limit? && o.timeInForce.GTC?
  {
    hide Inv, Place, Matched;
  }

  lemma GivenBackNonNegative(x: State, env: Env, o: Order)
    requires Inv(x) && Place(x, env, o).Some?
    ensures 0 <= GivenBack(x, env, o)
  {
    hide Inv, Place, SettledFills, PaidTo, Unlocked, Unpledged, PaidBy, GoodFill, WellFormed;
    PlaceShape(x, env, o);
    SettledFillsGood(x, env, o);
    DataPositive(x);
    var fills, spend, receive := SettledFills(x, env, o), o.SpendDenom(), o.ReceiveDenom();
    ValidOrderParts(o);
    PaidFromPledges(fills, o, o.creator, spend);
    PledgesWithinUnlocked(fills, DataFor(x.open), receive, o.creator, spend);
    UnpledgedElsewhere(fills, receive, o.creator, spend);
  }

  lemma ValidOrderParts(o: Order)
    requires ValidOrder(o)
    ensures 0 < o.quantity && o.baseDenom != o.quoteDenom && o.SpendDenom() != o.ReceiveDenom()
  {
    hide MulCeil, ValidOrderID;
  }

  // ----- orders that meet nobody, or nobody of their creator's -----

  /** An order that no open order meets keeps every account backed: its reserve is checked with what it locks. */
  lemma UnmatchedKeepsBacked(x: State, env: Env, o: Order)
    requires Inv(x) && Backed(x) && Place(x, env, o).Some?
    requires forall q | q in x.open :: !(IsCounter(o.baseDenom, o.quoteDenom, o.side, x.open[q]) && Accepts(o, x.open[q].record))
    ensures Backed(Place(x, env, o).value)
  {
    hide Inv, Place, Backed, Stays, Remainder, SettledFills, Makers, Free, Spent, PaidTo, Unlocked, GoodFill, AllWellFormed, IsCounter, Accepts, AllLots;
    PlaceShape(x, env, o);
    PlaceKeepsBackedIff(x, env, o);
    StaysIffWillRest(x, env, o);
    MakersElements(x.open, o);
    assert forall m :: m !in Makers(x.open, o);
    if Stays(x, env, o) {
      AllLotsSums(o.side, Makers(x.open, o), SettledFills(x, env, o));
      StaysAffordable(x, env, o);
      GivenBackNonNegative(x, env, o);
    }
  }

  /** No acceptable maker is the creator's own. */
  ghost predicate NoneOwn(x: State, o: Order) {
    forall q | q in x.open && IsCounter(o.baseDenom, o.quoteDenom, o.side, x.open[q]) && Accepts(o, x.open[q].record) ::
      x.open[q].record.account != o.creator
  }

  /** No acceptable maker is better than the limit. */
  ghost predicate NoneBetter(x: State, o: Order) {
    o.price.Some? &&
    forall q | q in x.open && IsCounter(o.baseDenom, o.quoteDenom, o.side, x.open[q]) && Accepts(o, x.open[q].record) ::
      Eq(EffectivePrice(o.side, x.open[q].record), PriceOf(o.price.value))
  }

  /**
   For a sell, and for a buy that meets no better price than its limit, with no maker of its
   creator's own: if it will rest, every account stays backed exactly if the whole order and the
   reserve are covered.
   */
  lemma KeepsBackedIffFullyCovered(x: State, env: Env, o: Order)
    requires Inv(x) && Backed(x) && Place(x, env, o).Some? && AllWellFormed(x.open) && WillRest(x, o)
    requires NoneOwn(x, o) && (o.side.Sell? || NoneBetter(x, o))
    ensures Backed(Place(x, env, o).value) <==> FullyCovered(x, o)
  {
    hide Inv, Place, Backed, Makers, AllWellFormed, TooThin, Cost, Depth, OwnReturns, Free, CeilMul, IsCounter, Accepts, NoneOwn, NoneBetter;
    PlaceShape(x, env, o);
    KeepsBackedIffReserveFits(x, env, o);
    MakersOffer(x, o);
    ValidOrderParts(o);
    NothingReturns(x, o);
    ExactCost(x, o);
  }

  lemma NothingReturns(x: State, o: Order)
    requires AllWellFormed(x.open) && NoneOwn(x, o)
    ensures Offers(Makers(x.open, o)) && OwnReturns(Makers(x.open, o), x.open, o.creator, o.SpendDenom()) == 0
  {
    hide Makers, AllWellFormed, IsCounter, Accepts, OwnReturns;
    MakersOffer(x, o);
    MakersElements(x.open, o);
    NoneReturn(Makers(x.open, o), x.open, o.creator, o.SpendDenom());
  }

  lemma {:induction false} NoneReturn(ms: seq<Record>, open: map<nat, OpenOrder>, creator: Account, d: Denom)
    requires Offers(ms) && forall m | m in ms :: m.account != creator
    ensures OwnReturns(ms, open, creator, d) == 0
    decreases |ms|
  {
    if |ms| != 0 {
      NoneReturn(ms[..|ms| - 1], open, creator, d);
    }
  }

  /** At the limit, the price of the makers' lots and what the rest locks make up what the whole order locks. */
  lemma ExactCost(x: State, o: Order)
    requires AllWellFormed(x.open) && WillRest(x, o) && (o.side.Sell? || NoneBetter(x, o)) && 0 <= o.quantity
    ensures Offers(Makers(x.open, o)) && 0 <= o.quantity - Depth(o.side, Makers(x.open, o))
    ensures Cost(Makers(x.open, o)) + Locks(o, o.quantity - Depth(o.side, Makers(x.open, o))) == Locks(o, o.quantity)
  {
    hide Makers, AllWellFormed, IsCounter, Accepts, Cost, Depth, TooThin, CeilMul, EffectivePrice, Eq;
    MakersOffer(x, o);
    MakersElements(x.open, o);
    var ms := Makers(x.open, o);
    if o.side.Sell? {
      SellCost(ms);
    } else {
      BuyCost(ms, PriceOf(o.price.value));
      CeilMulExact(o.quantity, Depth(Buy, ms), Cost(ms), PriceOf(o.price.value));
    }
  }

  lemma {:induction false} SellCost(ms: seq<Record>)
    requires Offers(ms)
    ensures Cost(ms) == Depth(Sell, ms)
    decreases |ms|
  {
    hide ToRat;
    if |ms| != 0 {
      SellCost(ms[..|ms| - 1]);
    }
  }

  lemma {:induction false} BuyCost(ms: seq<Record>, p: Pos)
    requires Offers(ms) && forall m | m in ms :: Eq(EffectivePrice(Buy, m), p)
    ensures Depth(Buy, ms) * p.num == Cost(ms) * p.den
    decreases |ms|
  {
    hide CostOf, BaseOf, EffectivePrice, Eq;
    if |ms| != 0 {
      var m, rest := ms[|ms| - 1], ms[..|ms| - 1];
      BuyCost(rest, p);
      LotsAtPrice(m, p);
      Distribute(Depth(Buy, rest), BaseOf(Buy, m), p.num);
      Distribute(Cost(rest), CostOf(m), p.den);
    }
  }

  lemma Distribute(a: int, b: int, c: int)
    ensures (a + b) * c == a * c + b * c
  {
  }

  lemma LotsAtPrice(m: Record, p: Pos)
    requires 0 <= m.remaining && 0 < m.price.num && Eq(EffectivePrice(Buy, m), p)
    ensures BaseOf(Buy, m) * p.num == CostOf(m) * p.den
  {
    hide ToRat, LotsOf;
    var e, n := EffectivePrice(Buy, m), LotsOf(m);
    assert CostOf(m) == n * e.num;
    MulAssoc(n, e.den, p.num);
    MulAssoc(n, e.num, p.den);
  }

  /** Taking off b at exactly the price c leaves c less to lock. */
  lemma CeilMulExact(q: nat, b: nat, c: nat, p: Pos)
    requires b <= q && b * p.num == c * p.den
    ensures CeilMul(q - b, p) == CeilMul(q, p) - c
  {
    var x, y := q * p.num + p.den - 1, (q - b) * p.num + p.den - 1;
    assert y == x - c * p.den by { Distribute(q - b, b, p.num); }
    DivUnique(y, p.den, x / p.den - c, x % p.den) by {
      Distribute(x / p.den - c, c, p.den);
    }
  }

  // ----- runs -----

  /** If the step is a placement that succeeds, the reserve fits. */
  ghost predicate StepFits(x: State, op: Op)
    requires Inv(x)
  {
    InvWellFormed(x);
    op.PlaceOp? && Place(x, op.env, op.order).Some? ==> ReserveFits(x, op.order)
  }

  lemma StepKeepsBackedIff(x: State, op: Op)
    requires Inv(x) && Backed(x)
    ensures Backed(Step(x, op)) <==> StepFits(x, op)
  {
    hide Inv, Backed, Place, ReserveFits, AllWellFormed;
    InvWellFormed(x);
    match op
    case PlaceOp(env, order) =>
      if Place(x, env, order).Some? {
        KeepsBackedIffReserveFits(x, env, order);
      }
    case _ =>
      OtherStepsKeepBacked(x, op);
  }

  /** Every account stays backed all through a run exactly if the reserve fits at each placement that succeeds. */
  lemma {:induction false} BackedThroughoutIff(x: State, ops: seq<Op>, n: nat)
    requires Inv(x) && Feasible(x, ops) && Backed(x) && n <= |ops|
    ensures (forall i | 0 <= i <= n :: Backed(At(x, ops, i))) <==> (forall i | 0 <= i < n :: StepFits(At(x, ops, i), ops[i]))
    decreases n
  {
    hide Inv, Feasible, Step, StepFits, At, Backed;
    if n == 0 {
      AtEnds(x, ops);
    } else {
      BackedThroughoutIff(x, ops, n - 1);
      AtNext(x, ops, n - 1);
      if Backed(At(x, ops, n - 1)) {
        StepKeepsBackedIff(At(x, ops, n - 1), ops[n - 1]);
      }
    }
  }

  /** If every order is fully covered together with its reserve when it is placed, every account stays backed. */
  lemma {:induction false} CoveredOrdersStayBacked(x: State, ops: seq<Op>, n: nat)
    requires Inv(x) && Feasible(x, ops) && Backed(x) && n <= |ops|
    requires forall i | 0 <= i < n && ops[i].PlaceOp? :: FullyCovered(At(x, ops, i), ops[i].order)
    ensures Backed(At(x, ops, n))
    decreases n
  {
    hide Inv, Feasible, Place, FullyCovered, At, Backed;
    if n == 0 {
      AtEnds(x, ops);
    } else {
      var y, op := At(x, ops, n - 1), ops[n - 1];
      CoveredOrdersStayBacked(x, ops, n - 1);
      AtNext(x, ops, n - 1);
      if op.PlaceOp? {
        if Place(y, op.env, op.order).Some? { FullyCoveredKeepsBacked(y, op.env, op.order); }
      } else {
        OtherStepsKeepBacked(y, op);
      }
    }
  }
}
