/**
 What traders can rely on: properties of every reachable state and of every
 placement, in terms of prices, amounts, priority and time.
 */
module Guarantees {
  import opened Arithmetic
  import opened Bytes
  import opened Rational
  import opened Price
  import opened SortedLists
  import opened Ticks
  import opened Types
  import opened Ledgers
  import opened Amounts
  import opened Priority
  import opened Matching
  import opened Orders
  import opened Engine
  import X = Exchange
  import opened Acceptance
  import opened Store

  // ----- the book -----

  /** o buys base for quote, through the pair's book or by selling in the inverse book. */
  predicate Bids(o: OpenOrder, base: Denom, quote: Denom) {
    || (o.baseDenom == base && o.quoteDenom == quote && o.record.side.Buy?)
    || (o.baseDenom == quote && o.quoteDenom == base && o.record.side.Sell?)
  }

  predicate Asks(o: OpenOrder, base: Denom, quote: Denom) {
    || (o.baseDenom == base && o.quoteDenom == quote && o.record.side.Sell?)
    || (o.baseDenom == quote && o.quoteDenom == base && o.record.side.Buy?)
  }

  /** The price of an order in quote per base. */
  function UnitPrice(o: OpenOrder, base: Denom): Pos
    requires 0 < o.record.price.num
  {
    if o.baseDenom == base then PriceOf(o.record.price) else Reciprocal(PriceOf(o.record.price))
  }

  lemma BidBelowAsk(bid: OpenOrder, ask: OpenOrder, base: Denom, quote: Denom)
    requires base != quote && Bids(bid, base, quote) && Asks(ask, base, quote)
    requires 0 < bid.record.price.num && 0 < ask.record.price.num
    requires !X.Crosses(bid, ask)
    ensures Lt(UnitPrice(bid, base), UnitPrice(ask, base))
  {
    hide ToRat;
    ReciprocalFlips(PriceOf(bid.record.price), PriceOf(ask.record.price));
    ReciprocalFlips(PriceOf(ask.record.price), PriceOf(bid.record.price));
  }

  /** In every reachable state every bid is strictly below every ask, over a book and its inverse together. */
  lemma BookNeverCrossed(x: X.State, p: nat, q: nat, base: Denom, quote: Denom)
    requires X.Reachable(x) && base != quote
    requires p in x.open && q in x.open && Bids(x.open[p], base, quote) && Asks(x.open[q], base, quote)
    ensures 0 < x.open[p].record.price.num && 0 < x.open[q].record.price.num
    ensures Lt(UnitPrice(x.open[p], base), UnitPrice(x.open[q], base))
  {
    hide X.Reachable, ToRat, CeilMul, X.BooksPaired, X.Alive, X.Listed, UnitPrice, X.Crosses, X.ValidParams, X.Solvent;
    X.ReachableInv(x);
    BidBelowAsk(x.open[p], x.open[q], base, quote);
  }

  // ----- ledgers -----

  lemma {:induction false} NothingWeighs(m: Measure, open: map<nat, OpenOrder>, a: Account, d: Denom, n: nat)
    requires forall q | q in open :: Weight(m, open[q], a, d) == 0
    ensures Total(m, open, a, d, n) == 0
  {
    hide Weight;
    if n != 0 {
      NothingWeighs(m, open, a, d, n - 1);
    }
  }

  /** Whatever is locked is locked by an open order of that account. */
  lemma LocksAreBacked(st: Store, x: X.State, whitelisting: set<Denom>, a: Account, d: Denom)
    requires Represents(st, x, whitelisting) && 0 < Get(st.locked, (a, d))
    ensures exists q :: q in x.open && x.open[q].record.account == a
                     && (x.open[q].SpendDenom() == d || (x.open[q].reserve.Some? && x.open[q].reserve.value.denom == d))
  {
    hide Indexed, BookDataMatch, Total;
    if forall q | q in x.open :: Weight(Locked, x.open[q], a, d) == 0 {
      NothingWeighs(Locked, x.open, a, d, x.sequence + 1);
    }
  }

  /** An account without open orders has nothing locked, nothing expected and no orders counted. */
  lemma ClosedAccountsAreFree(st: Store, x: X.State, whitelisting: set<Denom>, a: Account, d: Denom)
    requires Represents(st, x, whitelisting) && forall q | q in x.open :: x.open[q].record.account != a
    ensures Get(st.locked, (a, d)) == 0 && Get(st.expected, (a, d)) == 0 && Get(st.counts, (a, d)) == 0
  {
    hide OrdersMatch, RecordsMatch, IdsMatch, DenomsMatch, TimeItemsMatch, HeightItemsMatch, BookDataMatch, Total;
    NothingWeighs(Locked, x.open, a, d, x.sequence + 1);
    NothingWeighs(Expected, x.open, a, d, x.sequence + 1);
    NothingWeighs(Count, x.open, a, d, x.sequence + 1);
  }

  // ----- funds -----

  /** In every reachable state the funds of an account cover what all its open orders have to pay, order by order and in all. */
  lemma OpenOrdersAreFunded(x: X.State, q: nat)
    requires X.Reachable(x) && q in x.open
    ensures var o := x.open[q];
            o.record.spendable <= Total(Pledged, x.open, o.record.account, o.SpendDenom(), x.sequence + 1)
                               <= X.Funds(x, o.record.account, o.SpendDenom())
  {
    hide X.Reachable, X.Inv, Total, WellFormed, X.Funds;
    X.ReachableInv(x);
    X.SequencesBounded(x);
    TotalAtLeast(Pledged, x.open, q, x.open[q].record.account, x.open[q].SpendDenom(), x.sequence + 1);
  }

  /** Whatever a placement makes an account pay, maker or taker, the account had before it. */
  lemma EveryoneCanPay(x: X.State, env: X.Env, o: Order, a: Account, d: Denom)
    requires X.Inv(x) && X.Solvent(x) && X.Place(x, env, o).Some?
    ensures PaidBy(X.SettledFills(x, env, o), o, a, d) <= X.Funds(x, a, d)
  {
    hide X.Inv, X.Place, Total, X.Stays, X.Remainder, X.SettledFills, X.ApplyFills, Spent, WellFormed, GoodFill, Unpledged, PaidBy, X.IsCounter, X.WithBooks;
    X.PlaceShape(x, env, o);
    X.SettledFillsGood(x, env, o);
    X.SequencesBounded(x);
    var fills, n := X.SettledFills(x, env, o), x.sequence + 1;
    X.ApplyFillsShape(x.open, fills);
    X.ApplyFillsTotals(Pledged, x.open, fills, X.DataFor(x.open), o, a, d, n);
    TotalNonNegative(Pledged, X.ApplyFills(x.open, fills), a, d, n);
    TotalNonNegative(Locked, x.open, a, d, n);
    PaidFromPledges(fills, o, a, d);
    assert Total(Pledged, x.open, a, d, n) <= X.Funds(x, a, d);
    if a == o.creator && d == o.SpendDenom() {
      UnpledgedElsewhere(fills, o.ReceiveDenom(), a, d);
      if fills == [] {
        X.NothingSpent();
      } else {
        AffordsSpending(x, env, o);
      }
    }
  }

  lemma AffordsSpending(x: X.State, env: X.Env, o: Order)
    requires X.Inv(x) && X.Place(x, env, o).Some? && X.SettledFills(x, env, o) != []
    ensures Spent(X.SettledFills(x, env, o)) <= X.Free(x, o.creator, o.SpendDenom())
  {
    hide X.Inv, X.Place, X.SettledFills, X.Free, Spent, WellFormed;
    X.StaysAffordable(x, env, o);
    if X.Stays(x, env, o) {
      X.RemainderIs(x, env, o);
      RemainderPledges(x, env, o);
    }
  }

  lemma RemainderPledges(x: X.State, env: X.Env, o: Order)
    requires X.Inv(x) && X.Stays(x, env, o)
    ensures 0 <= X.Remainder(x, env, o).record.spendable
  {
    hide X.Inv, X.Matched, MulCeil, IsExecutableAsMaker, CeilMul;
    X.PlaceShape(x, env, o);
    X.RestingLocked(x, env, o);
  }

  /** No account has more locked than it has. */
  ghost predicate Backed(x: X.State) {
    forall a, d :: 0 <= X.Free(x, a, d)
  }

  /** What settling a placement gives back to its creator in the denom it spends: payments to itself and reserves of its own orders. */
  ghost function GivenBack(x: X.State, env: X.Env, o: Order): int
    requires X.Inv(x) && X.Place(x, env, o).Some?
  {
    X.SettledFillsGood(x, env, o);
    var fills := X.SettledFills(x, env, o);
    PaidTo(fills, o, o.creator, o.SpendDenom()) + Unlocked(fills, X.DataFor(x.open), o.ReceiveDenom(), o.creator, o.SpendDenom())
  }

  /** The reserve is free on top of what is spent and locked at the price. */
  ghost predicate ReserveCovered(x: X.State, env: X.Env, o: Order)
    requires X.Inv(x) && X.Place(x, env, o).Some?
  {
    X.Stays(x, env, o) && 0 < x.params.orderReserve.amount && x.params.orderReserve.denom == o.SpendDenom() ==>
      Spent(X.SettledFills(x, env, o)) + X.Remainder(x, env, o).record.spendable + x.params.orderReserve.amount
      <= X.Free(x, o.creator, o.SpendDenom()) + GivenBack(x, env, o)
  }

  /** The free funds after a placement, account by account. */
  lemma FreeAfter(x: X.State, env: X.Env, o: Order, a: Account, d: Denom)
    requires X.Inv(x) && X.Place(x, env, o).Some?
    ensures GoodFills(X.SettledFills(x, env, o))
    ensures var y, fills := X.Place(x, env, o).value, X.SettledFills(x, env, o);
            X.Free(y, a, d) == X.Free(x, a, d) - PaidBy(fills, o, a, d) + PaidTo(fills, o, a, d)
                               - (if X.Stays(x, env, o) then Weight(Locked, X.Remainder(x, env, o), a, d) else 0)
                               + Unlocked(fills, X.DataFor(x.open), o.ReceiveDenom(), a, d)
  {
    hide X.Inv, X.Place, Total, X.Stays, X.Remainder, X.SettledFills, X.PayFills, WellFormed, GoodFill, Unlocked, PaidBy, PaidTo, Weight, X.WithBooks;
    X.PlaceShape(x, env, o);
    X.PlacedTotals(Locked, x, env, o, X.DataFor(x.open), a, d);
    X.PayFillsFunds(X.Registered(x, o), X.SettledFills(x, env, o), o, a, d);
    var y := X.Place(x, env, o).value;
    assert X.Funds(y, a, d) == X.Funds(X.PayFills(X.Registered(x, o), X.SettledFills(x, env, o), o), a, d);
  }

  lemma {:induction false} PledgesWithinUnlocked(fills: seq<Fill>, orders: map<nat, OrderData>, denom: Denom, a: Account, d: Denom)
    requires GoodFills(fills) && PositiveReserves(orders)
    ensures Unpledged(fills, denom, a, d) <= Unlocked(fills, orders, denom, a, d)
    decreases |fills|
  {
    hide GoodFill;
    if |fills| != 0 {
      PledgesWithinUnlocked(fills[..|fills| - 1], orders, denom, a, d);
    }
  }

  lemma {:induction false} TakerPaysSpent(fills: seq<Fill>, o: Order)
    requires o.baseDenom != o.quoteDenom
    ensures PaidBy(fills, o, o.creator, o.SpendDenom()) == Spent(fills)
    decreases |fills|
  {
    if |fills| != 0 {
      TakerPaysSpent(fills[..|fills| - 1], o);
    }
  }

  lemma DataPositive(x: X.State)
    requires X.Inv(x)
    ensures PositiveReserves(X.DataFor(x.open))
  {
    hide Resting, X.BooksPaired, X.Uncrossed, X.Alive, X.Listed, X.ValidParams;
  }

  /**
   The funds checks do not add the reserve to what is spent. So a placement keeps every account
   backed exactly if the reserve is covered on top, or is in another denom, or nothing rests.
   */
  lemma PlaceKeepsBackedIff(x: X.State, env: X.Env, o: Order)
    requires X.Inv(x) && Backed(x) && X.Place(x, env, o).Some?
    ensures Backed(X.Place(x, env, o).value) <==> ReserveCovered(x, env, o)
  {
    hide X.Inv, X.Place, X.Stays, X.Remainder, X.SettledFills, X.Free, WellFormed, GoodFill, Unlocked, Unpledged, PaidBy, PaidTo, Spent;
    X.PlaceShape(x, env, o);
    X.SettledFillsGood(x, env, o);
    DataPositive(x);
    var y, fills, spend := X.Place(x, env, o).value, X.SettledFills(x, env, o), o.SpendDenom();
    FreeAfter(x, env, o, o.creator, spend);
    TakerPaysSpent(fills, o);
    SpendSide(x, env, o);
    forall a, d | !(a == o.creator && d == spend) ensures 0 <= X.Free(y, a, d) {
      OtherSide(x, env, o, a, d);
    }
  }

  lemma SpendSide(x: X.State, env: X.Env, o: Order)
    requires X.Inv(x) && Backed(x) && X.Place(x, env, o).Some?
    ensures 0 <= X.Free(X.Place(x, env, o).value, o.creator, o.SpendDenom()) <==> ReserveCovered(x, env, o)
  {
    hide X.Inv, X.Place, X.Stays, X.Remainder, X.SettledFills, X.Free, WellFormed, GoodFill, Unlocked, Unpledged, PaidBy, PaidTo, Spent;
    X.PlaceShape(x, env, o);
    X.SettledFillsGood(x, env, o);
    DataPositive(x);
    var fills, spend := X.SettledFills(x, env, o), o.SpendDenom();
    FreeAfter(x, env, o, o.creator, spend);
    TakerPaysSpent(fills, o);
    PaidFromPledges(fills, o, o.creator, spend);
    PledgesWithinUnlocked(fills, X.DataFor(x.open), o.ReceiveDenom(), o.creator, spend);
    UnpledgedElsewhere(fills, o.ReceiveDenom(), o.creator, spend);
    assert 0 <= X.Free(x, o.creator, spend);
    if X.Stays(x, env, o) {
      X.RemainderIs(x, env, o);
      X.StaysAffordable(x, env, o);
    } else if fills != [] {
      AffordsSpending(x, env, o);
    } else {
      X.NothingSpent();
    }
  }

  lemma OtherSide(x: X.State, env: X.Env, o: Order, a: Account, d: Denom)
    requires X.Inv(x) && Backed(x) && X.Place(x, env, o).Some? && !(a == o.creator && d == o.SpendDenom())
    ensures 0 <= X.Free(X.Place(x, env, o).value, a, d)
  {
    hide X.Inv, X.Place, X.Stays, X.Remainder, X.SettledFills, X.Free, WellFormed, GoodFill, Unlocked, Unpledged, PaidBy, PaidTo, Spent;
    X.PlaceShape(x, env, o);
    X.SettledFillsGood(x, env, o);
    DataPositive(x);
    var fills := X.SettledFills(x, env, o);
    FreeAfter(x, env, o, a, d);
    PaidFromPledges(fills, o, a, d);
    PledgesWithinUnlocked(fills, X.DataFor(x.open), o.ReceiveDenom(), a, d);
    assert 0 <= X.Free(x, a, d);
    if X.Stays(x, env, o) {
      X.RemainderIs(x, env, o);
      X.StaysAffordable(x, env, o);
    }
  }

  /** Nothing else than a placement can leave an account with more locked than it has. */
  lemma OtherStepsKeepBacked(x: X.State, op: X.Op)
    requires X.Inv(x) && Backed(x) && !op.PlaceOp?
    ensures Backed(X.Step(x, op))
  {
    hide X.Inv, X.Place, Total, X.ValidParams, X.Expiring, X.Touching, X.Owns;
    X.SequencesBounded(x);
    var y := X.Step(x, op);
    forall a, d ensures 0 <= X.Free(y, a, d) {
      assert 0 <= X.Free(x, a, d);
      match op
      case CancelOp(account, id) =>
        if q :| q in x.open && y.open == x.open - {q} { X.FewerTotals(Locked, x.open, {q}, a, d, x.sequence + 1); }
      case CancelByDenomOp(allowed, account, denom) =>
        X.FewerTotals(Locked, x.open, X.Touching(x.open, account, denom), a, d, x.sequence + 1);
      case BeginBlockOp(height, time) =>
        X.FewerTotals(Locked, x.open, X.Expiring(x.open, height, time), a, d, x.sequence + 1);
      case _ =>
    }
  }

  // ----- ticks and steps -----

  /**
   Every order placed lies on the grid of its market: its quantity is a multiple of
   10^max(0, param + ceil(log10 base)) and a limit price of 10^(param + ceil(log10 (quote / base))),
   for the denoms' own reference amounts, or the default where a denom has none.
   */
  lemma PlacedOrdersFitTheGrid(x: X.State, env: X.Env, o: Order, base: X.RefAmount, quote: X.RefAmount, k: int, j: int)
    requires X.Inv(x) && X.Place(x, env, o).Some?
    requires Reference(env.baseRefAmount, x.params.defaultRefAmount, base) && Reference(env.quoteRefAmount, x.params.defaultRefAmount, quote)
    requires IsCeilLog10(Rat(base, Pow10(18)), k) && IsCeilLog10(Rat(quote, base), j)
    ensures QuantityOnGrid(o.quantity, x.params.quantityStepExponent, k)
    ensures o.price.Some? ==> PriceOnGrid(PriceOf(o.price.value), x.params.priceTickExponent, j)
  {
    hide X.Inv, X.Place, X.Accepted, QuantityOnGrid, PriceOnGrid, IsCeilLog10, Pow10;
    X.PlaceShape(x, env, o);
    AcceptedIff(x, env, o, base, quote, k, j);
  }

  /**
   The balance an order is matched with: a limit order brings the least amount that pays for
   its quantity at its limit, a market order what the account can spend, and a market sell no
   more than its quantity.
   */
  lemma BalanceBroughtIn(o: Order, spendable: nat, b: nat)
    requires X.ValidOrder(o)
    ensures X.InitialBalance(o, spendable).Some?
    ensures var balance := X.InitialBalance(o, spendable).value;
            && (o.orderType.Limit? && o.side.Buy? ==>
                  (balance <= b <==> o.quantity * PriceOf(o.price.value).num <= b * PriceOf(o.price.value).den))
            && (o.orderType.Limit? && o.side.Sell? ==> balance == o.quantity)
            && (o.orderType.Market? && o.side.Buy? ==> balance == spendable)
            && (o.orderType.Market? && o.side.Sell? ==> (b <= balance <==> b <= o.quantity && b <= spendable))
  {
    hide CeilMul, MulCeil, X.ValidOrderID, ToRat;
    if o.orderType.Limit? {
      MulCeilIsCeiling(o.quantity, o.price.value);
      CeilMulLeast(o.quantity, PriceOf(o.price.value), b);
    }
  }

  // ----- what rests -----

  /** The order found in the book under sequence q is what is left of o. */
  ghost predicate IsRemainder(r: OpenOrder, o: Order, q: nat, remaining: int) {
    && r.record.sequence == q && r.record.account == o.creator && r.record.id == o.id && r.record.side == o.side
    && o.price.Some? && r.record.price == o.price.value && r.record.remaining == remaining
    && r.baseDenom == o.baseDenom && r.quoteDenom == o.quoteDenom && r.quantity == o.quantity && r.goodTil == o.goodTil
  }

  /** Of a good-til-cancelled order that is not closed, whatever still makes one lot stays in the book, and only that. */
  lemma RemainderRests(x: X.State, env: X.Env, o: Order)
    requires X.Inv(x) && X.Place(x, env, o).Some?
    requires o.orderType.Limit? && o.timeInForce.GTC?
    ensures AllWellFormed(x.open) && X.ValidOrder(o)
    ensures var y, out, q := X.Place(x, env, o).value, X.Matched(x, env, o), x.sequence + 1;
            var remaining := o.quantity - TradedBase(out.fills);
            && (q in y.open <==> !out.filled && PriceOf(o.price.value).den <= remaining)
            && (q in y.open ==> IsRemainder(y.open[q], o, q, remaining))
  {
    hide X.ApplyFills, X.Matched, X.CreateAllowed, X.Validated, MulCeil, CeilMul, ToRat, Spent, TradedBase, WellFormed, GoodFill, IsExecutableAsMaker,
         X.BooksPaired, X.Uncrossed, X.Alive, X.Listed, X.WithBooks;
    X.InvWellFormed(x);
    X.AcceptedIsValid(x, env, o);
    MatchedConserves(x, env, o);
    X.RestingLocked(x, env, o);
    ExecutableIffOneLot(X.Matched(x, env, o).taker);
    X.MatchedFills(x, env, o);
    X.ApplyFillsShape(x.open, X.Matched(x, env, o).fills);
  }

  /**
   An order that rests leaves its creator with no more open orders in its denoms than the limit;
   any other placement leaves nobody with more than before.
   */
  lemma OrdersPerDenomAreLimited(x: X.State, env: X.Env, o: Order, a: Account, d: Denom)
    requires X.Inv(x) && X.Place(x, env, o).Some?
    ensures var y := X.Place(x, env, o).value;
            if X.Stays(x, env, o) && a == o.creator && (d == o.baseDenom || d == o.quoteDenom)
            then Total(Count, y.open, a, d, x.sequence + 2) <= x.params.maxOrdersPerDenom
            else Total(Count, y.open, a, d, x.sequence + 2) <= Total(Count, x.open, a, d, x.sequence + 1)
  {
    hide X.Inv, X.Place, X.ApplyFills, X.SettledFills, X.Stays, X.Remainder, WellFormed, GoodFill, Total, X.IsCounter, X.WithBooks;
    X.PlaceShape(x, env, o);
    X.SettledFillsGood(x, env, o);
    X.SequencesBounded(x);
    var fills, n := X.SettledFills(x, env, o), x.sequence + 1;
    var after := X.ApplyFills(x.open, fills);
    X.ApplyFillsShape(x.open, fills);
    FewerOrdersCount(x.open, after, a, d, n + 1);
    TotalExtend(Count, x.open, a, d, n, n + 1);
    if X.Stays(x, env, o) {
      RestingCount(x, env, o);
      TotalSet(Count, after, n, X.Remainder(x, env, o), a, d, n + 1);
    }
  }

  lemma RestingCount(x: X.State, env: X.Env, o: Order)
    requires X.Inv(x) && X.Stays(x, env, o)
    ensures X.CreateAllowed(x, o)
    ensures var r := X.Remainder(x, env, o); r.record.account == o.creator && r.baseDenom == o.baseDenom && r.quoteDenom == o.quoteDenom
  {
    hide X.Inv, X.Matched, X.ApplyFills, X.Accepted, X.CreateAllowed, X.Admitted, MulCeil, X.ValidOrder, X.PayFills, X.WithBooks, Spent;
    X.InvWellFormed(x);
    X.AcceptedIsValid(x, env, o);
    X.RestingLocked(x, env, o);
  }

  lemma {:induction false} FewerOrdersCount(open: map<nat, OpenOrder>, fewer: map<nat, OpenOrder>, a: Account, d: Denom, n: nat)
    requires forall q | q in fewer :: q in open && fewer[q] == open[q].(record := fewer[q].record) && X.SameBookEntry(open[q].record, fewer[q].record)
    ensures Total(Count, fewer, a, d, n) <= Total(Count, open, a, d, n)
  {
    if n != 0 {
      FewerOrdersCount(open, fewer, a, d, n - 1);
    }
  }

  /**
   What a placement does to the locked totals, written out: makers release what their fills
   release, and a creator whose order rests locks the rest at its price and the reserve.
   */
  lemma LocksMoveExactly(x: X.State, env: X.Env, o: Order, orders: map<nat, OrderData>, a: Account, d: Denom)
    requires X.Inv(x) && X.Place(x, env, o).Some? && X.DataOf(orders, x.open)
    requires x.sequence + 1 in X.Place(x, env, o).value.open
    ensures AllWellFormed(x.open) && X.ValidOrder(o) && o.price.Some? && GoodFills(X.Matched(x, env, o).fills)
    ensures var out, reserve := X.Matched(x, env, o), x.params.orderReserve;
            && 0 <= out.taker.remaining
            && Total(Locked, X.Place(x, env, o).value.open, a, d, x.sequence + 2)
               == Total(Locked, x.open, a, d, x.sequence + 1)
                  - Unlocked(out.fills, orders, o.ReceiveDenom(), a, d)
                  + (if a == o.creator && d == o.SpendDenom()
                     then if o.side.Sell? then out.taker.remaining else CeilMul(out.taker.remaining, PriceOf(o.price.value)) else 0)
                  + (if a == o.creator && 0 < reserve.amount && reserve.denom == d then reserve.amount else 0)
  {
    hide X.Inv, X.ApplyFills, X.Matched, X.Validated, MulCeil, CeilMul, ToRat, Spent, WellFormed, GoodFill, Total, X.Registered, X.ValidOrderID,
         X.CreateAllowed, X.IsCounter, IsExecutableAsMaker, Unlocks;
    X.InvWellFormed(x);
    X.AcceptedIsValid(x, env, o);
    X.RegisteredKeeps(x, o);
    var out, n := X.Matched(x, env, o), x.sequence + 1;
    X.MatchedFills(x, env, o);
    X.ApplyFillsShape(x.open, out.fills);
    X.SequencesBounded(x);
    if X.Rests(o, out) {
      X.RestingLocked(x, env, o);
      var after := X.ApplyFills(x.open, out.fills);
      X.ApplyFillsTotals(Locked, x.open, out.fills, orders, o, a, d, n);
      TotalExtend(Locked, after, a, d, n, n + 1);
      TotalSet(Locked, after, n, X.RestingOrder(x.params, o, out.taker), a, d, n + 1);
    }
  }

  // ----- order IDs -----

  /** An order ID that was accepted once is refused ever after, whatever happened to the order. */
  lemma OrderIDsAreNeverReused(x: X.State, env: X.Env, o: Order, ops: seq<X.Op>, env': X.Env, o': Order)
    requires X.Inv(x) && X.Place(x, env, o).Some? && X.Inv(X.Place(x, env, o).value) && X.Feasible(X.Place(x, env, o).value, ops)
    requires o'.creator == o.creator && o'.id == o.id
    ensures X.Inv(X.Run(X.Place(x, env, o).value, ops))
    ensures X.Place(X.Run(X.Place(x, env, o).value, ops), env', o') == None
  {
    hide X.Inv, X.Run, X.Matched, X.ApplyFills, X.Rests, X.RestingOrder, X.CreateAllowed, X.Feasible, X.Validated, X.WithBooks, MulCeil, Spent;
    X.PlaceShape(x, env, o);
    X.RunKeepsInv(X.Place(x, env, o).value, ops);
  }

  // ----- time in force -----

  /**
   Fill or kill: a placement that succeeds trades the whole quantity, or it only registers the
   order: no open order and no funds change, but the order ID and a sequence number are used up.
   */
  lemma FillOrKill(x: X.State, env: X.Env, o: Order)
    requires X.Inv(x) && X.Place(x, env, o).Some? && o.timeInForce.FOK?
    ensures AllWellFormed(x.open) && X.ValidOrder(o)
    ensures var y, fills := X.Place(x, env, o).value, X.Matched(x, env, o).fills;
            if TradedBase(fills) == o.quantity
            then y == X.PayFills(X.Registered(x, o), fills, o).(open := X.ApplyFills(x.open, fills))
            else y == X.Registered(x, o) && (o.creator, o.id) in y.reserved && y.sequence == x.sequence + 1 && y.open == x.open && y.funds == x.funds
  {
    hide X.Inv, X.Accepted, X.ApplyFills, X.Matched, X.CreateAllowed, X.RestingOrder, X.Admitted, X.PayFills, MulCeil, X.ValidOrderID, X.WithBooks, Spent,
         TradedBase, WellFormed, GoodFill;
    X.InvWellFormed(x);
    X.AcceptedIsValid(x, env, o);
    MatchedConserves(x, env, o);
    var out := X.Matched(x, env, o);
    if Spent(out.fills) == 0 {
      SpentNothingTradedNothing(x, env, o);
    }
  }

  /** A matching that spends nothing trades nothing. */
  lemma SpentNothingTradedNothing(x: X.State, env: X.Env, o: Order)
    requires AllWellFormed(x.open) && X.ValidOrder(o) && Spent(X.Matched(x, env, o).fills) == 0
    ensures TradedBase(X.Matched(x, env, o).fills) == 0
  {
    hide WellFormed, X.ValidOrder, X.Makers, MatchAll, Ready, X.InitialBalance, X.WithBooks, TradedBase, Spent, GoodFill, EffectivePrice;
    var taker, makers, fills := X.TakerOf(x, env, o), X.Makers(x.open, o), X.Matched(x, env, o).fills;
    X.TakerReady(x.open, o, taker.book, taker.sequence, env.spendable);
    X.MatchedFills(x, env, o);
    SpentNothing(fills);
    forall i | 0 <= i < |fills| ensures fills[i].trade.base == 0 {
      FillsTradeAtMakerPrice(taker, makers, i);
      NothingReceived(fills[i]);
    }
    NoBaseTraded(fills);
  }

  lemma NothingReceived(f: Fill)
    requires GoodFill(f) && f.trade.takerSpends == 0
    ensures f.trade.takerReceives == 0
  {
  }

  lemma {:induction false} NoBaseTraded(fills: seq<Fill>)
    requires forall i | 0 <= i < |fills| :: fills[i].trade.base == 0
    ensures TradedBase(fills) == 0
    decreases |fills|
  {
    if |fills| != 0 {
      NoBaseTraded(fills[..|fills| - 1]);
    }
  }

  /** Fills that spend nothing trade nothing. */
  lemma {:induction false} SpentNothing(fills: seq<Fill>)
    requires GoodFills(fills) && Spent(fills) == 0
    ensures forall i | 0 <= i < |fills| :: fills[i].trade.takerSpends == 0
    decreases |fills|
  {
    hide GoodFill;
    if |fills| != 0 {
      SpentNonNegative(fills[..|fills| - 1]);
      GoodFillSpends(fills[|fills| - 1]);
      SpentNothing(fills[..|fills| - 1]);
    }
  }

  /** What an order trades and spends is exactly what it loses, and never more than it brought. */
  lemma MatchedConserves(x: X.State, env: X.Env, o: Order)
    requires AllWellFormed(x.open) && X.ValidOrder(o)
    ensures X.InitialBalance(o, env.spendable).Some?
    ensures var out := X.Matched(x, env, o);
            && out.taker.remaining == o.quantity - TradedBase(out.fills) && 0 <= out.taker.remaining
            && out.taker.spendable == X.InitialBalance(o, env.spendable).value - Spent(out.fills) && 0 <= out.taker.spendable
  {
    hide WellFormed, X.ValidOrder, X.Makers, MatchAll, Ready, X.InitialBalance, TradedBase, Spent, X.WithBooks;
    var taker := X.TakerOf(x, env, o);
    X.TakerReady(x.open, o, taker.book, taker.sequence, env.spendable);
    TakerConserved(taker, X.Makers(x.open, o));
    TakerAfterMatching(taker, X.Makers(x.open, o));
  }

  /** Only good-til-cancelled limit orders enter the book; any other order leaves no new open order. */
  lemma ImmediateOrdersNeverRest(x: X.State, env: X.Env, o: Order, q: nat)
    requires X.Inv(x) && X.Place(x, env, o).Some?
    requires !(o.orderType.Limit? && o.timeInForce.GTC?) && q in X.Place(x, env, o).value.open
    ensures q in x.open
  {
    hide X.Inv, X.Accepted, X.ApplyFills, X.Matched, X.CreateAllowed, X.RestingOrder, X.Registered, MulCeil, X.ValidOrder, Spent, WellFormed, GoodFill;
    X.InvWellFormed(x);
    X.AcceptedIsValid(x, env, o);
    X.RegisteredKeeps(x, o);
    X.MatchedFills(x, env, o);
    X.ApplyFillsShape(x.open, X.Matched(x, env, o).fills);
  }

  // ----- prices -----

  /** A trade at exactly the given price, paid and received on the right sides. */
  ghost predicate TradesAt(t: Trade, side: Side, p: Pos) {
    && 0 <= t.base && 0 <= t.quote && t.base * p.num == t.quote * p.den
    && t.takerSpends == (if side.Sell? then t.base else t.quote)
    && t.takerReceives == (if side.Sell? then t.quote else t.base)
  }

  lemma FillTradesAtMakerPrice(taker: Record, maker: Record)
    requires Matchable(taker) && MakerOk(maker)
    ensures TradesAt(FillOf(taker, maker).trade, taker.side, EffectivePrice(taker.side, maker))
  {
    hide MatchRecords, Lots, EffectivePrice, IsExecutableAsMaker;
    MatchTradesLots(taker, maker);
    var p, n := EffectivePrice(taker.side, maker), Lots(taker, maker);
    LotAmounts(n, p.num, p.den);
  }

  lemma LotAmounts(n: nat, num: nat, den: nat)
    ensures n * den * num == n * num * den && 0 <= n * den && 0 <= n * num
  {
    MulSwap(n, den, num);
  }

  lemma {:induction false} FillsTradeAtMakerPrice(taker: Record, makers: seq<Record>, i: nat)
    requires Ready(taker, makers) && i < |MatchAll(taker, makers).fills|
    ensures i < |makers| && makers[i] == MatchAll(taker, makers).fills[i].maker
    ensures TradesAt(MatchAll(taker, makers).fills[i].trade, taker.side, EffectivePrice(taker.side, makers[i]))
    decreases |makers|
  {
    hide TradesAt, EffectivePrice, MatchRecords, GoodFill, IsExecutableAsMaker, Covered, PriceAccepted, Resting;
    if |makers| != 0 {
      ReadyNext(taker, makers);
      FillTradesAtMakerPrice(taker, makers[0]);
      var rest := AfterTaker(taker, FillOf(taker, makers[0]).trade);
      if i != 0 {
        FillsTradeAtMakerPrice(rest, makers[1..], i - 1);
      }
    }
  }

  /**
   Every fill of a limit order is at exactly the maker's price, and that price is no worse than
   the limit: a buyer never pays more, and a seller never gets less, than limit times quantity.
   */
  lemma LimitIsRespected(x: X.State, env: X.Env, o: Order, i: nat)
    requires AllWellFormed(x.open) && X.ValidOrder(o) && o.orderType.Limit? && i < |X.Matched(x, env, o).fills|
    ensures var f := X.Matched(x, env, o).fills[i];
            var limit := PriceOf(o.price.value);
            && f.maker.sequence in x.open && x.open[f.maker.sequence].record == f.maker
            && TradesAt(f.trade, o.side, EffectivePrice(o.side, f.maker))
            && (o.side.Buy? ==> f.trade.takerSpends * limit.den <= f.trade.takerReceives * limit.num)
            && (o.side.Sell? ==> f.trade.takerSpends * limit.num <= f.trade.takerReceives * limit.den)
  {
    hide WellFormed, X.Makers, MatchAll, Ready, X.InitialBalance, X.WithBooks, MulCeil, ToRat, EffectivePrice, Le;
    var taker, makers := X.TakerOf(x, env, o), X.Makers(x.open, o);
    X.TakerReady(x.open, o, taker.book, taker.sequence, env.spendable);
    FillsTradeAtMakerPrice(taker, makers, i);
    X.MakersElements(x.open, o);
    var f := X.Matched(x, env, o).fills[i];
    assert f.maker in makers;
    WithinLimit(f.trade, o.side, EffectivePrice(o.side, f.maker), PriceOf(o.price.value));
  }

  lemma WithinLimit(t: Trade, side: Side, p: Pos, limit: Pos)
    requires TradesAt(t, side, p) && IsPriceMatches(side, limit, p)
    ensures side.Buy? ==> t.takerSpends * limit.den <= t.takerReceives * limit.num
    ensures side.Sell? ==> t.takerSpends * limit.num <= t.takerReceives * limit.den
  {
    if side.Buy? {
      RatioBelow(t.base, t.quote, p.num, p.den, limit.num, limit.den);
    } else {
      RatioBelow(t.quote, t.base, p.den, p.num, limit.den, limit.num);
    }
  }

  /** b : q is in the ratio d : n, and n / d is at most ln / ld. */
  lemma RatioBelow(b: nat, q: nat, n: nat, d: nat, ln: nat, ld: nat)
    requires b * n == q * d && n * ld <= ln * d && 0 < d
    ensures q * ld <= b * ln
  {
    calc {
      (q * ld) * d;
      == { MulSwap(q, ld, d); }
      (q * d) * ld;
      ==
      (b * n) * ld;
      == { MulAssoc(b, n, ld); }
      b * (n * ld);
      <= { MulMono(n * ld, ln * d, b); }
      b * (ln * d);
      == { MulAssoc(b, ln, d); }
      (b * ln) * d;
    }
    ScaleDown(q * ld, b * ln, d);
  }

  lemma ScaleDown(a: int, b: int, d: nat)
    requires a * d <= b * d && 0 < d
    ensures a <= b
  {
    if b < a {
      MulMono(1, a - b, d);
    }
  }

  // ----- priority -----

  /** The price of a maker in the taker's book: as it stands, or inverted if the maker comes from the inverse book. */
  function PriceFor(side: Side, m: Record): Pos
    requires 0 < m.price.num
  {
    var p := PriceOf(m.price);
    if m.side == side then Rat(p.den, p.num) else p
  }

  lemma PriceForIsEffective(side: Side, m: Record)
    requires 0 < m.price.num
    ensures PriceFor(side, m) == EffectivePrice(side, m)
  {
  }

  /** A maker's price suits the order: any price a market order, a price no worse than the limit a limit order. */
  predicate Suits(o: Order, m: Record)
    requires 0 < m.price.num
  {
    || o.orderType == Market
    || (o.orderType == Limit && o.price.Some? &&
        if o.side == Buy then Le(PriceFor(Buy, m), PriceOf(o.price.value)) else Le(PriceOf(o.price.value), PriceFor(Sell, m)))
  }

  /** An open order on the other side of the pair, in either book, at a price that suits. */
  ghost predicate IsMaker(o: Order, m: OpenOrder) {
    && (if o.side == Buy then Asks(m, o.baseDenom, o.quoteDenom) else Bids(m, o.baseDenom, o.quoteDenom))
    && 0 < m.record.price.num && Suits(o, m.record)
  }

  lemma IsMakerIff(o: Order, m: OpenOrder)
    requires 0 < m.record.price.num
    ensures IsMaker(o, m) <==> X.IsCounter(o.baseDenom, o.quoteDenom, o.side, m) && Accepts(o, m.record)
  {
    hide ToRat, Le;
    PriceForIsEffective(o.side, m.record);
  }

  lemma PricePositive(open: map<nat, OpenOrder>, q: nat)
    requires AllWellFormed(open) && q in open
    ensures 0 < open[q].record.price.num && open[q].record.sequence == q
  {
    hide CeilMul;
    assert WellFormed(open[q], q);
  }

  /** The makers of an order are exactly the open orders it can trade with. */
  lemma MakersAreExactly(open: map<nat, OpenOrder>, o: Order, r: Record)
    requires AllWellFormed(open)
    ensures r in X.Makers(open, o) <==> exists q :: q in open && open[q].record == r && IsMaker(o, open[q])
  {
    hide WellFormed, AllWellFormed, X.Makers, X.IsCounter, Accepts, IsMaker;
    X.MakersElements(open, o);
    assert r in Elements(X.Makers(open, o)) <==> r in X.Makers(open, o);
    forall q | q in open ensures IsMaker(o, open[q]) <==> X.IsCounter(o.baseDenom, o.quoteDenom, o.side, open[q]) && Accepts(o, open[q].record) {
      PricePositive(open, q);
      IsMakerIff(o, open[q]);
    }
    if r in X.Makers(open, o) {
      assert r.sequence in open && open[r.sequence].record == r && IsMaker(o, open[r.sequence]);
    }
  }

  /** Makers come at better prices first and, at equal prices, older first, whichever book each is in. */
  lemma MakersByPriceThenAge(open: map<nat, OpenOrder>, o: Order, i: nat, j: nat)
    requires AllWellFormed(open) && i < j < |X.Makers(open, o)|
    ensures var a, b := X.Makers(open, o)[i], X.Makers(open, o)[j];
            && 0 < a.price.num && 0 < b.price.num
            && var p, q := PriceFor(o.side, a), PriceFor(o.side, b);
               (if o.side == Buy then Lt(p, q) else Lt(q, p)) || (Eq(p, q) && a.sequence < b.sequence)
  {
    hide WellFormed, AllWellFormed, Accepts, Lt, Eq, X.MakerRecords, PriceFor, EffectivePrice, X.IsCounter;
    var s := X.MakerRecords(open, o.baseDenom, o.quoteDenom, o.side);
    var ms, ahead := X.Makers(open, o), AheadFor(o.side);
    X.MakersDistinct(open, o.baseDenom, o.quoteDenom, o.side);
    AheadStrictTotal(o.side, Acceptable(s, AcceptsBy(o)));
    ListingFacts(Acceptable(s, AcceptsBy(o)), ahead);
    X.MakersElements(open, o);
    assert ms[i] in ms && ms[j] in ms && ahead(ms[i], ms[j]);
    PricePositive(open, ms[i].sequence);
    PricePositive(open, ms[j].sequence);
    PriceForIsEffective(o.side, ms[i]);
    PriceForIsEffective(o.side, ms[j]);
  }

  /** Fills are made at better prices first and, at equal prices, with older orders first. */
  lemma FillsByPriceThenAge(x: X.State, env: X.Env, o: Order, i: nat, j: nat)
    requires AllWellFormed(x.open) && X.ValidOrder(o) && i < j < |X.Matched(x, env, o).fills|
    ensures var a, b := X.Matched(x, env, o).fills[i].maker, X.Matched(x, env, o).fills[j].maker;
            && 0 < a.price.num && 0 < b.price.num
            && var p, q := PriceFor(o.side, a), PriceFor(o.side, b);
               (if o.side == Buy then Lt(p, q) else Lt(q, p)) || (Eq(p, q) && a.sequence < b.sequence)
  {
    hide WellFormed, AllWellFormed, X.ValidOrder, X.Makers, MatchAll, Ready, GoodFill, PriceFor, X.WithBooks, X.InitialBalance, Lt, Eq;
    FillsFollowMakers(x, env, o);
    MakersByPriceThenAge(x.open, o, i, j);
  }

  /** Fills are of the first makers in turn; all are closed but possibly the last. */
  lemma FillsFollowMakers(x: X.State, env: X.Env, o: Order)
    requires AllWellFormed(x.open) && X.ValidOrder(o)
    ensures var out, ms := X.Matched(x, env, o), X.Makers(x.open, o);
            && |out.fills| <= |ms|
            && (forall i | 0 <= i < |out.fills| :: out.fills[i].maker == ms[i])
            && (forall i | 0 <= i < |out.fills| - 1 :: out.fills[i].closed)
            && (!out.filled ==> |out.fills| == |ms| && forall i | 0 <= i < |ms| :: out.fills[i].closed)
  {
    hide WellFormed, X.ValidOrder, X.Makers, MatchAll, Ready, GoodFill, X.WithBooks, X.InitialBalance;
    var taker := X.TakerOf(x, env, o);
    X.TakerReady(x.open, o, taker.book, taker.sequence, env.spendable);
    OnlyLastStaysOpen(taker, X.Makers(x.open, o));
  }

  /**
   No order is passed over: whenever a maker is filled, every open order the taker could trade with
   at a better price, or at the same price and older, was filled before and closed.
   */
  lemma NobodyIsPassedOver(x: X.State, env: X.Env, o: Order, i: nat, q: nat)
    requires AllWellFormed(x.open) && X.ValidOrder(o) && i < |X.Matched(x, env, o).fills|
    requires q in x.open && IsMaker(o, x.open[q])
    requires 0 < X.Matched(x, env, o).fills[i].maker.price.num
    requires var m := X.Matched(x, env, o).fills[i].maker; var p, r := PriceFor(o.side, x.open[q].record), PriceFor(o.side, m);
             (if o.side == Buy then Lt(p, r) else Lt(r, p)) || (Eq(p, r) && q < m.sequence)
    ensures exists j :: 0 <= j < i && X.Matched(x, env, o).fills[j].maker == x.open[q].record && X.Matched(x, env, o).fills[j].closed
  {
    hide WellFormed, AllWellFormed, X.ValidOrder, X.Makers, X.Matched, PriceFor, IsMaker;
    var ms, fills, r := X.Makers(x.open, o), X.Matched(x, env, o).fills, x.open[q].record;
    FillsFollowMakers(x, env, o);
    PricePositive(x.open, q);
    MakersAreExactly(x.open, o, r);
    var j :| 0 <= j < |ms| && ms[j] == r;
    if i <= j {
      if i < j {
        MakersByPriceThenAge(x.open, o, i, j);
        NotBoth(o.side, PriceFor(o.side, r), q, PriceFor(o.side, ms[i]), ms[i].sequence);
      }
      assert false;
    }
    assert fills[j].maker == r && fills[j].closed;
  }

  /** Two makers cannot each be ahead of the other. */
  lemma NotBoth(side: Side, p: Pos, m: nat, r: Pos, n: nat)
    requires (if side == Buy then Lt(p, r) else Lt(r, p)) || (Eq(p, r) && m < n)
    ensures !((if side == Buy then Lt(r, p) else Lt(p, r)) || (Eq(r, p) && n < m))
  {
  }
}
