/**
 What each operation does, said of orders, fills, funds and fields alone: how much an
 order trades and when it stops, what it leaves of its makers and of itself, what is
 paid, when a placement succeeds, and what cancelling, withdrawing and setting
 parameters do.
 */
module Effects {
  import opened Bytes
  import opened Rational
  import opened Price
  import opened Types
  import opened Amounts
  import opened Matching
  import opened Orders
  import opened Engine
  import opened BookDepth
  import opened Ledgers
  import opened Exchange
  import opened Store
  import opened Guarantees

  // ----- how much is traded -----

  /** The taker as it stands before fill i. */
  ghost function Before(taker: Record, fills: seq<Fill>, i: nat): Record
    requires i <= |fills|
  {
    taker.(remaining := taker.remaining - TradedBase(fills[..i]), spendable := taker.spendable - Spent(fills[..i]))
  }

  /** Each fill is the match of its maker with what the fills before it left of the taker. */
  lemma {:induction false} FillAt(taker: Record, ms: seq<Record>, i: nat)
    requires Ready(taker, ms) && i < |MatchAll(taker, ms).fills|
    ensures var fills := MatchAll(taker, ms).fills;
            && i < |ms| && Matchable(Before(taker, fills, i)) && MakerOk(ms[i]) && fills[i] == FillOf(Before(taker, fills, i), ms[i])
            && (i < |fills| - 1 || !MatchAll(taker, ms).filled <==> !ClosesTaker(Before(taker, fills, i), ms[i]))
    decreases |ms|
  {
    hide MatchRecords, IsExecutableAsMaker, Covered, PriceAccepted, Resting, TradedBase, Spent, FillOf, ClosesTaker;
    ReadyNext(taker, ms);
    ReadyMatchable(taker, ms);
    var fills, f := MatchAll(taker, ms).fills, FillOf(taker, ms[0]);
    if i == 0 {
      NothingBefore(taker, fills);
    } else {
      var rest := AfterTaker(taker, f.trade);
      var o := MatchAll(rest, ms[1..]);
      FillAt(rest, ms[1..], i - 1);
      assert fills[..i] == [f] + o.fills[..i - 1];
      TradedCons(f, o.fills[..i - 1]);
    }
  }

  lemma ReadyMatchable(taker: Record, ms: seq<Record>)
    requires Ready(taker, ms)
    ensures Matchable(taker)
  {
    hide Resting, Covered, PriceAccepted;
  }

  lemma NothingBefore(taker: Record, fills: seq<Fill>)
    ensures Before(taker, fills, 0) == taker
  {
    assert fills[..0] == [];
  }

  /**
   Fill by fill an order trades the largest amounts at exactly the maker's price that the maker
   has and that are left of the order: of its quantity and, for a market order, of its balance.
   */
  lemma FillsAreLargest(x: State, env: Env, o: Order, i: nat, b: int, q: int)
    requires AllWellFormed(x.open) && ValidOrder(o) && i < |Matched(x, env, o).fills|
    ensures InitialBalance(o, env.spendable).Some?
    ensures var fills := Matched(x, env, o).fills; var f := fills[i];
            var left := TakerRecord(0, o, 0, InitialBalance(o, env.spendable).value)
                        .(remaining := o.quantity - TradedBase(fills[..i]), spendable := InitialBalance(o, env.spendable).value - Spent(fills[..i]));
            && 0 < f.maker.price.num
            && AtMakerPrice(o.side, f.maker, f.trade.base, f.trade.quote) && BothHave(left, f.maker, f.trade.base, f.trade.quote)
            && (AtMakerPrice(o.side, f.maker, b, q) && BothHave(left, f.maker, b, q) ==> b <= f.trade.base && q <= f.trade.quote)
            && f.trade.takerSpends == (if o.side == Sell then f.trade.base else f.trade.quote)
            && f.trade.takerReceives == (if o.side == Sell then f.trade.quote else f.trade.base)
  {
    hide AllWellFormed, ValidOrder, Makers, MatchAll, Ready, MatchRecords, TradedBase, Spent, AtMakerPrice, ToRat, InitialBalance, IsExecutableAsMaker, WithBooks, Lots;
    var t, ms := TakerOf(x, env, o), Makers(x.open, o);
    TakerReady(x.open, o, t.book, t.sequence, env.spendable);
    FillAt(t, ms, i);
    var left := Before(t, Matched(x, env, o).fills, i);
    MatchIsLargest(left, ms[i], b, q);
    MatchTradesLots(left, ms[i]);
  }

  /** The base and the quote of one lot of a maker, in the taker's book. */
  function LotOf(side: Side, m: Record): (nat, nat)
    requires 0 < m.price.num
  {
    var p := PriceOf(m.price);
    if m.side == side then (p.num, p.den) else (p.den, p.num)
  }

  /** The order does not want, or as a market order cannot pay for, one more lot of the maker. */
  predicate Done(o: Order, taker: Record, m: Record)
    requires 0 < m.price.num
  {
    var (base, quote) := LotOf(o.side, m);
    taker.remaining < base || (o.orderType == Market && taker.spendable < if o.side == Sell then base else quote)
  }

  /**
   Matching stops for one of two reasons: the order is done with its last maker, or it has taken all
   whole lots of every order it can trade with.
   */
  lemma StopsOnlyWhenDone(x: State, env: Env, o: Order)
    requires AllWellFormed(x.open) && ValidOrder(o)
    ensures var out, ms := Matched(x, env, o), Makers(x.open, o);
            if out.filled
            then && 0 < |out.fills| <= |ms| && 0 < ms[|out.fills| - 1].price.num && Done(o, out.taker, ms[|out.fills| - 1])
            else && Offers(ms) && |out.fills| == |ms|
                 && forall i | 0 <= i < |ms| ::
                      out.fills[i].maker == ms[i] && out.fills[i].trade.base == BaseOf(o.side, ms[i]) && out.fills[i].trade.takerSpends == CostOf(ms[i])
  {
    hide AllWellFormed, ValidOrder, Makers, MatchAll, Ready, InitialBalance, WithBooks, BaseOf, CostOf, TradedBase, Spent, FillOf, ClosesTaker, LotOf;
    var t, ms := TakerOf(x, env, o), Makers(x.open, o);
    TakerReady(x.open, o, t.book, t.sequence, env.spendable);
    TakesAll(t, ms);
    OnlyLastStaysOpen(t, ms);
    var out := Matched(x, env, o);
    if out.filled {
      FilledHasFill(t, ms);
      var n := |out.fills| - 1;
      FillAt(t, ms, n);
      var left := Before(t, out.fills, n);
      LastFill(t, ms);
      ClosedIsDone(left, ms[n]);
      OrderTypes(o);
    }
  }

  lemma OrderTypes(o: Order)
    requires ValidOrder(o)
    ensures o.orderType == Market <==> o.price == None
    ensures o.price.Some? ==> 0 < o.price.value.num
  {
    hide MulCeil, ValidOrderID;
  }

  lemma FilledHasFill(taker: Record, ms: seq<Record>)
    requires Ready(taker, ms) && MatchAll(taker, ms).filled
    ensures 0 < |MatchAll(taker, ms).fills|
  {
    hide Ready, FillOf, ClosesTaker;
  }

  /** The last fill leaves what the matching leaves. */
  lemma LastFill(taker: Record, ms: seq<Record>)
    requires Ready(taker, ms) && 0 < |MatchAll(taker, ms).fills|
    ensures var o := MatchAll(taker, ms); var n := |o.fills| - 1;
            && o.taker.remaining == Before(taker, o.fills, n).remaining - o.fills[n].trade.base
            && o.taker.spendable == Before(taker, o.fills, n).spendable - o.fills[n].trade.takerSpends
  {
    hide Ready, MatchAll;
    TakerConserved(taker, ms);
  }

  lemma ClosedIsDone(taker: Record, m: Record)
    requires Matchable(taker) && MakerOk(m) && ClosesTaker(taker, m)
    ensures var after, (base, quote) := AfterTaker(taker, FillOf(taker, m).trade), LotOf(taker.side, m);
            || after.remaining < base
            || (taker.price.num == 0 && after.spendable < if taker.side == Sell then base else quote)
  {
    hide MatchRecords, ToRat, LeavesTaker, IsExecutableAsMaker;
    MeetsMaker(taker, m);
    ClosedTakerIsDone(taker, m);
  }

  // ----- what is left of a maker -----

  /** A maker leaves the book exactly if less than one lot of its price is left of it; what was traded is off its quantity and balance. */
  lemma MakerAfterFill(taker: Record, m: Record)
    requires Matchable(taker) && MakerOk(m)
    ensures var f := FillOf(taker, m);
            var left := m.remaining - (if m.side == taker.side then f.trade.quote else f.trade.base);
            && f.after == m.(remaining := left, spendable := m.spendable - f.trade.takerReceives)
            && (f.closed <==> left < PriceOf(m.price).den)
  {
    hide MatchRecords, Lots, ToRat, IsExecutableAsMaker;
    var f := FillOf(taker, m);
    MatchTradesLots(taker, m);
    MakerFill(taker, m);
    NoneClosedImpossible(taker, m);
    LotsBoundedByMaker(taker, m);
    ExecutableIffOneLot(f.after);
    LotsTaken(m.remaining, PriceOf(m.price).den);
  }

  /** Taking all whole lots leaves less than one. */
  lemma LotsTaken(r: int, d: int)
    requires 0 < d
    ensures r - r / d * d < d
  {
  }

  /** What the fills of a placement do to each open order. */
  lemma MakersAfter(x: State, env: Env, o: Order, q: nat)
    requires AllWellFormed(x.open) && ValidOrder(o) && q in x.open
    ensures var fills, after := Matched(x, env, o).fills, ApplyFills(x.open, Matched(x, env, o).fills);
            if exists i :: 0 <= i < |fills| && fills[i].maker.sequence == q
            then exists i :: 0 <= i < |fills| && fills[i].maker == x.open[q].record && 0 < fills[i].maker.price.num &&
                             var m, t := fills[i].maker, fills[i].trade;
                             var left := m.remaining - (if m.side == o.side then t.quote else t.base);
                             && (q in after <==> PriceOf(m.price).den <= left)
                             && (q in after ==> after[q] == x.open[q].(record := m.(remaining := left, spendable := m.spendable - t.takerReceives)))
            else q in after && after[q] == x.open[q]
  {
    hide AllWellFormed, ValidOrder, Makers, MatchAll, Ready, InitialBalance, WithBooks, ApplyFills, GoodFill, TradedBase, Spent, ToRat, FillOf;
    var t, ms, out := TakerOf(x, env, o), Makers(x.open, o), Matched(x, env, o);
    TakerReady(x.open, o, t.book, t.sequence, env.spendable);
    MatchedFills(x, env, o);
    if i :| 0 <= i < |out.fills| && out.fills[i].maker.sequence == q {
      ApplyFillsAt(x.open, out.fills, i);
      FillAt(t, ms, i);
      MakerAfterFill(Before(t, out.fills, i), ms[i]);
      FillMaker(Before(t, out.fills, i), ms[i]);
      assert out.fills[i].maker == x.open[q].record && 0 < out.fills[i].maker.price.num;
    } else {
      ApplyFillsKeeps(x.open, out.fills, q);
    }
  }

  lemma FillMaker(taker: Record, m: Record)
    requires Matchable(taker) && MakerOk(m)
    ensures FillOf(taker, m).maker == m
  {
    hide MatchRecords, IsExecutableAsMaker;
  }

  // ----- what a placement does -----

  /** A fill-or-kill order of which something is left does nothing. */
  ghost predicate Kills(o: Order, out: Outcome) {
    o.orderType == Limit && o.timeInForce == FOK && out.taker.remaining != 0
  }

  /** A good-til-cancelled order that is not done and of which a whole lot is left goes into the book. */
  ghost predicate Leaves(o: Order, out: Outcome) {
    o.orderType == Limit && o.timeInForce == GTC && o.price.Some? && !out.filled && PriceOf(o.price.value).den <= out.taker.remaining
  }

  /** What the rest of an order locks at its limit. */
  ghost function RestAmount(o: Order, out: Outcome): int
    requires o.price.Some? && 0 <= out.taker.remaining
  {
    if o.side == Sell then out.taker.remaining else CeilMul(out.taker.remaining, PriceOf(o.price.value))
  }

  lemma KillsAndLeaves(x: State, env: Env, o: Order)
    requires AllWellFormed(x.open) && ValidOrder(o)
    ensures var out := Matched(x, env, o);
            && 0 <= out.taker.remaining
            && (Killed(o, out) <==> Kills(o, out)) && (Rests(o, out) <==> Leaves(o, out)) && !(Kills(o, out) && Leaves(o, out))
            && (Leaves(o, out) ==>
                  && LockedAmount(o.side, out.taker.remaining, out.taker.price) == Some(RestAmount(o, out)) && RestLocks(o, out) == RestAmount(o, out))
  {
    hide AllWellFormed, Matched, MulCeil, CeilMul, ToRat, IsExecutableAsMaker, TradedBase, Spent, ValidOrder;
    MatchedConserves(x, env, o);
    OrderTypes(o);
    var out := Matched(x, env, o);
    if o.orderType == Limit {
      RestingLocked(x, env, o);
      ExecutableIffOneLot(out.taker);
    }
  }

  /** Fills that spend nothing change nothing. */
  lemma NothingTraded(open: map<nat, OpenOrder>, fills: seq<Fill>, o: Order)
    requires FillsOf(open, fills) && GoodFills(fills) && Spent(fills) == 0
    ensures ApplyFills(open, fills) == open
    ensures forall a, d :: PaidBy(fills, o, a, d) == 0 && PaidTo(fills, o, a, d) == 0
  {
    hide GoodFill, ApplyFills, Spent, PaidBy, PaidTo;
    SpentNothing(fills);
    forall i | 0 <= i < |fills| ensures fills[i].trade.takerReceives == 0 && !fills[i].closed && fills[i].after == fills[i].maker {
      IdleFill(fills[i]);
    }
    forall q ensures q in ApplyFills(open, fills) <==> q in open
             ensures q in open ==> ApplyFills(open, fills)[q] == open[q]
    {
      if i :| 0 <= i < |fills| && fills[i].maker.sequence == q {
        ApplyFillsAt(open, fills, i);
      } else {
        ApplyFillsKeeps(open, fills, q);
      }
    }
    forall a, d ensures PaidBy(fills, o, a, d) == 0 && PaidTo(fills, o, a, d) == 0 {
      NothingPaidOver(fills, o, a, d);
    }
  }

  lemma IdleFill(f: Fill)
    requires GoodFill(f) && f.trade.takerSpends == 0
    ensures f.trade.takerReceives == 0 && !f.closed && f.after == f.maker
  {
    hide Resting, MulCeil, ExpectedOf;
  }

  lemma {:induction false} NothingPaidOver(fills: seq<Fill>, o: Order, a: Account, d: Denom)
    requires forall i | 0 <= i < |fills| :: fills[i].trade.takerSpends == 0 && fills[i].trade.takerReceives == 0
    ensures PaidBy(fills, o, a, d) == 0 && PaidTo(fills, o, a, d) == 0
    decreases |fills|
  {
    if |fills| != 0 {
      NothingPaidOver(fills[..|fills| - 1], o, a, d);
    }
  }

  /**
   What a placement that succeeds does, whatever its type and time in force: it takes a sequence
   number and its ID; unless killed, all fills of its matching are applied to the book and paid; and
   what is left of a good-til-cancelled order rests, on the order's terms.
   */
  lemma PlaceDoes(x: State, env: Env, o: Order)
    requires Inv(x) && Place(x, env, o).Some?
    ensures AllWellFormed(x.open) && ValidOrder(o) && 0 <= Matched(x, env, o).taker.remaining
    ensures var y, out, q := Place(x, env, o).value, Matched(x, env, o), x.sequence + 1;
            && y == x.(open := y.open, funds := y.funds, sequence := q, reserved := x.reserved + {(o.creator, o.id)},
                       books := y.books, bookSequence := y.bookSequence)
            && (Kills(o, out) ==> y.open == x.open && y.funds == x.funds)
            && (!Kills(o, out) ==> forall a, d :: Funds(y, a, d) == Funds(x, a, d) - PaidBy(out.fills, o, a, d) + PaidTo(out.fills, o, a, d))
            && (!Kills(o, out) && !Leaves(o, out) ==> y.open == ApplyFills(x.open, out.fills))
            && (Leaves(o, out) ==>
                  y.open == ApplyFills(x.open, out.fills)[q := OpenOrder(out.taker.(spendable := RestAmount(o, out)), o.baseDenom, o.quoteDenom, o.quantity,
                                                                         o.goodTil, if x.params.orderReserve.amount == 0 then None else Some(x.params.orderReserve))])
  {
    hide Inv, Matched, ApplyFills, PayFills, Accepted, CreateAllowed, Admitted, Killed, Rests, RestAmount, Spent, PaidBy, PaidTo, ValidOrder, AllWellFormed,
         WithBooks, Kills, Leaves, GoodFill, RestLocks, Funds;
    InvWellFormed(x);
    AcceptedIsValid(x, env, o);
    KillsAndLeaves(x, env, o);
    MatchedFills(x, env, o);
    ReserveNonNegative(x);
    var y, out, r := Place(x, env, o).value, Matched(x, env, o), Registered(x, o);
    RegisteredKeeps(x, o);
    SameFundsHere(r, x);
    forall a, d ensures !Kills(o, out) ==> Funds(y, a, d) == Funds(x, a, d) - PaidBy(out.fills, o, a, d) + PaidTo(out.fills, o, a, d) {
      PayFillsFunds(r, out.fills, o, a, d);
      PaidSame(y, PayFills(r, out.fills, o), a, d);
      PaidSame(y, x, a, d);
      if Spent(out.fills) == 0 {
        NothingTraded(x.open, out.fills, o);
      }
    }
    if Spent(out.fills) == 0 {
      NothingTraded(x.open, out.fills, o);
    }
    PayFillsFunds(r, out.fills, o, o.creator, o.baseDenom);
  }

  lemma PaidSame(y: State, z: State, a: Account, d: Denom)
    ensures y.funds == z.funds ==> Funds(y, a, d) == Funds(z, a, d)
  {
  }

  lemma SameFundsHere(r: State, x: State)
    requires r.funds == x.funds
    ensures forall a, d :: Funds(r, a, d) == Funds(x, a, d)
  {
  }

  lemma ReserveNonNegative(x: State)
    requires Inv(x)
    ensures 0 <= x.params.orderReserve.amount
  {
    hide AllWellFormed, Uncrossed, BooksPaired, Alive, Listed;
  }

  // ----- when a placement succeeds -----

  /** What an account has that no open order locks. */
  ghost function Available(x: State, a: Account, d: Denom): int {
    (if (a, d) in x.funds then x.funds[(a, d)] else 0) - Total(Locked, x.open, a, d, x.sequence + 1)
  }

  /**
   An accepted placement succeeds if it is killed, or if nothing is traded and nothing rests. Any other
   needs the asset module's consent and free funds for what it spends and what rests; one that rests
   also needs room under the limit of orders in both denoms and free funds for the reserve.
   */
  lemma PlaceSucceedsIff(x: State, env: Env, o: Order)
    requires Inv(x) && Accepted(x, env, o)
    ensures AllWellFormed(x.open) && ValidOrder(o) && 0 <= Matched(x, env, o).taker.remaining
    ensures var out := Matched(x, env, o);
            var spend := if o.side == Buy then o.quoteDenom else o.baseDenom;
            var rest := if Leaves(o, out) then RestAmount(o, out) else 0;
            var reserve := x.params.orderReserve;
            Place(x, env, o).Some? <==>
              || Kills(o, out)
              || (Spent(out.fills) == 0 && !Leaves(o, out))
              || (&& env.assetsAdmit && Spent(out.fills) + rest <= Available(x, o.creator, spend)
                  && (Leaves(o, out) ==>
                        && OrdersIn(x, o.creator, o.baseDenom) < x.params.maxOrdersPerDenom && OrdersIn(x, o.creator, o.quoteDenom) < x.params.maxOrdersPerDenom
                        && (reserve.amount == 0 || reserve.amount + (if reserve.denom == spend then rest else 0) <= Available(x, o.creator, reserve.denom))))
  {
    hide Inv, Accepted, Matched, ApplyFills, PayFills, Killed, Rests, RestLocks, RestAmount, Spent, ValidOrder, AllWellFormed, WithBooks, Kills, Leaves, Total,
         OrdersIn;
    InvWellFormed(x);
    AcceptedIsValid(x, env, o);
    KillsAndLeaves(x, env, o);
    ReserveNonNegative(x);
    CountIsNumber(x, o.creator, o.baseDenom);
    CountIsNumber(x, o.creator, o.quoteDenom);
    NoRestNoLock(o, Matched(x, env, o));
  }

  lemma NoRestNoLock(o: Order, out: Outcome)
    ensures !Rests(o, out) ==> RestLocks(o, out) == 0
  {
  }

  /** How many open orders of an account buy or sell a denom. */
  ghost function OrdersIn(x: State, a: Account, d: Denom): nat {
    |set q | q in x.open && x.open[q].record.account == a && (x.open[q].baseDenom == d || x.open[q].quoteDenom == d)|
  }

  /** The counter of an account and denom is that number. */
  lemma CountIsNumber(x: State, a: Account, d: Denom)
    requires Inv(x)
    ensures Total(Count, x.open, a, d, x.sequence + 1) == OrdersIn(x, a, d)
  {
    hide Inv;
    SequencesBounded(x);
    CountBelow(x.open, a, d, x.sequence + 1);
    assert OrdersBelow(x.open, a, d, x.sequence + 1)
        == (set q | q in x.open && x.open[q].record.account == a && (x.open[q].baseDenom == d || x.open[q].quoteDenom == d));
  }

  ghost function OrdersBelow(open: map<nat, OpenOrder>, a: Account, d: Denom, n: nat): set<nat> {
    set q | q in open && q < n && open[q].record.account == a && (open[q].baseDenom == d || open[q].quoteDenom == d)
  }

  lemma {:induction false} CountBelow(open: map<nat, OpenOrder>, a: Account, d: Denom, n: nat)
    ensures Total(Count, open, a, d, n) == |OrdersBelow(open, a, d, n)|
  {
    hide OrdersBelow;
    if n == 0 {
      assert OrdersBelow(open, a, d, 0) == {} by { NoneBelow(open, a, d); }
    } else {
      CountBelow(open, a, d, n - 1);
      OneMoreBelow(open, a, d, n - 1);
    }
  }

  lemma NoneBelow(open: map<nat, OpenOrder>, a: Account, d: Denom)
    ensures OrdersBelow(open, a, d, 0) == {}
  {
  }

  lemma OneMoreBelow(open: map<nat, OpenOrder>, a: Account, d: Denom, n: nat)
    ensures n !in OrdersBelow(open, a, d, n)
    ensures OrdersBelow(open, a, d, n + 1) == OrdersBelow(open, a, d, n) + if n in open && Weight(Count, open[n], a, d) == 1 then {n} else {}
    ensures n in open ==> Weight(Count, open[n], a, d) in {0, 1}
  {
  }

  // ----- what is paid -----

  /** In a fill the buyer pays the quote for the base: the taker if it buys, the maker if the taker sells. */
  lemma FillPays(x: State, env: Env, o: Order, i: nat, a: Account, d: Denom)
    requires AllWellFormed(x.open) && ValidOrder(o) && i < |Matched(x, env, o).fills|
    ensures var f := Matched(x, env, o).fills[i];
            var (buyer, seller) := if o.side == Buy then (o.creator, f.maker.account) else (f.maker.account, o.creator);
            && Pays(f, o, a, d) == (if a == buyer && d == o.quoteDenom then f.trade.quote else 0) + (if a == seller && d == o.baseDenom then f.trade.base else 0)
            && Gets(f, o, a, d) == (if a == buyer && d == o.baseDenom then f.trade.base else 0) + (if a == seller && d == o.quoteDenom then f.trade.quote else 0)
  {
    hide AllWellFormed, ValidOrder, Matched, AtMakerPrice, BothHave, InitialBalance, TradedBase, Spent;
    FillsAreLargest(x, env, o, i, 0, 0);
    DifferentDenoms(o);
  }

  /** Between two accounts a fill transfers exactly that. */
  lemma FillTransfers(x: State, env: Env, o: Order, i: nat, from: Account, to: Account, d: Denom)
    requires AllWellFormed(x.open) && ValidOrder(o) && i < |Matched(x, env, o).fills|
    ensures var f := Matched(x, env, o).fills[i];
            var (buyer, seller) := if o.side == Buy then (o.creator, f.maker.account) else (f.maker.account, o.creator);
            Payment(f, o, from, to, d) == (if from == buyer && to == seller && d == o.quoteDenom then f.trade.quote else 0)
                                          + (if from == seller && to == buyer && d == o.baseDenom then f.trade.base else 0)
  {
    hide AllWellFormed, ValidOrder, Matched, AtMakerPrice, BothHave, InitialBalance, TradedBase, Spent;
    FillsAreLargest(x, env, o, i, 0, 0);
    DifferentDenoms(o);
  }

  lemma DifferentDenoms(o: Order)
    requires ValidOrder(o)
    ensures o.baseDenom != o.quoteDenom
  {
    hide MulCeil, ValidOrderID;
  }

  // ----- other operations -----

  /** Cancelling takes out the one open order with that owner and ID, and fails exactly if there is none. */
  lemma CancelDoes(x: State, account: Account, id: OrderID)
    requires Inv(x)
    ensures Cancel(x, account, id).Some? <==> exists q :: q in x.open && x.open[q].record.account == account && x.open[q].record.id == id
    ensures Cancel(x, account, id).Some? ==>
              && Cancel(x, account, id).value == x.(open := Cancel(x, account, id).value.open)
              && forall q :: (q in Cancel(x, account, id).value.open <==> q in x.open && !(x.open[q].record.account == account && x.open[q].record.id == id))
                          && (q in Cancel(x, account, id).value.open ==> Cancel(x, account, id).value.open[q] == x.open[q])
  {
    hide Inv;
    if q :| q in x.open && Owns(x.open[q], account, id) {
      CancelOwn(x, account, id, q);
      OneOfAnID(x, q);
    }
  }

  lemma OneOfAnID(x: State, q: nat)
    requires Inv(x) && q in x.open
    ensures forall p | p in x.open && x.open[p].record.account == x.open[q].record.account && x.open[p].record.id == x.open[q].record.id :: p == q
  {
    hide AllWellFormed, Uncrossed, BooksPaired, Alive, Listed, ValidParams;
  }

  /** Cancelling by denom takes out the account's orders that buy or sell the denom, and no other. */
  lemma CancelByDenomDoes(x: State, allowed: bool, account: Account, denom: Denom)
    ensures CancelByDenom(x, allowed, account, denom).Some? <==> allowed && 1 <= |denom| <= 255
    ensures CancelByDenom(x, allowed, account, denom).Some? ==>
              var y := CancelByDenom(x, allowed, account, denom).value;
              && y == x.(open := y.open)
              && forall q :: (q in y.open <==> q in x.open && !(x.open[q].record.account == account && denom in {x.open[q].baseDenom, x.open[q].quoteDenom}))
                          && (q in y.open ==> y.open[q] == x.open[q])
  {
  }

  /** Money leaves an account exactly if it has it and no order locks it. */
  lemma WithdrawDoes(x: State, a: Account, d: Denom, amount: nat, b: Account, e: Denom)
    ensures Withdraw(x, a, d, amount).Some? <==> amount <= Available(x, a, d)
    ensures Withdraw(x, a, d, amount).Some? ==>
              var y := Withdraw(x, a, d, amount).value;
              y == x.(funds := y.funds) && Funds(y, b, e) == Funds(x, b, e) - if a == b && d == e then amount else 0
  {
    hide Total;
  }

  /** Parameters are set as given, exactly if authorised and in range. */
  lemma UpdateParamsDoes(x: State, authorised: bool, params: Params)
    ensures UpdateParams(x, authorised, params) ==
            if authorised && params.priceTickExponent < 0 && params.quantityStepExponent < 0 && params.maxOrdersPerDenom != 0
               && DenomFits(params.orderReserve.denom) && 0 <= params.orderReserve.amount
            then Some(x.(params := params)) else None
  {
    DenomFitsIff(params.orderReserve.denom);
  }

  /** Three to 128 characters of a-z, A-Z, 0-9 and / : . _ -, the first one a letter. */
  ghost predicate DenomFits(d: Denom) {
    && 3 <= |d| <= 128
    && (var c := d[0] as char; 'a' <= c <= 'z' || 'A' <= c <= 'Z')
    && forall i | 0 <= i < |d| :: var c := d[i] as char; 'a' <= c <= 'z' || 'A' <= c <= 'Z' || '0' <= c <= '9' || c in ['/', ':', '.', '_', '-']
  }

  lemma DenomFitsIff(d: Denom)
    ensures DenomFits(d) <==> ValidDenom(d)
  {
  }

  /** A block takes out the orders whose height is past, or whose time's whole second is reached if they have no height, and no other. */
  lemma BeginBlockDoes(x: State, height: nat, time: nat, q: nat)
    requires Inv(x) && q in x.open
    ensures var y := BeginBlock(x, height, time);
            && y == x.(open := y.open, height := height, time := time)
            && (q in y.open ==> y.open[q] == x.open[q])
            && (q in y.open <==> || x.open[q].goodTil == None
                                 || (x.open[q].goodTil.value.height != 0 && height <= x.open[q].goodTil.value.height)
                                 || (x.open[q].goodTil.value.height == 0 && (x.open[q].goodTil.value.time == None || time / NANOS < x.open[q].goodTil.value.time.value / NANOS)))
  {
    hide Inv;
  }

  // ----- ledgers -----

  /** c is q times p, rounded up. */
  ghost predicate RoundedUp(q: int, p: Pos, c: int) {
    q * p.num <= c * p.den && (c - 1) * p.den < q * p.num
  }

  lemma RoundedUpIs(q: nat, p: Pos, c: int)
    requires RoundedUp(q, p, c)
    ensures c == CeilMul(q, p)
  {
    hide CeilMul;
    CeilMulLeast(q, p, c);
    CeilMulLeast(q, p, c - 1);
  }

  /** What a buyer locks and a seller expects of the quote, given the rounded-up product of price and quantity. */
  ghost function LockedBy(o: OpenOrder, c: int, d: Denom): int {
    (if o.record.side == Buy then if d == o.quoteDenom then c else 0 else if d == o.baseDenom then o.record.remaining else 0)
    + (if o.reserve.Some? && o.reserve.value.denom == d then o.reserve.value.amount else 0)
  }

  ghost function ExpectedBy(o: OpenOrder, c: int, d: Denom): int {
    if o.record.side == Buy then if d == o.baseDenom then o.record.remaining else 0 else if d == o.quoteDenom then c else 0
  }

  /** What one open order adds to the ledgers and counters of an account and denom. */
  lemma OrderAdds(o: OpenOrder, q: nat, a: Account, d: Denom, c: int)
    requires WellFormed(o, q) && RoundedUp(o.record.remaining, PriceOf(o.record.price), c)
    ensures Weight(Locked, o, a, d) == if a == o.record.account then LockedBy(o, c, d) else 0
    ensures Weight(Expected, o, a, d) == if a == o.record.account then ExpectedBy(o, c, d) else 0
    ensures Weight(Count, o, a, d) == if a == o.record.account && d in {o.baseDenom, o.quoteDenom} then 1 else 0
  {
    hide CeilMul, ToRat;
    RoundedUpIs(o.record.remaining, PriceOf(o.record.price), c);
  }

  /** The locked, expected and counted totals are those without an order and what the order adds. */
  lemma TotalsAddUp(x: State, q: nat, a: Account, d: Denom, c: int)
    requires Inv(x) && q in x.open && 0 < x.open[q].record.price.num
    requires RoundedUp(x.open[q].record.remaining, PriceOf(x.open[q].record.price), c)
    ensures var o, rest, n := x.open[q], x.open - {q}, x.sequence + 1;
            var mine := a == o.record.account;
            && Total(Locked, x.open, a, d, n) == Total(Locked, rest, a, d, n) + (if mine then LockedBy(o, c, d) else 0)
            && Total(Expected, x.open, a, d, n) == Total(Expected, rest, a, d, n) + (if mine then ExpectedBy(o, c, d) else 0)
            && Total(Count, x.open, a, d, n) == Total(Count, rest, a, d, n) + (if mine && d in {o.baseDenom, o.quoteDenom} then 1 else 0)
  {
    hide Inv, Total, Weight, WellFormed, LockedBy, ExpectedBy, RoundedUp, ToRat;
    SequencesBounded(x);
    OrderAdds(x.open[q], q, a, d, c);
    TotalRemove(Locked, x.open, q, a, d, x.sequence + 1);
    TotalRemove(Expected, x.open, q, a, d, x.sequence + 1);
    TotalRemove(Count, x.open, q, a, d, x.sequence + 1);
  }

  /** The stored ledgers and counters while a single order is open. */
  lemma OneOrderOnRecord(st: Store, x: State, whitelisting: set<Denom>, q: nat, a: Account, d: Denom, c: int)
    requires Inv(x) && Represents(st, x, whitelisting) && x.open.Keys == {q} && 0 < x.open[q].record.price.num
    requires RoundedUp(x.open[q].record.remaining, PriceOf(x.open[q].record.price), c)
    ensures var o := x.open[q]; var mine := a == o.record.account;
            && Get(st.locked, (a, d)) == (if mine then LockedBy(o, c, d) else 0)
            && Get(st.expected, (a, d)) == (if mine && d in whitelisting then ExpectedBy(o, c, d) else 0)
            && Get(st.counts, (a, d)) == (if mine && d in {o.baseDenom, o.quoteDenom} then 1 else 0)
  {
    hide Inv, Total, LockedBy, ExpectedBy, RoundedUp, ToRat, OrdersMatch, RecordsMatch, IdsMatch, DenomsMatch, TimeItemsMatch, HeightItemsMatch, BookDataMatch,
         FundsMatch, Get;
    TotalsAddUp(x, q, a, d, c);
    NoOrdersNoTotal(Locked, x.open - {q}, a, d, x.sequence + 1);
    NoOrdersNoTotal(Expected, x.open - {q}, a, d, x.sequence + 1);
    NoOrdersNoTotal(Count, x.open - {q}, a, d, x.sequence + 1);
  }

  lemma NoOrdersNoTotal(m: Measure, open: map<nat, OpenOrder>, a: Account, d: Denom, n: nat)
    requires open.Keys == {}
    ensures Total(m, open, a, d, n) == 0
  {
    TotalExtend(m, open, a, d, 0, n);
  }

  /** What a fill takes off its maker's expectation: all of it if the maker is closed, the difference otherwise. */
  lemma FillUnexpects(f: Fill, denom: Denom, a: Account, d: Denom, c: int, c': int)
    requires GoodFill(f) && 0 < f.maker.price.num
    requires RoundedUp(f.maker.remaining, PriceOf(f.maker.price), c) && RoundedUp(f.after.remaining, PriceOf(f.maker.price), c')
    ensures 0 < f.after.price.num
    ensures Unexpects(f, denom, a, d) ==
            if a != f.maker.account || d != denom then 0
            else if f.maker.side == Buy then f.maker.remaining - (if f.closed then 0 else f.after.remaining)
            else c - (if f.closed then 0 else c')
  {
    hide CeilMul, ToRat, MulCeil, Storable;
    RoundedUpIs(f.maker.remaining, PriceOf(f.maker.price), c);
    RoundedUpIs(f.after.remaining, PriceOf(f.maker.price), c');
  }

  /**
   What a placement that rests does to the expected totals: makers' expectations fall by what their
   fills take off, and the creator expects the rest of the base if it buys, and of the quote, rounded
   up, if it sells.
   */
  lemma ExpectationsMoveExactly(x: State, env: Env, o: Order, orders: map<nat, OrderData>, a: Account, d: Denom, c: int)
    requires Inv(x) && Place(x, env, o).Some? && DataOf(orders, x.open) && AllWellFormed(x.open) && ValidOrder(o)
    requires Leaves(o, Matched(x, env, o)) && RoundedUp(Matched(x, env, o).taker.remaining, PriceOf(o.price.value), c)
    ensures GoodFills(Matched(x, env, o).fills)
    ensures var out := Matched(x, env, o);
            Total(Expected, Place(x, env, o).value.open, a, d, x.sequence + 2)
            == Total(Expected, x.open, a, d, x.sequence + 1)
               - Unexpected(out.fills, orders, if o.side == Buy then o.quoteDenom else o.baseDenom, a, d)
               + (if a == o.creator && d == (if o.side == Buy then o.baseDenom else o.quoteDenom)
                  then if o.side == Buy then out.taker.remaining else c else 0)
  {
    hide Inv, Place, Matched, Total, Unexpected, GoodFill, AllWellFormed, ValidOrder, RoundedUp, ToRat, ApplyFills, Weight, RestAmount, CeilMul, MulCeil, Leaves,
         Kills, FillsOf, CounterFills;
    PlaceDoes(x, env, o);
    MatchedFills(x, env, o);
    SequencesBounded(x);
    DifferentDenoms(o);
    KillsAndLeaves(x, env, o);
    var y, out, n := Place(x, env, o).value, Matched(x, env, o), x.sequence + 1;
    ApplyFillsTotals(Expected, x.open, out.fills, orders, o, a, d, n);
    ApplyFillsShape(x.open, out.fills);
    TotalExtend(Expected, ApplyFills(x.open, out.fills), a, d, n, n + 1);
    TotalSet(Expected, ApplyFills(x.open, out.fills), n, y.open[n], a, d, n + 1);
    RestExpects(x, env, o, a, d, c);
    SpendsAndReceives(o);
  }

  lemma SpendsAndReceives(o: Order)
    requires o.baseDenom != o.quoteDenom
    ensures o.SpendDenom() == if o.side == Buy then o.quoteDenom else o.baseDenom
    ensures o.ReceiveDenom() == if o.side == Buy then o.baseDenom else o.quoteDenom
  {
  }

  lemma RestExpects(x: State, env: Env, o: Order, a: Account, d: Denom, c: int)
    requires Inv(x) && Place(x, env, o).Some? && AllWellFormed(x.open) && ValidOrder(o)
    requires Leaves(o, Matched(x, env, o)) && RoundedUp(Matched(x, env, o).taker.remaining, PriceOf(o.price.value), c)
    ensures var y, n := Place(x, env, o).value, x.sequence + 1;
            && n in y.open
            && Weight(Expected, y.open[n], a, d) == if a == o.creator && d == (if o.side == Buy then o.baseDenom else o.quoteDenom)
                                                    then if o.side == Buy then Matched(x, env, o).taker.remaining else c else 0
  {
    hide Inv, Place, Matched, ApplyFills, AllWellFormed, ValidOrder, ToRat, RestAmount, CeilMul, MulCeil, Kills, RoundedUp;
    PlaceDoes(x, env, o);
    OrderTypes(o);
    RestingLocked(x, env, o);
    RoundedUpIs(Matched(x, env, o).taker.remaining, PriceOf(o.price.value), c);
  }
}
