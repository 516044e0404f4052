/**
 Concrete placements that show what the exchange does not promise: an order may be
 gone before the time it was accepted for, a height keeps it past its time, and the
 reserve may leave more locked than an account has.
 */
module Witnesses {
  import opened Bytes
  import opened Arithmetic
  import opened Rational
  import opened Price
  import opened SortedLists
  import opened Ticks
  import opened Types
  import opened Amounts
  import opened Priority
  import opened Matching
  import opened Orders
  import opened Engine
  import opened Exchange
  import opened Guarantees

  const BASE: Denom := [0x61, 0x61, 0x61]
  const QUOTE: Denom := [0x62, 0x62, 0x62]
  const ONE: CanonicalPrice := Price(0, 1)
  const SELLER: Account := 1
  const BUYER: Account := 2

  /** A reference amount of one, and a reserve in the base denom. */
  function SampleParams(reserve: nat): Params {
    Params(1_000_000_000_000_000_000, -6, -2, 100, Coin(BASE, reserve))
  }

  const ENV: Env := Env(None, None, true, 0, true)

  /** No order yet; the seller has base, the buyer one of each denom. */
  ghost function Sample(reserve: nat, sells: nat, height: nat, time: nat): State {
    State(map[], 0, map[], 0, {}, SampleParams(reserve),
          map[(SELLER, BASE) := sells, (BUYER, BASE) := 1, (BUYER, QUOTE) := 1], height, time)
  }

  function SampleOrder(creator: Account, side: Side, quantity: nat, goodTil: Option<GoodTil>): Order {
    Order(creator, Limit, [0x61], BASE, QUOTE, Some(ONE), quantity, side, goodTil, GTC)
  }

  lemma SampleInv(reserve: nat, sells: nat, height: nat, time: nat)
    ensures Inv(Sample(reserve, sells, height, time))
  {
    hide WellFormed, Listed, Alive, Crosses;
  }

  // ----- reachable -----

  lemma {:induction false} OneMoreStep(x: State, ops: seq<Op>, op: Op)
    requires Inv(x) && Feasible(x, ops) && Inv(Run(x, ops)) && Room(Run(x, ops), op)
    ensures Feasible(x, ops + [op]) && Run(x, ops + [op]) == Step(Run(x, ops), op)
    decreases |ops|
  {
    hide Inv, Step, Room;
    var all := ops + [op];
    if |ops| == 0 {
      assert all[1..] == [];
      StepKeepsInv(x, op);
    } else {
      StepKeepsInv(x, ops[0]);
      OneMoreStep(Step(x, ops[0]), ops[1..], op);
      assert all[1..] == ops[1..] + [op] && all[0] == ops[0];
    }
  }

  /** A step from a reachable state leads to one. */
  lemma ReachableStep(x: State, op: Op)
    requires Reachable(x) && Inv(x) && Room(x, op)
    ensures Reachable(Step(x, op))
  {
    hide Inv, Step, Room, Feasible, Run, Initial, ValidParams;
    var params, ops :| ReachedBy(x, params, ops);
    InitialInv(params);
    OneMoreStep(Initial(params), ops, op);
    assert ReachedBy(Step(x, op), params, ops + [op]);
  }

  lemma InitialReachable(params: Params)
    requires ValidParams(params)
    ensures Reachable(Initial(params))
  {
    hide Inv, Initial, ValidParams;
    InitialInv(params);
    assert ReachedBy(Initial(params), params, []);
  }

  lemma SampleReachable(reserve: nat, sells: nat, height: nat, time: nat)
    ensures Reachable(Sample(reserve, sells, height, time))
  {
    hide Reachable, Inv;
    var p := SampleParams(reserve);
    InitialInv(p);
    InitialReachable(p);
    Deposited(Initial(p), SELLER, BASE, sells);
    var x1 := Step(Initial(p), DepositOp(SELLER, BASE, sells));
    Deposited(x1, BUYER, BASE, 1);
    var x2 := Step(x1, DepositOp(BUYER, BASE, 1));
    Deposited(x2, BUYER, QUOTE, 1);
    var x3 := Step(x2, DepositOp(BUYER, QUOTE, 1));
    ReachableStep(x3, BeginBlockOp(height, time));
    assert Step(x3, BeginBlockOp(height, time)) == Sample(reserve, sells, height, time);
  }

  lemma Deposited(x: State, a: Account, d: Denom, amount: nat)
    requires Reachable(x) && Inv(x)
    ensures var y := Step(x, DepositOp(a, d, amount)); Reachable(y) && Inv(y)
  {
    hide Reachable, Inv;
    ReachableStep(x, DepositOp(a, d, amount));
    StepKeepsInv(x, DepositOp(a, d, amount));
  }

  // ----- validation -----

  lemma OneIsOne()
    ensures PriceOf(ONE) == Rat(1, 1)
  {
    assert Pow10(0) == 1;
    ToRatLowest(ONE);
  }

  lemma OneRefAmount(reserve: nat)
    ensures SampleParams(reserve).defaultRefAmount == Pow10(LEGACY_PRECISION)
  {
    Pow10Add(9, 9);
  }

  lemma OnStep(quantity: nat, reserve: nat)
    ensures var p := SampleParams(reserve);
            IsQuantityStepValid(quantity, OrderQuantityStep(p.defaultRefAmount, p.quantityStepExponent).0)
  {
    hide Log10RoundUp;
    var n := SampleParams(reserve).defaultRefAmount;
    assert Log10RoundUp(FromInt(n)) == LEGACY_PRECISION by {
      hide Pow10;
      OneRefAmount(reserve);
      OneLog(n);
      ShiftedLog(n, LEGACY_PRECISION, 0);
    }
    assert Pow10(0) == 1;
  }

  lemma EqualAmounts(n: nat)
    requires 0 < n
    ensures Log10RoundUp(Reduced(n, n)) == 0
  {
    OneLog(n);
    ReducedCeilLog10(n, n);
    CeilLog10Unique(Rat(n, n), Log10RoundUp(Reduced(n, n)), 0);
  }

  /** With equal reference amounts and the exponent -300, which is valid, the tick is 10^-300 and the query reports 10^-44. */
  lemma ReportedTickWraps(n: nat)
    requires 0 < n
    ensures ComputePriceTick(n, n, -300) == (TenPow(-300), -300) && ReportedPriceTick(-300) == Some(Price(-44, 1))
  {
    hide Log10RoundUp, TenPow;
    EqualAmounts(n);
  }

  lemma OnTick(n: nat)
    requires 0 < n
    ensures IsPriceTickValid(PriceOf(ONE), ComputePriceTick(n, n, -6).0)
  {
    hide Log10RoundUp, ToRat;
    EqualAmounts(n);
    OneIsOne();
    var tick := ComputePriceTick(n, n, -6).0;
    assert IsMultipleOf(PriceOf(ONE), tick, tick.den);
    PriceTickValidIffMultiple(PriceOf(ONE), tick);
  }

  lemma AtOne(quantity: nat)
    requires quantity < INT_LIMIT
    ensures CeilMul(quantity, PriceOf(ONE)) == quantity && MulCeil(quantity, ONE) == Some(quantity as int)
  {
    hide ToRat, MulCeil;
    OneIsOne();
    MulCeilIsCeiling(quantity, ONE);
  }

  /** A sample order is accepted if its good-til lies ahead and its ID is new. */
  lemma SampleAccepted(x: State, reserve: nat, creator: Account, side: Side, quantity: nat, g: Option<GoodTil>)
    requires x.params == SampleParams(reserve) && 0 < quantity < INT_LIMIT && (creator, [0x61]) !in x.reserved
    requires g.Some? ==> (g.value.height != 0 || g.value.time.Some?) && ValidGoodTil(g.value, x.height, x.time)
    ensures Accepted(x, ENV, SampleOrder(creator, side, quantity, g))
  {
    hide IsQuantityStepValid, OrderQuantityStep, IsPriceTickValid, ComputePriceTick, MulCeil, ToRat, ValidGoodTil;
    AtOne(quantity);
    OnStep(quantity, reserve);
    OnTick(SampleParams(reserve).defaultRefAmount);
  }

  // ----- an order alone -----

  /** With no other order open, nothing matches. */
  lemma NothingToMatch(x: State, env: Env, o: Order)
    requires x.open == map[] && ValidOrder(o)
    ensures AllWellFormed(x.open) && Matched(x, env, o) == Outcome([], TakerOf(x, env, o), false)
  {
    hide ValidOrder, InitialBalance, WithBooks, Covered, WellFormed, Accepts, IsCounter;
    TakerReady(x.open, o, TakerOf(x, env, o).book, TakerOf(x, env, o).sequence, env.spendable);
    MakersElements(x.open, o);
    assert forall m :: m !in Makers(x.open, o);
  }

  /** The entry of a sample order that rests whole. */
  ghost function SampleEntry(x: State, o: Order): OpenOrder
    requires ValidOrder(o)
  {
    OpenOrder(TakerOf(x, ENV, o).(spendable := o.quantity), o.baseDenom, o.quoteDenom, o.quantity, o.goodTil, ReserveFor(x.params))
  }

  /** A sample order alone in the exchange, with what it locks at hand, rests as it was placed. */
  lemma SampleRests(x: State, reserve: nat, creator: Account, side: Side, quantity: nat, g: Option<GoodTil>)
    requires Inv(x) && x.open == map[] && x.params == SampleParams(reserve) && 0 < quantity < INT_LIMIT && (creator, [0x61]) !in x.reserved
    requires g.Some? ==> (g.value.height != 0 || g.value.time.Some?) && ValidGoodTil(g.value, x.height, x.time)
    requires quantity + (if side.Sell? then reserve else 0) <= Funds(x, creator, if side.Sell? then BASE else QUOTE)
    requires reserve <= Funds(x, creator, BASE)
    ensures ValidOrder(SampleOrder(creator, side, quantity, g))
    ensures var o := SampleOrder(creator, side, quantity, g);
            Place(x, ENV, o) == Some(Registered(x, o).(open := map[x.sequence + 1 := SampleEntry(x, o)]))
  {
    hide Inv, Accepted, Matched, WithBooks, MulCeil, ToRat, ValidGoodTil, ValidOrderID, Total;
    var o := SampleOrder(creator, side, quantity, g);
    SampleAccepted(x, reserve, creator, side, quantity, g);
    AcceptedIsValid(x, ENV, o);
    NothingToMatch(x, ENV, o);
    AtOne(quantity);
    OneIsOne();
    ExecutableIffOneLot(TakerOf(x, ENV, o));
    NothingApplied(x.open);
    NothingPaid(Registered(x, o), o);
    NothingOf(Locked, x.open, creator, BASE, x.sequence + 1);
    NothingOf(Locked, x.open, creator, QUOTE, x.sequence + 1);
    NothingOf(Count, x.open, creator, BASE, x.sequence + 1);
    NothingOf(Count, x.open, creator, QUOTE, x.sequence + 1);
    NothingSpent();
  }

  // ----- good-til -----

  /** Good til 1.5 s, accepted at 1.2 s and resting, yet gone in a block at 1.3 s. */
  lemma GoneBeforeItsTime()
    ensures var x := Sample(0, 1, 1, 1_200_000_000);
            var o := SampleOrder(SELLER, Sell, 1, Some(GoodTil(0, Some(1_500_000_000))));
            && Reachable(x) && Inv(x) && Place(x, ENV, o).Some?
            && 1 in Place(x, ENV, o).value.open && Place(x, ENV, o).value.open[1].goodTil == o.goodTil
            && 1 !in BeginBlock(Place(x, ENV, o).value, 2, 1_300_000_000).open
  {
    hide Inv, Place, WithBooks, TakerOf, ValidOrder, Reachable;
    SampleInv(0, 1, 1, 1_200_000_000);
    SampleReachable(0, 1, 1, 1_200_000_000);
    SampleRests(Sample(0, 1, 1, 1_200_000_000), 0, SELLER, Sell, 1, Some(GoodTil(0, Some(1_500_000_000))));
  }

  /** Good til height 100 and 2 s: still open in a block of height 2 at 10 s. */
  lemma OpenPastItsTime()
    ensures var x := Sample(0, 1, 1, 1_000_000_000);
            var o := SampleOrder(SELLER, Sell, 1, Some(GoodTil(100, Some(2_000_000_000))));
            && Reachable(x) && Inv(x) && Place(x, ENV, o).Some?
            && 1 in BeginBlock(Place(x, ENV, o).value, 2, 10_000_000_000).open
  {
    hide Inv, Place, WithBooks, TakerOf, ValidOrder, Reachable;
    SampleInv(0, 1, 1, 1_000_000_000);
    SampleReachable(0, 1, 1, 1_000_000_000);
    SampleRests(Sample(0, 1, 1, 1_000_000_000), 0, SELLER, Sell, 1, Some(GoodTil(100, Some(2_000_000_000))));
  }

  /** Good til height 5: still open in block 5, gone in block 6. */
  lemma OpenInTheBlockOfItsHeight()
    ensures var x := Sample(0, 1, 1, 0);
            var o := SampleOrder(SELLER, Sell, 1, Some(GoodTil(5, None)));
            && Reachable(x) && Inv(x) && Place(x, ENV, o).Some?
            && 1 in BeginBlock(Place(x, ENV, o).value, 5, 4).open
            && 1 !in BeginBlock(BeginBlock(Place(x, ENV, o).value, 5, 4), 6, 5).open
  {
    hide Inv, Place, WithBooks, TakerOf, ValidOrder, Reachable;
    SampleInv(0, 1, 1, 0);
    SampleReachable(0, 1, 1, 0);
    SampleRests(Sample(0, 1, 1, 0), 0, SELLER, Sell, 1, Some(GoodTil(5, None)));
  }

  // ----- the reserve -----

  /** The only open order is the only maker of an order that accepts it. */
  lemma OnlyMaker(open: map<nat, OpenOrder>, q: nat, o: Order)
    requires open.Keys == {q} && AllWellFormed(open) && IsCounter(o.baseDenom, o.quoteDenom, o.side, open[q]) && Accepts(o, open[q].record)
    ensures Makers(open, o) == [open[q].record]
  {
    hide WellFormed, Accepts, Ahead, IsCounter;
    var m, s := open[q].record, MakerRecords(open, o.baseDenom, o.quoteDenom, o.side);
    MakersDistinct(open, o.baseDenom, o.quoteDenom, o.side);
    AheadStrictTotal(o.side, Acceptable(s, AcceptsBy(o)));
    assert s == {m};
    assert Elements([m]) == {m} == Acceptable(s, AcceptsBy(o));
    ListingUnique([m], Acceptable(s, AcceptsBy(o)), AheadFor(o.side));
  }

  /** Selling two to a buyer of one at the same price trades one and closes the buyer. */
  lemma TradesOne(taker: Record, maker: Record)
    requires taker.side.Sell? && taker.price == ONE && taker.remaining == taker.spendable == 2
    requires maker.side.Buy? && maker.price == ONE && maker.remaining == maker.spendable == 1
    ensures MatchRecords(taker, maker) == (Trade(1, 1, 1, 1), CloseMaker)
  {
    hide ToRat;
    OneIsOne();
  }

  ghost function WithBuyer(): State
    ensures Reachable(WithBuyer()) && Inv(WithBuyer()) && Backed(WithBuyer())
  {
    BuyerRests();
    Place(Sample(1, 2, 0, 0), ENV, SampleOrder(BUYER, Buy, 1, None)).value
  }

  lemma BuyerRests()
    ensures var x, o := Sample(1, 2, 0, 0), SampleOrder(BUYER, Buy, 1, None);
            && Inv(x) && ValidOrder(o) && Place(x, ENV, o) == Some(Registered(x, o).(open := map[1 := SampleEntry(x, o)]))
            && Reachable(Place(x, ENV, o).value) && Inv(Place(x, ENV, o).value) && Backed(Place(x, ENV, o).value)
  {
    hide Inv, Place, WithBooks, TakerOf, ValidOrder, Stays, Remainder, SettledFills, GivenBack, Reachable;
    var x, o := Sample(1, 2, 0, 0), SampleOrder(BUYER, Buy, 1, None);
    SampleInv(1, 2, 0, 0);
    SampleRests(x, 1, BUYER, Buy, 1, None);
    assert HasRoom(x, o) by { WithBooksPaired(x.books, x.bookSequence, o.baseDenom, o.quoteDenom); }
    PlaceKeepsInv(x, ENV, o);
    SampleReachable(1, 2, 0, 0);
    ReachableStep(x, PlaceOp(ENV, o));
    forall a, d ensures 0 <= Free(x, a, d) {
      NothingOf(Locked, x.open, a, d, x.sequence + 1);
    }
    PlaceKeepsBackedIff(x, ENV, o);
  }

  lemma BuyerFacts()
    ensures var x := WithBuyer();
            && x.open.Keys == {1} && x.open[1].baseDenom == BASE && x.open[1].quoteDenom == QUOTE
            && x.open[1].record.side == Buy && x.open[1].record.price == ONE && x.open[1].record.account == BUYER
            && x.open[1].record.remaining == x.open[1].record.spendable == 1
            && x.sequence == 1 && x.params == SampleParams(1) && (SELLER, [0x61]) !in x.reserved && Funds(x, SELLER, BASE) == 2
  {
    hide Inv, Place, WithBooks, Backed, ValidOrder, SampleEntry;
    BuyerRests();
    EntryFacts(Sample(1, 2, 0, 0), SampleOrder(BUYER, Buy, 1, None));
  }

  lemma EntryFacts(x: State, o: Order)
    requires ValidOrder(o) && o.price.Some?
    ensures var e := SampleEntry(x, o);
            && e.baseDenom == o.baseDenom && e.quoteDenom == o.quoteDenom
            && e.record.side == o.side && e.record.price == o.price.value && e.record.sequence == x.sequence + 1 && e.record.account == o.creator
            && e.record.remaining == e.record.spendable == o.quantity
  {
    hide WithBooks, ValidOrder, InitialBalance;
  }

  /** Nothing of the seller's is locked or counted yet. */
  lemma NoneOfSeller(m: Measure, d: Denom)
    ensures Total(m, WithBuyer().open, SELLER, d, 2) == 0
  {
    hide WithBuyer, Reachable, Inv, Backed;
    BuyerFacts();
    NothingOf(m, WithBuyer().open, SELLER, d, 2);
  }

  lemma {:induction false} NothingOf(m: Measure, open: map<nat, OpenOrder>, a: Account, d: Denom, n: nat)
    requires forall q | q in open :: open[q].record.account != a
    ensures Total(m, open, a, d, n) == 0
  {
    if n != 0 {
      NothingOf(m, open, a, d, n - 1);
    }
  }

  lemma SellerMatch()
    ensures var x, o := WithBuyer(), SampleOrder(SELLER, Sell, 2, None);
            && 1 in x.open && AllWellFormed(x.open) && Accepted(x, ENV, o) && ValidOrder(o)
            && SoldOne(Matched(x, ENV, o), x.open[1].record)
  {
    hide WithBuyer, Inv, Backed, Accepted, AllWellFormed, ValidOrder, Matched, SoldOne;
    var x, o := WithBuyer(), SampleOrder(SELLER, Sell, 2, None);
    BuyerFacts();
    InvWellFormed(x);
    SampleAccepted(x, 1, SELLER, Sell, 2, None);
    AcceptedIsValid(x, ENV, o);
    SellsToBuyer(x, o);
  }

  ghost predicate SoldOne(out: Outcome, maker: Record) {
    && |out.fills| == 1 && out.fills[0].maker == maker && out.fills[0].trade == Trade(1, 1, 1, 1)
    && !out.filled && out.taker.remaining == 1 && out.taker.price == ONE
  }

  lemma SellsToBuyer(x: State, o: Order)
    requires AllWellFormed(x.open) && x.open.Keys == {1} && x.open[1].baseDenom == o.baseDenom && x.open[1].quoteDenom == o.quoteDenom
    requires x.open[1].record.side.Buy? && x.open[1].record.price == ONE && x.open[1].record.remaining == x.open[1].record.spendable == 1
    requires ValidOrder(o) && o.orderType.Limit? && o.side.Sell? && o.price == Some(ONE) && o.quantity == 2
    ensures SoldOne(Matched(x, ENV, o), x.open[1].record)
  {
    hide AllWellFormed, ValidOrder, Makers, MatchAll, TakerOf, Accepts, Ready, SoldOne, InitialBalance;
    var t, m := TakerOf(x, ENV, o), x.open[1].record;
    TakerFacts(x, o);
    AcceptsAtOne(o, m);
    OnlyMaker(x.open, 1, o);
    TakerReady(x.open, o, t.book, t.sequence, ENV.spendable);
    MatchesOne(t, m);
  }

  lemma TakerFacts(x: State, o: Order)
    requires ValidOrder(o) && o.orderType.Limit? && o.side.Sell? && o.price.Some?
    ensures InitialBalance(o, ENV.spendable) == Some(o.quantity)
    ensures var t := TakerOf(x, ENV, o);
            && t == TakerRecord(t.book, o, t.sequence, o.quantity)
            && t.side.Sell? && t.price == o.price.value && t.remaining == t.spendable == o.quantity
  {
    hide WithBooks, ValidOrder;
  }

  lemma AcceptsAtOne(o: Order, m: Record)
    requires o.orderType.Limit? && o.side.Sell? && o.price == Some(ONE) && m.side.Buy? && m.price == ONE
    ensures Accepts(o, m)
  {
    hide ToRat;
    OneIsOne();
  }

  lemma MatchesOne(taker: Record, maker: Record)
    requires Ready(taker, [maker])
    requires taker.side.Sell? && taker.price == ONE && taker.remaining == taker.spendable == 2
    requires maker.side.Buy? && maker.price == ONE && maker.remaining == maker.spendable == 1
    ensures SoldOne(MatchAll(taker, [maker]), maker)
  {
    hide MatchRecords, Ready, IsExecutableAsMaker;
    TradesOne(taker, maker);
    ReadyNext(taker, [maker]);
    assert [maker][1..] == [];
  }

  /**
   With a reserve of one base, selling two base of two against a buyer of one leaves the seller
   one base, of which the rest of the order and the reserve lock two.
   */
  lemma ReserveExceedsFunds()
    ensures var x, o := WithBuyer(), SampleOrder(SELLER, Sell, 2, None);
            && Reachable(x) && Inv(x) && Backed(x) && Place(x, ENV, o).Some?
            && Funds(Place(x, ENV, o).value, SELLER, BASE) == 1 && Free(Place(x, ENV, o).value, SELLER, BASE) == -1
  {
    hide WithBuyer, Reachable, Inv, Backed, Place, SettledFills, Total, PayFills, Registered, Stays, Remainder, WellFormed, Weight,
         GoodFill, PaidBy, PaidTo, Unlocked, Accepted, ApplyFills, ValidOrder;
    var x, o := WithBuyer(), SampleOrder(SELLER, Sell, 2, None);
    BuyerFacts();
    SellerAffords();
    NoneOfSeller(Locked, BASE);
    PlaceShape(x, ENV, o);
    PayFillsFunds(Registered(x, o), SettledFills(x, ENV, o), o, SELLER, BASE);
    FreeAfter(x, ENV, o, SELLER, BASE);
    RegisteredKeeps(x, o);
    SoldOneFlows(SettledFills(x, ENV, o), o, DataFor(x.open));
  }

  lemma SoldOneFlows(fills: seq<Fill>, o: Order, orders: map<nat, OrderData>)
    requires GoodFills(fills) && |fills| == 1 && fills[0].maker.account == BUYER && fills[0].trade == Trade(1, 1, 1, 1)
    requires o == SampleOrder(SELLER, Sell, 2, None)
    ensures PaidBy(fills, o, SELLER, BASE) == 1 && PaidTo(fills, o, SELLER, BASE) == 0
    ensures Unlocked(fills, orders, o.ReceiveDenom(), SELLER, BASE) == 0
  {
    hide GoodFill;
    assert fills[..0] == [];
  }

  lemma SellerAffords()
    ensures var x, o := WithBuyer(), SampleOrder(SELLER, Sell, 2, None);
            && 1 in x.open && Inv(x) && Place(x, ENV, o).Some? && Stays(x, ENV, o)
            && |SettledFills(x, ENV, o)| == 1 && SettledFills(x, ENV, o)[0].maker == x.open[1].record
            && SettledFills(x, ENV, o)[0].trade == Trade(1, 1, 1, 1)
            && Weight(Locked, Remainder(x, ENV, o), SELLER, BASE) == 2
  {
    hide WithBuyer, Inv, Backed, Accepted, WithBooks, Matched, WellFormed, Total, ApplyFills, PayFills, ValidOrder, ToRat;
    var x, o := WithBuyer(), SampleOrder(SELLER, Sell, 2, None);
    BuyerFacts();
    SellerMatch();
    OneIsOne();
    var out := Matched(x, ENV, o);
    ExecutableIffOneLot(out.taker);
    NoneOfSeller(Locked, BASE);
    NoneOfSeller(Count, BASE);
    NoneOfSeller(Count, QUOTE);
    RestingLocked(x, ENV, o);
    assert out.fills[..0] == [];
  }
}
