/**
 Matching one taker with one maker (the pure part of x/dex/matching-engine/match.go).
 */
module Matching {
  import opened Arithmetic
  import opened Rational
  import opened Price
  import opened Ticks
  import opened Types
  import opened Priority

  /** Stands for "no limit" in place of a price. */
  const MARKET_ORDER_PRICE: Frac := Rat(-1, 1)

  /** A record in the taker's terms: inverted makers are restated for the taker's book. */
  datatype OBRecord = OBRecord(side: Side, price: Frac, base: Frac, spend: Frac) {
    predicate IsLimit() {
      !Eq(price, MARKET_ORDER_PRICE)
    }

    /** The most base quantity this record can execute at a price. */
    function MaxBaseQuantityForPrice(p: Pos): Frac
      requires 0 <= base.num && 0 <= spend.num
    {
      if IsLimit() then base
      else if side.Sell? then Min(base, spend)
      else Min(base, Mul(spend, Reciprocal(p)))
    }
  }

  datatype CloseResult = NoneClosed | CloseTaker | CloseMaker | CloseBoth

  datatype Trade = Trade(base: int, quote: int, takerSpends: int, takerReceives: int)

  function NewMatchingOBRecord(r: Record, inverted: bool): OBRecord
    requires 0 <= r.remaining && 0 <= r.spendable
    requires inverted ==> 0 < r.price.num
  {
    var price := if ToRat(r.price).num == 0 then MARKET_ORDER_PRICE else ToRat(r.price);
    if !inverted then OBRecord(r.side, price, FromInt(r.remaining), FromInt(r.spendable))
    else OBRecord(r.side.Opposite(), Reciprocal(PriceOf(r.price)), Mul(FromInt(r.remaining), PriceOf(r.price)), FromInt(r.spendable))
  }

  /** The largest execution at exactly the price: n lots of den(p) base for num(p) quote. */
  function ComputeMaxIntExecutionQuantity(price: Frac, baseQuantity: int): (int, int) {
    var n := Quo(baseQuantity, price.den);
    (n * price.den, n * price.num)
  }

  predicate IsExecutableAsMaker(r: Record) {
    ComputeMaxIntExecutionQuantity(ToRat(r.price), r.remaining).0 != 0
  }

  function Match(taker: OBRecord, maker: OBRecord): (Trade, CloseResult)
    requires 0 <= taker.base.num && 0 <= taker.spend.num && 0 <= maker.base.num && 0 <= maker.spend.num
    requires 0 < maker.price.num
  {
    if taker.side == maker.side then (Trade(0, 0, 0, 0), NoneClosed)
    else
      var takerMax := taker.MaxBaseQuantityForPrice(maker.price);
      var makerMax := maker.MaxBaseQuantityForPrice(maker.price);
      var (closeRes, baseQuantity) :=
        if Lt(takerMax, makerMax) then (CloseTaker, takerMax)
        else if Eq(takerMax, makerMax) then (CloseBoth, takerMax)
        else (CloseMaker, makerMax);
      var (b, q) := ComputeMaxIntExecutionQuantity(maker.price, Quo(baseQuantity.num, baseQuantity.den));
      if taker.side.Sell? then (Trade(b, q, b, q), closeRes) else (Trade(b, q, q, b), closeRes)
  }

  /** A record that can be matched. */
  predicate Matchable(r: Record) {
    0 <= r.remaining && 0 <= r.spendable
  }

  /** A record that can be met as a maker. */
  predicate MakerOk(r: Record) {
    Matchable(r) && 0 < r.price.num
  }

  function MatchRecords(taker: Record, maker: Record): (Trade, CloseResult)
    requires Matchable(taker) && MakerOk(maker)
  {
    var inverted := taker.side == maker.side;
    var m := NewMatchingOBRecord(maker, inverted);
    MakerPricePositive(maker, inverted);
    Match(NewMatchingOBRecord(taker, false), m)
  }

  lemma MakerPricePositive(maker: Record, inverted: bool)
    requires Matchable(maker) && 0 < maker.price.num
    ensures 0 < NewMatchingOBRecord(maker, inverted).price.num
    ensures 0 <= NewMatchingOBRecord(maker, inverted).base.num
  {
  }

  // ----- whole lots -----

  /** The most the taker can execute against this maker. */
  ghost function TakerMax(taker: Record, maker: Record): (m: Frac)
    requires Matchable(taker) && MakerOk(maker)
    ensures 0 <= m.num
  {
    NewMatchingOBRecord(taker, false).MaxBaseQuantityForPrice(EffectivePrice(taker.side, maker))
  }

  /** The most the maker can execute, in the taker's base. */
  ghost function MakerMax(taker: Record, maker: Record): (m: Frac)
    requires Matchable(taker) && MakerOk(maker)
    ensures 0 <= m.num
  {
    if taker.side == maker.side then Mul(FromInt(maker.remaining), PriceOf(maker.price)) else FromInt(maker.remaining)
  }

  /** How many lots of a given size fit into a quantity. */
  ghost function LotsIn(x: Frac, size: nat): nat
    requires 0 <= x.num && 0 < size
  {
    assert 0 <= x.num / x.den by { DivLargest(x.num, x.den, 0); }
    assert 0 <= x.num / x.den / size by { DivLargest(x.num / x.den, size, 0); }
    x.num / x.den / size
  }

  /** The lots a match trades: what the side that runs out first can afford. */
  ghost function Lots(taker: Record, maker: Record): nat
    requires Matchable(taker) && MakerOk(maker)
  {
    var size := EffectivePrice(taker.side, maker).den;
    if Le(TakerMax(taker, maker), MakerMax(taker, maker))
    then LotsIn(TakerMax(taker, maker), size)
    else LotsIn(MakerMax(taker, maker), size)
  }

  /** A match is a whole number of lots at exactly the maker's price, from either book. */
  lemma MatchTradesLots(taker: Record, maker: Record)
    requires Matchable(taker) && MakerOk(maker)
    ensures var (t, close) := MatchRecords(taker, maker);
            var p, n := EffectivePrice(taker.side, maker), Lots(taker, maker);
            && t.base == n * p.den && t.quote == n * p.num
            && t.takerSpends == (if taker.side.Sell? then t.base else t.quote)
            && t.takerReceives == (if taker.side.Sell? then t.quote else t.base)
            && close == (if Lt(TakerMax(taker, maker), MakerMax(taker, maker)) then CloseTaker
                         else if Eq(TakerMax(taker, maker), MakerMax(taker, maker)) then CloseBoth
                         else CloseMaker)
  {
    hide Lt, Eq, Mul, Reciprocal, ToRat;
    ToRatPositive(maker.price);
    LimitPrice(NewMatchingOBRecord(maker, taker.side == maker.side));
    LeLtEq(TakerMax(taker, maker), MakerMax(taker, maker));
  }

  lemma ToRatPositive(p: Price)
    requires 0 < p.num
    ensures 0 < ToRat(p).num
  {
  }

  lemma LimitPrice(r: OBRecord)
    requires 0 < r.price.num
    ensures r.IsLimit()
  {
  }

  lemma LeLtEq(x: Frac, y: Frac)
    ensures Le(x, y) <==> Lt(x, y) || Eq(x, y)
    ensures !(Lt(x, y) && Eq(x, y))
  {
  }

  // ----- how much a match trades -----

  /** n lots fit into x exactly when n is at most the number of lots in x. */
  lemma LotsInLargest(x: Frac, size: nat, n: nat)
    requires 0 <= x.num && 0 < size
    ensures n * size * x.den <= x.num <==> n <= LotsIn(x, size)
  {
    DivLargest(x.num, x.den, n * size);
    DivLargest(x.num / x.den, size, n);
  }

  lemma LotsInMono(x: Frac, y: Frac, size: nat)
    requires 0 <= x.num && 0 <= y.num && 0 < size && Le(x, y)
    ensures LotsIn(x, size) <= LotsIn(y, size)
  {
    var n := LotsIn(x, size);
    LotsInLargest(x, size, n);
    LotsInLargest(y, size, n);
    LeTrans(FromInt(n * size), x, y);
  }

  /**
   Inversion symmetry: whichever book a maker is met from, it can fill
   remaining / den(price) lots of its own price.
   */
  lemma MakerLots(taker: Record, maker: Record)
    requires Matchable(taker) && MakerOk(maker)
    ensures LotsIn(MakerMax(taker, maker), EffectivePrice(taker.side, maker).den)
         == maker.remaining / PriceOf(maker.price).den
  {
    var p, r := PriceOf(maker.price), maker.remaining;
    if taker.side == maker.side {
      InvertedLots(r, p.num, p.den);
    }
  }

  lemma InvertedLots(r: nat, num: nat, den: nat)
    requires 0 < num && 0 < den
    ensures 0 <= r * num && Reduced(r * num, 1 * den).num / Reduced(r * num, 1 * den).den / num == r / den
  {
    assert 0 <= r * num;
    ReducedFloor(r * num, den);
    DivDiv(r * num, den, num);
    DivCancel(r, den, num);
  }

  /** A match never trades more than the maker's lots, and exactly those if it closes the maker. */
  lemma LotsBoundedByMaker(taker: Record, maker: Record)
    requires Matchable(taker) && MakerOk(maker)
    ensures var lots := maker.remaining / PriceOf(maker.price).den;
            && Lots(taker, maker) <= lots
            && (!MatchRecords(taker, maker).1.CloseTaker? ==> Lots(taker, maker) == lots)
            && Lots(taker, maker) * PriceOf(maker.price).den <= maker.remaining
  {
    hide Le, Eq, TakerMax, MakerMax, LotsIn, MatchRecords;
    var t, m := TakerMax(taker, maker), MakerMax(taker, maker);
    var size := EffectivePrice(taker.side, maker).den;
    MakerLots(taker, maker);
    MatchTradesLots(taker, maker);
    LeLtEq(t, m);
    if Le(t, m) {
      LotsInMono(t, m, size);
    }
    if Eq(t, m) {
      EqLe(t, m);
      LotsInMono(m, t, size);
    }
    DivLargest(maker.remaining, PriceOf(maker.price).den, Lots(taker, maker));
  }

  lemma EqLe(x: Frac, y: Frac)
    requires Eq(x, y)
    ensures Le(x, y) && Le(y, x)
  {
  }

  /** A match never trades more than the taker can execute. */
  lemma LotsBoundedByTaker(taker: Record, maker: Record)
    requires Matchable(taker) && MakerOk(maker)
    ensures var size := EffectivePrice(taker.side, maker).den;
            && Lots(taker, maker) <= LotsIn(TakerMax(taker, maker), size)
            && (!MatchRecords(taker, maker).1.CloseMaker? ==> Lots(taker, maker) == LotsIn(TakerMax(taker, maker), size))
  {
    hide Le, Eq, TakerMax, MakerMax, LotsIn, MatchRecords;
    var t, m := TakerMax(taker, maker), MakerMax(taker, maker);
    MatchTradesLots(taker, maker);
    LeLtEq(t, m);
    if !Le(t, m) {
      NotLe(t, m);
      LotsInMono(m, t, EffectivePrice(taker.side, maker).den);
    }
  }

  lemma NotLe(x: Frac, y: Frac)
    requires !Le(x, y)
    ensures Le(y, x)
  {
  }

  lemma MinBounds(x: Frac, y: Frac)
    ensures Le(Min(x, y), x) && Le(Min(x, y), y)
  {
  }

  predicate IsMarket(r: Record) {
    r.price.num == 0
  }

  lemma MarketPrice(r: Record)
    requires Matchable(r)
    ensures NewMatchingOBRecord(r, false).IsLimit() <==> !IsMarket(r)
  {
    if r.price.num == 0 {
      assert ToRat(r.price).num == 0 by { ZeroPrice(r.price); }
    } else {
      assert 0 < ToRat(r.price).num;
    }
  }

  lemma ZeroPrice(p: Price)
    requires p.num == 0
    ensures ToRat(p).num == 0
  {
    if p.exp <= 0 {
      var r := Reduced(0, Pow10(-p.exp));
      assert r.num * Pow10(-p.exp) == 0;
    }
  }

  /** The taker's quantity covers what it trades. */
  lemma TakerMaxBound(taker: Record, maker: Record)
    requires Matchable(taker) && MakerOk(maker)
    ensures Le(TakerMax(taker, maker), FromInt(taker.remaining))
    ensures !IsMarket(taker) ==> TakerMax(taker, maker) == FromInt(taker.remaining)
  {
    hide Le, Mul;
    MarketPrice(taker);
    var r := NewMatchingOBRecord(taker, false);
    if IsMarket(taker) {
      var other := if r.side.Sell? then r.spend else Mul(r.spend, Reciprocal(EffectivePrice(taker.side, maker)));
      MinBounds(r.base, other);
    } else {
      EqLe(r.base, r.base);
    }
  }

  lemma TakerQuantityCovers(taker: Record, maker: Record)
    requires Matchable(taker) && MakerOk(maker)
    ensures Lots(taker, maker) * EffectivePrice(taker.side, maker).den <= taker.remaining
  {
    hide TakerMax, Lots, MatchRecords;
    var size := EffectivePrice(taker.side, maker).den;
    LotsBoundedByTaker(taker, maker);
    TakerMaxBound(taker, maker);
    var x, y, n := TakerMax(taker, maker), FromInt(taker.remaining), Lots(taker, maker);
    LotsInMono(x, y, size);
    LotsInLargest(y, size, n);
  }

  /** Dust bound: a limit taker that a match closes keeps less than one lot of the trade price. */
  lemma TakerDust(taker: Record, maker: Record)
    requires Matchable(taker) && MakerOk(maker) && !IsMarket(taker)
    requires !MatchRecords(taker, maker).1.CloseMaker?
    ensures var size := EffectivePrice(taker.side, maker).den;
            taker.remaining - Lots(taker, maker) * size == taker.remaining % size < size
  {
    hide TakerMax, Lots, MatchRecords;
    var size := EffectivePrice(taker.side, maker).den;
    LotsBoundedByTaker(taker, maker);
    TakerMaxBound(taker, maker);
    assert Lots(taker, maker) == taker.remaining / size;
  }

  // ----- what each side gives and gets -----

  /** What a maker pays for one lot of its own price. */
  function SpendsPerLot(maker: Record): nat
    requires 0 < maker.price.num
  {
    if maker.side.Buy? then PriceOf(maker.price).num else PriceOf(maker.price).den
  }

  /** What a maker gets for one lot of its own price. */
  function ReceivesPerLot(maker: Record): nat
    requires 0 < maker.price.num
  {
    if maker.side.Buy? then PriceOf(maker.price).den else PriceOf(maker.price).num
  }

  function AfterTaker(taker: Record, t: Trade): Record {
    taker.(remaining := taker.remaining - t.base, spendable := taker.spendable - t.takerSpends)
  }

  function AfterMaker(taker: Record, maker: Record, t: Trade): Record {
    var baseReduction := if taker.side == maker.side then t.quote else t.base;
    maker.(remaining := maker.remaining - baseReduction, spendable := maker.spendable - t.takerReceives)
  }

  /** In the maker's own terms a fill is the same through either book. */
  lemma MakerFill(taker: Record, maker: Record)
    requires Matchable(taker) && MakerOk(maker)
    ensures var t, n := MatchRecords(taker, maker).0, Lots(taker, maker);
            && t.takerReceives == n * SpendsPerLot(maker)
            && t.takerSpends == n * ReceivesPerLot(maker)
            && AfterMaker(taker, maker, t).remaining == maker.remaining - n * PriceOf(maker.price).den
            && AfterMaker(taker, maker, t).spendable == maker.spendable - n * SpendsPerLot(maker)
  {
    hide MatchRecords, Lots, ToRat;
    ToRatPositive(maker.price);
    MatchTradesLots(taker, maker);
  }

  /** What is left to spend covers what is left to execute, at the taker's own limit. */
  predicate Covered(taker: Record) {
    || IsMarket(taker)
    || (if taker.side.Buy?
        then taker.remaining * ToRat(taker.price).num <= taker.spendable * ToRat(taker.price).den
        else taker.remaining <= taker.spendable)
  }

  /** The trade price is one the taker accepts. */
  predicate PriceAccepted(taker: Record, maker: Record) {
    IsMarket(taker) || IsPriceMatches(taker.side, ToRat(taker.price), EffectivePrice(taker.side, maker))
  }

  /** Buying n lots below the limit keeps the rest covered. */
  lemma BuyCovered(rem: int, sp: int, ln: int, ld: int, tn: int, td: int, n: nat)
    requires 0 < ln && 0 < ld && 0 < tn && 0 < td
    requires rem * ln <= sp * ld && n * td <= rem && tn * ld <= ln * td
    ensures (rem - n * td) * ln <= (sp - n * tn) * ld
    ensures n * tn <= sp
  {
    assert (rem - n * td) * ln == rem * ln - n * td * ln;
    assert (sp - n * tn) * ld == sp * ld - n * tn * ld;
    MulMono(tn * ld, ln * td, n);
    MulAssoc(n, tn, ld);
    assert n * td * ln == n * (ln * td) by { MulAssoc(n, td, ln); }
    assert tn * ld * n == n * (tn * ld) && ln * td * n == n * (ln * td);
    MulMono(0, rem - n * td, ln);
    CancelLe(ld, 0, sp - n * tn);
  }

  lemma LimitTakerCovered(taker: Record, maker: Record)
    requires Matchable(taker) && MakerOk(maker) && !IsMarket(taker)
    requires Covered(taker) && PriceAccepted(taker, maker)
    ensures MatchRecords(taker, maker).0.takerSpends <= taker.spendable
    ensures Covered(AfterTaker(taker, MatchRecords(taker, maker).0))
  {
    hide MatchRecords, Lots, ToRat, EffectivePrice, TakerMax;
    ToRatPositive(taker.price);
    MatchTradesLots(taker, maker);
    TakerQuantityCovers(taker, maker);
    if taker.side.Buy? {
      var limit, p := ToRat(taker.price), EffectivePrice(taker.side, maker);
      BuyCovered(taker.remaining, taker.spendable, limit.num, limit.den, p.num, p.den, Lots(taker, maker));
    }
  }

  /** n lots that fit into spend / price cost no more than the balance. */
  lemma MarketBuyAffordable(n: nat, spend: nat, p: Pos)
    requires Le(FromInt(n * p.den), Mul(FromInt(spend), Reciprocal(p)))
    ensures n * p.num <= spend
  {
    var r := Mul(FromInt(spend), Reciprocal(p));
    assert 0 <= spend * p.den && 0 < 1 * p.num;
    assert r == Reduced(spend * p.den, 1 * p.num);
    assert r.num * p.num == spend * p.den * r.den;
    AffordableArithmetic(n, spend, p.num, p.den, r.num, r.den);
  }

  lemma AffordableArithmetic(n: int, s: int, pn: int, pd: int, rn: int, rd: int)
    requires 0 < pn && 0 < pd && 0 < rd
    requires n * pd * rd <= rn && rn * pn == s * pd * rd
    ensures n * pn <= s
  {
    MulMono(n * pd * rd, rn, pn);
    assert n * pd * rd * pn == pd * rd * (n * pn) by {
      MulAssoc(n, pd, rd);
      MulSwap(n, pd * rd, pn);
    }
    assert s * pd * rd == pd * rd * s by { MulAssoc(s, pd, rd); }
    assert 0 < pd * rd;
    CancelLe(pd * rd, n * pn, s);
  }

  lemma MarketTakerCovered(taker: Record, maker: Record)
    requires Matchable(taker) && MakerOk(maker) && IsMarket(taker)
    ensures MatchRecords(taker, maker).0.takerSpends <= taker.spendable
  {
    hide MatchRecords, Lots, ToRat, EffectivePrice, Mul, Le, Reciprocal;
    MatchTradesLots(taker, maker);
    LotsBoundedByTaker(taker, maker);
    MarketPrice(taker);
    var r, p, n := NewMatchingOBRecord(taker, false), EffectivePrice(taker.side, maker), Lots(taker, maker);
    var other := if r.side.Sell? then r.spend else Mul(r.spend, Reciprocal(p));
    MinBounds(r.base, other);
    MulNonNegative(taker.spendable, p);
    LotsInMono(TakerMax(taker, maker), other, p.den);
    LotsInLargest(other, p.den, n);
    FromIntLe(n * p.den, other);
    if taker.side.Buy? {
      MarketBuyAffordable(n, taker.spendable, p);
    }
  }

  lemma MulNonNegative(s: nat, p: Pos)
    ensures 0 <= Mul(FromInt(s), Reciprocal(p)).num
  {
  }

  lemma FromIntLe(k: int, x: Frac)
    ensures Le(FromInt(k), x) <==> k * x.den <= x.num
  {
  }

  /** No quantity or balance of the taker goes negative, and it stays covered. */
  lemma TakerStaysCovered(taker: Record, maker: Record)
    requires Matchable(taker) && MakerOk(maker) && Covered(taker) && PriceAccepted(taker, maker)
    ensures var after := AfterTaker(taker, MatchRecords(taker, maker).0);
            Matchable(after) && Covered(after)
  {
    hide MatchRecords, Lots, EffectivePrice;
    MatchTradesLots(taker, maker);
    TakerQuantityCovers(taker, maker);
    if IsMarket(taker) {
      MarketTakerCovered(taker, maker);
    } else {
      LimitTakerCovered(taker, maker);
    }
  }

  // ----- maximality -----

  lemma {:induction false} CoprimeSwapped(a: nat, b: nat)
    requires 0 < a && 0 < b && Gcd(a, b) == 1
    ensures Gcd(b, a) == 1
  {
    var x, y := Bezout(a, b);
    CoprimeFromBezout(b, a, y, x);
  }

  lemma EffectivePriceLowest(side: Side, maker: Record)
    requires 0 < maker.price.num
    ensures Lowest(EffectivePrice(side, maker))
  {
    ToRatLowest(maker.price);
    var p := PriceOf(maker.price);
    if maker.side == side {
      CoprimeSwapped(p.num, p.den);
    }
  }

  /** Integer amounts at exactly a price in lowest terms are whole lots. */
  lemma ExactAmountsAreLots(b: nat, q: nat, p: Pos) returns (k: nat)
    requires Lowest(p) && b * p.num == q * p.den
    ensures b == k * p.den && q == k * p.num
  {
    DivUnique(p.num * b, p.den, q, 0);
    EuclidsLemma(p.den, p.num, b);
    k := b / p.den;
    assert b == k * p.den;
    assert q * p.den == k * p.num * p.den by { MulSwap(k, p.den, p.num); }
    CancelLe(p.den, q, k * p.num);
    CancelLe(p.den, k * p.num, q);
  }

  /**
   A match trades the largest integer amounts at exactly the trade price that both sides can
   execute.
   */
  lemma MatchIsMaximal(taker: Record, maker: Record, b: nat, q: nat)
    requires Matchable(taker) && MakerOk(maker)
    requires var p := EffectivePrice(taker.side, maker); b * p.num == q * p.den
    requires Le(FromInt(b), TakerMax(taker, maker)) && Le(FromInt(b), MakerMax(taker, maker))
    ensures b <= MatchRecords(taker, maker).0.base && q <= MatchRecords(taker, maker).0.quote
  {
    hide MatchRecords, EffectivePrice, TakerMax, MakerMax;
    var p := EffectivePrice(taker.side, maker);
    EffectivePriceLowest(taker.side, maker);
    var k := ExactAmountsAreLots(b, q, p);
    var t, m := TakerMax(taker, maker), MakerMax(taker, maker);
    FromIntLe(b, t);
    FromIntLe(b, m);
    LotsInLargest(t, p.den, k);
    LotsInLargest(m, p.den, k);
    MatchTradesLots(taker, maker);
    MulMono(k, Lots(taker, maker), p.den);
    MulMono(k, Lots(taker, maker), p.num);
  }

  // ----- what a match trades, said of the two records -----

  /** The amounts are at exactly the maker's price, which is reciprocal if the maker is on the taker's side. */
  predicate AtMakerPrice(side: Side, maker: Record, b: int, q: int)
    requires 0 < maker.price.num
  {
    var p := PriceOf(maker.price);
    if maker.side == side then b * p.den == q * p.num else b * p.num == q * p.den
  }

  /** Neither side has to give more than it has: a market order is bound by its balance as well. */
  predicate BothHave(taker: Record, maker: Record, b: int, q: int)
    requires 0 < maker.price.num
  {
    var p := PriceOf(maker.price);
    && 0 <= b <= taker.remaining && 0 <= q
    && (taker.price.num == 0 ==> if taker.side.Sell? then b <= taker.spendable else q <= taker.spendable)
    && (if maker.side == taker.side then q <= maker.remaining else b <= maker.remaining)
  }

  /**
   A match trades the largest amounts at exactly the maker's price that both sides have, be the
   taker a limit or a market order and the maker direct or inverted.
   */
  lemma MatchIsLargest(taker: Record, maker: Record, b: int, q: int)
    requires Matchable(taker) && MakerOk(maker)
    ensures var t := MatchRecords(taker, maker).0; AtMakerPrice(taker.side, maker, t.base, t.quote) && BothHave(taker, maker, t.base, t.quote)
    ensures var t := MatchRecords(taker, maker).0;
            AtMakerPrice(taker.side, maker, b, q) && BothHave(taker, maker, b, q) ==> b <= t.base && q <= t.quote
  {
    hide MatchRecords, Lots, ToRat, TakerMax, MakerMax, Le;
    MatchTradesLots(taker, maker);
    TakerQuantityCovers(taker, maker);
    LotsBoundedByMaker(taker, maker);
    TradeIsAtPrice(taker, maker);
    if taker.price.num == 0 {
      MarketTakerCovered(taker, maker);
    }
    if AtMakerPrice(taker.side, maker, b, q) && BothHave(taker, maker, b, q) {
      WithinTaker(taker, maker, b, q);
      WithinMaker(taker, maker, b, q);
      MatchIsMaximal(taker, maker, b, q);
    }
  }

  lemma TradeIsAtPrice(taker: Record, maker: Record)
    requires Matchable(taker) && MakerOk(maker)
    ensures var t := MatchRecords(taker, maker).0;
            AtMakerPrice(taker.side, maker, t.base, t.quote) && 0 <= t.base && 0 <= t.quote
  {
    hide MatchRecords, Lots, ToRat;
    MatchTradesLots(taker, maker);
    var p, n := PriceOf(maker.price), Lots(taker, maker);
    MulSwap(n, p.den, p.num);
  }

  lemma WithinTaker(taker: Record, maker: Record, b: nat, q: nat)
    requires Matchable(taker) && MakerOk(maker) && AtMakerPrice(taker.side, maker, b, q) && BothHave(taker, maker, b, q)
    ensures Le(FromInt(b), TakerMax(taker, maker))
  {
    hide ToRat, Mul, Le, Reciprocal;
    MarketPrice(taker);
    var r, p := NewMatchingOBRecord(taker, false), EffectivePrice(taker.side, maker);
    FromIntLe(b, r.base);
    FromIntLe(b, r.spend);
    if IsMarket(taker) && taker.side.Buy? {
      PaysFor(b, q, taker.spendable, p) by {
        ReciprocalParts(PriceOf(maker.price));
      }
    }
  }

  lemma ReciprocalParts(p: Pos)
    ensures Reciprocal(p) == Rat(p.den, p.num)
  {
  }

  /** What costs q is within what the balance buys. */
  lemma PaysFor(b: nat, q: nat, spend: nat, p: Pos)
    requires b * p.num == q * p.den && q <= spend
    ensures 0 <= FromInt(spend).num && Le(FromInt(b), Mul(FromInt(spend), Reciprocal(p)))
  {
    var r := Mul(FromInt(spend), Reciprocal(p));
    assert 0 <= spend * p.den && 0 < 1 * p.num;
    assert r == Reduced(spend * p.den, 1 * p.num);
    MulMono(q, spend, p.den);
    CrossLe(b, r.num, r.den, spend * p.den, p.num);
    FromIntLe(b, r);
  }

  lemma WithinMaker(taker: Record, maker: Record, b: nat, q: nat)
    requires Matchable(taker) && MakerOk(maker) && AtMakerPrice(taker.side, maker, b, q) && BothHave(taker, maker, b, q)
    ensures Le(FromInt(b), MakerMax(taker, maker))
  {
    hide ToRat, Le;
    FromIntLe(b, MakerMax(taker, maker));
    if taker.side == maker.side {
      var p := PriceOf(maker.price);
      assert 0 <= maker.remaining * p.num;
      var c := Reduced(maker.remaining * p.num, 1 * p.den);
      assert c == MakerMax(taker, maker);
      MulMono(q, maker.remaining, p.num);
      CrossLe(b, c.num, c.den, maker.remaining * p.num, p.den);
    }
  }

  /** k is at most n / d exactly if it is at most n' / d' of the same value. */
  lemma CrossLe(k: int, n: int, d: int, n': int, d': int)
    requires 0 < d && 0 < d' && n * d' == n' * d
    ensures k * d <= n <==> k * d' <= n'
  {
    ScaleLe(k * d, n, d');
    ScaleLe(k * d', n', d);
    MulSwap(k, d, d');
  }

  // ----- who is closed -----

  /** All a maker has, lots or not, is less than the base quantity. */
  predicate Less(side: Side, m: Record, quantity: int)
    requires 0 < m.price.num
  {
    if m.side == side then m.remaining * PriceOf(m.price).num < quantity * PriceOf(m.price).den else m.remaining < quantity
  }

  /** All a maker has costs less quote than the amount. */
  predicate CostsLess(side: Side, m: Record, amount: int)
    requires 0 < m.price.num
  {
    if m.side == side then m.remaining < amount else m.remaining * PriceOf(m.price).num < amount * PriceOf(m.price).den
  }

  /** The maker has less than the taker wants and, for a market order, than it can pay for. */
  predicate LeavesTaker(taker: Record, m: Record)
    requires 0 < m.price.num
  {
    && Less(taker.side, m, taker.remaining)
    && (taker.price.num == 0 ==> if taker.side.Sell? then Less(taker.side, m, taker.spendable) else CostsLess(taker.side, m, taker.spendable))
  }

  /** A match leaves the taker open exactly if the maker has less than the taker wants and can pay for. */
  lemma TakerClosedIff(taker: Record, m: Record)
    requires Matchable(taker) && MakerOk(m)
    ensures MatchRecords(taker, m).1.CloseMaker? <==> LeavesTaker(taker, m)
  {
    hide MatchRecords, Lots, ToRat, MakerMax, TakerMax, Eq, Lt, Le, Less, CostsLess;
    MatchTradesLots(taker, m);
    LeLtEq(TakerMax(taker, m), MakerMax(taker, m));
    TakerMaxCompared(taker, m);
  }

  lemma TakerMaxCompared(taker: Record, m: Record)
    requires Matchable(taker) && MakerOk(m)
    ensures Le(TakerMax(taker, m), MakerMax(taker, m)) <==> !LeavesTaker(taker, m)
  {
    hide ToRat, MakerMax, Le, Less, CostsLess, Mul, Reciprocal, EffectivePrice;
    MarketPrice(taker);
    var r, c := NewMatchingOBRecord(taker, false), MakerMax(taker, m);
    CapacityCompared(taker, m, taker.remaining);
    if IsMarket(taker) {
      if taker.side.Sell? {
        CapacityCompared(taker, m, taker.spendable);
        MinLe(r.base, r.spend, c);
      } else {
        var s := Mul(r.spend, Reciprocal(EffectivePrice(taker.side, m)));
        BalanceCompared(taker, m);
        MinLe(r.base, s, c);
      }
    }
  }

  lemma MinLe(x: Frac, y: Frac, c: Frac)
    ensures Le(Min(x, y), c) <==> Le(x, c) || Le(y, c)
  {
    hide Le;
    if Lt(x, y) {
      if Le(y, c) { NotLe(y, x); LeTrans(x, y, c); }
    } else if Le(x, c) {
      LeTrans(y, x, c);
    }
  }

  lemma CapacityCompared(taker: Record, m: Record, quantity: int)
    requires Matchable(taker) && MakerOk(m)
    ensures Le(FromInt(quantity), MakerMax(taker, m)) <==> !Less(taker.side, m, quantity)
  {
    hide ToRat;
    if taker.side == m.side {
      var p := PriceOf(m.price);
      assert 0 <= m.remaining * p.num;
      var c := Reduced(m.remaining * p.num, 1 * p.den);
      assert c == MakerMax(taker, m);
      CrossLe(quantity, c.num, c.den, m.remaining * p.num, p.den);
    }
  }

  /** What the balance buys, compared with what the maker has. */
  lemma BalanceCompared(taker: Record, m: Record)
    requires Matchable(taker) && MakerOk(m)
    ensures 0 <= FromInt(taker.spendable).num
    ensures Le(Mul(FromInt(taker.spendable), Reciprocal(EffectivePrice(taker.side, m))), MakerMax(taker, m))
       <==> !CostsLess(taker.side, m, taker.spendable)
  {
    hide ToRat, Mul, Le, Reciprocal;
    var s, p := taker.spendable, PriceOf(m.price);
    ReciprocalParts(p);
    BoughtValue(s, EffectivePrice(taker.side, m));
    var r, c := Mul(FromInt(s), Reciprocal(EffectivePrice(taker.side, m))), MakerMax(taker, m);
    if taker.side == m.side {
      ReachedValue(m.remaining, p);
      SameLe(r, Rat(s * p.num, p.den), c, Rat(m.remaining * p.num, p.den));
      ScaledBalance(s, m.remaining, p.num, p.den);
    } else {
      SameLe(r, Rat(s * p.den, p.num), c, Rat(m.remaining, 1));
      FractionLe(s * p.den, p.num, m.remaining);
    }
  }

  lemma FractionLe(n: int, d: int, k: int)
    requires 0 < d
    ensures Le(Rat(n, d), Rat(k, 1)) <==> n <= k * d
  {
  }

  /** A balance buys its quotient by the price. */
  lemma BoughtValue(s: nat, e: Pos)
    ensures 0 <= FromInt(s).num && Eq(Mul(FromInt(s), Reciprocal(e)), Rat(s * e.den, e.num))
  {
    assert 0 <= s * e.den && 0 < 1 * e.num;
    assert Mul(FromInt(s), Reciprocal(e)) == Reduced(s * e.den, 1 * e.num);
  }

  lemma ReachedValue(remaining: nat, p: Pos)
    ensures 0 <= FromInt(remaining).num && Eq(Mul(FromInt(remaining), p), Rat(remaining * p.num, p.den))
  {
    assert 0 <= remaining * p.num;
    assert Mul(FromInt(remaining), p) == Reduced(remaining * p.num, 1 * p.den);
  }

  lemma ScaledBalance(s: int, r: int, num: int, den: int)
    requires 0 < num && 0 < den
    ensures Le(Rat(s * num, den), Rat(r * num, den)) <==> s <= r
  {
    ScaleLe(s, r, num);
    ScaleLe(s * num, r * num, den);
  }

  /** Fractions compare as fractions of the same values do. */
  lemma SameLe(x: Frac, x': Frac, y: Frac, y': Frac)
    requires Eq(x, x') && Eq(y, y')
    ensures Le(x, y) <==> Le(x', y')
  {
    hide Le, Eq;
    EqLe(x, x');
    EqLe(y, y');
    if Le(x, y) { LeTrans(x', x, y); LeTrans(x', y, y'); }
    if Le(x', y') { LeTrans(x, x', y'); LeTrans(x, y', y); }
  }

  /** A taker that a match closes cannot pay for, or does not want, one more lot of the maker's price. */
  lemma ClosedTakerIsDone(taker: Record, maker: Record)
    requires Matchable(taker) && MakerOk(maker) && !LeavesTaker(taker, maker)
    ensures var after, p := AfterTaker(taker, MatchRecords(taker, maker).0), PriceOf(maker.price);
            var (base, quote) := if maker.side == taker.side then (p.num, p.den) else (p.den, p.num);
            || after.remaining < base
            || (taker.price.num == 0 && after.spendable < if taker.side.Sell? then base else quote)
  {
    hide MatchRecords, Lots, ToRat, LeavesTaker, TakerMax, MakerMax, LotsIn, Le;
    MatchTradesLots(taker, maker);
    TakerClosedIff(taker, maker);
    LotsBoundedByTaker(taker, maker);
    var e, n := EffectivePrice(taker.side, maker), Lots(taker, maker);
    var b, q := (n + 1) * e.den, (n + 1) * e.num;
    assert b == n * e.den + e.den && q == n * e.num + e.num;
    if b <= taker.remaining && (taker.price.num == 0 ==> if taker.side.Sell? then b <= taker.spendable else q <= taker.spendable) {
      OneMoreFits(taker, maker, n + 1);
      LotsInLargest(TakerMax(taker, maker), e.den, n + 1);
      FromIntLe(b, TakerMax(taker, maker));
      assert false;
    }
  }

  lemma OneMoreFits(taker: Record, maker: Record, k: nat)
    requires Matchable(taker) && MakerOk(maker)
    requires var e := EffectivePrice(taker.side, maker);
             && k * e.den <= taker.remaining
             && (taker.price.num == 0 ==> if taker.side.Sell? then k * e.den <= taker.spendable else k * e.num <= taker.spendable)
    ensures Le(FromInt(k * EffectivePrice(taker.side, maker).den), TakerMax(taker, maker))
  {
    hide ToRat, Mul, Le, Reciprocal, EffectivePrice;
    MarketPrice(taker);
    var r, e := NewMatchingOBRecord(taker, false), EffectivePrice(taker.side, maker);
    FromIntLe(k * e.den, r.base);
    FromIntLe(k * e.den, r.spend);
    if IsMarket(taker) && taker.side.Buy? {
      MulSwap(k, e.den, e.num);
      PaysFor(k * e.den, k * e.num, taker.spendable, e);
    }
  }

  /** A record is executable as maker exactly when it holds at least one lot. */
  lemma ExecutableIffOneLot(r: Record)
    requires 0 <= r.remaining && 0 < r.price.num
    ensures IsExecutableAsMaker(r) <==> PriceOf(r.price).den <= r.remaining
  {
    var d := PriceOf(r.price).den;
    DivLargest(r.remaining, d, 1);
    var n := r.remaining / d;
    if n != 0 {
      if n < 0 { DivLargest(r.remaining, d, 0); }
      MulMono(1, n, d);
    }
  }
}
