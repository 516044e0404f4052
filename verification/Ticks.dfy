/**
 Decimal logarithm, price tick and quantity step
 (pkg/math/big/rat.go, x/dex/keeper/price_tick.go, x/dex/keeper/quantity_step.go).
 */
module Ticks {
  import opened Arithmetic
  import opened Rational

  /** Number of decimal digits of n, the length of its printed form. */
  function DecimalLen(n: nat): (k: nat)
    ensures 1 <= k
  {
    if n < 10 then 1 else 1 + DecimalLen(n / 10)
  }

  lemma {:induction false} DecimalLenBounds(n: nat)
    requires 0 < n
    ensures Pow10(DecimalLen(n) - 1) <= n < Pow10(DecimalLen(n))
  {
    if n < 10 {
      assert Pow10(1) == 10 * Pow10(0);
    } else {
      DecimalLenBounds(n / 10);
    }
  }

  function TenPow(k: int): Pos {
    if 0 <= k then Rat(Pow10(k), 1) else Rat(1, Pow10(-k))
  }

  /** The smallest k with v <= 10^k, found from digit counts. */
  function Log10RoundUp(v: Pos): int {
    var exponent := DecimalLen(v.num) - DecimalLen(v.den);
    if Le(v, TenPow(exponent)) then exponent else exponent + 1
  }

  /** k is the rounded-up decimal logarithm of v. */
  ghost predicate IsCeilLog10(v: Pos, k: int) {
    Lt(TenPow(k - 1), v) && Le(v, TenPow(k))
  }

  /** Comparing with a power of ten, both sides scaled to integers. */
  lemma LeTenPow(v: Pos, k: int, s: nat)
    requires 0 <= k + s
    ensures Le(v, TenPow(k)) <==> v.num * Pow10(s) <= Pow10(k + s) * v.den
  {
    if 0 <= k {
      Pow10Add(k, s);
      ScaledRight(v.num, Pow10(k), v.den, Pow10(s));
    } else {
      Pow10Add(-k, k + s);
      ScaledLeft(v.num, Pow10(-k), v.den, Pow10(k + s));
    }
  }

  lemma ScaledRight(n: int, p: int, d: int, s: int)
    requires 0 < s
    ensures n <= p * d <==> n * s <= p * s * d
  {
    ScaleLe(n, p * d, s);
    MulSwap(p, d, s);
  }

  lemma ScaledLeft(n: int, p: int, d: int, s: int)
    requires 0 < s
    ensures n * p <= d <==> n * (p * s) <= s * d
  {
    ScaleLe(n * p, d, s);
    MulAssoc(n, p, s);
  }

  lemma ScaleLe(x: int, y: int, c: int)
    requires 0 < c
    ensures x <= y <==> x * c <= y * c
  {
    if x <= y {
      MulMono(x, y, c);
    } else {
      MulMono(y + 1, x, c);
    }
  }

  lemma ScaleLt(x: int, y: int, p: int, q: int)
    requires 0 < x <= y && 0 < p < q
    ensures x * p < y * q
  {
    MulMono(x, y, p);
    assert y * q == y * p + y * (q - p);
    MulMono(1, y, q - p);
  }

  lemma CrossLe(x: int, y: int, p: int, q: int)
    requires 0 <= x <= y && 0 <= p <= q
    ensures x * p <= y * q
  {
    MulMono(x, y, p);
    MulMono(p, q, y);
  }

  lemma DigitsLowerBound(v: Pos)
    ensures !Le(v, TenPow(DecimalLen(v.num) - DecimalLen(v.den) - 1))
  {
    var a: int, b: int := DecimalLen(v.num), DecimalLen(v.den);
    DecimalLenBounds(v.num);
    DecimalLenBounds(v.den);
    LeTenPow(v, a - b - 1, b);
    ScaleLt(Pow10(a - 1), v.num, v.den, Pow10(b));
  }

  lemma DigitsUpperBound(v: Pos)
    ensures Le(v, TenPow(DecimalLen(v.num) - DecimalLen(v.den) + 1))
  {
    var a: int, b: int := DecimalLen(v.num), DecimalLen(v.den);
    DecimalLenBounds(v.num);
    DecimalLenBounds(v.den);
    LeTenPow(v, a - b + 1, b - 1);
    CrossLe(v.num, Pow10(a), Pow10(b - 1), v.den);
  }

  /** Digit counts pin the logarithm down to two candidates, and one comparison picks. */
  lemma Log10RoundUpIsCeilLog10(v: Pos)
    ensures IsCeilLog10(v, Log10RoundUp(v))
  {
    DigitsLowerBound(v);
    DigitsUpperBound(v);
  }

  lemma LeTenPowMono(v: Pos, j: int, k: int)
    requires j <= k && Le(v, TenPow(j))
    ensures Le(v, TenPow(k))
  {
    var s := if j < 0 then -j else 0;
    LeTenPow(v, j, s);
    LeTenPow(v, k, s);
    Pow10Mono(j + s, k + s);
    MulMono(Pow10(j + s), Pow10(k + s), v.den);
  }

  /** No other exponent qualifies. */
  lemma CeilLog10Unique(v: Pos, j: int, k: int)
    requires IsCeilLog10(v, j) && IsCeilLog10(v, k)
    ensures j == k
  {
    if j < k {
      LeTenPowMono(v, j, k - 1);
    } else if k < j {
      LeTenPowMono(v, k, j - 1);
    }
  }

  /** k is the exponent of the largest power of ten that is not above v. */
  ghost predicate IsFloorLog10(v: Pos, k: int) {
    Le(TenPow(k), v) && Lt(v, TenPow(k + 1))
  }

  lemma {:induction false} TenPowInjective(j: int, k: int)
    requires Eq(TenPow(j), TenPow(k))
    ensures j == k
  {
    hide TenPow;
    TenPowLess(j - 1);
    TenPowLess(k - 1);
    LtLeTrans(TenPow(j - 1), TenPow(j), TenPow(k));
    CeilLog10Unique(TenPow(k), j, k);
  }

  lemma TenPowLess(j: int)
    ensures Lt(TenPow(j), TenPow(j + 1))
  {
    var s := if j < 0 then -j else 0;
    LeTenPow(TenPow(j + 1), j, s);
    Pow10Less(j + s, j + s + 1);
    if 0 <= j {
      assert s == 0 && Pow10(0) == 1;
    } else {
      if j + 1 < 0 {
        Pow10Add(-j - 1, 1);
      }
      assert Pow10(1) == 10 * Pow10(0) && Pow10(0) == 1;
    }
  }

  /** The rounded-up logarithm is the exponent of the largest power not above the value exactly for powers of ten. */
  lemma RoundUpIsFloorIffPowerOfTen(v: Pos)
    ensures IsFloorLog10(v, Log10RoundUp(v)) <==> exists j :: Eq(v, TenPow(j))
  {
    hide Log10RoundUp, TenPow;
    var k := Log10RoundUp(v);
    Log10RoundUpIsCeilLog10(v);
    TenPowLess(k);
    if IsFloorLog10(v, k) {
      assert Eq(v, TenPow(k));
    }
    if exists j :: Eq(v, TenPow(j)) {
      var j :| Eq(v, TenPow(j));
      TenPowLess(j - 1);
      LtLeTrans(TenPow(j - 1), TenPow(j), v);
      CeilLog10Unique(v, j, k);
      LeLtTrans(v, TenPow(k), TenPow(k + 1));
    }
  }

  /** For two the code gives 1, while the largest power of ten not above it is 10^0. */
  lemma RoundUpOfTwo()
    ensures Log10RoundUp(FromInt(2)) == 1 && IsFloorLog10(FromInt(2), 0) && !IsFloorLog10(FromInt(2), 1)
  {
    assert Pow10(1) == 10 * Pow10(0) && Pow10(0) == 1;
  }

  lemma CeilLog10SameValue(v: Pos, w: Pos, k: int)
    requires Eq(v, w) && IsCeilLog10(v, k)
    ensures IsCeilLog10(w, k)
  {
    LtLeTrans(TenPow(k - 1), v, w);
    LeTrans(w, v, TenPow(k));
  }

  /** Multiplying by 10^n moves the logarithm by n. */
  lemma CeilLog10Shift(v: Pos, w: Pos, n: nat, k: int)
    requires w.num * v.den == v.num * Pow10(n) * w.den
    requires IsCeilLog10(v, k)
    ensures IsCeilLog10(w, k + n)
  {
    ShiftLe(v, w, n, k);
    ShiftLe(v, w, n, k - 1);
  }

  lemma ShiftLe(v: Pos, w: Pos, n: nat, k: int)
    requires w.num * v.den == v.num * Pow10(n) * w.den
    ensures Le(w, TenPow(k + n)) <==> Le(v, TenPow(k))
  {
    var s := if k < 0 then -k else 0;
    LeTenPow(v, k, s + n);
    LeTenPow(w, k + n, s);
    Pow10Add(s, n);
    ShiftInequality(w.num, w.den, v.num, v.den, Pow10(n), Pow10(s), Pow10(k + n + s));
  }

  /** Two integer inequalities that agree once each is scaled by the other's denominator. */
  lemma ShiftInequality(wn: int, wd: int, vn: int, vd: int, t: int, p: int, q: int)
    requires 0 < wd && 0 < vd && wn * vd == vn * t * wd
    ensures wn * p <= q * wd <==> vn * (p * t) <= q * vd
  {
    ScaleLe(wn * p, q * wd, vd);
    ScaleLe(vn * (p * t), q * vd, wd);
    assert wn * p * vd == (wn * vd) * p;
    assert vn * (p * t) * wd == (vn * t * wd) * p by {
      assert vn * (p * t) == (vn * t) * p;
      assert (vn * t) * p * wd == (vn * t) * wd * p;
    }
    assert q * wd * vd == q * vd * wd;
  }

  // ----- price tick -----

  /** Quotient of two fractions rounded to an integer, and what is left over. */
  function QuoWithIntRemainder(x: Pos, y: Pos): (int, int) {
    var num, den := x.num * y.den, x.den * y.num;
    assert 0 < num && 0 < den;
    var q := Quo(num, den);
    (q, num - q * den)
  }

  function ComputePriceTick(baseURA: nat, quoteURA: nat, priceTickExponent: int): (Pos, int)
    requires 0 < baseURA && 0 < quoteURA
  {
    var exponent := priceTickExponent + Log10RoundUp(Reduced(quoteURA, baseURA));
    (TenPow(exponent), exponent)
  }

  predicate IsPriceTickValid(price: Pos, priceTick: Pos) {
    QuoWithIntRemainder(price, priceTick).1 == 0
  }

  ghost predicate IsMultipleOf(x: Pos, y: Pos, n: nat) {
    x.num * y.den == n * (x.den * y.num)
  }

  /** A price passes exactly when it is a whole number of ticks. */
  lemma PriceTickValidIffMultiple(price: Pos, tick: Pos)
    ensures IsPriceTickValid(price, tick) <==> exists n: nat :: IsMultipleOf(price, tick, n)
  {
    var num, den := price.num * tick.den, price.den * tick.num;
    assert 0 < num && 0 < den;
    if IsPriceTickValid(price, tick) {
      assert IsMultipleOf(price, tick, num / den);
    }
    if exists n: nat :: IsMultipleOf(price, tick, n) {
      var n: nat :| IsMultipleOf(price, tick, n);
      DivUnique(num, den, n, 0);
    }
  }

  /**
   The tick exponent is the parameter plus ceil(log10(quote / base)), and scaling both
   reference amounts by the same decimal factor does not change it.
   */
  lemma PriceTickFormula(base: nat, quote: nat, e: int, scale: nat)
    requires 0 < base && 0 < quote && 0 < scale
    ensures IsCeilLog10(Rat(quote, base), ComputePriceTick(base, quote, e).1 - e)
    ensures 0 < base * scale && 0 < quote * scale
    ensures ComputePriceTick(base * scale, quote * scale, e) == ComputePriceTick(base, quote, e)
  {
    ReducedCeilLog10(quote, base);
    SameValueScaled(base, quote, scale);
    ReducedCeilLog10(quote * scale, base * scale);
    var k := Log10RoundUp(Reduced(quote * scale, base * scale));
    CeilLog10SameValue(Rat(quote * scale, base * scale), Rat(quote, base), k);
    CeilLog10Unique(Rat(quote, base), Log10RoundUp(Reduced(quote, base)), k);
  }

  lemma SameValueScaled(base: nat, quote: nat, scale: nat)
    requires 0 < base && 0 < quote && 0 < scale
    ensures 0 < base * scale && 0 < quote * scale
    ensures Eq(Rat(quote * scale, base * scale), Rat(quote, base))
  {
    assert quote * scale * base == quote * (scale * base);
  }

  lemma ReducedCeilLog10(n: nat, d: nat)
    requires 0 < n && 0 < d
    ensures IsCeilLog10(Rat(n, d), Log10RoundUp(Reduced(n, d)))
  {
    var v := Reduced(n, d);
    Log10RoundUpIsCeilLog10(v);
    CeilLog10SameValue(v, Rat(n, d), Log10RoundUp(v));
  }

  // ----- quantity step -----

  /** Fractional digits of a fixed-point decimal amount. */
  const LEGACY_PRECISION: nat := 18

  /** Arithmetic on 32-bit signed integers wraps around. */
  function WrapInt32(n: int): int {
    (n + 0x8000_0000) % 0x1_0000_0000 - 0x8000_0000
  }

  function ComputeQuantityStep(baseURA: nat, quantityStepExponent: int): (step: (nat, int))
    requires 0 < baseURA
    ensures 0 < step.0
  {
    var e := quantityStepExponent + Log10RoundUp(FromInt(baseURA));
    var exponent := if e < 0 then 0 else e;
    (Pow10(exponent), exponent)
  }

  /** The step used to validate an order; `scaledURA` is the amount times 10^18. */
  function OrderQuantityStep(scaledURA: nat, quantityStepExponent: int): (nat, int)
    requires 0 < scaledURA
  {
    ComputeQuantityStep(scaledURA, WrapInt32(quantityStepExponent - LEGACY_PRECISION))
  }

  predicate IsQuantityStepValid(quantity: int, step: nat)
    requires 0 < step
  {
    quantity - Quo(quantity, step) * step == 0
  }

  /**
   The exponent is max(0, param + ceil(log10(amount))) for the unscaled amount, the 10^18
   scaling cancelling out, if and only if the subtraction does not wrap around 32 bits.
   */
  lemma QuantityStepFormula(scaledURA: nat, param: int, k: int)
    requires 0 < scaledURA && -0x8000_0000 <= param < 0x8000_0000
    requires IsCeilLog10(Rat(scaledURA, Pow10(LEGACY_PRECISION)), k)
    ensures OrderQuantityStep(scaledURA, param).1 == (if param + k < 0 then 0 else param + k)
            <==> -0x8000_0000 + LEGACY_PRECISION <= param
  {
    ShiftedLog(scaledURA, LEGACY_PRECISION, k);
    StepExponent(scaledURA, param, k);
  }

  /** The step is the power of ten of its exponent, with the exponent spelled out whether or not the subtraction wraps. */
  lemma QuantityStepValue(scaledURA: nat, param: int, k: int)
    requires 0 < scaledURA && -0x8000_0000 <= param < 0x8000_0000
    requires IsCeilLog10(Rat(scaledURA, Pow10(LEGACY_PRECISION)), k)
    ensures var e := param + k + if param < -0x8000_0000 + 18 then 0x1_0000_0000 else 0;
            OrderQuantityStep(scaledURA, param) == if e < 0 then (1, 0) else (Pow10(e), e)
  {
    hide Log10RoundUp, IsCeilLog10, Pow10, WrapInt32;
    ShiftedLog(scaledURA, LEGACY_PRECISION, k);
    WrappedOnce(param);
    PowerZero();
  }

  lemma WrappedOnce(param: int)
    requires -0x8000_0000 <= param < 0x8000_0000
    ensures WrapInt32(param - 18) == param - 18 + if param < -0x8000_0000 + 18 then 0x1_0000_0000 else 0
  {
  }

  lemma PowerZero()
    ensures Pow10(0) == 1
  {
  }

  /** The quantity check accepts exactly the multiples of the step. */
  lemma QuantityStepValidIffMultiple(quantity: nat, step: nat)
    requires 0 < step
    ensures IsQuantityStepValid(quantity, step) <==> quantity % step == 0
  {
  }

  /** The price check accepts exactly the multiples of a power of ten. */
  lemma PriceTickValidIffDivides(p: Pos, e: int)
    ensures IsPriceTickValid(p, TenPow(e)) <==>
              if 0 <= e then p.num % (p.den * Pow10(e)) == 0 else (p.num * Pow10(-e)) % p.den == 0
  {
    var t := TenPow(e);
    var num, den := p.num * t.den, p.den * t.num;
    assert 0 < num && 0 < den;
    RemainderIsMod(num, den);
  }

  lemma RemainderIsMod(num: nat, den: nat)
    requires 0 < den
    ensures num - Quo(num, den) * den == num % den
  {
  }

  /**
   The least exponent there is, which validation accepts, with a reference amount of one: the
   formula gives the step exponent 0, the code 2^31.
   */
  lemma QuantityStepWraps(scaledURA: nat)
    requires scaledURA == Pow10(LEGACY_PRECISION)
    ensures 0 < scaledURA && IsCeilLog10(Rat(scaledURA, Pow10(LEGACY_PRECISION)), 0)
    ensures OrderQuantityStep(scaledURA, -0x8000_0000).1 == 0x8000_0000
  {
    hide Pow10;
    OneLog(scaledURA);
    ShiftedLog(scaledURA, LEGACY_PRECISION, 0);
  }

  lemma OneLog(n: nat)
    requires 0 < n
    ensures IsCeilLog10(Rat(n, n), 0)
  {
    assert Pow10(1) == 10 * Pow10(0) && Pow10(0) == 1;
  }

  lemma StepExponent(n: nat, param: int, k: int)
    requires 0 < n && -0x8000_0000 <= param < 0x8000_0000
    requires Log10RoundUp(FromInt(n)) == k + LEGACY_PRECISION
    ensures OrderQuantityStep(n, param).1 == (if param + k < 0 then 0 else param + k)
            <==> -0x8000_0000 + LEGACY_PRECISION <= param
  {
    assert 0 <= Log10RoundUp(FromInt(n));
  }

  lemma ShiftedLog(n: nat, precision: nat, k: int)
    requires 0 < n && IsCeilLog10(Rat(n, Pow10(precision)), k)
    ensures Log10RoundUp(FromInt(n)) == k + precision
  {
    var w := FromInt(n);
    CeilLog10Shift(Rat(n, Pow10(precision)), w, precision, k);
    Log10RoundUpIsCeilLog10(w);
    CeilLog10Unique(w, Log10RoundUp(w), k + precision);
  }
}
