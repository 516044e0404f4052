/**
 Exact fractions as `big.Rat` keeps them: a positive denominator and, when built
 by `Reduced`, lowest terms (pkg/math/big).
 */
module Rational {
  import opened Arithmetic

  datatype Rat = Rat(num: int, den: int)

  type Frac = r: Rat | 0 < r.den witness Rat(0, 1)

  /** A fraction above zero: every price is one. */
  type Pos = r: Rat | 0 < r.num && 0 < r.den witness Rat(1, 1)

  predicate Le(x: Frac, y: Frac) {
    x.num * y.den <= y.num * x.den
  }

  predicate Lt(x: Frac, y: Frac) {
    !Le(y, x)
  }

  predicate Eq(x: Frac, y: Frac) {
    x.num * y.den == y.num * x.den
  }

  ghost predicate Lowest(x: Pos) {
    Gcd(x.num, x.den) == 1
  }

  function Reciprocal(x: Pos): Pos {
    Rat(x.den, x.num)
  }

  function FromInt(n: int): Frac {
    Rat(n, 1)
  }

  function Min(x: Frac, y: Frac): Frac {
    if Lt(x, y) then x else y
  }

  /** The fraction n/d in lowest terms. */
  function Reduced(n: nat, d: nat): (r: Frac)
    requires 0 < d
    ensures 0 <= r.num && (0 < n ==> 0 < r.num)
    ensures r.num * d == n * r.den
  {
    var g := Gcd(n, d);
    GcdDivides(n, d);
    var a, b := n / g, d / g;
    assert n == a * g && d == b * g;
    assert a * (b * g) == (a * g) * b;
    assert 0 < b by { if b <= 0 { MulMono(b, 0, g); } }
    assert 0 <= a by { if a < 0 { MulMono(a, -1, g); } }
    Rat(a, b)
  }

  function Mul(x: Frac, y: Frac): Frac
    requires 0 <= x.num && 0 <= y.num
  {
    assert 0 < x.den * y.den && 0 <= x.num * y.num;
    Reduced(x.num * y.num, x.den * y.den)
  }

  /** Division of integers rounding toward zero, as `big.Int.Quo` does. */
  function Quo(x: int, y: int): int
    requires 0 < y
  {
    if 0 <= x then x / y else -((-x) / y)
  }

  // ----- order -----

  lemma CancelLe(d: int, x: int, y: int)
    requires 0 < d && d * x <= d * y
    ensures x <= y
  {
    if y < x {
      assert d * x == d * (x - y) + d * y;
      MulMono(1, x - y, d);
    }
  }

  lemma LeTrans(x: Frac, y: Frac, z: Frac)
    requires Le(x, y) && Le(y, z)
    ensures Le(x, z)
  {
    MulMono(x.num * y.den, y.num * x.den, z.den);
    MulMono(y.num * z.den, z.num * y.den, x.den);
    assert x.num * y.den * z.den == y.den * (x.num * z.den);
    assert y.num * x.den * z.den == y.num * z.den * x.den;
    assert z.num * y.den * x.den == y.den * (z.num * x.den);
    CancelLe(y.den, x.num * z.den, z.num * x.den);
  }

  lemma LtLeTrans(x: Frac, y: Frac, z: Frac)
    requires Lt(x, y) && Le(y, z)
    ensures Lt(x, z)
  {
    if Le(z, x) {
      LeTrans(y, z, x);
    }
  }

  lemma LeLtTrans(x: Frac, y: Frac, z: Frac)
    requires Le(x, y) && Lt(y, z)
    ensures Lt(x, z)
  {
    if Le(z, x) {
      LeTrans(z, x, y);
    }
  }

  lemma EqTrans(x: Frac, y: Frac, z: Frac)
    requires Eq(x, y) && Eq(y, z)
    ensures Eq(x, z)
  {
    LeTrans(x, y, z);
    LeTrans(z, y, x);
  }

  /** Taking reciprocals turns the order round. */
  lemma ReciprocalFlips(x: Pos, y: Pos)
    ensures Le(Reciprocal(x), Reciprocal(y)) <==> Le(y, x)
    ensures Le(x, Reciprocal(y)) <==> Le(y, Reciprocal(x))
  {
  }

  lemma FactorOut(a: int, b: int, x: int, y: int, g: int)
    ensures (a * g) * x + (b * g) * y == (a * x + b * y) * g
  {
    assert (a * g) * x == (a * x) * g;
    assert (b * g) * y == (b * y) * g;
  }

  /** A combination equal to one leaves no common factor. */
  lemma CoprimeFromBezout(a: nat, b: nat, x: int, y: int)
    requires 0 < a && 0 < b && a * x + b * y == 1
    ensures Gcd(a, b) == 1
  {
    var h := Gcd(a, b);
    GcdDivides(a, b);
    FactorOut(a / h, b / h, x, y, h);
    UnitFactor(a / h * x + b / h * y, h);
  }

  lemma ReducedLowest(n: nat, d: nat)
    requires 0 < n && 0 < d
    ensures Lowest(Reduced(n, d))
  {
    var g := Gcd(n, d);
    GcdDivides(n, d);
    var r := Reduced(n, d);
    var x, y := Bezout(n, d);
    FactorOut(r.num, r.den, x, y, g);
    var s := r.num * x + r.den * y;
    assert g * s == g * 1;
    CancelLe(g, s, 1);
    CancelLe(g, 1, s);
    CoprimeFromBezout(r.num, r.den, x, y);
  }

  lemma UnitFactor(k: int, h: nat)
    requires k * h == 1
    ensures h == 1
  {
    if k <= 0 { MulMono(k, 0, h); } else { MulMono(1, k, h); }
  }

  /** The integer part does not depend on the representation. */
  lemma ReducedFloor(n: nat, d: nat)
    requires 0 < d
    ensures var r := Reduced(n, d); r.num / r.den == n / d
  {
    var r := Reduced(n, d);
    var g := Gcd(n, d);
    GcdDivides(n, d);
    assert n == r.num * g && d == r.den * g;
    DivCancel(r.num, r.den, g);
  }
}
