/**
 Integer facts used by every layer: division, powers of ten, and the greatest
 common divisor that keeps fractions in lowest terms.
 */
module Arithmetic {

  // ----- division -----

  lemma MulMono(a: int, b: int, c: int)
    requires a <= b && 0 <= c
    ensures a * c <= b * c
  {
  }

  lemma MulAssoc(a: int, b: int, c: int)
    ensures a * b * c == a * (b * c)
  {
  }

  lemma MulSwap(a: int, b: int, c: int)
    ensures a * b * c == a * c * b
  {
  }

  /** A quotient is determined by its remainder lying in [0, d). */
  lemma DivUnique(a: int, d: int, q: int, r: int)
    requires 0 < d && a == q * d + r && 0 <= r < d
    ensures a / d == q && a % d == r
  {
    var q', r' := a / d, a % d;
    assert a == d * q' + r';
    if q' < q {
      assert (q - q') * d == q * d - q' * d;
      MulMono(1, q - q', d);
    } else if q < q' {
      assert (q' - q) * d == q' * d - q * d;
      MulMono(1, q' - q, d);
    }
  }

  /** Dividing twice is dividing by the product. */
  lemma DivDiv(a: nat, b: nat, c: nat)
    requires 0 < b && 0 < c
    ensures 0 < b * c && (a / b) / c == a / (b * c)
  {
    var q, r := a / b, a % b;
    var q2, r2 := q / c, q % c;
    assert a == (q2 * c + r2) * b + r;
    assert (q2 * c + r2) * b == q2 * (b * c) + r2 * b by {
      assert q2 * c * b == q2 * (b * c);
    }
    MulMono(r2, c - 1, b);
    assert (c - 1) * b == b * c - b;
    MulMono(0, r2, b);
    DivUnique(a, b * c, q2, r2 * b + r);
  }

  /** A common factor cancels from a quotient. */
  lemma DivCancel(a: nat, b: nat, c: nat)
    requires 0 < b && 0 < c
    ensures 0 < b * c && (a * c) / (b * c) == a / b
  {
    var q, r := a / b, a % b;
    assert a == q * b + r;
    assert a * c == q * (b * c) + r * c by {
      assert (q * b + r) * c == q * b * c + r * c;
    }
    MulMono(r + 1, b, c);
    DivUnique(a * c, b * c, q, r * c);
  }

  lemma DivMono(a: int, b: int, d: int)
    requires a <= b && 0 < d
    ensures a / d <= b / d
  {
    if b / d < a / d {
      MulMono(b / d + 1, a / d, d);
    }
  }

  /** a / d is the largest q with q * d <= a. */
  lemma DivLargest(a: int, d: int, q: int)
    requires 0 < d
    ensures q * d <= a <==> q <= a / d
  {
    if q <= a / d {
      MulMono(q, a / d, d);
    } else {
      MulMono(a / d + 1, q, d);
    }
  }

  // ----- powers of ten -----

  function Pow10(n: nat): (p: nat)
    ensures p >= 1
  {
    if n == 0 then 1 else 10 * Pow10(n - 1)
  }

  lemma {:induction false} Pow10Add(a: nat, b: nat)
    ensures Pow10(a + b) == Pow10(a) * Pow10(b)
  {
    if a != 0 {
      Pow10Add(a - 1, b);
      assert Pow10(a + b) == 10 * Pow10(a - 1 + b);
      MulAssoc(10, Pow10(a - 1), Pow10(b));
    }
  }

  lemma {:induction false} Pow10Less(a: nat, b: nat)
    requires a < b
    ensures 10 * Pow10(a) <= Pow10(b)
  {
    if a + 1 < b {
      Pow10Less(a, b - 1);
    }
  }

  lemma Pow10Mono(a: nat, b: nat)
    requires a <= b
    ensures Pow10(a) <= Pow10(b)
  {
    if a < b {
      Pow10Less(a, b);
    }
  }

  // ----- greatest common divisor -----

  predicate Divides(d: nat, n: nat)
    requires 0 < d
  {
    n % d == 0
  }

  function Gcd(a: nat, b: nat): (g: nat)
    requires 0 < a || 0 < b
    ensures 0 < g
    decreases b
  {
    if b == 0 then a else Gcd(b, a % b)
  }

  lemma DividesSum(d: nat, x: nat, y: nat, k: nat)
    requires 0 < d && Divides(d, x) && Divides(d, y)
    ensures Divides(d, x * k + y)
  {
    assert x == x / d * d && y == y / d * d;
    assert x * k + y == (x / d * k + y / d) * d by {
      assert x / d * d * k == x / d * k * d;
    }
    DivUnique(x * k + y, d, x / d * k + y / d, 0);
  }

  lemma {:induction false} GcdDivides(a: nat, b: nat)
    requires 0 < a || 0 < b
    ensures Divides(Gcd(a, b), a) && Divides(Gcd(a, b), b)
    decreases b
  {
    if b != 0 {
      GcdDivides(b, a % b);
      DividesSum(Gcd(a, b), b, a % b, a / b);
      assert a == b * (a / b) + a % b;
    }
  }

  /** Bezout's identity: the divisor is an integer combination of the two. */
  lemma {:induction false} Bezout(a: nat, b: nat) returns (x: int, y: int)
    requires 0 < a || 0 < b
    ensures a * x + b * y == Gcd(a, b)
    decreases b
  {
    if b == 0 {
      x, y := 1, 0;
    } else {
      var x', y' := Bezout(b, a % b);
      x, y := y', x' - a / b * y';
      BezoutStep(a, b, a / b, a % b, x', y');
    }
  }

  lemma BezoutStep(a: int, b: int, q: int, r: int, x: int, y: int)
    requires a == b * q + r
    ensures b * x + r * y == a * y + b * (x - q * y)
  {
    assert r * y == (a - b * q) * y == a * y - b * q * y;
    MulAssoc(b, q, y);
    assert b * (x - q * y) == b * x - b * (q * y);
  }

  /** The ring identity behind Euclid's lemma. */
  lemma CombineTimes(n: int, x: int, d: int, y: int, k: int, m: int)
    requires n * x + d * y == 1 && n * k == m * d
    ensures k == (m * x + y * k) * d
  {
    assert k * (n * x + d * y) == k * (n * x) + k * (d * y);
    assert k * (n * x) == (n * k) * x;
    assert (m * d) * x == (m * x) * d;
    assert k * (d * y) == (y * k) * d;
    assert (m * x + y * k) * d == (m * x) * d + (y * k) * d;
  }

  /** If d divides n * k and shares no factor with n, it divides k. */
  lemma EuclidsLemma(d: nat, n: nat, k: nat)
    requires 0 < d && Gcd(n, d) == 1 && Divides(d, n * k)
    ensures Divides(d, k)
  {
    var x, y := Bezout(n, d);
    var m := n * k / d;
    CombineTimes(n, x, d, y, k, m);
    DivUnique(k, d, m * x + y * k, 0);
  }
}
