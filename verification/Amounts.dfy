/**
 What an order locks and what it expects to receive (x/dex/types/order.go,
 pkg/math/big/int.go).
 */
module Amounts {
  import opened Arithmetic
  import opened Bytes
  import opened Rational
  import opened Price
  import opened Types

  /** Amounts are 256-bit: the first value that does not fit. */
  const INT_LIMIT: int := 0x1_0000000000000000_0000000000000000_0000000000000000_0000000000000000

  /** The product rounded toward zero, and the numerator left over. */
  function MulRatWithRemainder(x: int, y: Frac): (int, int) {
    var num := x * y.num;
    var intPart := Quo(num, y.den);
    (intPart, num - intPart * y.den)
  }

  function MulCeil(quantity: int, price: Price): Option<int> {
    var (balance, remainder) := MulRatWithRemainder(quantity, ToRat(price));
    var rounded := if remainder != 0 then balance + 1 else balance;
    if rounded >= INT_LIMIT || -rounded >= INT_LIMIT then None else Some(rounded)
  }

  /** What a limit order locks of the denom it spends. */
  function LockedAmount(side: Side, quantity: int, price: Price): Option<int> {
    if side.Buy? then MulCeil(quantity, price) else Some(quantity)
  }

  /** What a limit order expects of the denom it receives. */
  function ExpectedAmount(side: Side, quantity: int, price: Price): Option<int> {
    if side.Buy? then Some(quantity) else MulCeil(quantity, price)
  }

  /** q * p rounded up. */
  ghost function CeilMul(q: nat, p: Pos): nat {
    var c := (q * p.num + p.den - 1) / p.den;
    assert 0 <= c by { assert 0 <= q * p.num; DivLargest(q * p.num + p.den - 1, p.den, 0); }
    c
  }

  /** The rounded product is the least integer at or above the exact one. */
  lemma CeilMulLeast(q: nat, p: Pos, c: int)
    ensures CeilMul(q, p) <= c <==> q * p.num <= c * p.den
  {
    var x := q * p.num + p.den - 1;
    DivLargest(x, p.den, c + 1);
    assert (c + 1) * p.den == c * p.den + p.den;
  }

  lemma MulCeilIsCeiling(q: nat, price: Price)
    requires 0 < price.num
    ensures MulCeil(q, price) == if CeilMul(q, PriceOf(price)) < INT_LIMIT then Some(CeilMul(q, PriceOf(price)) as int) else None
  {
    var p := PriceOf(price);
    var x := q * p.num;
    assert 0 <= x;
    RoundUp(x, p.den);
    assert MulRatWithRemainder(q, p) == (x / p.den, x - x / p.den * p.den);
    assert 0 <= x / p.den by { DivLargest(x, p.den, 0); }
  }

  lemma RoundUp(x: nat, d: nat)
    requires 0 < d
    ensures (x + d - 1) / d == if x - x / d * d != 0 then x / d + 1 else x / d
  {
    var q, r := x / d, x % d;
    if r == 0 {
      DivUnique(x + d - 1, d, q, d - 1);
    } else {
      assert x + d - 1 == (q + 1) * d + (r - 1) by { assert (q + 1) * d == q * d + d; }
      DivUnique(x + d - 1, d, q + 1, r - 1);
    }
  }

  /** Filling n whole lots of den(p) takes exactly n * num(p) off the rounded-up amount. */
  lemma CeilMulLots(q: nat, p: Pos, n: nat)
    requires n * p.den <= q
    ensures CeilMul(q - n * p.den, p) == CeilMul(q, p) - n * p.num
  {
    var x := q * p.num + p.den - 1;
    var y := (q - n * p.den) * p.num + p.den - 1;
    LotsProduct(q, n, p.num, p.den);
    var k := n * p.num;
    assert y == x - k * p.den;
    DivUnique(y, p.den, x / p.den - k, x % p.den) by {
      assert (x / p.den - k) * p.den == x / p.den * p.den - k * p.den;
    }
  }

  lemma LotsProduct(q: int, n: int, num: int, den: int)
    ensures (q - n * den) * num == q * num - n * num * den
  {
    assert (q - n * den) * num == q * num - n * den * num;
    MulSwap(n, den, num);
  }

  lemma CeilMulMono(q: nat, r: nat, p: Pos)
    requires q <= r
    ensures CeilMul(q, p) <= CeilMul(r, p)
  {
    MulMono(q, r, p.num);
    DivMono(q * p.num + p.den - 1, r * p.num + p.den - 1, p.den);
  }

  lemma CeilMulPositive(q: nat, p: Pos)
    requires 0 < q
    ensures 0 < CeilMul(q, p)
  {
    CeilMulLeast(q, p, 0);
    MulMono(1, q, p.num);
  }
}
