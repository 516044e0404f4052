/**
 The order price `num * 10^exp` (x/dex/types/price.go): its text form, its exact
 value, and the bytes whose order is the order of the values.
 */
module Price {
  import opened Arithmetic
  import opened Rational
  import opened Ticks
  import opened Bytes
  import opened Decimal

  datatype Price = Price(exp: int, num: nat)

  const MAX_NUM_LEN: nat := 19
  const MIN_EXP := -100
  const MAX_EXP := 100

  /** The values the text form can express, each in exactly one way. */
  predicate Canonical(p: Price) {
    && 0 < p.num && p.num % 10 != 0 && DecimalLen(p.num) <= MAX_NUM_LEN
    && MIN_EXP <= p.exp <= MAX_EXP
  }

  /** A canonical price has up to 19 digits, none of them a zero at the end, and an exponent from -100 to 100. */
  lemma CanonicalIff(p: Price)
    ensures Canonical(p) <==> 0 < p.num < Pow10(19) && p.num % 10 != 0 && -100 <= p.exp <= 100
  {
    hide Pow10, DecimalLen;
    if 0 < p.num {
      DecimalLenBounds(p.num);
      if DecimalLen(p.num) <= 19 {
        Pow10Mono(DecimalLen(p.num), 19);
      } else {
        Pow10Mono(19, DecimalLen(p.num) - 1);
      }
    }
  }

  type CanonicalPrice = p: Price | Canonical(p) witness Price(0, 1)

  // ----- text -----

  predicate IsNumPart(s: string) {
    && 0 < |s| && s[0] != '0' && s[|s| - 1] != '0'
    && forall i | 0 <= i < |s| :: IsDigit(s[i])
  }

  predicate IsUnsignedExp(s: string) {
    0 < |s| && s[0] != '0' && forall i | 0 <= i < |s| :: IsDigit(s[i])
  }

  /** Everything before the first 'e', and what follows it. */
  function SplitAtE(s: string): (string, Option<string>) {
    if |s| == 0 then ("", None)
    else if s[0] == 'e' then ("", Some(s[1..]))
    else var (head, tail) := SplitAtE(s[1..]); ([s[0]] + head, tail)
  }

  /** `strconv.ParseInt` on an exponent part, before its range checks. */
  function ExpValue(s: string): Option<int> {
    if IsUnsignedExp(s) then Some(Value(s))
    else if 0 < |s| && s[0] == '-' && IsUnsignedExp(s[1..]) then Some(0 - Value(s[1..]))
    else None
  }

  function NewPriceFromString(str: string): Option<Price> {
    var (numPart, expPart) := SplitAtE(str);
    if !IsNumPart(numPart) || |numPart| > MAX_NUM_LEN then None
    else
      var num := Value(numPart);
      if expPart == None then Some(Price(0, num))
      else
        match ExpValue(expPart.value)
        case None => None
        case Some(exp) => if MIN_EXP <= exp <= MAX_EXP then Some(Price(exp, num)) else None
  }

  function Itoa(n: int): string {
    if n < 0 then "-" + Format(-n) else Format(n)
  }

  function ToString(p: Price): string {
    if p.exp == 0 then Format(p.num) else Format(p.num) + "e" + Itoa(p.exp)
  }

  lemma {:induction false} SplitJoined(head: string, tail: string)
    requires forall i | 0 <= i < |head| :: head[i] != 'e'
    ensures SplitAtE(head) == (head, None)
    ensures SplitAtE(head + "e" + tail) == (head, Some(tail))
  {
    var s := head + "e" + tail;
    if |head| == 0 {
      assert s[1..] == tail;
    } else {
      SplitJoined(head[1..], tail);
      assert s[1..] == head[1..] + "e" + tail;
      assert head == [head[0]] + head[1..];
    }
  }

  lemma {:induction false} SplitParts(s: string)
    ensures var (head, tail) := SplitAtE(s);
            s == if tail == None then head else head + "e" + tail.value
  {
    if |s| != 0 && s[0] != 'e' {
      SplitParts(s[1..]);
      var (head, tail) := SplitAtE(s[1..]);
      assert s == [s[0]] + s[1..];
      if tail.Some? {
        assert [s[0]] + (head + "e" + tail.value) == [s[0]] + head + "e" + tail.value;
      }
    } else if |s| != 0 {
      assert s == "" + "e" + s[1..];
    }
  }

  lemma ExpRoundTrip(n: int)
    requires n != 0
    ensures ExpValue(Itoa(n)) == Some(n)
  {
    hide Format, Value;
    if n < 0 {
      FormatFacts(-n);
      assert Itoa(n)[1..] == Format(-n);
    } else {
      FormatFacts(n);
    }
  }

  lemma ExpTextUnique(s: string)
    requires ExpValue(s).Some?
    ensures ExpValue(s).value != 0 && Itoa(ExpValue(s).value) == s
  {
    if IsUnsignedExp(s) {
      FormatValue(s);
    } else {
      FormatValue(s[1..]);
      assert s == "-" + s[1..];
    }
  }

  lemma NumPartFacts(num: nat)
    requires 0 < num && num % 10 != 0
    ensures IsNumPart(Format(num)) && Value(Format(num)) == num
  {
    FormatFacts(num);
  }

  lemma ParseParts(str: string, numPart: string, expPart: Option<string>)
    requires SplitAtE(str) == (numPart, expPart) && IsNumPart(numPart) && |numPart| <= MAX_NUM_LEN
    requires expPart == None || ExpValue(expPart.value).Some?
    ensures var exp := if expPart == None then 0 else ExpValue(expPart.value).value;
            NewPriceFromString(str) ==
            if MIN_EXP <= exp <= MAX_EXP then Some(Price(exp, Value(numPart))) else None
  {
  }

  /** Printing a canonical price and parsing it gives the price back. */
  lemma TextRoundTrip(p: CanonicalPrice)
    ensures NewPriceFromString(ToString(p)) == Some(p)
  {
    FormatFacts(p.num);
    NumPartFacts(p.num);
    var num := Format(p.num);
    if p.exp == 0 {
      SplitJoined(num, "");
      ParseParts(num, num, None);
    } else {
      var exp := Itoa(p.exp);
      ExpRoundTrip(p.exp);
      SplitJoined(num, exp);
      ParseParts(num + "e" + exp, num, Some(exp));
    }
  }

  lemma NumTextUnique(s: string)
    requires IsNumPart(s)
    ensures Format(Value(s)) == s && 0 < Value(s) && Value(s) % 10 != 0 && DecimalLen(Value(s)) == |s|
  {
    FormatValue(s);
    FormatFacts(Value(s));
  }

  /** Every accepted text is the printed form of a canonical price: one text per price. */
  lemma TextUnique(str: string)
    requires NewPriceFromString(str).Some?
    ensures var p := NewPriceFromString(str).value; Canonical(p) && ToString(p) == str
  {
    var (numPart, expPart) := SplitAtE(str);
    SplitParts(str);
    NumTextUnique(numPart);
    if expPart.Some? {
      ExpTextUnique(expPart.value);
    }
    ParseParts(str, numPart, expPart);
  }

  // ----- value -----

  function ToRat(p: Price): (r: Frac)
    ensures 0 < p.num ==> 0 < r.num
  {
    if 0 < p.exp then FromInt(p.num * Pow10(p.exp)) else Reduced(p.num, Pow10(-p.exp))
  }

  lemma ToRatLowest(p: Price)
    requires 0 < p.num
    ensures 0 < ToRat(p).num && Lowest(ToRat(p))
  {
    if 0 < p.exp {
      assert 0 < p.num * Pow10(p.exp);
      assert Gcd(1, p.num * Pow10(p.exp) % 1) == 1;
    } else {
      ReducedLowest(p.num, Pow10(-p.exp));
    }
  }

  /** The value times 10^shift, an integer. */
  ghost function Scaled(exp: int, num: nat, shift: nat): nat
    requires 0 <= exp + shift
  {
    num * Pow10(exp + shift)
  }

  lemma ToRatScaled(p: Price, shift: nat)
    requires 0 <= p.exp + shift
    ensures ToRat(p).num * Pow10(shift) == Scaled(p.exp, p.num, shift) * ToRat(p).den
  {
    var r := ToRat(p);
    if 0 < p.exp {
      Pow10Add(p.exp, shift);
      MulAssoc(p.num, Pow10(p.exp), Pow10(shift));
    } else {
      Pow10Add(-p.exp, p.exp + shift);
      ReducedScaled(r.num, r.den, p.num, Pow10(-p.exp), Pow10(p.exp + shift));
    }
  }

  lemma ReducedScaled(rn: int, rd: int, n: int, d: int, s: int)
    requires rn * d == n * rd
    ensures rn * (d * s) == n * s * rd
  {
    MulAssoc(rn, d, s);
    MulSwap(n, rd, s);
  }

  lemma CrossScaled(an: int, ad: int, bn: int, bd: int, a: int, b: int, s: int)
    requires 0 < ad && 0 < bd && 0 < s
    requires an * s == a * ad && bn * s == b * bd
    ensures an * bd <= bn * ad <==> a <= b
  {
    ScaleLe(an * bd, bn * ad, s);
    MulSwap(an, bd, s);
    MulSwap(bn, ad, s);
    var m := ad * bd;
    assert a * ad * bd == a * m by { MulAssoc(a, ad, bd); }
    assert b * bd * ad == b * m by { MulAssoc(b, bd, ad); }
    ScaleLe(a, b, m);
  }

  /** Prices compare as their scaled integer values do. */
  lemma ToRatOrder(p: Price, q: Price, shift: nat)
    requires 0 <= p.exp + shift && 0 <= q.exp + shift
    ensures Le(ToRat(p), ToRat(q)) <==> Scaled(p.exp, p.num, shift) <= Scaled(q.exp, q.num, shift)
  {
    ToRatScaled(p, shift);
    ToRatScaled(q, shift);
    var a, b := ToRat(p), ToRat(q);
    CrossScaled(a.num, a.den, b.num, b.den, Scaled(p.exp, p.num, shift), Scaled(q.exp, q.num, shift), Pow10(shift));
  }

  // ----- ordered bytes -----

  /** Arithmetic on 8-bit signed integers wraps around. */
  function WrapInt8(n: int): int {
    (n + 128) % 256 - 128
  }

  // ----- the reported price tick -----

  function NewPrice(num: nat, exp: int): Option<Price> {
    if exp < MIN_EXP || MAX_EXP < exp then None else Some(Price(exp, num))
  }

  /** The tick that the order-book query returns: its exponent is cut to 8 bits. */
  function ReportedPriceTick(exponent: int): Option<Price> {
    NewPrice(1, WrapInt8(exponent))
  }

  /**
   The reported tick is the tick orders are checked against exactly if the exponent is one a price
   may have; if anything is reported, exactly if the exponent fits in 8 bits.
   */
  lemma ReportedTickIsExactIff(base: nat, quote: nat, param: int)
    requires 0 < base && 0 < quote
    ensures var (tick, e) := ComputePriceTick(base, quote, param); var r := ReportedPriceTick(e);
            && ((r.Some? && Eq(ToRat(r.value), tick)) <==> MIN_EXP <= e <= MAX_EXP)
            && (r.Some? ==> (Eq(ToRat(r.value), tick) <==> -128 <= e < 128))
  {
    hide ToRat, TenPow, Eq, Log10RoundUp;
    var (tick, e) := ComputePriceTick(base, quote, param);
    PowerPrice(WrapInt8(e));
    if Eq(ToRat(Price(WrapInt8(e), 1)), tick) {
      EqSym(ToRat(Price(WrapInt8(e), 1)), TenPow(WrapInt8(e)));
      EqTrans(TenPow(WrapInt8(e)), ToRat(Price(WrapInt8(e), 1)), tick);
      TenPowInjective(WrapInt8(e), e);
    }
  }

  lemma EqSym(x: Frac, y: Frac)
    requires Eq(x, y)
    ensures Eq(y, x)
  {
  }

  /** The price 1eN is the N-th power of ten. */
  lemma PowerPrice(e: int)
    ensures Eq(ToRat(Price(e, 1)), TenPow(e))
  {
    assert Pow10(0) == 1;
  }

  // ----- padding -----

  /** Pads the number to 19 digits; no result for a longer one. */
  function Normalize(exp: int, num: nat): Option<(int, nat)> {
    var text := Format(num);
    if |text| > MAX_NUM_LEN then None
    else
      var offset := MAX_NUM_LEN - |text|;
      match ParseUint64(text + Zeros(offset))
      case None => None
      case Some(padded) => Some((WrapInt8(exp - offset), padded))
  }

  /** Cuts the padding off again; no result for zero. */
  function Denormalize(exp: int, num: nat): Option<(int, nat)> {
    var text := TrimZeros(Format(num));
    match ParseUint64(text)
    case None => None
    case Some(n) => Some((WrapInt8(exp + (MAX_NUM_LEN - |text|)), n))
  }

  function MarshalToOrderedBytes(p: Price): Option<bytes> {
    match Normalize(p.exp, p.num)
    case None => None
    case Some((exp, num)) => Some(AppendUint64(AppendInt8([], exp), num))
  }

  /** The price and the bytes that follow it. */
  function UnmarshalFromOrderedBytes(b: bytes): Option<(Price, bytes)> {
    match ReadInt8(b)
    case None => None
    case Some((exp, rest)) =>
      match ReadUint(rest, UINT64_SIZE)
      case None => None
      case Some((num, rest)) =>
        match Denormalize(exp, num)
        case None => None
        case Some((e, n)) => Some((Price(e, n), rest))
  }

  lemma PowersFit()
    ensures Pow10(MAX_NUM_LEN) <= MAX_UINT64
  {
    assert Pow10(4) == 10000;
    Pow10Add(4, 4);
    Pow10Add(8, 8);
    Pow10Add(16, 3);
  }

  lemma ParseDigits(s: string)
    requires 0 < |s| <= MAX_NUM_LEN && AllDigits(s)
    ensures ParseUint64(s) == Some(Value(s))
  {
    ValueBound(s);
    Pow10Mono(|s|, MAX_NUM_LEN);
    PowersFit();
  }

  /** How many zeros padding appends. */
  ghost function Offset(p: CanonicalPrice): nat {
    MAX_NUM_LEN - DecimalLen(p.num)
  }

  ghost function Padded(p: CanonicalPrice): nat {
    p.num * Pow10(Offset(p))
  }

  lemma PaddedText(p: CanonicalPrice)
    ensures Format(Padded(p)) == Format(p.num) + Zeros(Offset(p))
    ensures 0 < Padded(p) <= MAX_UINT64 && DecimalLen(Padded(p)) == MAX_NUM_LEN
    ensures ParseUint64(Format(p.num) + Zeros(Offset(p))) == Some(Padded(p))
  {
    FormatFacts(p.num);
    ValueZeros(Format(p.num), Offset(p));
    var text := Format(p.num) + Zeros(Offset(p));
    assert text[0] == Format(p.num)[0];
    ParseDigits(text);
    FormatValue(text);
    FormatFacts(Padded(p));
  }

  /** A normalized number has exactly 19 digits, and the exponent does not wrap. */
  lemma NormalizePads(p: CanonicalPrice)
    ensures Normalize(p.exp, p.num) == Some((p.exp - Offset(p), Padded(p)))
  {
    hide Padded, Format, ParseUint64, DecimalLen, Zeros;
    FormatFacts(p.num);
    PaddedText(p);
  }

  lemma DenormalizePadded(p: CanonicalPrice)
    ensures Denormalize(p.exp - Offset(p), Padded(p)) == Some((p.exp, p.num))
  {
    FormatFacts(p.num);
    PaddedText(p);
    TrimAppendedZeros(Format(p.num), Offset(p));
    ParseDigits(Format(p.num));
  }

  /** The encoding of a canonical price, spelled out. */
  lemma MarshalShape(p: CanonicalPrice)
    ensures -128 <= p.exp - Offset(p) < 128
    ensures MarshalToOrderedBytes(p)
         == Some([(p.exp - Offset(p) + 128) as byte] + BigEndian(Padded(p), UINT64_SIZE))
  {
    hide Normalize, Padded, BigEndian, DecimalLen, Pow10;
    NormalizePads(p);
    var e := (p.exp - Offset(p) + 128) as byte;
    assert [] + [e] == [e];
  }

  /** Decoding undoes encoding, whatever follows in the key. */
  lemma OrderedBytesRoundTrip(p: CanonicalPrice, rest: bytes)
    ensures MarshalToOrderedBytes(p).Some?
    ensures |MarshalToOrderedBytes(p).value| == 1 + UINT64_SIZE
    ensures UnmarshalFromOrderedBytes(MarshalToOrderedBytes(p).value + rest) == Some((p, rest))
  {
    hide BigEndian, MarshalToOrderedBytes, UnmarshalFromOrderedBytes, Denormalize, Padded, Offset, ReadUint, Format;
    MarshalShape(p);
    PaddedText(p);
    DenormalizePadded(p);
    var e, digits := (p.exp - Offset(p) + 128) as byte, BigEndian(Padded(p), UINT64_SIZE);
    ReadUint64Appended(Padded(p), rest);
    UnmarshalShape(e, digits + rest, Padded(p), rest);
    assert [e] + digits + rest == [e] + (digits + rest);
  }

  lemma UnmarshalShape(e: byte, tail: bytes, num: nat, rest: bytes)
    requires ReadUint(tail, UINT64_SIZE) == Some((num, rest))
    requires Denormalize(e as int - 128, num).Some?
    ensures var (exp, n) := Denormalize(e as int - 128, num).value;
            UnmarshalFromOrderedBytes([e] + tail) == Some((Price(exp, n), rest))
  {
    assert ([e] + tail)[1..] == tail;
  }

  lemma ScaledPadded(p: CanonicalPrice, shift: nat)
    requires MAX_NUM_LEN <= p.exp + shift
    ensures Scaled(p.exp - Offset(p), Padded(p), shift) == Scaled(p.exp, p.num, shift)
  {
    hide Pow10, DecimalLen;
    var rest := p.exp - Offset(p) + shift;
    Pow10Add(Offset(p), rest);
    MulAssoc(p.num, Pow10(Offset(p)), Pow10(rest));
  }

  /** With equally many digits, the larger exponent wins and equal exponents leave it to the number. */
  lemma ScaledOrder(e: int, m: nat, f: int, n: nat, shift: nat)
    requires 0 <= e + shift && 0 <= f + shift
    requires 0 < m && 0 < n && DecimalLen(m) == DecimalLen(n)
    ensures Scaled(e, m, shift) < Scaled(f, n, shift) <==> e < f || (e == f && m < n)
  {
    if e < f {
      ScaledSeparated(e, m, f, n, shift);
    } else if f < e {
      ScaledSeparated(f, n, e, m, shift);
    } else {
      ScaleLe(n, m, Pow10(e + shift));
    }
  }

  lemma ScaledSeparated(e: int, m: nat, f: int, n: nat, shift: nat)
    requires 0 <= e + shift && e < f
    requires 0 < m && 0 < n && DecimalLen(m) == DecimalLen(n)
    ensures Scaled(e, m, shift) < Scaled(f, n, shift)
  {
    DecimalLenBounds(m);
    DecimalLenBounds(n);
    Pow10Less(e + shift, f + shift);
    SeparatedProducts(m, n, Pow10(DecimalLen(m) - 1), Pow10(e + shift), Pow10(f + shift));
  }

  lemma SeparatedProducts(m: int, n: int, t: int, p: int, q: int)
    requires 0 < t && 0 < p && m < 10 * t && t <= n && 10 * p <= q
    ensures m * p < n * q
  {
    ScaleLe(10 * t, m, p);
    MulSwap(10, t, p);
    MulMono(10 * p, q, t);
    MulMono(t, n, q);
    assert q * t == t * q;
  }

  lemma PaddedOrder(p: CanonicalPrice, q: CanonicalPrice, shift: nat)
    requires MAX_NUM_LEN <= p.exp + shift && MAX_NUM_LEN <= q.exp + shift
    ensures Lt(ToRat(p), ToRat(q)) <==>
            (p.exp - Offset(p) < q.exp - Offset(q) ||
            (p.exp - Offset(p) == q.exp - Offset(q) && Padded(p) < Padded(q)))
  {
    ToRatOrder(q, p, shift);
    ScaledPadded(p, shift);
    ScaledPadded(q, shift);
    PaddedText(p);
    PaddedText(q);
    ScaledOrder(p.exp - Offset(p), Padded(p), q.exp - Offset(q), Padded(q), shift);
  }

  /** Lexicographic order of the bytes is the order of the prices as exact fractions. */
  lemma OrderedBytesOrder(p: CanonicalPrice, q: CanonicalPrice)
    ensures MarshalToOrderedBytes(p).Some? && MarshalToOrderedBytes(q).Some?
    ensures LexLess(MarshalToOrderedBytes(p).value, MarshalToOrderedBytes(q).value)
            <==> Lt(ToRat(p), ToRat(q))
  {
    MarshalShape(p);
    MarshalShape(q);
    PaddedText(p);
    PaddedText(q);
    PaddedOrder(p, q, 128);
    Uint64Order(Padded(p), Padded(q));
    var a, b := (p.exp - Offset(p) + 128) as byte, (q.exp - Offset(q) + 128) as byte;
    LexConcat([a], [b], BigEndian(Padded(p), UINT64_SIZE), BigEndian(Padded(q), UINT64_SIZE));
    LexSingleton(a, b);
  }

  lemma LexSingleton(a: byte, b: byte)
    ensures LexLess([a], [b]) <==> a < b
  {
    assert !LexLess([a][1..], [b][1..]);
  }

  /** Two canonical prices of equal value are the same price. */
  lemma EqualValueEqualPrice(p: CanonicalPrice, q: CanonicalPrice)
    requires Eq(ToRat(p), ToRat(q))
    ensures p == q
  {
    OrderedBytesOrder(p, q);
    OrderedBytesOrder(q, p);
    var a, b := MarshalToOrderedBytes(p).value, MarshalToOrderedBytes(q).value;
    if a != b {
      LexTotal(a, b);
    }
    OrderedBytesRoundTrip(p, []);
    OrderedBytesRoundTrip(q, []);
  }
}
