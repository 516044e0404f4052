/**
 Decimal text of unsigned integers, as printed and parsed by `strconv`.
 */
module Decimal {
  import opened Arithmetic
  import opened Bytes
  import opened Ticks

  predicate IsDigit(c: char) {
    '0' <= c <= '9'
  }

  ghost predicate AllDigits(s: string) {
    forall i | 0 <= i < |s| :: IsDigit(s[i])
  }

  function DigitValue(c: char): nat
    requires IsDigit(c)
  {
    (c - '0') as nat
  }

  function DigitChar(d: nat): (c: char)
    requires d < 10
    ensures IsDigit(c) && DigitValue(c) == d
  {
    '0' + d as char
  }

  function Format(n: nat): string {
    if n < 10 then [DigitChar(n)] else Format(n / 10) + [DigitChar(n % 10)]
  }

  /** The number a digit string denotes. */
  function Value(s: string): nat
    requires AllDigits(s)
  {
    if |s| == 0 then 0 else 10 * Value(s[..|s| - 1]) + DigitValue(s[|s| - 1])
  }

  lemma {:induction false} FormatFacts(n: nat)
    ensures AllDigits(Format(n)) && |Format(n)| == DecimalLen(n)
    ensures Value(Format(n)) == n
    ensures Format(n)[|Format(n)| - 1] == DigitChar(n % 10)
    ensures 0 < n ==> Format(n)[0] != '0'
  {
    var s := Format(n);
    if n < 10 {
      assert Value(s[..0]) == 0;
    } else {
      FormatFacts(n / 10);
      assert s[..|s| - 1] == Format(n / 10);
    }
  }

  /** A digit string without a leading zero is the printed form of its value. */
  lemma {:induction false} FormatValue(s: string)
    requires 0 < |s| && AllDigits(s) && s[0] != '0'
    ensures 0 < Value(s) && Format(Value(s)) == s
  {
    var last := s[|s| - 1];
    if |s| == 1 {
      assert Value(s[..0]) == 0;
    } else {
      FormatValue(s[..|s| - 1]);
      assert Value(s) / 10 == Value(s[..|s| - 1]) && Value(s) % 10 == DigitValue(last);
      assert s == s[..|s| - 1] + [last];
    }
  }

  function Zeros(k: nat): string {
    seq(k, _ => '0')
  }

  lemma TenTimes(v: nat, p: nat)
    ensures 10 * (v * p) == v * (10 * p)
  {
  }

  /** Appending zeros multiplies by a power of ten. */
  lemma {:induction false} ValueZeros(s: string, k: nat)
    requires AllDigits(s)
    ensures AllDigits(s + Zeros(k)) && Value(s + Zeros(k)) == Value(s) * Pow10(k)
  {
    if k == 0 {
      assert s + Zeros(0) == s;
    } else {
      ValueZeros(s, k - 1);
      var t := s + Zeros(k);
      assert t[..|t| - 1] == s + Zeros(k - 1) && t[|t| - 1] == '0';
      TenTimes(Value(s), Pow10(k - 1));
    }
  }

  /** Cuts the zeros off the right end. */
  function TrimZeros(s: string): string {
    if |s| != 0 && s[|s| - 1] == '0' then TrimZeros(s[..|s| - 1]) else s
  }

  lemma {:induction false} TrimAppendedZeros(s: string, k: nat)
    requires 0 < |s| && s[|s| - 1] != '0'
    ensures TrimZeros(s + Zeros(k)) == s
  {
    if k == 0 {
      assert s + Zeros(0) == s;
    } else {
      var t := s + Zeros(k);
      assert t[..|t| - 1] == s + Zeros(k - 1);
      TrimAppendedZeros(s, k - 1);
    }
  }

  /** `strconv.ParseUint` with base 10 and 64 bits. */
  function ParseUint64(s: string): Option<nat> {
    if |s| == 0 || exists i | 0 <= i < |s| :: !IsDigit(s[i]) then None
    else if Value(s) > MAX_UINT64 then None
    else Some(Value(s))
  }

  lemma {:induction false} ValueBound(s: string)
    requires AllDigits(s)
    ensures Value(s) < Pow10(|s|)
  {
    if |s| != 0 {
      ValueBound(s[..|s| - 1]);
    }
  }
}
