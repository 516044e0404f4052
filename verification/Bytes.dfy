/**
 Byte strings, their lexicographic order, and the order-preserving integer
 encodings of pkg/store/ordered_bytes.go.
 */
module Bytes {

  newtype byte = b: int | 0 <= b < 256

  type bytes = seq<byte>

  datatype Option<+T> = None | Some(value: T)

  // ----- lexicographic order -----

  /** The order in which a key-value store iterates its keys. */
  predicate LexLess(a: bytes, b: bytes) {
    |b| != 0 && (|a| == 0 || a[0] < b[0] || (a[0] == b[0] && LexLess(a[1..], b[1..])))
  }

  lemma {:induction false} LexIrreflexive(a: bytes)
    ensures !LexLess(a, a)
  {
    if |a| != 0 {
      LexIrreflexive(a[1..]);
    }
  }

  lemma {:induction false} LexTransitive(a: bytes, b: bytes, c: bytes)
    requires LexLess(a, b) && LexLess(b, c)
    ensures LexLess(a, c)
  {
    if |a| != 0 && a[0] == b[0] && b[0] == c[0] {
      LexTransitive(a[1..], b[1..], c[1..]);
    }
  }

  lemma {:induction false} LexTotal(a: bytes, b: bytes)
    requires a != b
    ensures LexLess(a, b) || LexLess(b, a)
  {
    if |a| != 0 && |b| != 0 && a[0] == b[0] {
      assert a == [a[0]] + a[1..] && b == [b[0]] + b[1..];
      LexTotal(a[1..], b[1..]);
    }
  }

  lemma LexAsymmetric(a: bytes, b: bytes)
    requires LexLess(a, b)
    ensures !LexLess(b, a) && a != b
  {
    LexIrreflexive(a);
    if LexLess(b, a) {
      LexTransitive(a, b, a);
    }
  }

  /** With heads of equal length, the heads decide first and the tails break ties. */
  lemma {:induction false} LexConcat(a: bytes, b: bytes, x: bytes, y: bytes)
    requires |a| == |b|
    ensures LexLess(a + x, b + y) <==> LexLess(a, b) || (a == b && LexLess(x, y))
  {
    if |a| == 0 {
      assert a + x == x && b + y == y;
    } else {
      assert (a + x)[1..] == a[1..] + x && (b + y)[1..] == b[1..] + y;
      assert a == [a[0]] + a[1..] && b == [b[0]] + b[1..];
      LexConcat(a[1..], b[1..], x, y);
    }
  }

  // ----- fixed-width big-endian integers -----

  function Pow256(n: nat): (p: nat)
    ensures 1 <= p
  {
    if n == 0 then 1 else 256 * Pow256(n - 1)
  }

  /** The n low-order bytes of v, most significant first. */
  function BigEndian(v: nat, n: nat): (s: bytes)
    ensures |s| == n
  {
    if n == 0 then [] else BigEndian(v / 256, n - 1) + [(v % 256) as byte]
  }

  function FromBigEndian(s: bytes): nat {
    if |s| == 0 then 0 else 256 * FromBigEndian(s[..|s| - 1]) + s[|s| - 1] as nat
  }

  /** Reading back gives the value, provided it fits the width. */
  lemma {:induction false} BigEndianRoundTrip(v: nat, n: nat)
    requires v < Pow256(n)
    ensures FromBigEndian(BigEndian(v, n)) == v
  {
    if n != 0 {
      BigEndianRoundTrip(v / 256, n - 1);
      var s := BigEndian(v, n);
      assert s[..n - 1] == BigEndian(v / 256, n - 1);
    }
  }

  /** Byte order is integer order. */
  lemma {:induction false} BigEndianOrder(v: nat, w: nat, n: nat)
    requires v < Pow256(n) && w < Pow256(n)
    ensures LexLess(BigEndian(v, n), BigEndian(w, n)) <==> v < w
  {
    if n != 0 {
      var a, b := BigEndian(v / 256, n - 1), BigEndian(w / 256, n - 1);
      LexConcat(a, b, [(v % 256) as byte], [(w % 256) as byte]);
      BigEndianOrder(v / 256, w / 256, n - 1);
      BigEndianRoundTrip(v / 256, n - 1);
      BigEndianRoundTrip(w / 256, n - 1);
    }
  }

  // ----- appending and reading -----

  const UINT32_SIZE: nat := 4
  const UINT64_SIZE: nat := 8
  const MAX_UINT32: nat := 0xFFFF_FFFF
  const MAX_UINT64: nat := 0xFFFF_FFFF_FFFF_FFFF

  lemma Widths()
    ensures Pow256(1) == 256
    ensures Pow256(UINT32_SIZE) == MAX_UINT32 + 1
    ensures Pow256(UINT64_SIZE) == MAX_UINT64 + 1
  {
    assert Pow256(2) == 0x1_0000;
    assert Pow256(4) == 0x1_0000_0000;
    assert Pow256(6) == 0x1_0000_0000_0000;
  }

  function AppendUint64(b: bytes, v: nat): bytes {
    b + BigEndian(v, UINT64_SIZE)
  }

  /** Signed bytes are shifted by 128 so that negative ones come first. */
  function AppendInt8(b: bytes, v: int): bytes
    requires -128 <= v < 128
  {
    b + [(v + 128) as byte]
  }

  function ReadUint(b: bytes, size: nat): Option<(nat, bytes)> {
    if |b| < size then None else Some((FromBigEndian(b[..size]), b[size..]))
  }

  function ReadInt8(b: bytes): Option<(int, bytes)> {
    if |b| < 1 then None else Some((b[0] as int - 128, b[1..]))
  }

  /** Reading what was appended returns the value and the bytes that followed it. */
  lemma ReadUintAppended(v: nat, size: nat, rest: bytes)
    requires v < Pow256(size)
    ensures ReadUint(BigEndian(v, size) + rest, size) == Some((v, rest))
  {
    BigEndianRoundTrip(v, size);
    var b := BigEndian(v, size) + rest;
    assert b[..size] == BigEndian(v, size) && b[size..] == rest;
  }

  lemma ReadUint64Appended(v: nat, rest: bytes)
    requires v <= MAX_UINT64
    ensures ReadUint(BigEndian(v, UINT64_SIZE) + rest, UINT64_SIZE) == Some((v, rest))
  {
    Widths();
    ReadUintAppended(v, UINT64_SIZE, rest);
  }

  lemma Uint64Order(v: nat, w: nat)
    requires v <= MAX_UINT64 && w <= MAX_UINT64
    ensures LexLess(BigEndian(v, UINT64_SIZE), BigEndian(w, UINT64_SIZE)) <==> v < w
    ensures BigEndian(v, UINT64_SIZE) == BigEndian(w, UINT64_SIZE) <==> v == w
  {
    Widths();
    BigEndianOrder(v, w, UINT64_SIZE);
    BigEndianRoundTrip(v, UINT64_SIZE);
    BigEndianRoundTrip(w, UINT64_SIZE);
  }

  lemma Uint32Order(v: nat, w: nat)
    requires v <= MAX_UINT32 && w <= MAX_UINT32
    ensures LexLess(BigEndian(v, UINT32_SIZE), BigEndian(w, UINT32_SIZE)) <==> v < w
    ensures BigEndian(v, UINT32_SIZE) == BigEndian(w, UINT32_SIZE) <==> v == w
  {
    Widths();
    BigEndianOrder(v, w, UINT32_SIZE);
    BigEndianRoundTrip(v, UINT32_SIZE);
    BigEndianRoundTrip(w, UINT32_SIZE);
  }
}
