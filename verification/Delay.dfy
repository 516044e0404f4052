/**
 Keys of delayed items (x/delay/types/keys.go) and the identifiers under which
 good-til cancellations are scheduled (x/dex/types/keys.go).
 */
module Delay {
  import opened Bytes
  import opened Decimal
  import opened SortedLists

  /** When an item is due, a Unix time or a block height, and its identifier. */
  datatype ItemKey = ItemKey(when: nat, id: bytes)

  /** No key for an empty identifier or a negative time. */
  function CreateItemKey(id: bytes, when: int): Option<ItemKey> {
    if id == [] || when < 0 then None else Some(ItemKey(when, id))
  }

  function EncodeItemKey(k: ItemKey): bytes {
    AppendUint64([], k.when) + k.id
  }

  function DecodeItemKey(key: bytes): Option<ItemKey> {
    if |key| < UINT64_SIZE + 1 then None
    else
      match ReadUint(key, UINT64_SIZE)
      case None => None
      case Some((when, id)) => Some(ItemKey(when, id))
  }

  lemma ItemKeyRoundTrip(k: ItemKey)
    requires k.when <= MAX_UINT64 && k.id != []
    ensures DecodeItemKey(EncodeItemKey(k)) == Some(k)
  {
    assert [] + BigEndian(k.when, UINT64_SIZE) == BigEndian(k.when, UINT64_SIZE);
    ReadUint64Appended(k.when, k.id);
  }

  /** The order in which the store iterates items. */
  predicate ItemLess(a: ItemKey, b: ItemKey) {
    LexLess(EncodeItemKey(a), EncodeItemKey(b))
  }

  /** Earlier items come first; identifiers break ties. */
  lemma ItemOrder(a: ItemKey, b: ItemKey)
    requires a.when <= MAX_UINT64 && b.when <= MAX_UINT64
    ensures ItemLess(a, b) <==> a.when < b.when || (a.when == b.when && LexLess(a.id, b.id))
  {
    hide BigEndian, LexLess;
    var x, y := BigEndian(a.when, UINT64_SIZE), BigEndian(b.when, UINT64_SIZE);
    assert [] + x == x && [] + y == y;
    Uint64Order(a.when, b.when);
    LexConcat(x, y, a.id, b.id);
  }

  ghost predicate ItemKeys(s: set<ItemKey>) {
    forall k | k in s :: k.when <= MAX_UINT64 && k.id != []
  }

  lemma ItemLessTotal(s: set<ItemKey>)
    requires ItemKeys(s)
    ensures StrictTotal(s, ItemLess)
  {
    hide LexLess, EncodeItemKey;
    forall a | a in s ensures !ItemLess(a, a) {
      LexIrreflexive(EncodeItemKey(a));
    }
    forall a, b | a in s && b in s && a != b ensures ItemLess(a, b) || ItemLess(b, a) {
      ItemKeyRoundTrip(a);
      ItemKeyRoundTrip(b);
      LexTotal(EncodeItemKey(a), EncodeItemKey(b));
    }
    forall a, b, c | a in s && b in s && c in s && ItemLess(a, b) && ItemLess(b, c) ensures ItemLess(a, c) {
      LexTransitive(EncodeItemKey(a), EncodeItemKey(b), EncodeItemKey(c));
    }
  }

  /** The items in the order in which they are executed. */
  function Agenda(s: set<ItemKey>): seq<ItemKey>
    requires ItemKeys(s)
  {
    ItemLessTotal(s);
    Listing(s, ItemLess)
  }

  /**
   An agenda lists every item once, ascending in due time and then identifier, so items due
   by any moment form a prefix: stopping at the first later item skips nothing.
   */
  lemma AgendaSorted(s: set<ItemKey>)
    requires ItemKeys(s)
    ensures Elements(Agenda(s)) == s && |Agenda(s)| == |s|
    ensures forall i, j | 0 <= i < j < |Agenda(s)| ::
              || Agenda(s)[i].when < Agenda(s)[j].when
              || (Agenda(s)[i].when == Agenda(s)[j].when && LexLess(Agenda(s)[i].id, Agenda(s)[j].id))
  {
    hide LexLess, ItemLess;
    ItemLessTotal(s);
    ListingFacts(s, ItemLess);
    var xs := Agenda(s);
    forall i, j | 0 <= i < j < |xs| ensures xs[i].when < xs[j].when || (xs[i].when == xs[j].when && LexLess(xs[i].id, xs[j].id)) {
      assert xs[i] in Elements(xs) && xs[j] in Elements(xs);
      ItemOrder(xs[i], xs[j]);
    }
  }

  // ----- identifiers of good-til cancellations -----

  function AsciiDigits(n: nat): (b: bytes)
    ensures |b| == |Format(n)|
  {
    FormatFacts(n);
    seq(|Format(n)|, i requires 0 <= i < |Format(n)| => Format(n)[i] as int as byte)
  }

  lemma AsciiDigitsInjective(m: nat, n: nat)
    requires AsciiDigits(m) == AsciiDigits(n)
    ensures m == n
  {
    FormatFacts(m);
    FormatFacts(n);
    var a, b := AsciiDigits(m), AsciiDigits(n);
    assert |Format(m)| == |Format(n)|;
    forall i | 0 <= i < |Format(m)| ensures Format(m)[i] == Format(n)[i] {
      assert a[i] == Format(m)[i] as int as byte && b[i] == Format(n)[i] as int as byte;
    }
    assert Format(m) == Format(n);
  }

  /** "dextlh" and the order sequence. */
  function HeightItemID(sequence: nat): bytes {
    [0x64, 0x65, 0x78, 0x74, 0x6C, 0x68] + AsciiDigits(sequence)
  }

  /** "dextlt" and the order sequence. */
  function TimeItemID(sequence: nat): bytes {
    [0x64, 0x65, 0x78, 0x74, 0x6C, 0x74] + AsciiDigits(sequence)
  }

  /** Each order has its own identifiers. */
  lemma ItemIDsInjective(m: nat, n: nat)
    ensures HeightItemID(m) == HeightItemID(n) ==> m == n
    ensures TimeItemID(m) == TimeItemID(n) ==> m == n
  {
    assert HeightItemID(m)[6..] == AsciiDigits(m) && HeightItemID(n)[6..] == AsciiDigits(n);
    assert TimeItemID(m)[6..] == AsciiDigits(m) && TimeItemID(n)[6..] == AsciiDigits(n);
    if AsciiDigits(m) == AsciiDigits(n) {
      AsciiDigitsInjective(m, n);
    }
  }
}
