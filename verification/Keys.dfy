/**
 Store keys of the exchange (x/dex/types/keys.go). Their byte order is what makes
 a plain key iteration walk an order book by price and then by age.
 */
module Keys {
  import opened Bytes
  import opened Rational
  import opened Price
  import opened StoreKeys
  import opened SortedLists
  import opened Types

  const ORDER_ID_TO_SEQUENCE_PREFIX: byte := 0x06
  const RECORD_PREFIX: byte := 0x07
  const ACCOUNT_DENOM_COUNT_PREFIX: byte := 0x09
  const ACCOUNT_DENOM_SEQUENCE_PREFIX: byte := 0x10

  function SideByte(side: Side): byte {
    if side.Buy? then 1 else 2
  }

  /** The key prefix shared by all records of one side of one book. */
  function SideKey(book: nat, side: Side): (key: bytes)
    ensures |key| == 1 + UINT32_SIZE + 1
  {
    [RECORD_PREFIX] + (BigEndian(book, UINT32_SIZE) + [SideByte(side)])
  }

  /** Price, then sequence. */
  function SideRecordKey(price: Price, sequence: nat): Option<bytes> {
    match MarshalToOrderedBytes(price)
    case None => None
    case Some(p) => Some(AppendUint64(p, sequence))
  }

  function RecordKey(r: Record): Option<bytes> {
    match SideRecordKey(r.price, r.sequence)
    case None => None
    case Some(suffix) => Some(SideKey(r.book, r.side) + suffix)
  }

  function DecodeSideRecordKey(key: bytes): Option<(Price, nat)> {
    match UnmarshalFromOrderedBytes(key)
    case None => None
    case Some((price, rest)) =>
      match ReadUint(rest, UINT64_SIZE)
      case None => None
      case Some((sequence, _)) => Some((price, sequence))
  }

  /** Decoding a record key recovers the price and the sequence. */
  lemma RecordKeyRoundTrip(r: Record)
    requires Storable(r)
    ensures RecordKey(r).Some? && SideKey(r.book, r.side) <= RecordKey(r).value
    ensures DecodeSideRecordKey(RecordKey(r).value[|SideKey(r.book, r.side)|..]) == Some((r.price, r.sequence))
  {
    var seqBytes := BigEndian(r.sequence, UINT64_SIZE);
    OrderedBytesRoundTrip(r.price, seqBytes);
    ReadUint64Appended(r.sequence, []);
    assert seqBytes + [] == seqBytes;
    assert RecordKey(r).value[|SideKey(r.book, r.side)|..] == SideRecordKey(r.price, r.sequence).value;
  }

  /** Scanning one side's prefix sees that side's records and no others. */
  lemma SidePrefixExact(r: Record, book: nat, side: Side)
    requires Storable(r) && book <= MAX_UINT32 && RecordKey(r).Some?
    ensures SideKey(book, side) <= RecordKey(r).value <==> r.book == book && r.side == side
  {
    Uint32Order(r.book, book);
    var a, b := SideKey(r.book, r.side), SideKey(book, side);
    assert RecordKey(r).value[..|a|] == a;
    assert a[1..1 + UINT32_SIZE] == BigEndian(r.book, UINT32_SIZE);
    assert b[1..1 + UINT32_SIZE] == BigEndian(book, UINT32_SIZE);
    assert a[1 + UINT32_SIZE] == SideByte(r.side) && b[1 + UINT32_SIZE] == SideByte(side);
  }

  /** The order in which the store iterates records. */
  predicate KeyLess(a: Record, b: Record) {
    match (RecordKey(a), RecordKey(b))
    case (Some(x), Some(y)) => LexLess(x, y)
    case _ => false
  }

  /** Better price first, then age: the order of records within one side of a book. */
  predicate PriceThenSeq(a: Record, b: Record)
    requires 0 < a.price.num && 0 < b.price.num
  {
    || Lt(PriceOf(a.price), PriceOf(b.price))
    || (Eq(PriceOf(a.price), PriceOf(b.price)) && a.sequence < b.sequence)
  }

  /** Within one side of a book, key order is price order with ties broken by sequence. */
  lemma KeyOrderIsPriceThenSeq(a: Record, b: Record)
    requires Storable(a) && Storable(b) && a.book == b.book && a.side == b.side
    ensures KeyLess(a, b) <==> PriceThenSeq(a, b)
  {
    hide MarshalToOrderedBytes, BigEndian, SideKey, ToRat, LexLess;
    RecordKeyRoundTrip(a);
    RecordKeyRoundTrip(b);
    OrderedBytesRoundTrip(a.price, []);
    OrderedBytesRoundTrip(b.price, []);
    OrderedBytesOrder(a.price, b.price);
    Uint64Order(a.sequence, b.sequence);
    var side := SideKey(a.book, a.side);
    var p, q := MarshalToOrderedBytes(a.price).value, MarshalToOrderedBytes(b.price).value;
    var m, n := BigEndian(a.sequence, UINT64_SIZE), BigEndian(b.sequence, UINT64_SIZE);
    LexConcat(side, side, p + m, q + n);
    LexIrreflexive(side);
    LexConcat(p, q, m, n);
    if a.price != b.price && Eq(ToRat(a.price), ToRat(b.price)) {
      EqualValueEqualPrice(a.price, b.price);
    }
    if p == q {
      LexIrreflexive(p);
      OrderedBytesOrder(b.price, a.price);
    }
  }

  /** Distinct records have distinct keys. */
  lemma RecordKeyInjective(a: Record, b: Record)
    requires Storable(a) && Storable(b) && RecordKey(a) == RecordKey(b)
    ensures a.book == b.book && a.side == b.side && a.price == b.price && a.sequence == b.sequence
  {
    RecordKeyRoundTrip(a);
    RecordKeyRoundTrip(b);
    SidePrefixExact(a, b.book, b.side);
  }

  /** Byte order is a strict total order on the records of a store. */
  lemma KeyLessTotal(s: set<Record>)
    requires DistinctSeqs(s) && forall r | r in s :: Storable(r)
    ensures StrictTotal(s, KeyLess)
  {
    forall r | r in s ensures !KeyLess(r, r) {
      if RecordKey(r).Some? { LexIrreflexive(RecordKey(r).value); }
    }
    forall a, b | a in s && b in s && a != b ensures KeyLess(a, b) || KeyLess(b, a) {
      RecordKeyRoundTrip(a);
      RecordKeyRoundTrip(b);
      if RecordKey(a) == RecordKey(b) {
        RecordKeyInjective(a, b);
      }
      LexTotal(RecordKey(a).value, RecordKey(b).value);
    }
    forall a, b, c | a in s && b in s && c in s && KeyLess(a, b) && KeyLess(b, c) ensures KeyLess(a, c) {
      LexTransitive(RecordKey(a).value, RecordKey(b).value, RecordKey(c).value);
    }
  }

  // ----- account and denom keys -----

  /** The prefix of every entry of one account and denom. */
  function AccountDenomPrefix(account: Account, denom: Denom): Option<bytes> {
    match Join([denom])
    case None => None
    case Some(d) => Some([ACCOUNT_DENOM_SEQUENCE_PREFIX] + (BigEndian(account, UINT64_SIZE) + d))
  }

  function AccountDenomSequenceKey(account: Account, denom: Denom, sequence: nat): Option<bytes> {
    match AccountDenomPrefix(account, denom)
    case None => None
    case Some(prefix) => Some(AppendUint64(prefix, sequence))
  }

  function DecodeAccountDenomSequence(key: bytes): Option<nat> {
    match ReadUint(key, UINT64_SIZE)
    case None => None
    case Some((sequence, _)) => Some(sequence)
  }

  lemma AccountDenomPrefixShape(account: Account, denom: Denom)
    ensures AccountDenomPrefix(account, denom) ==
            if Joinable(denom)
            then Some([ACCOUNT_DENOM_SEQUENCE_PREFIX] + (BigEndian(account, UINT64_SIZE) + ([|denom| as byte] + denom)))
            else None
  {
    assert Join([denom][1..]) == Some([]);
    if Joinable(denom) {
      assert [|denom| as byte] + denom + [] == [|denom| as byte] + denom;
    }
  }

  /**
   Scanning an account and denom prefix sees exactly that pair's entries, and what
   follows the prefix is the order sequence.
   */
  lemma AccountDenomScanExact(account: Account, denom: Denom, account': Account, denom': Denom, sequence: nat)
    requires Joinable(denom) && Joinable(denom')
    requires account <= MAX_UINT64 && account' <= MAX_UINT64 && sequence <= MAX_UINT64
    ensures AccountDenomPrefix(account, denom).Some? && AccountDenomSequenceKey(account', denom', sequence).Some?
    ensures var prefix, key := AccountDenomPrefix(account, denom).value, AccountDenomSequenceKey(account', denom', sequence).value;
            && (prefix <= key <==> account == account' && denom == denom')
            && (prefix <= key ==> DecodeAccountDenomSequence(key[|prefix|..]) == Some(sequence))
  {
    AccountDenomPrefixShape(account, denom);
    AccountDenomPrefixShape(account', denom');
    var a, b := BigEndian(account, UINT64_SIZE), BigEndian(account', UINT64_SIZE);
    var d, e := [|denom| as byte] + denom, [|denom'| as byte] + denom';
    var tail := BigEndian(sequence, UINT64_SIZE);
    var prefix, key := AccountDenomPrefix(account, denom).value, AccountDenomSequenceKey(account', denom', sequence).value;
    if prefix <= key {
      var rest := SplitAfterFixed([ACCOUNT_DENOM_SEQUENCE_PREFIX], a, d, b, e, tail);
      Uint64Order(account, account');
      JoinPrefixFree(denom, denom', rest, tail);
    }
    if account == account' && denom == denom' {
      assert key[|prefix|..] == tail;
      ReadUint64Appended(sequence, []);
      assert tail + [] == tail;
    }
  }

  /** A prefix with a fixed-width part agrees on that part; the rest lines up behind it. */
  lemma SplitAfterFixed(h: bytes, a: bytes, d: bytes, b: bytes, e: bytes, tail: bytes) returns (rest: bytes)
    requires |a| == |b| && h + (a + d) <= h + (b + e) + tail
    ensures a == b && d + rest == e + tail
  {
    var prefix, key := h + (a + d), h + (b + e) + tail;
    rest := key[|prefix|..];
    assert key == prefix + rest;
    var n := |h|;
    assert a == prefix[n..n + |a|] == key[n..n + |a|] == b;
    assert d + rest == key[n + |a|..] == e + tail;
  }

  function AccountDenomCountKey(account: Account, denom: Denom): Option<bytes> {
    match Join([denom])
    case None => None
    case Some(d) => Some([ACCOUNT_DENOM_COUNT_PREFIX] + (BigEndian(account, UINT64_SIZE) + d))
  }

  /** Decodes a counter key without its leading prefix byte. */
  function DecodeAccountDenomCountKey(key: bytes): Option<(Account, Denom)> {
    match ReadUint(key, UINT64_SIZE)
    case None => None
    case Some((account, rest)) =>
      match Parse(rest)
      case None => None
      case Some(keys) => if |keys| == 1 then Some((account, keys[0])) else None
  }

  lemma CountKeyRoundTrip(account: Account, denom: Denom)
    requires Joinable(denom) && account <= MAX_UINT64
    ensures AccountDenomCountKey(account, denom).Some?
    ensures DecodeAccountDenomCountKey(AccountDenomCountKey(account, denom).value[1..]) == Some((account, denom))
  {
    assert Join([denom][1..]) == Some([]);
    ParseJoin([denom]);
    var d := Join([denom]).value;
    ReadUint64Appended(account, d);
    assert AccountDenomCountKey(account, denom).value[1..] == BigEndian(account, UINT64_SIZE) + d;
  }

  function OrderIDKey(account: Account, id: OrderID): bytes {
    [ORDER_ID_TO_SEQUENCE_PREFIX] + (BigEndian(account, UINT64_SIZE) + id)
  }

  /** Decodes an order ID key without its leading prefix byte. */
  function DecodeOrderIDKey(key: bytes): Option<(Account, OrderID)> {
    ReadUint(key, UINT64_SIZE)
  }

  lemma OrderIDKeyRoundTrip(account: Account, id: OrderID)
    requires account <= MAX_UINT64
    ensures DecodeOrderIDKey(OrderIDKey(account, id)[1..]) == Some((account, id))
  {
    ReadUint64Appended(account, id);
    assert OrderIDKey(account, id)[1..] == BigEndian(account, UINT64_SIZE) + id;
  }
}
