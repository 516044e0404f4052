/**
 Scans of the byte store: iterating the encoded keys under a prefix in byte order and
 decoding them is what the keeper's typed scans list.
 */
module ByteScans {
  import opened Bytes
  import opened StoreKeys
  import opened SortedLists
  import opened Types
  import opened Keys
  import opened Finder
  import opened Orders
  import opened Exchange
  import opened Store
  import opened KeeperFacts

  /** The keys that a scan by prefix visits. */
  function Under(keys: set<bytes>, prefix: bytes): set<bytes> {
    set k | k in keys && prefix <= k
  }

  lemma LexTotalOn(s: set<bytes>)
    ensures StrictTotal(s, LexLess)
  {
    hide LexLess;
    forall a | a in s ensures !LexLess(a, a) {
      LexIrreflexive(a);
    }
    forall a, b | a in s && b in s && a != b ensures LexLess(a, b) || LexLess(b, a) {
      LexTotal(a, b);
    }
    forall a, b, c | a in s && b in s && c in s && LexLess(a, b) && LexLess(b, c) ensures LexLess(a, c) {
      LexTransitive(a, b, c);
    }
  }

  // ----- entries of an account and denom -----

  /** Entries whose keys can be encoded. */
  ghost predicate Encodable(entries: set<(Account, Denom, nat)>) {
    forall e | e in entries :: e.0 <= MAX_UINT64 && Joinable(e.1) && e.2 <= MAX_UINT64
  }

  ghost function DenomKeys(entries: set<(Account, Denom, nat)>): set<bytes> {
    set e | e in entries && AccountDenomSequenceKey(e.0, e.1, e.2).Some? :: AccountDenomSequenceKey(e.0, e.1, e.2).value
  }

  lemma SequenceKeyShape(account: Account, denom: Denom, sequence: nat)
    requires Joinable(denom)
    ensures AccountDenomPrefix(account, denom).Some?
    ensures AccountDenomSequenceKey(account, denom, sequence) == Some(AccountDenomPrefix(account, denom).value + BigEndian(sequence, UINT64_SIZE))
  {
    AccountDenomPrefixShape(account, denom);
  }

  lemma SequenceKeyOrder(prefix: bytes, m: nat, n: nat)
    requires m < n <= MAX_UINT64
    ensures LexLess(prefix + BigEndian(m, UINT64_SIZE), prefix + BigEndian(n, UINT64_SIZE))
  {
    hide LexLess, BigEndian;
    Uint64Order(m, n);
    LexConcat(prefix, prefix, BigEndian(m, UINT64_SIZE), BigEndian(n, UINT64_SIZE));
    LexIrreflexive(prefix);
  }

  lemma UnderDenom(entries: set<(Account, Denom, nat)>, account: Account, denom: Denom, k: bytes)
    requires Encodable(entries) && Joinable(denom) && account <= MAX_UINT64 && AccountDenomPrefix(account, denom).Some?
    ensures var prefix := AccountDenomPrefix(account, denom).value;
            k in Under(DenomKeys(entries), prefix)
            <==> exists q :: q in SequencesOf(entries, account, denom) && k == prefix + BigEndian(q, UINT64_SIZE)
  {
    hide AccountDenomPrefix, AccountDenomSequenceKey, BigEndian, Joinable, DecodeAccountDenomSequence;
    var prefix := AccountDenomPrefix(account, denom).value;
    if k in Under(DenomKeys(entries), prefix) {
      var e :| e in entries && AccountDenomSequenceKey(e.0, e.1, e.2).Some? && k == AccountDenomSequenceKey(e.0, e.1, e.2).value;
      AccountDenomScanExact(account, denom, e.0, e.1, e.2);
      SequenceKeyShape(e.0, e.1, e.2);
      assert e.2 in SequencesOf(entries, account, denom);
    }
    if q :| q in SequencesOf(entries, account, denom) && k == prefix + BigEndian(q, UINT64_SIZE) {
      var e :| e in entries && e.0 == account && e.1 == denom && e.2 == q;
      SequenceKeyShape(account, denom, q);
    }
  }

  /**
   Scanning an account's denom prefix in byte order and decoding each key yields the sequences
   on record, in ascending order, each once.
   */
  lemma DenomScanListing(entries: set<(Account, Denom, nat)>, account: Account, denom: Denom)
    requires Encodable(entries) && Joinable(denom) && account <= MAX_UINT64
    ensures AccountDenomPrefix(account, denom).Some?
    ensures var prefix := AccountDenomPrefix(account, denom).value;
            && StrictTotal(Under(DenomKeys(entries), prefix), LexLess) && StrictTotal(SequencesOf(entries, account, denom), NatLess)
            && var keys, qs := Listing(Under(DenomKeys(entries), prefix), LexLess), Listing(SequencesOf(entries, account, denom), NatLess);
               |keys| == |qs| && forall i | 0 <= i < |qs| :: prefix <= keys[i] && DecodeAccountDenomSequence(keys[i][|prefix|..]) == Some(qs[i])
  {
    hide AccountDenomPrefix, AccountDenomSequenceKey, BigEndian, Joinable, DecodeAccountDenomSequence, LexLess, Under, DenomKeys, SequencesOf, Listing, StrictTotal, Elements;
    SequenceKeyShape(account, denom, 0);
    var prefix := AccountDenomPrefix(account, denom).value;
    var under, s := Under(DenomKeys(entries), prefix), SequencesOf(entries, account, denom);
    LexTotalOn(under);
    NatLessTotal(s);
    ListingFacts(s, NatLess);
    var qs := Listing(s, NatLess);
    var ks := seq(|qs|, i requires 0 <= i < |qs| => prefix + BigEndian(qs[i], UINT64_SIZE));
    SequencesEncodable(entries, account, denom);
    forall i | 0 <= i < |qs| ensures qs[i] in s && qs[i] <= MAX_UINT64 {
      ListedIn(qs, s, i);
    }
    forall i, j | 0 <= i < j < |ks| ensures LexLess(ks[i], ks[j]) {
      assert NatLess(qs[i], qs[j]);
      SequenceKeyOrder(prefix, qs[i], qs[j]);
    }
    forall k ensures k in Elements(ks) <==> k in under {
      UnderDenom(entries, account, denom, k);
      KeysOf(qs, s, prefix, ks, k);
    }
    ListingUnique(ks, under, LexLess);
    forall i | 0 <= i < |qs| ensures prefix <= ks[i] && DecodeAccountDenomSequence(ks[i][|prefix|..]) == Some(qs[i]) {
      AccountDenomScanExact(account, denom, account, denom, qs[i]);
      SequenceKeyShape(account, denom, qs[i]);
    }
  }

  lemma SequencesEncodable(entries: set<(Account, Denom, nat)>, account: Account, denom: Denom)
    requires Encodable(entries)
    ensures forall q | q in SequencesOf(entries, account, denom) :: q <= MAX_UINT64
  {
  }

  lemma ListedIn<T>(xs: seq<T>, s: set<T>, i: nat)
    requires Elements(xs) == s && i < |xs|
    ensures xs[i] in s
  {
    assert xs[i] in Elements(xs);
  }

  lemma KeysOf(qs: seq<nat>, s: set<nat>, prefix: bytes, ks: seq<bytes>, k: bytes)
    requires Elements(qs) == s && |ks| == |qs| && forall i | 0 <= i < |qs| :: ks[i] == prefix + BigEndian(qs[i], UINT64_SIZE)
    ensures k in Elements(ks) <==> exists q :: q in s && k == prefix + BigEndian(q, UINT64_SIZE)
  {
    hide BigEndian;
    if k in Elements(ks) {
      var i :| 0 <= i < |ks| && ks[i] == k;
      assert qs[i] in Elements(qs);
    }
    if q :| q in s && k == prefix + BigEndian(q, UINT64_SIZE) {
      assert q in Elements(qs);
      var i :| 0 <= i < |qs| && qs[i] == q;
      assert ks[i] == k;
    }
  }

  // ----- records of one side of a book -----

  ghost function RecordKeys(records: map<EntryKey, EntryData>): set<bytes> {
    set k | k in records && RecordKey(ToRecord(k, records[k])).Some? :: RecordKey(ToRecord(k, records[k])).value
  }

  /** Records whose keys can be encoded. */
  ghost predicate AllStorable(records: map<EntryKey, EntryData>) {
    forall k | k in records :: Storable(ToRecord(k, records[k]))
  }

  lemma UnderSide(records: map<EntryKey, EntryData>, book: nat, side: Side, key: bytes)
    requires AllStorable(records) && book <= MAX_UINT32
    ensures key in Under(RecordKeys(records), SideKey(book, side))
       <==> exists r :: r in SideRecords(records, book, side) && RecordKey(r) == Some(key)
  {
    hide RecordKey, SideKey, Storable;
    if key in Under(RecordKeys(records), SideKey(book, side)) {
      var k :| k in records && RecordKey(ToRecord(k, records[k])).Some? && key == RecordKey(ToRecord(k, records[k])).value;
      SidePrefixExact(ToRecord(k, records[k]), book, side);
      assert ToRecord(k, records[k]) in SideRecords(records, book, side);
    }
    if r :| r in SideRecords(records, book, side) && RecordKey(r) == Some(key) {
      var k :| k in records && k.book == book && k.side == side && r == ToRecord(k, records[k]);
      SidePrefixExact(r, book, side);
    }
  }

  /**
   Scanning a side's prefix in byte order visits exactly the side's records in the order the
   iterators are given, and each key decodes to the price and sequence of its record.
   */
  lemma SideScanListing(records: map<EntryKey, EntryData>, book: nat, side: Side)
    requires AllStorable(records) && book <= MAX_UINT32 && OneSide(SideRecords(records, book, side), side)
    ensures StrictTotal(Under(RecordKeys(records), SideKey(book, side)), LexLess)
    ensures var keys, rs := Listing(Under(RecordKeys(records), SideKey(book, side)), LexLess), SideListing(SideRecords(records, book, side), side);
            |keys| == |rs| &&
            forall i | 0 <= i < |rs| :: RecordKey(rs[i]) == Some(keys[i]) && SideKey(book, side) <= keys[i]
                                     && DecodeSideRecordKey(keys[i][|SideKey(book, side)|..]) == Some((rs[i].price, rs[i].sequence))
  {
    hide RecordKey, SideKey, DecodeSideRecordKey, LexLess, Under, RecordKeys, SideRecords, Listing, StrictTotal, Elements, Storable, AllStorable;
    var under, s := Under(RecordKeys(records), SideKey(book, side)), SideRecords(records, book, side);
    LexTotalOn(under);
    SideListingOrder(s, side);
    var rs := SideListing(s, side);
    forall i | 0 <= i < |rs| ensures rs[i] in s && RecordKey(rs[i]).Some? && rs[i].book == book && rs[i].side == side
    {
      ListedIn(rs, s, i);
      RecordKeyRoundTrip(rs[i]);
      OfBook(records, book, side, rs[i]);
    }
    var ks := seq(|rs|, i requires 0 <= i < |rs| => RecordKey(rs[i]).value);
    forall i, j | 0 <= i < j < |ks| ensures LexLess(ks[i], ks[j]) {
      assert KeyLess(rs[i], rs[j]);
    }
    forall key ensures key in Elements(ks) <==> key in under {
      UnderSide(records, book, side, key);
      KeysOfRecords(rs, s, ks, key);
    }
    ListingUnique(ks, under, LexLess);
    forall i | 0 <= i < |rs| ensures SideKey(book, side) <= ks[i] && DecodeSideRecordKey(ks[i][|SideKey(book, side)|..]) == Some((rs[i].price, rs[i].sequence)) {
      RecordKeyRoundTrip(rs[i]);
    }
  }

  lemma OfBook(records: map<EntryKey, EntryData>, book: nat, side: Side, r: Record)
    requires r in SideRecords(records, book, side)
    ensures r.book == book && r.side == side
  {
  }

  lemma SideListingOrder(s: set<Record>, side: Side)
    requires OneSide(s, side)
    ensures Elements(SideListing(s, side)) == s && Increasing(SideListing(s, side), KeyLess)
  {
    hide KeyLess, Storable;
    KeyLessTotal(s);
    ListingFacts(s, KeyLess);
  }

  lemma KeysOfRecords(rs: seq<Record>, s: set<Record>, ks: seq<bytes>, key: bytes)
    requires Elements(rs) == s && |ks| == |rs| && forall i | 0 <= i < |rs| :: RecordKey(rs[i]) == Some(ks[i])
    ensures key in Elements(ks) <==> exists r :: r in s && RecordKey(r) == Some(key)
  {
    hide RecordKey;
    if key in Elements(ks) {
      var i :| 0 <= i < |ks| && ks[i] == key;
      assert rs[i] in Elements(rs);
    }
    if r :| r in s && RecordKey(r) == Some(key) {
      assert r in Elements(rs);
      var i :| 0 <= i < |rs| && rs[i] == r;
      assert ks[i] == key;
    }
  }

  // ----- the store of a reachable state -----

  /**
   Every key of a store that represents a sound state encodes, so both scans above are scans
   of that store (its sides hold one side each by SideRecordsOneSide); account numbers are 64-bit.
   */
  lemma StoreKeysEncode(st: Store, x: State, whitelisting: set<Denom>)
    requires Inv(x) && Represents(st, x, whitelisting)
    requires forall q | q in x.open :: x.open[q].record.account <= MAX_UINT64
    ensures Encodable(st.denomSequences) && AllStorable(st.records)
    ensures forall base, quote | (base, quote) in x.books :: x.books[(base, quote)] <= MAX_UINT32
  {
    hide Inv, AllWellFormed, Balanced, FundsMatch, BookDataMatch, CountsMatch, IdsMatch, OrdersMatch, RecordsMatch, DenomsMatch;
    hide HeightItemsMatch, TimeItemsMatch, Storable, Joinable;
    forall e | e in st.denomSequences ensures e.0 <= MAX_UINT64 && Joinable(e.1) && e.2 <= MAX_UINT64 {
      EntryOfOrder(st.denomSequences, x, e.0, e.1, e.2);
    }
    forall k | k in st.records ensures Storable(ToRecord(k, st.records[k])) {
      RecordOfOrder(st.records, x, k);
    }
    forall base, quote | (base, quote) in x.books ensures x.books[(base, quote)] <= MAX_UINT32 {
      BookInRange(x, base, quote);
    }
  }

  lemma RecordOfOrder(records: map<EntryKey, EntryData>, x: State, k: EntryKey)
    requires Inv(x) && RecordsMatch(records, x.open) && k in records
    ensures Storable(ToRecord(k, records[k]))
  {
    hide RecordsMatch, Uncrossed, Alive, BooksPaired, Listed;
    EntriesAreRecords(records, x.open);
    assert WellFormed(x.open[k.sequence], k.sequence);
  }

  lemma BookInRange(x: State, base: Denom, quote: Denom)
    requires Inv(x) && (base, quote) in x.books
    ensures x.books[(base, quote)] <= MAX_UINT32
  {
    hide AllWellFormed, Uncrossed, Alive, Listed, Joinable;
  }

  lemma EntryOfOrder(entries: set<(Account, Denom, nat)>, x: State, account: Account, denom: Denom, q: nat)
    requires Inv(x) && DenomsMatch(entries, x.open) && (account, denom, q) in entries
    ensures q in x.open && x.open[q].record.account == account && Joinable(denom) && q <= MAX_UINT64
  {
    hide Resting, Uncrossed, Alive, Listed;
  }
}
