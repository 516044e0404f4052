/**
 Length-prefixed composite keys (pkg/store/key.go).
 */
module StoreKeys {
  import opened Bytes

  const MAX_KEY_LEN: nat := 255

  predicate Joinable(key: bytes) {
    0 < |key| <= MAX_KEY_LEN
  }

  /** Each key preceded by its length; no result if some key is empty or too long. */
  function Join(keys: seq<bytes>): Option<bytes> {
    if |keys| == 0 then Some([])
    else if !Joinable(keys[0]) then None
    else
      match Join(keys[1..])
      case None => None
      case Some(rest) => Some([|keys[0]| as byte] + keys[0] + rest)
  }

  /** The sections of a length-prefixed key; no result if a length overruns the input. */
  function Parse(key: bytes): Option<seq<bytes>>
    decreases |key|
  {
    if |key| == 0 then None
    else
      var end := 1 + key[0] as nat;
      if |key| < end then None
      else if |key| == end then Some([key[1..end]])
      else
        match Parse(key[end..])
        case None => None
        case Some(rest) => Some([key[1..end]] + rest)
  }

  method JoinKeysWithLength(keys: seq<bytes>) returns (r: Option<bytes>)
    ensures r == Join(keys)
  {
    var compositeKey: bytes := [];
    assert keys[0..] == keys;
    assert Join(keys).Some? ==> [] + Join(keys).value == Join(keys).value;
    for i := 0 to |keys|
      invariant Join(keys) == Prepended(compositeKey, Join(keys[i..]))
    {
      var key := keys[i];
      assert keys[i..][0] == key && keys[i..][1..] == keys[i + 1..];
      if |key| == 0 {
        return None;
      }
      if |key| > MAX_KEY_LEN {
        return None;
      }
      ghost var before := compositeKey;
      compositeKey := compositeKey + [|key| as byte];
      compositeKey := compositeKey + key;
      if Join(keys[i + 1..]).Some? {
        ghost var rest := Join(keys[i + 1..]).value;
        assert before + ([|key| as byte] + key + rest) == compositeKey + rest;
      }
    }
    assert keys[|keys|..] == [];
    assert compositeKey + [] == compositeKey;
    r := Some(compositeKey);
  }

  ghost function Prepended(head: bytes, tail: Option<bytes>): Option<bytes> {
    if tail.None? then None else Some(head + tail.value)
  }

  method ParseLengthPrefixedKeys(key: bytes) returns (r: Option<seq<bytes>>)
    ensures r == Parse(key)
  {
    var inputKeyLen := |key|;
    if inputKeyLen == 0 {
      return None;
    }
    var keys: seq<bytes> := [];
    var startBound := 1;
    assert key[0..] == key;
    assert Parse(key).Some? ==> [] + Parse(key).value == Parse(key).value;
    while true
      invariant 1 <= startBound <= inputKeyLen
      invariant Parse(key) == PrependedKeys(keys, Parse(key[startBound - 1..]))
      decreases inputKeyLen - startBound
    {
      var keyLen := key[startBound - 1] as nat;
      var endBound := startBound + keyLen;
      SectionAt(key, startBound);
      if inputKeyLen < endBound {
        return None;
      }
      var keySection := key[startBound..endBound];
      ghost var before := keys;
      keys := keys + [keySection];
      if endBound == inputKeyLen {
        break;
      }
      PrependedTwice(before, [keySection], Parse(key[endBound..]));
      startBound := endBound + 1;
    }
    r := Some(keys);
  }

  /** What parsing finds at one section of a longer key. */
  lemma SectionAt(key: bytes, start: nat)
    requires 1 <= start <= |key|
    ensures var end := start + key[start - 1] as nat;
            Parse(key[start - 1..]) ==
            if |key| < end then None
            else if |key| == end then Some([key[start..end]])
            else PrependedKeys([key[start..end]], Parse(key[end..]))
  {
    var end := start + key[start - 1] as nat;
    var rest := key[start - 1..];
    if end <= |key| {
      assert rest[1..end - start + 1] == key[start..end];
      assert rest[end - start + 1..] == key[end..];
    }
  }

  lemma PrependedTwice(a: seq<bytes>, b: seq<bytes>, tail: Option<seq<bytes>>)
    ensures PrependedKeys(a, PrependedKeys(b, tail)) == PrependedKeys(a + b, tail)
  {
    if tail.Some? {
      assert a + (b + tail.value) == a + b + tail.value;
    }
  }

  ghost function PrependedKeys(head: seq<bytes>, tail: Option<seq<bytes>>): Option<seq<bytes>> {
    if tail.None? then None else Some(head + tail.value)
  }

  /** Parsing undoes joining. */
  lemma {:induction false} ParseJoin(keys: seq<bytes>)
    requires 0 < |keys| && Join(keys).Some?
    ensures Parse(Join(keys).value) == Some(keys)
  {
    var rest := Join(keys[1..]).value;
    var n := |keys[0]|;
    var key := [n as byte] + keys[0] + rest;
    assert key[1..1 + n] == keys[0] && key[1 + n..] == rest;
    if |keys| == 1 {
      assert keys == [keys[0]];
    } else {
      assert |rest| != 0;
      ParseJoin(keys[1..]);
      assert keys == [keys[0]] + keys[1..];
    }
  }

  ghost predicate AllShort(keys: seq<bytes>) {
    forall i | 0 <= i < |keys| :: |keys[i]| <= MAX_KEY_LEN
  }

  /** The sections laid out one after another, empty ones included. */
  ghost function Layout(keys: seq<bytes>): bytes
    requires AllShort(keys)
  {
    if |keys| == 0 then [] else [|keys[0]| as byte] + keys[0] + Layout(keys[1..])
  }

  lemma {:induction false} ParseLayout(key: bytes)
    requires Parse(key).Some?
    ensures AllShort(Parse(key).value)
    ensures Layout(Parse(key).value) == key
    decreases |key|
  {
    var end := 1 + key[0] as nat;
    var s := key[1..end];
    assert key == [key[0]] + s + key[end..];
    if |key| == end {
      LayoutCons(s, []);
      assert [s] + [] == [s];
    } else {
      var rest := key[end..];
      ParseLayout(rest);
      LayoutCons(s, Parse(rest).value);
    }
  }

  lemma LayoutCons(s: bytes, rest: seq<bytes>)
    requires |s| <= MAX_KEY_LEN && AllShort(rest)
    ensures AllShort([s] + rest)
    ensures Layout([s] + rest) == [|s| as byte] + s + Layout(rest)
  {
    assert ([s] + rest)[1..] == rest;
  }

  lemma {:induction false} JoinLayout(keys: seq<bytes>)
    requires AllShort(keys)
    ensures Join(keys) == if [] in keys then None else Some(Layout(keys))
  {
    if |keys| != 0 {
      JoinLayout(keys[1..]);
      assert keys == [keys[0]] + keys[1..];
    }
  }

  /** Joining undoes parsing, exactly for inputs without an empty section. */
  lemma JoinParse(key: bytes)
    requires Parse(key).Some?
    ensures Join(Parse(key).value) == Some(key) <==> [] !in Parse(key).value
  {
    ParseLayout(key);
    JoinLayout(Parse(key).value);
  }

  /** No joined key is a proper prefix of another: the part that follows is determined. */
  lemma JoinPrefixFree(a: bytes, b: bytes, x: bytes, y: bytes)
    requires Joinable(a) && Joinable(b)
    requires [|a| as byte] + a + x == [|b| as byte] + b + y
    ensures a == b && x == y
  {
    var p, q := [|a| as byte] + a, [|b| as byte] + b;
    assert (p + x)[0] == (q + y)[0];
    assert (p + x)[..|p|] == p && (q + y)[..|q|] == q;
    assert a == p[1..] && b == q[1..];
    assert (p + x)[|p|..] == x && (q + y)[|q|..] == y;
  }
}
