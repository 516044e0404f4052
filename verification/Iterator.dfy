/**
 Iteration over one side of an order book (x/dex/keeper/keeper_ob_iterator.go).
 Sell orders are read in key order. Buy orders are read from the tail, best price
 first, and a pool turns each price level round so that older orders come first.
 */
module Iterator {
  import opened Bytes
  import opened Rational
  import opened Price
  import opened SortedLists
  import opened Types

  /** The comparison the iterator makes: equality of the exact values. */
  predicate SamePrice(a: Record, b: Record) {
    Eq(ToRat(a.price), ToRat(b.price))
  }

  /** Canonical prices have equal values only if they are equal. */
  method ComparePrices(a: Record, b: Record) returns (same: bool)
    requires Canonical(a.price) && Canonical(b.price)
    ensures same <==> a.price == b.price
  {
    same := SamePrice(a, b);
    if same {
      EqualValueEqualPrice(a.price, b.price);
    }
  }

  ghost predicate AllCanonical(s: seq<Record>) {
    forall r | r in s :: Canonical(r.price)
  }

  ghost predicate OneLevel(s: seq<Record>) {
    forall k | 0 <= k < |s| :: s[k].price == s[0].price
  }

  /** The stream s, read after the records of an unfinished level, with each level turned round. */
  ghost function Turned(level: seq<Record>, s: seq<Record>): seq<Record>
    decreases |s|
  {
    if |s| == 0 then Reversed(level)
    else if level == [] || s[0].price == level[0].price then Turned(level + [s[0]], s[1..])
    else Reversed(level) + Turned([s[0]], s[1..])
  }

  /** The stream s with each run of equal prices turned round. */
  ghost function OldestFirst(s: seq<Record>): seq<Record> {
    Turned([], s)
  }

  lemma TurnedCons(level: seq<Record>, r: Record, s: seq<Record>)
    ensures Turned(level, [r] + s) ==
            if level == [] || r.price == level[0].price then Turned(level + [r], s)
            else Reversed(level) + Turned([r], s)
  {
    assert ([r] + s)[1..] == s;
  }

  /** The pool is a level, or a level followed by the first record of the next one. */
  ghost predicate NextStarted(pool: seq<Record>) {
    2 <= |pool| && pool[|pool| - 1].price != pool[|pool| - 2].price
  }

  ghost predicate PoolShape(pool: seq<Record>) {
    OneLevel(if NextStarted(pool) then pool[..|pool| - 1] else pool)
  }

  /** What will be returned from a pool and the entries still in the store. */
  ghost function Pending(pool: seq<Record>, entries: seq<Record>): seq<Record> {
    if NextStarted(pool)
    then Reversed(pool[..|pool| - 1]) + Turned([pool[|pool| - 1]], entries)
    else Turned(pool, entries)
  }

  /** Loading one more record changes nothing about what will be returned. */
  lemma Appended(pool: seq<Record>, r: Record, entries: seq<Record>)
    requires OneLevel(pool) && !NextStarted(pool)
    ensures Pending(pool + [r], entries) == Pending(pool, [r] + entries)
    ensures PoolShape(pool + [r])
    ensures pool == [] || r.price == pool[|pool| - 1].price ==> OneLevel(pool + [r]) && !NextStarted(pool + [r])
  {
    TurnedCons(pool, r, entries);
    assert (pool + [r])[..|pool|] == pool;
  }

  /** A well-formed tail iterator: an incomplete level is pooled only when the store is exhausted. */
  ghost predicate ValidPool(pool: seq<Record>, entries: seq<Record>) {
    && AllCanonical(entries) && AllCanonical(pool) && PoolShape(pool)
    && (2 <= |pool| && !NextStarted(pool) ==> entries == [])
  }

  /** An iterator over the records of one side of a book. */
  class OrderBookIterator {
    const readFromTail: bool
    /** What the store iterator has yet to yield. */
    var entries: seq<Record>
    /** Records loaded but not returned yet. */
    var pool: seq<Record>

    ghost predicate Valid()
      reads this
    {
      ValidPool(pool, entries) && (!readFromTail ==> pool == [])
    }

    /** Everything this iterator will return, in order. */
    ghost function Remaining(): seq<Record>
      reads this
    {
      if readFromTail then Pending(pool, entries) else entries
    }

    constructor (listing: seq<Record>, readFromTail: bool)
      requires AllCanonical(listing)
      ensures Valid() && this.readFromTail == readFromTail
      ensures Remaining() == if readFromTail then OldestFirst(Reversed(listing)) else listing
    {
      this.readFromTail := readFromTail;
      entries := if readFromTail then Reversed(listing) else listing;
      pool := [];
    }

    method Next() returns (r: Option<Record>)
      requires Valid()
      modifies this
      ensures Valid()
      ensures old(Remaining()) == (if r == None then [] else [r.value] + Remaining())
      ensures r == None ==> Remaining() == []
    {
      if readFromTail {
        r := NextFromTail();
      } else {
        r := NextFromIterator();
      }
    }

    method NextFromTail() returns (r: Option<Record>)
      requires Valid() && readFromTail
      modifies this
      ensures Valid()
      ensures old(Remaining()) == (if r == None then [] else [r.value] + Remaining())
      ensures r == None ==> Remaining() == []
    {
      if |pool| <= 1 {
        LoadPool();
      }
      if |pool| > 1 {
        r := RemoveAndReturnCurrentTailRecord();
        return;
      }
      if |pool| == 1 {
        r := Some(pool[0]);
        pool := [];
        return;
      }
      return None;
    }

    /** Loads at least two records, and on until the price changes or the store is exhausted. */
    method LoadPool()
      requires Valid() && readFromTail && |pool| <= 1
      modifies this
      ensures Valid() && Remaining() == old(Remaining())
      ensures |pool| <= 1 ==> entries == []
    {
      hide Turned, Canonical, OneLevel, Pending;
      while true
        invariant AllCanonical(entries) && AllCanonical(pool)
        invariant OneLevel(pool) && !NextStarted(pool)
        invariant Pending(pool, entries) == old(Remaining())
        decreases |entries|
      {
        var r := NextFromIterator();
        if r == None {
          return;
        }
        Appended(pool, r.value, entries);
        pool := pool + [r.value];
        if |pool| < 2 {
          continue;
        }
        var same := ComparePrices(pool[|pool| - 2], pool[|pool| - 1]);
        if same {
          continue;
        }
        break;
      }
    }

    method RemoveAndReturnCurrentTailRecord() returns (r: Option<Record>)
      requires Valid() && readFromTail && 2 <= |pool|
      modifies this`pool
      ensures Valid()
      ensures r.Some? && old(Remaining()) == [r.value] + Remaining()
    {
      hide Pending, PoolShape, Canonical, Without;
      var lastIndex := |pool| - 1;
      var prevFromLastIndex := |pool| - 2;
      var lastRecord := pool[lastIndex];
      var prevFromLastRecord := pool[prevFromLastIndex];
      var indexToRemove;
      var same := ComparePrices(lastRecord, prevFromLastRecord);
      if same {
        indexToRemove := lastIndex;
        r := Some(lastRecord);
        PopLast(pool, entries);
      } else {
        indexToRemove := prevFromLastIndex;
        r := Some(prevFromLastRecord);
        PopBeforeLast(pool, entries);
      }
      pool := Without(pool, indexToRemove);
    }

    method NextFromIterator() returns (r: Option<Record>)
      modifies this`entries
      ensures old(entries) == (if r == None then [] else [r.value] + entries)
      ensures r == None ==> entries == []
    {
      if |entries| == 0 {
        return None;
      }
      r := Some(entries[0]);
      entries := entries[1..];
    }
  }

  function Without(pool: seq<Record>, i: nat): seq<Record>
    requires i < |pool|
  {
    pool[..i] + pool[i + 1..]
  }

  /** The pool is one whole level and nothing follows: its last record is the oldest. */
  lemma PopLast(pool: seq<Record>, entries: seq<Record>)
    requires ValidPool(pool, entries) && 2 <= |pool| && !NextStarted(pool)
    ensures var rest := Without(pool, |pool| - 1);
            && Pending(pool, entries) == [pool[|pool| - 1]] + Pending(rest, entries)
            && ValidPool(rest, entries)
  {
    var n := |pool| - 1;
    assert Without(pool, n) == pool[..n];
    assert 2 <= n ==> pool[n - 1].price == pool[0].price == pool[n - 2].price;
    ReversedPop(pool);
  }

  /** The pool ends with the first record of the next level: the one before it is the oldest. */
  lemma PopBeforeLast(pool: seq<Record>, entries: seq<Record>)
    requires ValidPool(pool, entries) && NextStarted(pool)
    ensures var rest := Without(pool, |pool| - 2);
            && Pending(pool, entries) == [pool[|pool| - 2]] + Pending(rest, entries)
            && ValidPool(rest, entries)
  {
    hide Turned, Reversed, Canonical;
    var n := |pool| - 1;
    var level, shorter, next := pool[..n], pool[..n - 1], Turned([pool[n]], entries);
    ReversedPop(level);
    assert level[..n - 1] == shorter;
    assert [level[n - 1]] + Reversed(shorter) + next == [level[n - 1]] + (Reversed(shorter) + next);
    var rest := Without(pool, n - 1);
    assert rest == shorter + [pool[n]];
    if n == 1 {
      assert Reversed(shorter) + next == next && rest == [pool[n]];
    } else {
      assert rest[..|rest| - 1] == shorter;
      assert level[n - 1].price == level[0].price == level[n - 2].price;
    }
  }

  // ----- what the order of the output is -----

  /** Nothing is lost and nothing is repeated. */
  lemma {:induction false} TurnedPermutes(level: seq<Record>, s: seq<Record>)
    ensures multiset(Turned(level, s)) == multiset(level) + multiset(s)
    decreases |s|
  {
    ReversedMultiset(level);
    if |s| != 0 {
      assert s == [s[0]] + s[1..];
      if level == [] || s[0].price == level[0].price {
        TurnedPermutes(level + [s[0]], s[1..]);
      } else {
        TurnedPermutes([s[0]], s[1..]);
      }
    }
  }

  /** Higher rank first, then lower sequence. */
  ghost predicate HighThenOld(a: Record, b: Record, rank: Price -> int) {
    rank(b.price) < rank(a.price) || (a.price == b.price && a.sequence < b.sequence)
  }

  ghost predicate HighThenOldSorted(s: seq<Record>, rank: Price -> int) {
    forall i, j | 0 <= i < j < |s| :: HighThenOld(s[i], s[j], rank)
  }

  /** What reading a side from the tail yields: descending rank, and descending sequence within it. */
  ghost predicate DescendingKeys(s: seq<Record>, rank: Price -> int) {
    forall i, j | 0 <= i < j < |s| ::
      rank(s[j].price) < rank(s[i].price) || (s[i].price == s[j].price && s[j].sequence < s[i].sequence)
  }

  lemma {:induction false} TurnedSorted(level: seq<Record>, s: seq<Record>, rank: Price -> int)
    requires OneLevel(level) && DescendingKeys(level + s, rank)
    ensures HighThenOldSorted(Turned(level, s), rank)
    decreases |s|
  {
    if |s| == 0 {
      assert level + s == level;
    } else {
      var r, rest := s[0], s[1..];
      assert s == [r] + rest && level + s == level + [r] + rest;
      if level == [] || r.price == level[0].price {
        TurnedSorted(level + [r], rest, rank);
      } else {
        DescendingTail(level, s, rank);
        TurnedSorted([r], rest, rank);
        NextLevelSorted(level, s, Turned([r], rest), rank);
      }
    }
  }

  /** A turned level goes before everything that comes out of the levels after it. */
  lemma NextLevelSorted(level: seq<Record>, s: seq<Record>, out: seq<Record>, rank: Price -> int)
    requires OneLevel(level) && DescendingKeys(level + s, rank)
    requires 0 < |level| && 0 < |s| && s[0].price != level[0].price
    requires out == Turned([s[0]], s[1..]) && HighThenOldSorted(out, rank)
    ensures HighThenOldSorted(Reversed(level) + out, rank)
  {
    TurnedPermutes([s[0]], s[1..]);
    var a := Reversed(level);
    forall i, j | 0 <= i < |a| && 0 <= j < |out| ensures HighThenOld(a[i], out[j], rank) {
      assert out[j] in multiset(out);
      assert out[j] == s[0] || out[j] in multiset(s[1..]);
      LowerLevel(level, s, |level| - 1 - i, out[j], rank);
    }
    ReversedLevelSorted(level, s, rank);
    ConcatSorted(a, out, rank);
  }

  lemma DescendingTail(a: seq<Record>, b: seq<Record>, rank: Price -> int)
    requires DescendingKeys(a + b, rank)
    ensures DescendingKeys(b, rank)
  {
    forall i, j | 0 <= i < j < |b| ensures rank(b[j].price) < rank(b[i].price)
                                        || (b[i].price == b[j].price && b[j].sequence < b[i].sequence) {
      assert b[i] == (a + b)[|a| + i] && b[j] == (a + b)[|a| + j];
    }
  }

  lemma ReversedLevelSorted(level: seq<Record>, s: seq<Record>, rank: Price -> int)
    requires OneLevel(level) && DescendingKeys(level + s, rank)
    ensures HighThenOldSorted(Reversed(level), rank)
  {
    var a := Reversed(level);
    forall i, j | 0 <= i < j < |a| ensures HighThenOld(a[i], a[j], rank) {
      var m, n := |level| - 1 - j, |level| - 1 - i;
      assert level[m] == (level + s)[m] && level[n] == (level + s)[n];
      assert level[m].price == level[0].price == level[n].price;
    }
  }

  /** Beyond a level every price is strictly lower. */
  lemma LowerLevel(level: seq<Record>, s: seq<Record>, i: nat, r: Record, rank: Price -> int)
    requires OneLevel(level) && DescendingKeys(level + s, rank) && i < |level|
    requires r in s && s[0].price != level[0].price
    ensures rank(r.price) < rank(level[i].price)
  {
    var t := level + s;
    var k :| 0 <= k < |s| && s[k] == r;
    assert t[i] == level[i] && t[|level|] == s[0] && t[|level| + k] == r;
    assert level[i].price == level[0].price;
    assert rank(t[|level|].price) < rank(t[i].price);
  }

  lemma ConcatSorted(a: seq<Record>, b: seq<Record>, rank: Price -> int)
    requires HighThenOldSorted(a, rank) && HighThenOldSorted(b, rank)
    requires forall i, j | 0 <= i < |a| && 0 <= j < |b| :: HighThenOld(a[i], b[j], rank)
    ensures HighThenOldSorted(a + b, rank)
  {
  }

  /**
   A stream of descending keys of any length, with any grouping of equal prices, comes out
   as the same records by price descending and, within a price, oldest first.
   */
  lemma OldestFirstSorted(s: seq<Record>, rank: Price -> int)
    requires DescendingKeys(s, rank)
    ensures HighThenOldSorted(OldestFirst(s), rank)
    ensures multiset(OldestFirst(s)) == multiset(s)
  {
    assert [] + s == s;
    TurnedSorted([], s, rank);
    TurnedPermutes([], s);
  }
}
