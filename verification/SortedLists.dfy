/**
 The one strictly increasing listing of a finite set: how a key-value store
 iterates its keys, and what "sorted by priority" means for orders.
 */
module SortedLists {

  /** less orders the elements of s strictly and totally. */
  ghost predicate StrictTotal<T(!new)>(s: set<T>, less: (T, T) -> bool) {
    && (forall a | a in s :: !less(a, a))
    && (forall a, b | a in s && b in s && a != b :: less(a, b) || less(b, a))
    && (forall a, b, c | a in s && b in s && c in s && less(a, b) && less(b, c) :: less(a, c))
  }

  ghost predicate Increasing<T>(xs: seq<T>, less: (T, T) -> bool) {
    forall i, j | 0 <= i < j < |xs| :: less(xs[i], xs[j])
  }

  ghost function Elements<T>(xs: seq<T>): set<T> {
    set x | x in xs
  }

  lemma {:induction false} LeastExists<T(!new)>(s: set<T>, less: (T, T) -> bool) returns (least: T)
    requires s != {} && StrictTotal(s, less)
    ensures least in s && forall x | x in s :: x == least || less(least, x)
  {
    var a :| a in s;
    if s == {a} {
      least := a;
    } else {
      var b := LeastExists(s - {a}, less);
      least := if less(a, b) then a else b;
    }
  }

  /** The elements of s in increasing order. */
  function Listing<T(==, !new)>(s: set<T>, less: (T, T) -> bool): (xs: seq<T>)
    requires StrictTotal(s, less)
    decreases s
  {
    if s == {} then []
    else
      ghost var _ := WitnessLeast(s, less);
      var least :| least in s && forall x | x in s :: x == least || less(least, x);
      [least] + Listing(s - {least}, less)
  }

  ghost function WitnessLeast<T(!new)>(s: set<T>, less: (T, T) -> bool): (least: T)
    requires s != {} && StrictTotal(s, less)
    ensures least in s && forall x | x in s :: x == least || less(least, x)
  {
    assert exists y :: y in s && forall x | x in s :: x == y || less(y, x) by {
      var y := LeastExists(s, less);
    }
    var y :| y in s && forall x | x in s :: x == y || less(y, x);
    y
  }

  /** A listing holds every element once, in order. */
  lemma {:induction false} ListingFacts<T(!new)>(s: set<T>, less: (T, T) -> bool)
    requires StrictTotal(s, less)
    ensures Elements(Listing(s, less)) == s
    ensures Increasing(Listing(s, less), less)
    ensures |Listing(s, less)| == |s|
    decreases s
  {
    if s != {} {
      var xs := Listing(s, less);
      var least, rest := xs[0], s - {xs[0]};
      ListingFacts(rest, less);
      assert xs == [least] + Listing(rest, less);
      assert |rest| == |s| - 1;
      ListingCons(least, Listing(rest, less), less);
    }
  }

  lemma ListingCons<T>(x: T, xs: seq<T>, less: (T, T) -> bool)
    requires Increasing(xs, less) && forall y | y in Elements(xs) :: less(x, y)
    ensures Increasing([x] + xs, less)
    ensures Elements([x] + xs) == {x} + Elements(xs)
  {
    var ys := [x] + xs;
    forall i, j | 0 <= i < j < |ys| ensures less(ys[i], ys[j]) {
      assert ys[j] in Elements(xs);
    }
  }

  /** Only one sequence lists a set in increasing order. */
  lemma {:induction false} IncreasingUnique<T(!new)>(xs: seq<T>, ys: seq<T>, less: (T, T) -> bool)
    requires Elements(xs) == Elements(ys) && StrictTotal(Elements(xs), less)
    requires Increasing(xs, less) && Increasing(ys, less)
    ensures xs == ys
  {
    if |xs| == 0 {
      if |ys| != 0 { HeadElement(ys); }
    } else {
      HeadElement(xs);
      if |ys| != 0 {
        HeadElement(ys);
        HeadLeast(xs, ys[0], less);
        HeadLeast(ys, xs[0], less);
        TailElements(xs, less);
        TailElements(ys, less);
        IncreasingUnique(xs[1..], ys[1..], less);
        assert xs == [xs[0]] + xs[1..] && ys == [ys[0]] + ys[1..];
      }
    }
  }

  lemma HeadElement<T>(xs: seq<T>)
    requires 0 < |xs|
    ensures xs[0] in Elements(xs)
  {
  }

  lemma HeadLeast<T>(xs: seq<T>, x: T, less: (T, T) -> bool)
    requires x in Elements(xs) && Increasing(xs, less)
    ensures x == xs[0] || less(xs[0], x)
  {
    var i :| 0 <= i < |xs| && xs[i] == x;
  }

  lemma TailElements<T(!new)>(xs: seq<T>, less: (T, T) -> bool)
    requires 0 < |xs| && Increasing(xs, less) && StrictTotal(Elements(xs), less)
    ensures Elements(xs[1..]) == Elements(xs) - {xs[0]}
  {
    forall x | x in Elements(xs) - {xs[0]} ensures x in xs[1..] {
      var i :| 0 <= i < |xs| && xs[i] == x;
      assert xs[1..][i - 1] == x;
    }
    forall x | x in xs[1..] ensures x in Elements(xs) - {xs[0]} {
      var i :| 0 <= i < |xs[1..]| && xs[1..][i] == x;
      assert x == xs[i + 1] && xs[0] in Elements(xs) && less(xs[0], xs[i + 1]);
    }
  }

  /** A sequence that lists s in increasing order is the listing of s. */
  lemma ListingUnique<T(!new)>(xs: seq<T>, s: set<T>, less: (T, T) -> bool)
    requires Elements(xs) == s && StrictTotal(s, less) && Increasing(xs, less)
    ensures xs == Listing(s, less)
  {
    ListingFacts(s, less);
    IncreasingUnique(xs, Listing(s, less), less);
  }

  // ----- reversal -----

  function Reversed<T>(xs: seq<T>): (ys: seq<T>)
    ensures |ys| == |xs|
    ensures forall i | 0 <= i < |xs| :: ys[i] == xs[|xs| - 1 - i]
  {
    seq(|xs|, i requires 0 <= i < |xs| => xs[|xs| - 1 - i])
  }

  lemma ReversedPop<T>(xs: seq<T>)
    requires 0 < |xs|
    ensures Reversed(xs) == [xs[|xs| - 1]] + Reversed(xs[..|xs| - 1])
  {
  }

  lemma {:induction false} ReversedMultiset<T>(xs: seq<T>)
    ensures multiset(Reversed(xs)) == multiset(xs)
  {
    if |xs| == 0 {
      assert Reversed(xs) == [];
    } else {
      ReversedMultiset(xs[1..]);
      assert Reversed(xs) == Reversed(xs[1..]) + [xs[0]];
      assert xs == [xs[0]] + xs[1..];
    }
  }
}
