/**
 Price-time priority between the records of a book and of its inverse book, and
 the merge of the two streams (the pure part of x/dex/keeper/keeper_matching_finder.go).
 */
module Priority {
  import opened Rational
  import opened Price
  import opened SortedLists
  import opened Types

  /**
   The price of a record in terms of the taker's book: a record on the taker's own side can
   only come from the inverse book, where prices are reciprocal.
   */
  function EffectivePrice(side: Side, r: Record): Pos {
    if r.price.num == 0 then Rat(1, 1)  // resting records never have a zero price
    else if r.side == side then Reciprocal(PriceOf(r.price))
    else PriceOf(r.price)
  }

  /** Whether a price is acceptable to a limit order. */
  predicate IsPriceMatches(side: Side, limit: Frac, price: Frac) {
    if side.Buy? then Le(price, limit) else Le(limit, price)
  }

  predicate Accepts(order: Order, r: Record) {
    match order.orderType
    case Limit => order.price.Some? && IsPriceMatches(order.side, ToRat(order.price.value), EffectivePrice(order.side, r))
    case Market => true
    case UnspecifiedType => false
  }

  /** Price x at sequence m goes before price y at sequence n for a taker on the given side. */
  predicate Better(side: Side, x: Pos, m: nat, y: Pos, n: nat) {
    || (if side.Buy? then Lt(x, y) else Lt(y, x))
    || (Eq(x, y) && m < n)
  }

  predicate Ahead(side: Side, a: Record, b: Record) {
    Better(side, EffectivePrice(side, a), a.sequence, EffectivePrice(side, b), b.sequence)
  }

  /** Whether the loaded direct record beats the loaded inverted one. */
  predicate IsDirectRecordBestMatch(side: Side, direct: Record, inverted: Record, directMatches: bool, invertedMatches: bool)
    requires 0 < direct.price.num && 0 < inverted.price.num
  {
    if directMatches && !invertedMatches then true
    else if !directMatches && invertedMatches then false
    else
      var directPrice: Pos := PriceOf(direct.price);
      var invertedInvPrice: Pos := Reciprocal(PriceOf(inverted.price));
      if Eq(directPrice, invertedInvPrice) then direct.sequence < inverted.sequence
      else if side.Buy? then Le(directPrice, invertedInvPrice)
      else Le(invertedInvPrice, directPrice)
  }

  function AcceptsBy(order: Order): Record -> bool {
    r => Accepts(order, r)
  }

  function AheadFor(side: Side): (Record, Record) -> bool {
    (a, b) => Ahead(side, a, b)
  }

  // ----- priority is a strict total order -----

  lemma BetterTransitive(side: Side, x: Pos, m: nat, y: Pos, n: nat, z: Pos, k: nat)
    requires Better(side, x, m, y, n) && Better(side, y, n, z, k)
    ensures Better(side, x, m, z, k)
  {
    if Eq(x, y) && Eq(y, z) {
      EqTrans(x, y, z);
    } else if side.Buy? {
      if Lt(x, y) { LtLeTrans(x, y, z); } else { LeLtTrans(x, y, z); }
    } else {
      if Lt(z, y) { LtLeTrans(z, y, x); } else { LeLtTrans(z, y, x); }
    }
  }

  lemma BetterTotal(side: Side, x: Pos, m: nat, y: Pos, n: nat)
    requires m != n
    ensures Better(side, x, m, y, n) || Better(side, y, n, x, m)
  {
  }

  /** Priority orders any set of records with distinct sequences. */
  lemma AheadStrictTotal(side: Side, s: set<Record>)
    requires DistinctSeqs(s)
    ensures StrictTotal(s, AheadFor(side))
  {
    var ahead := AheadFor(side);
    forall a | a in s ensures !ahead(a, a) {
    }
    forall a, b | a in s && b in s && a != b ensures ahead(a, b) || ahead(b, a) {
      BetterTotal(side, EffectivePrice(side, a), a.sequence, EffectivePrice(side, b), b.sequence);
    }
    forall a, b, c | a in s && b in s && c in s && ahead(a, b) && ahead(b, c) ensures ahead(a, c) {
      BetterTransitive(side, EffectivePrice(side, a), a.sequence, EffectivePrice(side, b), b.sequence,
                       EffectivePrice(side, c), c.sequence);
    }
  }

  lemma MatchesBetter(side: Side, limit: Frac, x: Pos, m: nat, y: Pos, n: nat)
    requires IsPriceMatches(side, limit, y) && Better(side, x, m, y, n)
    ensures IsPriceMatches(side, limit, x)
  {
    if side.Buy? { LeTrans(x, y, limit); } else { LeTrans(limit, y, x); }
  }

  /** Whoever is ahead of an acceptable record is acceptable. */
  lemma AcceptsAhead(order: Order, a: Record, b: Record)
    requires Accepts(order, b) && Ahead(order.side, a, b)
    ensures Accepts(order, a)
  {
    if order.orderType.Limit? {
      MatchesBetter(order.side, ToRat(order.price.value), EffectivePrice(order.side, a), a.sequence,
                    EffectivePrice(order.side, b), b.sequence);
    }
  }

  lemma MarketAccepts(order: Order)
    requires order.orderType.Market?
    ensures forall r :: Accepts(order, r)
  {
  }

  /** The finder's comparison of two matching records is priority. */
  lemma BestMatchIsAhead(side: Side, direct: Record, inverted: Record, directMatches: bool, invertedMatches: bool)
    requires 0 < direct.price.num && 0 < inverted.price.num
    requires direct.side != side && inverted.side == side && direct.sequence != inverted.sequence
    requires directMatches || invertedMatches
    ensures IsDirectRecordBestMatch(side, direct, inverted, directMatches, invertedMatches)
            <==> directMatches && (!invertedMatches || Ahead(side, direct, inverted))
  {
  }

  // ----- merging two streams -----

  /** Takes the better of two heads as long as one is acceptable. */
  ghost function Merge(ds: seq<Record>, vs: seq<Record>, accept: Record -> bool, ahead: (Record, Record) -> bool): seq<Record>
    decreases |ds| + |vs|
  {
    var d := ds != [] && accept(ds[0]);
    var v := vs != [] && accept(vs[0]);
    if !d && !v then []
    else if d && (!v || ahead(ds[0], vs[0])) then [ds[0]] + Merge(ds[1..], vs, accept, ahead)
    else [vs[0]] + Merge(ds, vs[1..], accept, ahead)
  }

  ghost predicate ClosedUnder(s: set<Record>, accept: Record -> bool, ahead: (Record, Record) -> bool) {
    forall a, b | a in s && b in s && accept(b) && ahead(a, b) :: accept(a)
  }

  ghost function Acceptable(s: set<Record>, accept: Record -> bool): set<Record> {
    set r | r in s && accept(r)
  }

  /** Two sorted, disjoint streams that together are ordered by priority. */
  ghost predicate Mergeable(ds: seq<Record>, vs: seq<Record>, accept: Record -> bool, ahead: (Record, Record) -> bool) {
    && Increasing(ds, ahead) && Increasing(vs, ahead)
    && Elements(ds) !! Elements(vs)
    && StrictTotal(Elements(ds) + Elements(vs), ahead)
    && ClosedUnder(Elements(ds) + Elements(vs), accept, ahead)
  }

  lemma MergeableDrop(ds: seq<Record>, vs: seq<Record>, accept: Record -> bool, ahead: (Record, Record) -> bool)
    requires Mergeable(ds, vs, accept, ahead) && 0 < |ds|
    ensures Mergeable(ds[1..], vs, accept, ahead)
    ensures Elements(ds) == {ds[0]} + Elements(ds[1..]) && ds[0] !in Elements(ds[1..])
    ensures forall x | x in Elements(ds[1..]) :: ahead(ds[0], x)
  {
    assert StrictTotal(Elements(ds), ahead);
    TailElements(ds, ahead);
    assert Elements(ds[1..]) + Elements(vs) <= Elements(ds) + Elements(vs);
    forall x | x in Elements(ds[1..]) ensures ahead(ds[0], x) {
      HeadElement(ds);
      HeadLeast(ds, x, ahead);
    }
  }

  lemma MergeableSwap(ds: seq<Record>, vs: seq<Record>, accept: Record -> bool, ahead: (Record, Record) -> bool)
    requires Mergeable(ds, vs, accept, ahead)
    ensures Mergeable(vs, ds, accept, ahead)
  {
    assert Elements(vs) + Elements(ds) == Elements(ds) + Elements(vs);
  }

  /** A stream whose head is refused holds nothing acceptable. */
  lemma NoneAcceptable(ds: seq<Record>, s: set<Record>, accept: Record -> bool, ahead: (Record, Record) -> bool)
    requires Increasing(ds, ahead) && Elements(ds) <= s && ClosedUnder(s, accept, ahead)
    requires ds != [] ==> !accept(ds[0])
    ensures forall r | r in Elements(ds) :: !accept(r)
  {
    forall r | r in Elements(ds) ensures !accept(r) {
      HeadElement(ds);
      HeadLeast(ds, r, ahead);
    }
  }

  /** x is ahead of every acceptable record of vs, given that it is ahead of an acceptable head. */
  lemma AheadOfAll(x: Record, vs: seq<Record>, s: set<Record>, accept: Record -> bool, ahead: (Record, Record) -> bool)
    requires Increasing(vs, ahead) && Elements(vs) <= s && x in s
    requires StrictTotal(s, ahead) && ClosedUnder(s, accept, ahead)
    requires vs != [] && accept(vs[0]) ==> ahead(x, vs[0])
    ensures forall r | r in Elements(vs) && accept(r) :: ahead(x, r)
  {
    if vs == [] || !accept(vs[0]) {
      NoneAcceptable(vs, s, accept, ahead);
    } else {
      forall r | r in Elements(vs) && accept(r) ensures ahead(x, r) {
        HeadElement(vs);
        HeadLeast(vs, r, ahead);
      }
    }
  }

  lemma {:induction false} MergeSorts(ds: seq<Record>, vs: seq<Record>, accept: Record -> bool, ahead: (Record, Record) -> bool)
    requires Mergeable(ds, vs, accept, ahead)
    ensures Increasing(Merge(ds, vs, accept, ahead), ahead)
    ensures Elements(Merge(ds, vs, accept, ahead)) == Acceptable(Elements(ds) + Elements(vs), accept)
    decreases |ds| + |vs|
  {
    var s := Elements(ds) + Elements(vs);
    var d := ds != [] && accept(ds[0]);
    var v := vs != [] && accept(vs[0]);
    if !d && !v {
      NoneAcceptable(ds, s, accept, ahead);
      NoneAcceptable(vs, s, accept, ahead);
    } else if d && (!v || ahead(ds[0], vs[0])) {
      HeadElement(ds);
      AheadOfAll(ds[0], vs, s, accept, ahead);
      MergeableDrop(ds, vs, accept, ahead);
      MergeSorts(ds[1..], vs, accept, ahead);
      ListingCons(ds[0], Merge(ds[1..], vs, accept, ahead), ahead);
    } else {
      HeadElement(vs);
      if d { HeadElement(ds); }
      AheadOfAll(vs[0], ds, s, accept, ahead);
      MergeableSwap(ds, vs, accept, ahead);
      MergeableDrop(vs, ds, accept, ahead);
      MergeableSwap(vs[1..], ds, accept, ahead);
      MergeSorts(ds, vs[1..], accept, ahead);
      ListingCons(vs[0], Merge(ds, vs[1..], accept, ahead), ahead);
    }
  }

  /** The makers for an order among the records s, best first: filter, then sort. */
  ghost function PriorityList(order: Order, s: set<Record>): seq<Record>
    requires DistinctSeqs(s)
  {
    AheadStrictTotal(order.side, Acceptable(s, AcceptsBy(order)));
    Listing(Acceptable(s, AcceptsBy(order)), AheadFor(order.side))
  }

  /** Merging two streams in priority order gives the filtered and sorted list of all their records. */
  lemma MergeIsPriorityList(order: Order, ds: seq<Record>, vs: seq<Record>)
    requires Elements(ds) !! Elements(vs) && DistinctSeqs(Elements(ds) + Elements(vs))
    requires Increasing(ds, AheadFor(order.side)) && Increasing(vs, AheadFor(order.side))
    ensures Merge(ds, vs, AcceptsBy(order), AheadFor(order.side))
         == PriorityList(order, Elements(ds) + Elements(vs))
  {
    var s, accept, ahead := Elements(ds) + Elements(vs), AcceptsBy(order), AheadFor(order.side);
    AheadStrictTotal(order.side, s);
    forall a, b | a in s && b in s && accept(b) && ahead(a, b) ensures accept(a) {
      AcceptsAhead(order, a, b);
    }
    MergeSorts(ds, vs, accept, ahead);
    AheadStrictTotal(order.side, Acceptable(s, accept));
    ListingUnique(Merge(ds, vs, accept, ahead), Acceptable(s, accept), ahead);
  }
}
