/**
 The matching finder (x/dex/keeper/keeper_matching_finder.go): it walks a book and
 its inverse book side by side and returns the best acceptable maker each time.
 */
module Finder {
  import opened Bytes
  import opened Rational
  import opened Price
  import opened SortedLists
  import opened Types
  import opened Keys
  import opened Iterator
  import opened Priority

  // ----- the order in which one side of a book is read -----

  /** The records of one side, as the iterator returns them: buys from the tail, sells from the head. */
  ghost function Queue(side: Side, listing: seq<Record>): seq<Record> {
    if side.Buy? then OldestFirst(Reversed(listing)) else listing
  }

  /** All of s can rest on one side of one book. */
  ghost predicate OneSide(s: set<Record>, side: Side) {
    && DistinctSeqs(s)
    && (forall r | r in s :: Storable(r) && r.side == side)
    && (forall a, b | a in s && b in s :: a.book == b.book)
  }

  /** The stored records of one side in key order. */
  function SideListing(s: set<Record>, side: Side): seq<Record>
    requires OneSide(s, side)
  {
    KeyLessTotal(s);
    Listing(s, KeyLess)
  }

  /** An integer that orders canonical prices by value. */
  ghost function Rank(p: Price): int {
    if p.exp < -128 then 0 else Scaled(p.exp, p.num, 128)
  }

  lemma RankOrders(p: CanonicalPrice, q: CanonicalPrice)
    ensures Lt(ToRat(p), ToRat(q)) <==> Rank(p) < Rank(q)
  {
    ToRatOrder(q, p, 128);
  }

  /** On the sell side, key order is priority for takers of either side. */
  lemma SellKeyOrderIsPriority(taker: Side, a: Record, b: Record)
    requires Storable(a) && Storable(b) && a.side == b.side == Sell && a.book == b.book
    requires KeyLess(a, b)
    ensures Ahead(taker, a, b)
  {
    KeyOrderIsPriceThenSeq(a, b);
    ReciprocalFlips(PriceOf(a.price), PriceOf(b.price));
    ReciprocalFlips(PriceOf(b.price), PriceOf(a.price));
  }

  /** On the buy side, higher price and then age is priority for takers of either side. */
  lemma BuyOrderIsPriority(taker: Side, a: Record, b: Record)
    requires Storable(a) && Storable(b) && a.side == b.side == Buy
    requires HighThenOld(a, b, Rank)
    ensures Ahead(taker, a, b)
  {
    RankOrders(b.price, a.price);
    ReciprocalFlips(PriceOf(a.price), PriceOf(b.price));
    ReciprocalFlips(PriceOf(b.price), PriceOf(a.price));
  }

  lemma SellQueueSorted(taker: Side, s: set<Record>)
    requires OneSide(s, Sell)
    ensures Increasing(Queue(Sell, SideListing(s, Sell)), AheadFor(taker))
    ensures Elements(Queue(Sell, SideListing(s, Sell))) == s
  {
    KeyLessTotal(s);
    ListingFacts(s, KeyLess);
    var q, ahead := Queue(Sell, SideListing(s, Sell)), AheadFor(taker);
    forall i, j | 0 <= i < j < |q| ensures ahead(q[i], q[j]) {
      assert q[i] in Elements(q) && q[j] in Elements(q);
      SellKeyOrderIsPriority(taker, q[i], q[j]);
    }
  }

  lemma KeyOrderRanks(a: Record, b: Record)
    requires Storable(a) && Storable(b) && a.book == b.book && a.side == b.side && KeyLess(a, b)
    ensures Rank(a.price) < Rank(b.price) || (a.price == b.price && a.sequence < b.sequence)
  {
    KeyOrderIsPriceThenSeq(a, b);
    RankOrders(a.price, b.price);
    if Eq(ToRat(a.price), ToRat(b.price)) {
      EqualValueEqualPrice(a.price, b.price);
    }
  }

  ghost predicate Lower(a: Record, b: Record, rank: Price -> int) {
    rank(a.price) < rank(b.price) || (a.price == b.price && a.sequence < b.sequence)
  }

  lemma ListingRanks(s: set<Record>, side: Side, i: nat, j: nat)
    requires OneSide(s, side) && i < j < |SideListing(s, side)|
    ensures Lower(SideListing(s, side)[i], SideListing(s, side)[j], Rank)
  {
    hide KeyLess, Rank, Storable, StrictTotal;
    KeyLessTotal(s);
    ListingFacts(s, KeyLess);
    var xs := SideListing(s, side);
    assert xs[i] in Elements(xs) && xs[j] in Elements(xs);
    KeyOrderRanks(xs[i], xs[j]);
  }

  lemma ReversedDescends(xs: seq<Record>, rank: Price -> int)
    requires forall i, j | 0 <= i < j < |xs| :: Lower(xs[i], xs[j], rank)
    ensures DescendingKeys(Reversed(xs), rank)
  {
    var t := Reversed(xs);
    forall i, j | 0 <= i < j < |t| ensures Lower(t[j], t[i], rank) {
      assert Lower(xs[|xs| - 1 - j], xs[|xs| - 1 - i], rank);
    }
  }

  lemma ReversedListingDescends(s: set<Record>)
    requires OneSide(s, Buy)
    ensures DescendingKeys(Reversed(SideListing(s, Buy)), Rank)
  {
    hide Rank, Lower, SideListing, DescendingKeys, OneSide;
    var xs := SideListing(s, Buy);
    forall i, j | 0 <= i < j < |xs| ensures Lower(xs[i], xs[j], Rank) {
      ListingRanks(s, Buy, i, j);
    }
    ReversedDescends(xs, Rank);
  }

  lemma BuyQueueSorted(taker: Side, s: set<Record>)
    requires OneSide(s, Buy)
    ensures Increasing(Queue(Buy, SideListing(s, Buy)), AheadFor(taker))
    ensures Elements(Queue(Buy, SideListing(s, Buy))) == s
  {
    KeyLessTotal(s);
    ListingFacts(s, KeyLess);
    var xs := SideListing(s, Buy);
    ReversedListingDescends(s);
    OldestFirstSorted(Reversed(xs), Rank);
    ReversedMultiset(xs);
    var q, ahead := Queue(Buy, xs), AheadFor(taker);
    SameElements(q, xs);
    forall i, j | 0 <= i < j < |q| ensures ahead(q[i], q[j]) {
      assert q[i] in Elements(q) && q[j] in Elements(q);
      BuyOrderIsPriority(taker, q[i], q[j]);
    }
  }

  lemma SameElements(xs: seq<Record>, ys: seq<Record>)
    requires multiset(xs) == multiset(ys)
    ensures Elements(xs) == Elements(ys)
  {
    forall x ensures x in xs <==> x in ys {
      assert x in xs <==> x in multiset(xs);
      assert x in ys <==> x in multiset(ys);
    }
  }

  /** Each side of a book is read in priority order, and completely. */
  lemma QueueSorted(taker: Side, side: Side, s: set<Record>)
    requires OneSide(s, side)
    ensures Increasing(Queue(side, SideListing(s, side)), AheadFor(taker))
    ensures Elements(Queue(side, SideListing(s, side))) == s
  {
    if side.Buy? { BuyQueueSorted(taker, s); } else { SellQueueSorted(taker, s); }
  }

  /**
   Price-time priority: merging the direct queue (opposite side of the taker's book) with the
   inverted queue (same side of the inverse book) yields exactly the acceptable records of
   both, sorted by effective price and then by age.
   */
  lemma FinderYieldsPriorityList(order: Order, direct: set<Record>, inverted: set<Record>)
    requires OneSide(direct, order.side.Opposite()) && OneSide(inverted, order.side)
    requires DistinctSeqs(direct + inverted)
    ensures Merge(Queue(order.side.Opposite(), SideListing(direct, order.side.Opposite())),
                  Queue(order.side, SideListing(inverted, order.side)),
                  AcceptsBy(order), AheadFor(order.side))
         == PriorityList(order, direct + inverted)
  {
    QueueSorted(order.side, order.side.Opposite(), direct);
    QueueSorted(order.side, order.side, inverted);
    assert forall r | r in direct :: r.side != order.side;
    assert direct !! inverted;
    MergeIsPriorityList(order, Queue(order.side.Opposite(), SideListing(direct, order.side.Opposite())),
                        Queue(order.side, SideListing(inverted, order.side)));
  }

  // ----- the finder -----

  datatype NextResult = Found(record: Record) | NoMatch | InvalidOrderType

  ghost predicate Offers(s: seq<Record>, side: Side) {
    forall r | r in s :: Canonical(r.price) && r.side == side
  }

  ghost function Loaded(r: Option<Record>): seq<Record> {
    if r.Some? then [r.value] else []
  }

  /** The next maker, in terms of the heads of the two streams. */
  lemma MergeHead(order: Order, ds: seq<Record>, vs: seq<Record>)
    ensures var d, v := ds != [] && Accepts(order, ds[0]), vs != [] && Accepts(order, vs[0]);
            var accept, ahead := AcceptsBy(order), AheadFor(order.side);
            Merge(ds, vs, accept, ahead) ==
            if !d && !v then []
            else if d && (!v || Ahead(order.side, ds[0], vs[0])) then [ds[0]] + Merge(ds[1..], vs, accept, ahead)
            else [vs[0]] + Merge(ds, vs[1..], accept, ahead)
  {
    hide Accepts, Ahead;
  }

  class MatchingFinder {
    const order: Order
    const directOBIterator: OrderBookIterator
    const invertedOBIterator: OrderBookIterator
    var directOBRecord: Option<Record>
    var invertedOBRecord: Option<Record>

    ghost predicate Valid()
      reads this, directOBIterator, invertedOBIterator
    {
      && directOBIterator != invertedOBIterator
      && directOBIterator.Valid() && invertedOBIterator.Valid()
      && Offers(Direct(), order.side.Opposite()) && Offers(Inverted(), order.side)
      && (forall a, b | a in Direct() && b in Inverted() :: a.sequence != b.sequence)
      && (order.orderType.Limit? ==> order.price.Some?)
    }

    /** What is left of the direct side. */
    ghost function Direct(): seq<Record>
      reads this, directOBIterator
    {
      Loaded(directOBRecord) + directOBIterator.Remaining()
    }

    ghost function Inverted(): seq<Record>
      reads this, invertedOBIterator
    {
      Loaded(invertedOBRecord) + invertedOBIterator.Remaining()
    }

    /** The makers this finder will still return, in order. */
    ghost function Plan(): seq<Record>
      reads this, directOBIterator, invertedOBIterator
    {
      Merge(Direct(), Inverted(), AcceptsBy(order), AheadFor(order.side))
    }

    constructor (order: Order, directOBIterator: OrderBookIterator, invertedOBIterator: OrderBookIterator)
      requires directOBIterator != invertedOBIterator
      requires directOBIterator.Valid() && invertedOBIterator.Valid()
      requires Offers(directOBIterator.Remaining(), order.side.Opposite())
      requires Offers(invertedOBIterator.Remaining(), order.side)
      requires forall a, b | a in directOBIterator.Remaining() && b in invertedOBIterator.Remaining() :: a.sequence != b.sequence
      requires order.orderType.Limit? ==> order.price.Some?
      ensures Valid() && this.order == order
      ensures this.directOBIterator == directOBIterator && this.invertedOBIterator == invertedOBIterator
      ensures Plan() == Merge(directOBIterator.Remaining(), invertedOBIterator.Remaining(), AcceptsBy(order), AheadFor(order.side))
    {
      hide OrderBookIterator.Valid, OrderBookIterator.Remaining, Canonical, Merge;
      this.order := order;
      this.directOBIterator := directOBIterator;
      this.invertedOBIterator := invertedOBIterator;
      directOBRecord := None;
      invertedOBRecord := None;
      new;
      assert Direct() == directOBIterator.Remaining() && Inverted() == invertedOBIterator.Remaining();
    }

    /** Returns the next maker of the plan, or reports that no record left is acceptable. */
    method Next() returns (r: NextResult)
      requires Valid()
      modifies this, directOBIterator, invertedOBIterator
      ensures Valid()
      ensures r.InvalidOrderType? <==> order.orderType.UnspecifiedType?
      ensures r.Found? ==> old(Plan()) == [r.record] + Plan()
      ensures r.NoMatch? ==> old(Plan()) == []
    {
      hide Accepts, Ahead, OrderBookIterator.Valid, OrderBookIterator.Remaining, Merge, Valid;
      LoadOrders();
      ghost var ds, vs := Direct(), Inverted();
      MergeHead(order, ds, vs);
      var directMatches, invertedMatches := false, false;
      match order.orderType {
        case Limit =>
          directMatches := IsDirectRecordMatches();
          invertedMatches := IsInvertedRecordMatches();
        case Market =>
          MarketAccepts(order);
          directMatches := directOBRecord.Some?;
          invertedMatches := invertedOBRecord.Some?;
        case UnspecifiedType =>
          return InvalidOrderType;
      }
      if !directMatches && !invertedMatches {
        return NoMatch;
      }
      var directIsBest := IsDirectRecordBest(directMatches, invertedMatches);
      var record;
      if directIsBest {
        record := TakeDirect();
      } else {
        record := TakeInverted();
      }
      r := Found(record);
    }

    method TakeDirect() returns (record: Record)
      requires Valid() && directOBRecord.Some?
      modifies this`directOBRecord
      ensures Valid() && record == old(directOBRecord.value)
      ensures Direct() == old(Direct())[1..] && Inverted() == old(Inverted())
    {
      hide Canonical, OrderBookIterator.Valid, OrderBookIterator.Remaining;
      record := directOBRecord.value;
      ghost var ds := Direct();
      directOBRecord := None;
      assert Direct() == ds[1..];
    }

    method TakeInverted() returns (record: Record)
      requires Valid() && invertedOBRecord.Some?
      modifies this`invertedOBRecord
      ensures Valid() && record == old(invertedOBRecord.value)
      ensures Direct() == old(Direct()) && Inverted() == old(Inverted())[1..]
    {
      hide Canonical, OrderBookIterator.Valid, OrderBookIterator.Remaining;
      record := invertedOBRecord.value;
      ghost var vs := Inverted();
      invertedOBRecord := None;
      assert Inverted() == vs[1..];
    }

    method IsDirectRecordMatches() returns (matches: bool)
      requires Valid() && order.orderType.Limit?
      ensures matches <==> directOBRecord.Some? && Accepts(order, directOBRecord.value)
    {
      hide OrderBookIterator.Valid, OrderBookIterator.Remaining, ToRat, Le;
      if directOBRecord == None {
        return false;
      }
      assert directOBRecord.value in Direct();
      matches := IsPriceMatches(order.side, ToRat(order.price.value), ToRat(directOBRecord.value.price));
    }

    method IsInvertedRecordMatches() returns (matches: bool)
      requires Valid() && order.orderType.Limit?
      ensures matches <==> invertedOBRecord.Some? && Accepts(order, invertedOBRecord.value)
    {
      hide OrderBookIterator.Valid, OrderBookIterator.Remaining, ToRat, Le;
      if invertedOBRecord == None {
        return false;
      }
      assert invertedOBRecord.value in Inverted();
      matches := IsPriceMatches(order.side, ToRat(order.price.value), Reciprocal(PriceOf(invertedOBRecord.value.price)));
    }

    method IsDirectRecordBest(directMatches: bool, invertedMatches: bool) returns (best: bool)
      requires Valid() && (directMatches || invertedMatches)
      requires directMatches ==> directOBRecord.Some?
      requires invertedMatches ==> invertedOBRecord.Some?
      ensures best <==> directMatches && (!invertedMatches || Ahead(order.side, directOBRecord.value, invertedOBRecord.value))
    {
      hide OrderBookIterator.Valid, OrderBookIterator.Remaining, ToRat, Le, Ahead;
      if !directMatches || !invertedMatches {
        return directMatches;
      }
      var d, v := directOBRecord.value, invertedOBRecord.value;
      assert d in Direct() && v in Inverted();
      BestMatchIsAhead(order.side, d, v, true, true);
      best := IsDirectRecordBestMatch(order.side, d, v, true, true);
    }

    method LoadOrders()
      requires Valid()
      modifies this, directOBIterator, invertedOBIterator
      ensures Valid()
      ensures Direct() == old(Direct()) && Inverted() == old(Inverted())
      ensures directOBRecord == None ==> Direct() == []
      ensures invertedOBRecord == None ==> Inverted() == []
    {
      hide Canonical, OrderBookIterator.Valid, OrderBookIterator.Remaining;
      if directOBRecord == None {
        var found := directOBIterator.Next();
        directOBRecord := found;
      }
      if invertedOBRecord == None {
        var found := invertedOBIterator.Next();
        invertedOBRecord := found;
      }
    }
  }
}
