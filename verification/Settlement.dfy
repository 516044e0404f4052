/**
 Applying a matching result to the store: which orders remain open, and what the
 collected ledger actions amount to.
 */
module Settlement {
  import opened Bytes
  import opened Price
  import opened Types
  import opened Ledgers
  import opened Amounts
  import opened Actions
  import opened Orders
  import opened Engine
  import opened Exchange
  import opened Store

  // ----- open orders -----

  ghost function Sequences(records: seq<Record>): set<nat> {
    set r | r in records :: r.sequence
  }

  /** Records of distinct open orders, quantities aside. */
  ghost predicate RemovalsOf(open: map<nat, OpenOrder>, records: seq<Record>) {
    && (forall i | 0 <= i < |records| ::
          records[i].sequence in open && SameBookEntry(open[records[i].sequence].record, records[i]))
    && (forall i, j | 0 <= i < j < |records| :: records[i].sequence != records[j].sequence)
  }

  ghost predicate ClosedBy(fills: seq<Fill>, r: Record) {
    exists i :: 0 <= i < |fills| && fills[i].closed && fills[i].after == r
  }

  lemma {:induction false} ClosedRemovals(open: map<nat, OpenOrder>, fills: seq<Fill>)
    requires FillsOf(open, fills)
    ensures RemovalsOf(open, ClosedRecords(fills))
    ensures forall r :: r in ClosedRecords(fills) <==> ClosedBy(fills, r)
    decreases |fills|
  {
    hide GoodFill;
    if |fills| != 0 {
      var prefix, f := fills[..|fills| - 1], fills[|fills| - 1];
      FillsOfPrefix(open, fills);
      ClosedRemovals(open, prefix);
      FilledRecord(f);
      forall r ensures ClosedBy(fills, r) <==> ClosedBy(prefix, r) || (f.closed && f.after == r) {
        ClosedBySplit(fills, r);
      }
      forall i | 0 <= i < |ClosedRecords(prefix)| ensures ClosedRecords(prefix)[i].sequence != f.maker.sequence {
        var r := ClosedRecords(prefix)[i];
        assert ClosedBy(prefix, r);
        var j :| 0 <= j < |prefix| && prefix[j].closed && prefix[j].after == r;
        FilledRecord(prefix[j]);
      }
    }
  }

  lemma ClosedBySplit(fills: seq<Fill>, r: Record)
    requires 0 < |fills|
    ensures var prefix, f := fills[..|fills| - 1], fills[|fills| - 1];
            ClosedBy(fills, r) <==> ClosedBy(prefix, r) || (f.closed && f.after == r)
  {
    var prefix, f := fills[..|fills| - 1], fills[|fills| - 1];
    if ClosedBy(prefix, r) {
      var i :| 0 <= i < |prefix| && prefix[i].closed && prefix[i].after == r;
      assert fills[i] == prefix[i];
    }
    if i :| 0 <= i < |fills| && fills[i].closed && fills[i].after == r {
      if i < |prefix| {
        assert prefix[i] == fills[i];
      }
    }
  }

  /** Removing the closed records and then saving the one that changed leaves what the fills leave. */
  ghost function Settled(open: map<nat, OpenOrder>, fills: seq<Fill>): map<nat, OpenOrder> {
    var rest := open - Sequences(ClosedRecords(fills));
    match UpdatedRecord(fills)
    case None => rest
    case Some(r) => if r.sequence in rest then rest[r.sequence := rest[r.sequence].(record := r)] else rest
  }

  lemma SettledIsApplied(open: map<nat, OpenOrder>, fills: seq<Fill>)
    requires FillsOf(open, fills) && forall i | 0 <= i < |fills| - 1 :: fills[i].closed
    ensures Settled(open, fills) == ApplyFills(open, fills)
    ensures UpdatedRecord(fills).Some? ==>
              var r := UpdatedRecord(fills).value;
              && r.sequence in open && r.sequence !in Sequences(ClosedRecords(fills))
              && SameBookEntry(open[r.sequence].record, r)
  {
    hide GoodFill, ApplyFills, ClosedRecords, SameBookEntry, Settled;
    ClosedRemovals(open, fills);
    if UpdatedRecord(fills).Some? {
      var f := fills[|fills| - 1];
      FilledEntry(f);
      ClosedSequence(open, fills, f.maker.sequence);
    }
    var settled, applied := Settled(open, fills), ApplyFills(open, fills);
    forall q ensures q in settled <==> q in applied
             ensures q in settled ==> settled[q] == applied[q]
    {
      if i :| 0 <= i < |fills| && fills[i].maker.sequence == q {
        SettledAt(open, fills, i);
        ApplyFillsAt(open, fills, i);
      } else {
        SettledKeeps(open, fills, q);
        ApplyFillsKeeps(open, fills, q);
      }
    }
  }

  /** An order that a fill concerns is gone or carries the fill's record. */
  lemma SettledAt(open: map<nat, OpenOrder>, fills: seq<Fill>, i: nat)
    requires FillsOf(open, fills) && i < |fills| && forall i | 0 <= i < |fills| - 1 :: fills[i].closed
    requires forall r :: r in ClosedRecords(fills) <==> ClosedBy(fills, r)
    ensures var q, out := fills[i].maker.sequence, Settled(open, fills);
            && (q in out <==> !fills[i].closed)
            && (q in out ==> out[q] == open[q].(record := fills[i].after))
  {
    hide GoodFill, ClosedRecords, SameBookEntry;
    ClosedSequence(open, fills, fills[i].maker.sequence);
    FilledEntry(fills[i]);
    FilledEntry(fills[|fills| - 1]);
  }

  /** Any other order stays as it is. */
  lemma SettledKeeps(open: map<nat, OpenOrder>, fills: seq<Fill>, q: nat)
    requires FillsOf(open, fills) && forall i | 0 <= i < |fills| :: fills[i].maker.sequence != q
    requires forall r :: r in ClosedRecords(fills) <==> ClosedBy(fills, r)
    ensures var out := Settled(open, fills); (q in out <==> q in open) && (q in open ==> out[q] == open[q])
  {
    hide GoodFill, ClosedRecords, SameBookEntry;
    ClosedSequence(open, fills, q);
    if |fills| != 0 {
      FilledEntry(fills[|fills| - 1]);
    }
  }

  lemma FilledEntry(f: Fill)
    requires GoodFill(f)
    ensures f.after.sequence == f.maker.sequence && SameBookEntry(f.maker, f.after)
  {
  }

  lemma ClosedSequence(open: map<nat, OpenOrder>, fills: seq<Fill>, q: nat)
    requires FillsOf(open, fills)
    requires forall r :: r in ClosedRecords(fills) <==> ClosedBy(fills, r)
    ensures q in Sequences(ClosedRecords(fills))
       <==> exists i :: 0 <= i < |fills| && fills[i].closed && fills[i].maker.sequence == q
  {
    hide GoodFill, ClosedRecords;
    if q in Sequences(ClosedRecords(fills)) {
      var r :| r in ClosedRecords(fills) && r.sequence == q;
      var i :| 0 <= i < |fills| && fills[i].closed && fills[i].after == r;
      FilledEntry(fills[i]);
    }
    if i :| 0 <= i < |fills| && fills[i].closed && fills[i].maker.sequence == q {
      FilledEntry(fills[i]);
      assert ClosedBy(fills, fills[i].after);
    }
  }

  /** An order that is not matched is not affected. */
  lemma AppliedBesideNew(open: map<nat, OpenOrder>, fills: seq<Fill>, q: nat, o: OpenOrder)
    requires FillsOf(open, fills) && q !in open
    ensures FillsOf(open[q := o], fills)
    ensures ApplyFills(open[q := o], fills) == ApplyFills(open, fills)[q := o]
  {
    hide GoodFill, ApplyFills;
    var wider := open[q := o];
    var a, b := ApplyFills(wider, fills), ApplyFills(open, fills)[q := o];
    forall p ensures p in a <==> p in b
             ensures p in a ==> a[p] == b[p]
    {
      if i :| 0 <= i < |fills| && fills[i].maker.sequence == p {
        ApplyFillsAt(open, fills, i);
        ApplyFillsAt(wider, fills, i);
      } else {
        ApplyFillsKeeps(open, fills, p);
        ApplyFillsKeeps(wider, fills, p);
      }
    }
  }

  // ----- ledgers -----

  ghost predicate Recorded(only: Option<set<Denom>>, d: Denom) {
    only.Some? ==> d in only.value
  }

  /** The ledger moved from one value to another by adding some coins and taking off others. */
  ghost predicate Moved(before: Ledger, after: Ledger, plus: seq<AccountCoin>, minus: seq<AccountCoin>, only: Option<set<Denom>>) {
    forall a, d :: Get(after, (a, d)) == Get(before, (a, d)) + if Recorded(only, d) then Sum(plus, a, d) - Sum(minus, a, d) else 0
  }

  lemma MovedNothing(ledger: Ledger, only: Option<set<Denom>>)
    ensures Moved(ledger, ledger, [], [], only)
  {
  }

  lemma MovedUp(before: Ledger, now: Ledger, items: seq<AccountCoin>, i: nat, only: Option<set<Denom>>)
    requires i < |items| && Moved(before, now, items[..i], [], only) && 0 <= items[i].coin.amount
    ensures var a, d := items[i].account, items[i].coin.denom;
            Moved(before, if Recorded(only, d) then SetBalance(now, a, d, Get(now, (a, d)) + items[i].coin.amount) else now,
                  items[..i + 1], [], only)
  {
    hide Sum;
    assert items[..i + 1] == items[..i] + [items[i]];
    forall a, d ensures Sum(items[..i + 1], a, d) == Sum(items[..i], a, d) + AmountOf(items[i], a, d) {
      SumAppend(items[..i], items[i], a, d);
    }
  }

  lemma MovedDown(before: Ledger, now: Ledger, items: seq<AccountCoin>, i: nat, only: Option<set<Denom>>)
    requires i < |items| && Moved(before, now, [], items[..i], only)
    requires Recorded(only, items[i].coin.denom) ==> items[i].coin.amount <= Get(now, (items[i].account, items[i].coin.denom))
    ensures var a, d := items[i].account, items[i].coin.denom;
            Moved(before, if Recorded(only, d) then SetBalance(now, a, d, Get(now, (a, d)) - items[i].coin.amount) else now,
                  [], items[..i + 1], only)
  {
    hide Sum;
    assert items[..i + 1] == items[..i] + [items[i]];
    forall a, d ensures Sum(items[..i + 1], a, d) == Sum(items[..i], a, d) + AmountOf(items[i], a, d) {
      SumAppend(items[..i], items[i], a, d);
    }
  }

  /** All amounts are positive and the ledger covers their sums. */
  ghost predicate Payable(ledger: Ledger, items: seq<AccountCoin>, only: Option<set<Denom>>) {
    Positive(items) && forall a, d | Recorded(only, d) :: Sum(items, a, d) <= Get(ledger, (a, d))
  }

  lemma NotPayable(before: Ledger, now: Ledger, items: seq<AccountCoin>, i: nat, only: Option<set<Denom>>)
    requires i < |items| && Moved(before, now, [], items[..i], only)
    requires || items[i].coin.amount <= 0
             || (Recorded(only, items[i].coin.denom) && Get(now, (items[i].account, items[i].coin.denom)) < items[i].coin.amount)
    ensures !Payable(before, items, only)
  {
    hide Sum;
    SumOfNothing(items[i].account, items[i].coin.denom);
    if Positive(items) {
      PrefixSum(items, i, items[i].account, items[i].coin.denom);
    }
  }

  lemma PaidUp(before: Ledger, now: Ledger, items: seq<AccountCoin>, only: Option<set<Denom>>)
    requires Moved(before, now, [], items, only) && Positive(items)
    ensures Payable(before, items, only)
  {
    hide Sum;
    forall a, d | Recorded(only, d) ensures Sum(items, a, d) <= Get(before, (a, d)) {
      SumOfNothing(a, d);
    }
  }

  /** Raising a ledger and then lowering it. */
  lemma MovedBoth(before: Ledger, mid: Ledger, after: Ledger, plus: seq<AccountCoin>, minus: seq<AccountCoin>, only: Option<set<Denom>>)
    requires Moved(before, mid, plus, [], only) && Positive(plus)
    ensures Payable(mid, minus, only) <==> Bearable(before, plus, minus, only)
    ensures Moved(mid, after, [], minus, only) ==> Moved(before, after, plus, minus, only)
  {
    hide Sum, Positive;
    forall a, d ensures Sum([], a, d) == 0 {
      SumOfNothing(a, d);
    }
  }

  /** A ledger can bear the actions: all amounts are positive and no total falls below zero. */
  ghost predicate Bearable(ledger: Ledger, plus: seq<AccountCoin>, minus: seq<AccountCoin>, only: Option<set<Denom>>) {
    && Positive(plus) && Positive(minus)
    && forall a, d | Recorded(only, d) :: Sum(minus, a, d) <= Get(ledger, (a, d)) + Sum(plus, a, d)
  }

  /** A prefix of positive amounts leaves enough for the next one. */
  lemma {:induction false} PrefixSum(items: seq<AccountCoin>, i: nat, a: Account, d: Denom)
    requires Positive(items) && i < |items|
    ensures Sum(items[..i], a, d) + AmountOf(items[i], a, d) <= Sum(items, a, d)
    decreases |items|
  {
    if i == 0 {
      SumNonNegative(items[1..], a, d);
    } else {
      PrefixSum(items[1..], i - 1, a, d);
      assert items[..i][1..] == items[1..][..i - 1];
    }
  }

  // ----- what a placement does to the totals -----

  /**
   A matching to be settled: the orders open before it, the fills, and what is left of the
   taker if it is to rest under sequence q.
   */
  datatype Batch = Batch(open: map<nat, OpenOrder>, fills: seq<Fill>, order: Order, orders: map<nat, OrderData>,
                         rest: Option<OpenOrder>, q: nat, n: nat)

  ghost function Joined(open: map<nat, OpenOrder>, rest: Option<OpenOrder>, q: nat): map<nat, OpenOrder> {
    if rest.Some? then open[q := rest.value] else open
  }

  /** The open orders once a new order is in the book and before makers are settled. */
  ghost function Before(b: Batch): map<nat, OpenOrder> {
    Joined(b.open, b.rest, b.q)
  }

  ghost function After(b: Batch): map<nat, OpenOrder> {
    Joined(ApplyFills(b.open, b.fills), b.rest, b.q)
  }

  ghost predicate GoodBatch(b: Batch) {
    && AllWellFormed(b.open) && (forall p | p in b.open :: p < b.n) && b.q !in b.open && b.q < b.n
    && FillsOf(b.open, b.fills) && GoodFills(b.fills) && CounterFills(b.open, b.fills, b.order)
    && (forall i | 0 <= i < |b.fills| - 1 :: b.fills[i].closed)
    && b.order.baseDenom != b.order.quoteDenom && DataOf(b.orders, b.open)
    && (b.rest.Some? ==> WellFormed(b.rest.value, b.q))
  }

  /** Contribution of the resting taker. */
  ghost function Added(b: Batch, m: Measure, a: Account, d: Denom): int {
    if b.rest.Some? then Weight(m, b.rest.value, a, d) else 0
  }

  /** The actions add up to the contributions of the batch. */
  ghost predicate Carries(x: DEXActions, b: Batch)
    requires GoodFills(b.fills)
  {
    && Positive(x.increaseLocked) && Positive(x.decreaseLocked)
    && Positive(x.increaseExpectedToReceive) && Positive(x.decreaseExpectedToReceive)
    && (forall a, d :: Sum(x.increaseLocked, a, d) == Added(b, Locked, a, d))
    && (forall a, d :: Sum(x.decreaseLocked, a, d) == Removed(Locked, b.fills, b.orders, b.order, a, d))
    && (forall a, d :: Sum(x.increaseExpectedToReceive, a, d) == Added(b, Expected, a, d))
    && (forall a, d :: Sum(x.decreaseExpectedToReceive, a, d) == Removed(Expected, b.fills, b.orders, b.order, a, d))
  }

  lemma BatchTotals(b: Batch, m: Measure, a: Account, d: Denom)
    requires GoodBatch(b) && !m.Count?
    ensures Total(m, After(b), a, d, b.n)
         == Total(m, b.open, a, d, b.n) + Added(b, m, a, d) - Removed(m, b.fills, b.orders, b.order, a, d)
    ensures 0 <= Total(m, After(b), a, d, b.n)
  {
    hide Total, Weight, GoodFill, IsCounter, ApplyFills, Removed, WellFormed;
    ApplyFillsTotals(m, b.open, b.fills, b.orders, b.order, a, d, b.n);
    ApplyFillsShape(b.open, b.fills);
    if b.rest.Some? {
      forall i | 0 <= i < |b.fills| ensures b.fills[i].maker.sequence != b.q {
      }
      ApplyFillsKeeps(b.open, b.fills, b.q);
      TotalSet(m, ApplyFills(b.open, b.fills), b.q, b.rest.value, a, d, b.n);
    }
    TotalNonNegative(m, After(b), a, d, b.n);
  }

  /** The ledgers can bear the actions of a batch, and end up with the totals of the orders then open. */
  lemma BatchBearable(b: Batch, st: Store, x: DEXActions, whitelisting: set<Denom>)
    requires GoodBatch(b) && Carries(x, b) && Balanced(st, whitelisting, b.open, b.n)
    ensures Bearable(st.locked, x.increaseLocked, x.decreaseLocked, None)
    ensures Bearable(st.expected, x.increaseExpectedToReceive, x.decreaseExpectedToReceive, Some(whitelisting))
  {
    hide Total, GoodBatch, Positive, Sum, Added, Removed, After;
    assert GoodFills(b.fills) by { BatchGoodFills(b); }
    forall a, d ensures Sum(x.decreaseLocked, a, d) <= Get(st.locked, (a, d)) + Sum(x.increaseLocked, a, d) {
      BatchTotals(b, Locked, a, d);
    }
    forall a, d | d in whitelisting
      ensures Sum(x.decreaseExpectedToReceive, a, d) <= Get(st.expected, (a, d)) + Sum(x.increaseExpectedToReceive, a, d)
    {
      BatchTotals(b, Expected, a, d);
    }
  }

  lemma BatchGoodFills(b: Batch)
    requires GoodBatch(b)
    ensures GoodFills(b.fills)
  {
  }

  lemma BatchBalanced(b: Batch, st: Store, st': Store, x: DEXActions, whitelisting: set<Denom>)
    requires GoodBatch(b) && Carries(x, b) && Balanced(st, whitelisting, b.open, b.n)
    requires Moved(st.locked, st'.locked, x.increaseLocked, x.decreaseLocked, None)
    requires Moved(st.expected, st'.expected, x.increaseExpectedToReceive, x.decreaseExpectedToReceive, Some(whitelisting))
    ensures Balanced(st', whitelisting, After(b), b.n)
  {
    hide Total, GoodBatch, Positive, Sum, Added, Removed, After;
    assert GoodFills(b.fills) by { BatchGoodFills(b); }
    forall a, d ensures Get(st'.locked, (a, d)) == Total(Locked, After(b), a, d, b.n) {
      BatchTotals(b, Locked, a, d);
    }
    forall a, d ensures Get(st'.expected, (a, d)) == if d in whitelisting then Total(Expected, After(b), a, d, b.n) else 0 {
      BatchTotals(b, Expected, a, d);
    }
  }

  /** The actions for a resting taker add exactly its contributions. */
  lemma TakerLimitSums(x: DEXActions, o: OpenOrder, reserve: Coin, a: Account, d: Denom)
    requires x.increaseLocked == [] && x.increaseExpectedToReceive == [] && Resting(o.record)
    requires o.reserve == (if 0 < reserve.amount then Some(reserve) else None)
    ensures var y := WithTakerLimits(x, o.record.account, Coin(o.SpendDenom(), o.record.spendable),
                                     Coin(o.ReceiveDenom(), ExpectedOf(o.record)), reserve);
            && Sum(y.increaseLocked, a, d) == Weight(Locked, o, a, d)
            && Sum(y.increaseExpectedToReceive, a, d) == Weight(Expected, o, a, d)
            && Positive(y.increaseLocked) && Positive(y.increaseExpectedToReceive)
  {
    hide Sum, AppendOrAdd, ExpectedOf, CeilMul, ToRat, Positive;
    RestingAmounts(o.record);
    var account := o.record.account;
    var locked := AccountCoin(account, Coin(o.SpendDenom(), o.record.spendable));
    var expected := AccountCoin(account, Coin(o.ReceiveDenom(), ExpectedOf(o.record)));
    SumOfNothing(a, d);
    AppendOrAddSum([], locked, a, d);
    AppendOrAddPositive([], locked);
    AppendOrAddSum([], expected, a, d);
    AppendOrAddPositive([], expected);
    if 0 < reserve.amount {
      AppendOrAddSum(AppendOrAdd([], locked), AccountCoin(account, reserve), a, d);
      AppendOrAddPositive(AppendOrAdd([], locked), AccountCoin(account, reserve));
    }
  }

  lemma SumOfNothing(a: Account, d: Denom)
    ensures Sum([], a, d) == 0 && Positive([])
  {
  }

  // ----- funds -----

  /** Each amount to be locked is positive and free, together with what is locked before it. */
  ghost predicate Fits(locked: Ledger, funds: Ledger, items: seq<AccountCoin>) {
    && Positive(items)
    && forall i | 0 <= i < |items| ::
         var k := (items[i].account, items[i].coin.denom);
         Get(locked, k) + Sum(items, k.0, k.1) <= Get(funds, k)
  }

  lemma FitsFacts(locked: Ledger, funds: Ledger, items: seq<AccountCoin>)
    ensures Fits(locked, funds, []) && (Fits(locked, funds, items) ==> Positive(items))
  {
  }

  /** One more amount fits exactly if it is positive and still free. */
  lemma FitsNext(before: Ledger, now: Ledger, funds: Ledger, items: seq<AccountCoin>, i: nat)
    requires i < |items| && Moved(before, now, items[..i], [], None) && Fits(before, funds, items[..i])
    ensures var c, k := items[i].coin.amount, (items[i].account, items[i].coin.denom);
            && (0 < c && Get(now, k) + c <= Get(funds, k) ==> Fits(before, funds, items[..i + 1]))
            && (!(0 < c && Get(now, k) + c <= Get(funds, k)) ==> !Fits(before, funds, items))
  {
    hide Sum;
    var k := (items[i].account, items[i].coin.denom);
    assert items[..i + 1] == items[..i] + [items[i]];
    forall a, d ensures Sum(items[..i + 1], a, d) == Sum(items[..i], a, d) + AmountOf(items[i], a, d) {
      SumAppend(items[..i], items[i], a, d);
    }
    SumOfNothing(k.0, k.1);
    if Positive(items) {
      PrefixSum(items, i, k.0, k.1);
    }
  }

  function AfterSend(funds: Ledger, s: CoinToSend): Ledger
    requires 0 <= s.coin.amount <= Get(funds, (s.from, s.coin.denom))
  {
    var paid := SetBalance(funds, s.from, s.coin.denom, Get(funds, (s.from, s.coin.denom)) - s.coin.amount);
    SetBalance(paid, s.to, s.coin.denom, Get(paid, (s.to, s.coin.denom)) + s.coin.amount)
  }

  /** The transfers can be made one after another. */
  ghost predicate Sendable(funds: Ledger, sends: seq<CoinToSend>)
    decreases |sends|
  {
    |sends| == 0 || (0 <= sends[0].coin.amount <= Get(funds, (sends[0].from, sends[0].coin.denom)) &&
                     Sendable(AfterSend(funds, sends[0]), sends[1..]))
  }

  ghost function AfterSends(funds: Ledger, sends: seq<CoinToSend>): Ledger
    requires Sendable(funds, sends)
    decreases |sends|
  {
    if |sends| == 0 then funds else AfterSends(AfterSend(funds, sends[0]), sends[1..])
  }

  /** Transfers move exactly what each account sends and is sent. */
  lemma {:induction false} AfterSendsFlow(funds: Ledger, sends: seq<CoinToSend>, a: Account, d: Denom)
    requires Sendable(funds, sends)
    ensures Get(AfterSends(funds, sends), (a, d)) == Get(funds, (a, d)) - Outgoing(sends, a, d) + Incoming(sends, a, d)
    decreases |sends|
  {
    if |sends| != 0 {
      AfterSendsFlow(AfterSend(funds, sends[0]), sends[1..], a, d);
    }
  }

  lemma {:induction false} OutgoingNonNegative(sends: seq<CoinToSend>, a: Account, d: Denom)
    requires PositiveSends(sends)
    ensures 0 <= Outgoing(sends, a, d)
  {
    if |sends| != 0 {
      OutgoingNonNegative(sends[1..], a, d);
    }
  }

  /** Transfers can be made in any order if each account has what it sends in all. */
  lemma {:induction false} CoveredSends(funds: Ledger, sends: seq<CoinToSend>)
    requires PositiveSends(sends) && forall a, d :: Outgoing(sends, a, d) <= Get(funds, (a, d))
    ensures Sendable(funds, sends)
    decreases |sends|
  {
    if |sends| != 0 {
      var s := sends[0];
      OutgoingNonNegative(sends[1..], s.from, s.coin.denom);
      assert Outgoing(sends, s.from, s.coin.denom) <= Get(funds, (s.from, s.coin.denom));
      forall a, d ensures Outgoing(sends[1..], a, d) <= Get(AfterSend(funds, s), (a, d)) {
        assert Outgoing(sends, a, d) <= Get(funds, (a, d));
      }
      CoveredSends(AfterSend(funds, s), sends[1..]);
    }
  }

  /** Every account but the taker has what it sends, and the taker sends no more than it declares. */
  ghost predicate SendsCovered(x: DEXActions, creator: Account, funds: Ledger) {
    && PositiveSends(x.send) && x.creatorExpectedToSpend.Some?
    && forall a, d :: Outgoing(x.send, a, d) <= if a == creator && d == x.creatorExpectedToSpend.value.denom
                                                then x.creatorExpectedToSpend.value.amount else Get(funds, (a, d))
  }

  /** What an account declares to spend is free. */
  ghost predicate SpendFits(locked: Ledger, funds: Ledger, creator: Account, coin: Coin) {
    Get(locked, (creator, coin.denom)) + coin.amount <= Get(funds, (creator, coin.denom))
  }

  lemma CoveredIfFree(x: DEXActions, creator: Account, locked: Ledger, funds: Ledger)
    requires SendsCovered(x, creator, funds) && SpendFits(locked, funds, creator, x.creatorExpectedToSpend.value)
    ensures Sendable(funds, x.send)
  {
    hide Outgoing, Sendable;
    forall a, d ensures Outgoing(x.send, a, d) <= Get(funds, (a, d)) {
    }
    CoveredSends(funds, x.send);
  }

  // ----- what a cancellation gives back -----

  function Charged(account: Account, coins: seq<Coin>): seq<AccountCoin> {
    seq(|coins|, i requires 0 <= i < |coins| => AccountCoin(account, coins[i]))
  }

  lemma ChargedItems(account: Account, coins: seq<Coin>)
    ensures |Charged(account, coins)| == |coins|
    ensures forall i | 0 <= i < |coins| :: Charged(account, coins)[i] == AccountCoin(account, coins[i])
  {
  }

  lemma {:induction false} ChargedSum(account: Account, coins: seq<Coin>, a: Account, d: Denom)
    ensures Sum(Charged(account, coins), a, d) == if a == account then CoinsAmount(coins, d) else 0
    decreases |coins|
  {
    if |coins| != 0 {
      ChargedSum(account, coins[1..], a, d);
      assert Charged(account, coins)[1..] == Charged(account, coins[1..]);
    }
  }

  /** An order's contributions to the ledgers, as the amounts its cancellation takes off. */
  lemma ReleasedSums(o: OpenOrder, q: nat, a: Account, d: Denom)
    requires WellFormed(o, q)
    ensures var locked := Charged(o.record.account, LockedCoins(Coin(o.SpendDenom(), o.record.spendable), o.reserve));
            var expected := [AccountCoin(o.record.account, Coin(o.ReceiveDenom(), ExpectedOf(o.record)))];
            && Sum(locked, a, d) == Weight(Locked, o, a, d) && Positive(locked)
            && Sum(expected, a, d) == Weight(Expected, o, a, d) && Positive(expected)
  {
    hide Sum, CeilMul, ExpectedOf, ToRat, CoinsAmount;
    RestingAmounts(o.record);
    var account := o.record.account;
    ChargedSum(account, LockedCoins(Coin(o.SpendDenom(), o.record.spendable), o.reserve), a, d);
    LockedCoinsAmount(Coin(o.SpendDenom(), o.record.spendable), o.reserve, d);
    var expected := AccountCoin(account, Coin(o.ReceiveDenom(), ExpectedOf(o.record)));
    SumOfNothing(a, d);
    SumAppend([], expected, a, d);
    assert [] + [expected] == [expected];
  }

  /** Every open order can be cancelled: the ledgers hold at least what it locked and expects. */
  lemma ReleaseBalanced(st: Store, whitelisting: set<Denom>, open: map<nat, OpenOrder>, n: nat, q: nat)
    requires Balanced(st, whitelisting, open, n) && AllWellFormed(open) && q in open && q < n
    ensures var o := open[q];
            var locked := Charged(o.record.account, LockedCoins(Coin(o.SpendDenom(), o.record.spendable), o.reserve));
            && 0 <= o.record.remaining && 0 < o.record.price.num
            && var expected := [AccountCoin(o.record.account, Coin(o.ReceiveDenom(), ExpectedOf(o.record)))];
            && Payable(st.locked, locked, None) && Payable(st.expected, expected, Some(whitelisting))
            && forall st': Store | Moved(st.locked, st'.locked, [], locked, None) && Moved(st.expected, st'.expected, [], expected, Some(whitelisting)) ::
                 Balanced(st', whitelisting, open - {q}, n)
  {
    hide Sum, Total, Weight, LockedCoins, Charged, ExpectedOf, CeilMul, ToRat, Positive;
    var o := open[q];
    assert 0 <= o.record.remaining && 0 < o.record.price.num;
    var locked := Charged(o.record.account, LockedCoins(Coin(o.SpendDenom(), o.record.spendable), o.reserve));
    var expected := [AccountCoin(o.record.account, Coin(o.ReceiveDenom(), ExpectedOf(o.record)))];
    ReleasedSums(o, q, o.record.account, o.baseDenom);
    forall a, d
      ensures Sum([], a, d) == 0
      ensures Sum(locked, a, d) == Weight(Locked, o, a, d) && Sum(expected, a, d) == Weight(Expected, o, a, d)
      ensures Sum(locked, a, d) <= Total(Locked, open, a, d, n) && Sum(expected, a, d) <= Total(Expected, open, a, d, n)
      ensures Total(Locked, open - {q}, a, d, n) == Total(Locked, open, a, d, n) - Sum(locked, a, d)
      ensures Total(Expected, open - {q}, a, d, n) == Total(Expected, open, a, d, n) - Sum(expected, a, d)
    {
      SumOfNothing(a, d);
      ReleasedSums(o, q, a, d);
      TotalAtLeast(Locked, open, q, a, d, n);
      TotalAtLeast(Expected, open, q, a, d, n);
      TotalRemove(Locked, open, q, a, d, n);
      TotalRemove(Expected, open, q, a, d, n);
    }
  }
}
