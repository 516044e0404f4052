/**
 How long an order stays in the book: what can remove it, and what its good-til
 decides over whole runs.
 */
module Lifetimes {
  import opened StoreKeys
  import opened Ticks
  import opened Types
  import opened Amounts
  import opened Matching
  import opened Orders
  import opened Engine
  import opened Exchange

  // ----- one step -----

  ghost predicate ClosedByFill(fills: seq<Fill>, q: nat) {
    exists i :: 0 <= i < |fills| && fills[i].closed && fills[i].maker.sequence == q
  }

  /** A step removes an open order: its owner's cancel, a cancel by denom, its expiry, or a fill that closes it. */
  ghost predicate Removes(x: State, op: Op, q: nat)
    requires Inv(x)
  {
    && q in x.open
    && match op
       case PlaceOp(env, order) => ClosedByFill(SettledFills(x, env, order), q)
       case CancelOp(account, id) => Owns(x.open[q], account, id)
       case CancelByDenomOp(allowed, account, denom) => allowed && Joinable(denom) && Touches(x.open[q], account, denom)
       case BeginBlockOp(height, time) => x.open[q].goodTil.Some? && Due(x.open[q].goodTil.value, height, time)
       case UpdateParamsOp(authorised, params) => false
       case DepositOp(account, denom, amount) => false
       case WithdrawOp(account, denom, amount) => false
  }

  /** The terms of an order, quantities aside. */
  ghost predicate SameTerms(a: OpenOrder, b: OpenOrder) {
    b == a.(record := b.record) && SameBookEntry(a.record, b.record)
  }

  /** A step removes exactly the orders it says, leaves the terms of all others, and reopens none. */
  lemma StepRemoves(x: State, op: Op, q: nat)
    requires Inv(x) && q <= x.sequence
    ensures q in Step(x, op).open <==> q in x.open && !Removes(x, op, q)
    ensures q in Step(x, op).open ==> SameTerms(x.open[q], Step(x, op).open[q])
  {
    hide Inv, Place, SettledFills, ValidParams, Free, Due, Touches;
    match op
    case PlaceOp(env, order) =>
      if Place(x, env, order).Some? {
        PlaceRemoves(x, env, order, q);
      } else {
        FailedSettlesNothing(x, env, order);
      }
    case CancelOp(account, id) =>
      if q in x.open && Owns(x.open[q], account, id) {
        CancelOwn(x, account, id, q);
      }
    case _ =>
  }

  lemma FailedSettlesNothing(x: State, env: Env, o: Order)
    requires Inv(x) && Place(x, env, o).None?
    ensures SettledFills(x, env, o) == []
  {
  }

  lemma PlaceRemoves(x: State, env: Env, o: Order, q: nat)
    requires Inv(x) && Place(x, env, o).Some? && q <= x.sequence
    ensures var y := Place(x, env, o).value;
            && (q in y.open <==> q in x.open && !ClosedByFill(SettledFills(x, env, o), q))
            && (q in y.open ==> SameTerms(x.open[q], y.open[q]))
  {
    hide Inv, Place, SettledFills, Stays, Remainder, ApplyFills, GoodFill, WithBooks, WellFormed, IsCounter;
    PlaceShape(x, env, o);
    SettledFillsGood(x, env, o);
    var fills := SettledFills(x, env, o);
    ApplyFillsShape(x.open, fills);
    if i :| 0 <= i < |fills| && fills[i].maker.sequence == q {
      ApplyFillsAt(x.open, fills, i);
    } else {
      ApplyFillsKeeps(x.open, fills, q);
    }
  }

  // ----- runs -----

  /** A run can be cut anywhere. */
  lemma {:induction false} RunSplit(x: State, ops: seq<Op>, op: Op)
    requires Inv(x) && Feasible(x, ops + [op])
    ensures Feasible(x, ops) && Inv(Run(x, ops)) && Room(Run(x, ops), op) && Run(x, ops + [op]) == Step(Run(x, ops), op)
    decreases |ops|
  {
    hide Inv, Step, Room;
    var all := ops + [op];
    StepKeepsInv(x, all[0]);
    if |ops| == 0 {
      assert all[1..] == [];
    } else {
      assert all[1..] == ops[1..] + [op] && all[0] == ops[0];
      RunSplit(Step(x, ops[0]), ops[1..], op);
    }
  }

  lemma {:induction false} PrefixFeasible(x: State, ops: seq<Op>, i: nat)
    requires Inv(x) && Feasible(x, ops) && i <= |ops|
    ensures Feasible(x, ops[..i])
    decreases |ops|
  {
    hide Inv, Feasible, Room, Step;
    if i == |ops| {
      assert ops[..i] == ops;
    } else {
      var n := |ops| - 1;
      assert ops == ops[..n] + [ops[n]];
      RunSplit(x, ops[..n], ops[n]);
      PrefixFeasible(x, ops[..n], i);
      assert ops[..n][..i] == ops[..i];
    }
  }

  /** The state before step i of a run. */
  ghost function At(x: State, ops: seq<Op>, i: nat): (y: State)
    requires Inv(x) && Feasible(x, ops) && i <= |ops|
    ensures Inv(y)
  {
    PrefixFeasible(x, ops, i);
    RunKeepsInv(x, ops[..i]);
    Run(x, ops[..i])
  }

  lemma AtNext(x: State, ops: seq<Op>, i: nat)
    requires Inv(x) && Feasible(x, ops) && i < |ops|
    ensures At(x, ops, i + 1) == Step(At(x, ops, i), ops[i]) && x.sequence <= At(x, ops, i).sequence
  {
    hide Inv, Feasible, Room, Step, Run;
    PrefixFeasible(x, ops, i);
    PrefixFeasible(x, ops, i + 1);
    RunKeepsInv(x, ops[..i]);
    assert ops[..i + 1] == ops[..i] + [ops[i]];
    RunSplit(x, ops[..i], ops[i]);
  }

  lemma AtEnds(x: State, ops: seq<Op>)
    requires Inv(x) && Feasible(x, ops)
    ensures At(x, ops, 0) == x && At(x, ops, |ops|) == Run(x, ops)
  {
    hide Inv;
    assert ops[..0] == [] && ops[..|ops|] == ops;
  }

  /** Open at step n exactly if no step before it removed the order. */
  lemma {:induction false} OpenAt(x: State, ops: seq<Op>, q: nat, n: nat)
    requires Inv(x) && Feasible(x, ops) && q in x.open && q <= x.sequence && n <= |ops|
    ensures q in At(x, ops, n).open <==> forall i | 0 <= i < n :: !Removes(At(x, ops, i), ops[i], q)
    ensures q in At(x, ops, n).open ==> SameTerms(x.open[q], At(x, ops, n).open[q])
  {
    hide Inv, Feasible, Step, Removes, At;
    if n == 0 {
      AtEnds(x, ops);
    } else {
      OpenAt(x, ops, q, n - 1);
      AtNext(x, ops, n - 1);
      StepRemoves(At(x, ops, n - 1), ops[n - 1], q);
    }
  }

  /** An open order is in the book after a run exactly if no step of the run removed it. */
  lemma OpenUntilRemoved(x: State, ops: seq<Op>, q: nat)
    requires Inv(x) && Feasible(x, ops) && q in x.open
    ensures q in Run(x, ops).open <==> forall i | 0 <= i < |ops| :: !Removes(At(x, ops, i), ops[i], q)
    ensures q in Run(x, ops).open ==> SameTerms(x.open[q], Run(x, ops).open[q])
  {
    hide Inv, Feasible, Run, Removes, At;
    SequencesBounded(x);
    AtEnds(x, ops);
    OpenAt(x, ops, q, |ops|);
  }

  // ----- what a good-til decides -----

  /** No message of the run removes the order: no cancel concerns it and no fill closes it. */
  ghost predicate LeftAlone(x: State, ops: seq<Op>, q: nat)
    requires Inv(x) && Feasible(x, ops)
  {
    forall i | 0 <= i < |ops| && !ops[i].BeginBlockOp? :: !Removes(At(x, ops, i), ops[i], q)
  }

  /** An order left alone is in the book exactly if it is due in none of the blocks. */
  lemma OpenUntilDue(x: State, ops: seq<Op>, q: nat)
    requires Inv(x) && Feasible(x, ops) && q in x.open && LeftAlone(x, ops, q) && x.open[q].goodTil.Some?
    ensures q in Run(x, ops).open
       <==> forall i | 0 <= i < |ops| && ops[i].BeginBlockOp? :: !Due(x.open[q].goodTil.value, ops[i].height, ops[i].time)
  {
    hide Inv, Feasible, Run, At, Due;
    SequencesBounded(x);
    OpenUntilRemoved(x, ops, q);
    forall i | 0 <= i < |ops| && ops[i].BeginBlockOp?
      ensures q in At(x, ops, i).open ==> At(x, ops, i).open[q].goodTil == x.open[q].goodTil
      ensures q in Run(x, ops).open ==> q in At(x, ops, i).open
    {
      OpenAt(x, ops, q, i);
    }
  }

  /** With a height set, whatever time is set as well: in the book exactly if no block is above the height. */
  lemma HeightDecides(x: State, ops: seq<Op>, q: nat)
    requires Inv(x) && Feasible(x, ops) && q in x.open && LeftAlone(x, ops, q)
    requires x.open[q].goodTil.Some? && 0 < x.open[q].goodTil.value.height
    ensures q in Run(x, ops).open
       <==> forall i | 0 <= i < |ops| && ops[i].BeginBlockOp? :: ops[i].height <= x.open[q].goodTil.value.height
  {
    hide Inv, Feasible, Run, LeftAlone;
    OpenUntilDue(x, ops, q);
  }

  /** With only a time set: in the book exactly if no block has reached the whole second of that time. */
  lemma TimeDecides(x: State, ops: seq<Op>, q: nat)
    requires Inv(x) && Feasible(x, ops) && q in x.open && LeftAlone(x, ops, q)
    requires x.open[q].goodTil.Some? && x.open[q].goodTil.value.height == 0
    ensures x.open[q].goodTil.value.time.Some?
    ensures q in Run(x, ops).open
       <==> forall i | 0 <= i < |ops| && ops[i].BeginBlockOp? :: Unix(ops[i].time) < Unix(x.open[q].goodTil.value.time.value)
  {
    hide Feasible, Run, LeftAlone, Resting, Uncrossed, BooksPaired, Listed, ValidParams, Alive;
    OpenUntilDue(x, ops, q);
    forall i | 0 <= i < |ops| && ops[i].BeginBlockOp?
      ensures Due(x.open[q].goodTil.value, ops[i].height, ops[i].time) <==> Unix(x.open[q].goodTil.value.time.value) <= Unix(ops[i].time)
    {
      SecondsOrder(ops[i].time, x.open[q].goodTil.value.time.value);
    }
  }

  lemma SecondsOrder(a: int, b: int)
    ensures Unix(b) * NANOS <= a <==> Unix(b) <= Unix(a)
  {
  }

  /** In every reachable state no open order has outlived its height, or its time if it has no height. */
  lemma NoOrderOutlivesItsGoodTil(x: State, q: nat)
    requires Reachable(x) && q in x.open && x.open[q].goodTil.Some?
    ensures var g := x.open[q].goodTil.value;
            if 0 < g.height then x.height <= g.height else g.time.Some? && x.time < g.time.value
  {
    hide Reachable, WellFormed, BooksPaired, Uncrossed, Listed, ValidParams, Solvent;
    ReachableInv(x);
  }

  // ----- times are cut to seconds -----

  /** An accepted time lies ahead, yet the order is due at once exactly if the time is within the second of the block. */
  lemma AcceptedTimeMayBeDue(x: State, env: Env, o: Order, height: nat)
    requires Inv(x) && Place(x, env, o).Some? && o.goodTil.Some? && o.goodTil.value.height == 0
    ensures o.goodTil.value.time.Some? && x.time < o.goodTil.value.time.value
    ensures Due(o.goodTil.value, height, x.time) <==> Unix(o.goodTil.value.time.value) == Unix(x.time)
  {
    hide Inv, Place, Matched, MulCeil, ValidOrderID, IsQuantityStepValid, OrderQuantityStep, IsPriceTickValid, ComputePriceTick;
    PlaceShape(x, env, o);
    SecondsOrder(x.time, o.goodTil.value.time.value);
  }

  /** Some block before its time no longer has an order that rests exactly if the time is not a whole second. */
  lemma ExpiresEarlyIffFraction(x: State, env: Env, o: Order)
    requires Inv(x) && Stays(x, env, o) && o.goodTil.Some? && o.goodTil.value.height == 0
    ensures Place(x, env, o).Some? && o.goodTil.value.time.Some?
    ensures var y, q, t := Place(x, env, o).value, x.sequence + 1, o.goodTil.value.time.value;
            && q in y.open
            && ((exists height: nat, now: nat :: x.time <= now < t && q !in BeginBlock(y, height, now).open) <==> t % NANOS != 0)
  {
    hide Inv, Place, Matched, BeginBlock, Due, Stays, Remainder;
    StaysOpen(x, env, o);
    var y, q, g := Place(x, env, o).value, x.sequence + 1, o.goodTil.value;
    AcceptedTimeMayBeDue(x, env, o, 0);
    var t := g.time.value;
    forall height: nat, now: nat ensures q !in BeginBlock(y, height, now).open <==> Unix(t) <= Unix(now) {
      GoneIffSecondReached(y, q, height, now);
    }
    if t % NANOS != 0 {
      var whole := Unix(t) * NANOS;
      var now: nat := if whole < x.time then x.time else whole;
      assert x.time <= now < t && Unix(t) <= Unix(now);
      assert q !in BeginBlock(y, 0, now).open;
    }
  }

  lemma StaysOpen(x: State, env: Env, o: Order)
    requires Inv(x) && Stays(x, env, o)
    ensures Place(x, env, o).Some?
    ensures var y := Place(x, env, o).value; x.sequence + 1 in y.open && y.open[x.sequence + 1].goodTil == o.goodTil
  {
    hide Inv, Place, Matched, ApplyFills, MulCeil, IsExecutableAsMaker, WithBooks;
    PlaceShape(x, env, o);
    RestingLocked(x, env, o);
  }

  lemma GoneIffSecondReached(y: State, q: nat, height: nat, now: nat)
    requires q in y.open && y.open[q].goodTil.Some? && y.open[q].goodTil.value.height == 0 && y.open[q].goodTil.value.time.Some?
    ensures q !in BeginBlock(y, height, now).open <==> Unix(y.open[q].goodTil.value.time.value) <= Unix(now)
  {
    SecondsOrder(now, y.open[q].goodTil.value.time.value);
  }
}
