// When the remark savers under way leave the file current, whether or not they
// overlap (internal/device/device.go).

module Settling {
  import opened Sums
  import opened Remarks

  // ---- Continuations ----

  // No further change, and no call fails by itself; a rename still fails when
  // another saver has taken the shared temporary file away.
  predicate Quiet(step: Step) {
    match step
    case SetRemark(_, _) => false
    case Enter(_) => true
    case WriteTmp(_, result) => result == WriteOk
    case Rename(_, ok) => ok
  }

  predicate Goes(s: State, steps: seq<Step>)
    decreases |steps|
  {
    steps == [] || (Enabled(s, steps[0]) && Quiet(steps[0]) && Goes(Apply(s, steps[0]), steps[1..]))
  }

  function After(s: State, steps: seq<Step>): State
    requires Goes(s, steps)
    decreases |steps|
  {
    if steps == [] then s else After(Apply(s, steps[0]), steps[1..])
  }

  // The savers' work, in any order, to its end.
  predicate Completes(s: State, steps: seq<Step>) {
    Goes(s, steps) && !Left(After(s, steps))
  }

  // ---- The condition ----

  predicate IsSaving(s: State, i: int) {
    0 <= i < |s.savers| && s.savers[i].Saving?
  }

  predicate IsWritten(s: State, i: int) {
    0 <= i < |s.savers| && s.savers[i].Written?
  }

  predicate IsWaiting(s: State, i: int) {
    0 <= i < |s.savers| && s.savers[i].Waiting?
  }

  // Every saver that has still to write carries the current map.
  ghost predicate SavingCurrent(s: State) {
    forall i :: IsSaving(s, i) ==> s.savers[i].copy == s.remarks
  }

  // Some saver has still to write, or to take its copy.
  ghost predicate Pending(s: State) {
    (exists i :: IsSaving(s, i)) || (s.dirty && s.configured && exists i :: IsWaiting(s, i))
  }

  // What the file holds once the renames under way are done.
  ghost function Landing(s: State): Content {
    if (exists i :: IsWritten(s, i)) && s.tmp != Absent then s.tmp else s.file
  }

  ghost predicate Settles(s: State) {
    SavingCurrent(s) && (Pending(s) || Landing(s) == Whole(s.remarks))
  }

  // ---- It is kept ----

  lemma {:induction false} EnterSettles(s: State, i: nat)
    requires Settles(s) && Enabled(s, Enter(i))
    ensures Settles(Apply(s, Enter(i)))
  {
    var t := Apply(s, Enter(i));
    if s.dirty && s.configured {
      assert IsSaving(t, i);
    } else {
      if k :| IsSaving(s, k) {
        assert IsSaving(t, k);
      }
      SameWritten(s, t);
    }
  }

  // Whether there is a written saver, from one state to the next.
  lemma {:induction false} SameWritten(s: State, t: State)
    requires |t.savers| == |s.savers| && forall i :: IsWritten(s, i) <==> IsWritten(t, i)
    ensures (exists i :: IsWritten(s, i)) <==> (exists i :: IsWritten(t, i))
  {
  }

  lemma {:induction false} WriteSettles(s: State, i: nat)
    requires Settles(s) && Enabled(s, WriteTmp(i, WriteOk))
    ensures Settles(Apply(s, WriteTmp(i, WriteOk)))
  {
    var t := Apply(s, WriteTmp(i, WriteOk));
    assert IsSaving(s, i) && IsWritten(t, i);
    assert Landing(t) == Whole(s.remarks);
  }

  lemma {:induction false} RenameKeepsPending(s: State, i: nat)
    requires Enabled(s, Rename(i, true))
    ensures Pending(s) <==> Pending(Apply(s, Rename(i, true)))
  {
    var t := Apply(s, Rename(i, true));
    forall k ensures (IsSaving(s, k) <==> IsSaving(t, k)) && (IsWaiting(s, k) <==> IsWaiting(t, k)) {}
    if k :| IsSaving(s, k) { assert IsSaving(t, k); }
    if k :| IsWaiting(s, k) { assert IsWaiting(t, k); }
    if k :| IsSaving(t, k) { assert IsSaving(s, k); }
    if k :| IsWaiting(t, k) { assert IsWaiting(s, k); }
  }

  // A rename lands what was going to land.
  lemma {:induction false} RenameLands(s: State, i: nat)
    requires Enabled(s, Rename(i, true))
    ensures Landing(Apply(s, Rename(i, true))) == Landing(s)
  {
    assert IsWritten(s, i);
  }

  lemma {:induction false} StepSettles(s: State, step: Step)
    requires Settles(s) && Enabled(s, step) && Quiet(step)
    ensures Settles(Apply(s, step)) && Apply(s, step).remarks == s.remarks
  {
    match step
    case Enter(i) => EnterSettles(s, i);
    case WriteTmp(i, _) => WriteSettles(s, i);
    case Rename(i, _) =>
      RenameKeepsPending(s, i);
      RenameLands(s, i);
      forall k | IsSaving(Apply(s, step), k) ensures Apply(s, step).savers[k].copy == s.remarks {
        assert IsSaving(s, k);
      }
  }

  lemma {:induction false} SettledFile(s: State)
    requires Settles(s) && !Left(s)
    ensures s.file == Whole(s.remarks)
  {
    forall i ensures !IsSaving(s, i) && !IsWritten(s, i) && !IsWaiting(s, i) {
      if 0 <= i < |s.savers| { assert s.savers[i] == Finished; }
    }
  }

  lemma {:induction false} SettlesSuffices(s: State, steps: seq<Step>)
    requires Settles(s) && Completes(s, steps)
    ensures After(s, steps).file == Whole(s.remarks)
    decreases |steps|
  {
    if steps == [] {
      SettledFile(s);
    } else {
      StepSettles(s, steps[0]);
      SettlesSuffices(Apply(s, steps[0]), steps[1..]);
    }
  }

  // ---- It is needed ----

  // Nothing more will be written, and what is to land is not the current map.
  ghost predicate Stale(s: State) {
    !Pending(s) && Landing(s) != Whole(s.remarks)
  }

  lemma {:induction false} StepStale(s: State, step: Step)
    requires Stale(s) && Enabled(s, step) && Quiet(step)
    ensures Stale(Apply(s, step)) && Apply(s, step).remarks == s.remarks
  {
    var t := Apply(s, step);
    match step
    case Enter(i) =>
      assert IsWaiting(s, i);
      forall k ensures (IsSaving(t, k) ==> IsSaving(s, k)) && (IsWaiting(t, k) ==> IsWaiting(s, k)) {}
      SameWritten(s, t);
    case WriteTmp(i, _) =>
      assert IsSaving(s, i);
      assert false;
    case Rename(i, _) =>
      RenameKeepsPending(s, i);
      RenameLands(s, i);
  }

  lemma {:induction false} StaleEnds(s: State, steps: seq<Step>)
    requires Stale(s) && Completes(s, steps)
    ensures After(s, steps).file != Whole(s.remarks)
    decreases |steps|
  {
    if steps == [] {
      forall i ensures !IsWritten(s, i) {
        if 0 <= i < |s.savers| { assert s.savers[i] == Finished; }
      }
    } else {
      StepStale(s, steps[0]);
      StaleEnds(Apply(s, steps[0]), steps[1..]);
    }
  }

  function Work(v: Saver): int {
    match v
    case Waiting => 3
    case Saving(_) => 2
    case Written(_) => 1
    case Finished => 0
  }

  lemma {:induction false} WorkNonNegative(s: seq<Saver>)
    ensures 0 <= Sum(s, Work)
  {
    SumLe(s, (v: Saver) => 0, Work);
    SumZero(s, (v: Saver) => 0);
  }

  // The step a saver takes next.
  function NextStep(v: Saver, i: nat): Step
    requires v != Finished
  {
    match v
    case Waiting => Enter(i)
    case Saving(_) => WriteTmp(i, WriteOk)
    case Written(_) => Rename(i, true)
  }

  lemma {:induction false} StepWorks(s: State, i: nat)
    requires i < |s.savers| && s.savers[i] != Finished
    ensures Enabled(s, NextStep(s.savers[i], i)) && Quiet(NextStep(s.savers[i], i))
    ensures var t := Apply(s, NextStep(s.savers[i], i));
      && t.remarks == s.remarks && |t.savers| == |s.savers|
      && (forall k :: 0 <= k < |s.savers| && k != i ==> t.savers[k] == s.savers[k])
      && Sum(t.savers, Work) < Sum(s.savers, Work)
  {
    var t := Apply(s, NextStep(s.savers[i], i));
    SumUpdate(s.savers, i, t.savers[i], Work);
  }

  // All savers but number k can come to their end first.
  lemma {:induction false} Drain(s: State, k: nat) returns (steps: seq<Step>)
    ensures Goes(s, steps)
    ensures var t := After(s, steps);
      && t.remarks == s.remarks && |t.savers| == |s.savers|
      && (k < |s.savers| ==> t.savers[k] == s.savers[k])
      && forall i :: 0 <= i < |t.savers| && i != k ==> t.savers[i] == Finished
    decreases Sum(s.savers, Work)
  {
    if i: nat :| i < |s.savers| && i != k && s.savers[i] != Finished {
      var step := NextStep(s.savers[i], i);
      StepWorks(s, i);
      WorkNonNegative(Apply(s, step).savers);
      var rest := Drain(Apply(s, step), k);
      steps := [step] + rest;
      assert steps[1..] == rest;
    } else {
      steps := [];
    }
  }

  lemma {:induction false} GoesOn(s: State, a: seq<Step>, b: seq<Step>)
    requires Goes(s, a) && Goes(After(s, a), b)
    ensures Goes(s, a + b) && After(s, a + b) == After(After(s, a), b)
    decreases |a|
  {
    if a == [] {
      assert a + b == b;
    } else {
      assert (a + b)[1..] == a[1..] + b;
      GoesOn(Apply(s, a[0]), a[1..], b);
    }
  }

  lemma {:induction false} GoesOnce(s: State, a: Step)
    requires Enabled(s, a) && Quiet(a)
    ensures Goes(s, [a]) && After(s, [a]) == Apply(s, a)
  {
    assert [a][1..] == [];
  }

  lemma {:induction false} GoesTwice(s: State, a: Step, b: Step)
    requires Enabled(s, a) && Quiet(a) && Enabled(Apply(s, a), b) && Quiet(b)
    ensures Goes(s, [a, b]) && After(s, [a, b]) == Apply(Apply(s, a), b)
  {
    assert [a, b][1..] == [b];
    GoesOnce(Apply(s, a), b);
  }

  // A saver with an older copy can be the last to write and to rename.
  lemma {:induction false} OldCopyLands(s: State, k: nat) returns (steps: seq<Step>)
    requires IsSaving(s, k) && s.savers[k].copy != s.remarks
    ensures Completes(s, steps) && After(s, steps).file != Whole(s.remarks)
  {
    var first := Drain(s, k);
    var t := After(s, first);
    var t1 := Apply(t, WriteTmp(k, WriteOk));
    var t2 := Apply(t1, Rename(k, true));
    var last := [WriteTmp(k, WriteOk), Rename(k, true)];
    GoesTwice(t, WriteTmp(k, WriteOk), Rename(k, true));
    assert t2.file == Whole(s.savers[k].copy);
    GoesOn(s, first, last);
    steps := first + last;
  }

  lemma {:induction false} UnsettledFails(s: State) returns (steps: seq<Step>)
    requires !Settles(s)
    ensures Completes(s, steps) && After(s, steps).file != Whole(s.remarks)
  {
    if k :| IsSaving(s, k) && s.savers[k].copy != s.remarks {
      steps := OldCopyLands(s, k);
    } else {
      steps := Drain(s, |s.savers|);
      assert Completes(s, steps);
      StaleEnds(s, steps);
    }
  }

  // From any state, overlapping or not: however the savers under way interleave,
  // the file ends up holding the current map, exactly when every saver that has
  // still to write carries it and there is such a saver, or a change waits to be
  // copied, or the temporary file of a written saver holds the current map, or,
  // with nothing to rename, the file itself does.
  lemma {:induction false} SettlesIff(s: State)
    ensures Settles(s) <==> forall steps :: Completes(s, steps) ==> After(s, steps).file == Whole(s.remarks)
  {
    if Settles(s) {
      forall steps | Completes(s, steps) ensures After(s, steps).file == Whole(s.remarks) {
        SettlesSuffices(s, steps);
      }
    } else {
      var steps := UnsettledFails(s);
    }
  }

  // Every state has such a continuation.
  lemma {:induction false} CanComplete(s: State) returns (steps: seq<Step>)
    ensures Completes(s, steps)
  {
    steps := Drain(s, |s.savers|);
  }
}
