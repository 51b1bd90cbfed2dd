// Relay.Stop can always come to its end: the accept loop, the scans' read locks
// and the handlers' write locks never block one another for good.

module Shutdown {
  import opened Sums
  import opened Machine
  import opened RelayInvariants
  import opened Scans
  import opened Runs

  lemma {:induction false} Extend(run: seq<State>, step: Step) returns (longer: seq<State>)
    requires IsRun(run) && Enabled(Last(run), step)
    ensures IsRun(longer) && run <= longer && Last(longer) == Apply(Last(run), step)
  {
    longer := RunExtends(run, step);
  }

  lemma {:induction false} LastStop(run: seq<State>)
    requires IsRun(run)
    ensures StopOk(Last(run)) && Last(run).wg == Sum(Last(run).handlers, Live) + Held(Last(run).accept)
  {
    LastOk(run);
  }

  // ---- The accept loop ends ----

  function AcceptWork(a: AcceptPc): nat {
    match a
    case Admitting(_) => 7
    case Adding(_) => 6
    case Spawning(_) => 5
    case Accepting => 4
    case Erred => 3
    case Exiting => 2
    case Exited => 0
  }

  // What the accept loop does next when no connection arrives any more.
  function AcceptStep(a: AcceptPc): Step
    requires a != Exited
  {
    match a
    case Admitting(_) => Admit
    case Adding(_) => WgAdd
    case Spawning(_) => Spawn
    case Accepting => AcceptError
    case Erred => CheckClosed
    case Exiting => Exit
  }

  lemma {:induction false} AcceptMoves(s: State)
    requires s.accept != Exited && s.closed
    ensures Enabled(s, AcceptStep(s.accept))
    ensures var t := Apply(s, AcceptStep(s.accept));
      t.stop == s.stop && AcceptWork(t.accept) < AcceptWork(s.accept)
  {
  }

  lemma {:induction false} AcceptEnds(run: seq<State>) returns (longer: seq<State>)
    requires IsRun(run) && Last(run).stop == ListenerClosed
    ensures IsRun(longer) && run <= longer && Last(longer).stop == ListenerClosed && Last(longer).accept == Exited
    decreases AcceptWork(Last(run).accept)
  {
    longer := run;
    if Last(run).accept != Exited {
      LastStop(run);
      AcceptMoves(Last(run));
      var r := Extend(run, AcceptStep(Last(run).accept));
      longer := AcceptEnds(r);
    }
  }

  // ---- Scans let go of their locks ----

  function LockWork(sc: Scan): nat {
    if !sc.locked then 0 else
    1 + 6 * |sc.pending| + if sc.cur.At? && sc.cur.pos < 4 then 5 - sc.cur.pos else 0
  }

  lemma {:induction false} ScanMoves(sc: Scan, st: Store) returns (m: ScanMove)
    requires PlaceOk(sc, st) && sc.locked
    ensures ScanEnabled(sc, st, m) && LockWork(ScanStep(sc, st, m)) < LockWork(sc)
  {
    if sc.cur.At? {
      m := Load;
    } else if sc.pending != {} {
      var ip :| ip in sc.pending;
      m := Pick(ip);
      assert ScanStep(sc, st, m).pending == sc.pending - {ip};
    } else {
      m := Unlock;
    }
  }

  // The waiting routine, the accept loop, the handlers and the other scans stay.
  predicate OnlyScan(s: State, t: State, j: nat) {
    && t.stop == s.stop && t.accept == s.accept && t.handlers == s.handlers && |t.scans| == |s.scans|
    && forall k :: 0 <= k < |s.scans| && k != j ==> t.scans[k] == s.scans[k]
  }

  lemma {:induction false} LastPlace(run: seq<State>, j: nat)
    requires IsRun(run) && j < |Last(run).scans|
    ensures PlaceOk(Last(run).scans[j], Last(run).store)
  {
    LastOk(run);
    assert ScanOk(Last(run).scans[j], Last(run).store);
  }

  lemma {:induction false} Unlocked(run: seq<State>, j: nat) returns (longer: seq<State>)
    requires IsRun(run) && j < |Last(run).scans|
    ensures IsRun(longer) && run <= longer && OnlyScan(Last(run), Last(longer), j) && !Last(longer).scans[j].locked
    decreases LockWork(Last(run).scans[j])
  {
    longer := run;
    if Last(run).scans[j].locked {
      LastPlace(run, j);
      var m := ScanMoves(Last(run).scans[j], Last(run).store);
      var r := Extend(run, Scanning(j, m));
      longer := Unlocked(r, j);
    }
  }

  lemma {:induction false} AllUnlocked(run: seq<State>, n: nat) returns (longer: seq<State>)
    requires IsRun(run) && n <= |Last(run).scans|
    requires forall k :: 0 <= k < n ==> !Last(run).scans[k].locked
    ensures IsRun(longer) && run <= longer
    ensures var s := Last(run); var t := Last(longer);
      && t.stop == s.stop && t.accept == s.accept
      && forall k :: 0 <= k < |t.scans| ==> !t.scans[k].locked
    decreases |Last(run).scans| - n
  {
    longer := run;
    if n < |Last(run).scans| {
      var r := Unlocked(run, n);
      longer := AllUnlocked(r, n + 1);
    }
  }

  // ---- Handlers finish ----

  function ToGo(h: Handler): int {
    17 - Rank(h.pc)
  }

  lemma {:induction false} ToGoNonNegative(hs: seq<Handler>)
    ensures 0 <= Sum(hs, ToGo)
  {
    SumLe(hs, (h: Handler) => 0, ToGo);
    SumZero(hs, (h: Handler) => 0);
  }

  const CHOICE := Choice(false, false, false, 0, 0)

  lemma {:induction false} HandlerMoves(h: Handler, st: Store, fallback: bool)
    requires h.pc != Finished
    ensures ToGo(Move(h, st, fallback, CHOICE)) < ToGo(h)
  {
  }

  // No scan holds a lock.
  predicate Free(s: State) {
    forall k :: 0 <= k < |s.scans| ==> !s.scans[k].locked
  }

  lemma {:induction false} HandleFrees(s: State, i: nat)
    requires Free(s) && i < |s.handlers| && s.handlers[i].pc != Finished
    ensures Enabled(s, Handle(i, CHOICE))
    ensures var t := Apply(s, Handle(i, CHOICE));
      && t.stop == s.stop && t.accept == s.accept && Free(t) && Sum(t.handlers, ToGo) < Sum(s.handlers, ToGo)
  {
    var h := s.handlers[i];
    HandlerMoves(h, s.store, s.fallback);
    SumUpdate(s.handlers, i, Move(h, s.store, s.fallback, CHOICE), ToGo);
  }

  lemma {:induction false} HandlersFinish(run: seq<State>) returns (longer: seq<State>)
    requires IsRun(run) && Free(Last(run))
    ensures IsRun(longer) && run <= longer
    ensures var s := Last(run); var t := Last(longer);
      && t.stop == s.stop && t.accept == s.accept
      && forall i :: 0 <= i < |t.handlers| ==> t.handlers[i].pc == Finished
    decreases Sum(Last(run).handlers, ToGo)
  {
    longer := run;
    if i: nat :| i < |Last(run).handlers| && Last(run).handlers[i].pc != Finished {
      HandleFrees(Last(run), i);
      ToGoNonNegative(Apply(Last(run), Handle(i, CHOICE)).handlers);
      var r := Extend(run, Handle(i, CHOICE));
      longer := HandlersFinish(r);
    }
  }

  // From every state of every run in which Relay.Stop has closed its listener,
  // with any connections open, scans under way and locks held: it can return.
  lemma {:induction false} StopCanReturn(run: seq<State>) returns (longer: seq<State>)
    requires IsRun(run) && Last(run).stop == ListenerClosed
    ensures IsRun(longer) && run <= longer && Last(longer).stop == Returned
  {
    var r1 := AcceptEnds(run);
    var r2 := AllUnlocked(r1, 0);
    var r3 := HandlersFinish(r2);
    LastStop(r3);
    SumZero(Last(r3).handlers, Live);
    longer := Extend(r3, WaitDone);
  }
}
