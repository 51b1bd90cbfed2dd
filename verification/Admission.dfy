// The admission cap, shutdown and the counters, over whole runs.

module Admission {
  import opened ShardIndex
  import opened Sums
  import opened DeviceCounters
  import opened Machine
  import opened Accounting
  import opened RelayInvariants
  import opened Runs

  // Connections past the admission check whose handler has not counted itself:
  // the one the accept loop is about to spawn and the handlers still at Start.
  function InFlight(s: State): int {
    Sum(s.handlers, Waiting) + if s.accept.Adding? || s.accept.Spawning? then 1 else 0
  }

  ghost predicate Within(run: seq<State>, p: int) {
    forall i :: 0 <= i < |run| ==> InFlight(run[i]) <= p
  }

  // ---- The cap ----

  lemma {:induction false} HandleFlight(s: State, i: nat, ch: Choice)
    requires CollectorOk(s) && Enabled(s, Handle(i, ch))
    ensures HandleNext(s, i, ch).activeConns + InFlight(HandleNext(s, i, ch)) <= s.activeConns + InFlight(s)
  {
    var h := s.handlers[i];
    var h' := Move(h, s.store, s.fallback, ch);
    SumUpdate(s.handlers, i, h', Waiting);
    MoveFlight(h, s.store, s.fallback, ch);
  }

  lemma {:induction false} MoveFlight(h: Handler, st: Store, fallback: bool, ch: Choice)
    requires h.pc != Finished
    ensures ActiveChange(h.pc) + Waiting(Move(h, st, fallback, ch)) <= Waiting(h)
  {
  }

  lemma {:induction false} OutsideFlight(s: State, step: Step)
    requires Enabled(s, step) && Outside(step)
    ensures step.Admit? && !Full(s) ==>
      Apply(s, step).activeConns == s.activeConns && InFlight(Apply(s, step)) == InFlight(s) + 1
    ensures !step.Admit? || Full(s) ==>
      Apply(s, step).activeConns + InFlight(Apply(s, step)) <= s.activeConns + InFlight(s)
  {
    OutsideFrame(s, step);
  }

  // Only an admission raises the sum of counted and in-flight connections.
  lemma {:induction false} StepFlight(s: State, step: Step)
    requires CollectorOk(s) && Enabled(s, step)
    ensures step.Admit? && !Full(s) ==>
      Apply(s, step).activeConns == s.activeConns && InFlight(Apply(s, step)) == InFlight(s) + 1
    ensures !step.Admit? || Full(s) ==>
      Apply(s, step).activeConns + InFlight(Apply(s, step)) <= s.activeConns + InFlight(s)
  {
    match step
    case Spawn => SumAppend(s.handlers, Spawned(s.accept.ip), Waiting);
    case Handle(i, ch) => HandleFlight(s, i, ch);
    case _ => OutsideFlight(s, step);
  }

  lemma {:induction false} StepKeepsLimit(s: State, step: Step)
    requires Enabled(s, step)
    ensures Apply(s, step).limit == s.limit
  {
  }

  lemma {:induction false} NextFlight(s: State, t: State, p: int)
    requires CollectorOk(s) && Next(s, t)
    requires s.limit > 0 && s.activeConns + InFlight(s) <= s.limit + p - 1 && InFlight(t) <= p
    ensures t.limit == s.limit && t.activeConns + InFlight(t) <= t.limit + p - 1
  {
    var step :| StepTo(s, step, t);
    StepFlight(s, step);
    StepKeepsLimit(s, step);
  }

  lemma {:induction false} WithinPrefix(run: seq<State>, p: int, i: nat)
    requires Within(run, p) && i <= |run|
    ensures Within(run[..i], p)
  {
    forall k | 0 <= k < i ensures InFlight(run[..i][k]) <= p { assert run[..i][k] == run[k]; }
  }

  lemma {:induction false} FlightBound(run: seq<State>, p: int)
    requires IsRun(run) && Within(run, p) && p >= 1 && run[0].limit > 0
    ensures Last(run).limit == run[0].limit
    ensures Last(run).activeConns + InFlight(Last(run)) <= run[0].limit + p - 1
  {
    if |run| > 1 {
      var prior := run[..|run| - 1];
      WithinPrefix(run, p, |run| - 1);
      FlightBound(prior, p);
      LastOk(prior);
      assert Last(prior) == run[|run| - 2];
      NextFlight(Last(prior), Last(run), p);
    }
  }

  lemma {:induction false} FlightNonNegative(s: State)
    ensures InFlight(s) >= 0
  {
    SumLe(s.handlers, (h: Handler) => 0, Waiting);
    SumZero(s.handlers, (h: Handler) => 0);
  }

  // With at most p >= 1 admitted connections not yet counted, the relay never
  // counts more than limit + p - 1; p = 1 is the exact cap.
  lemma {:induction false} SoftCap(run: seq<State>, p: int, i: nat)
    requires IsRun(run) && Within(run, p) && p >= 1 && run[0].limit > 0 && i < |run|
    ensures run[i].activeConns <= run[0].limit + p - 1
  {
    PrefixIsRun(run, i);
    var prefix := run[..i + 1];
    WithinPrefix(run, p, i + 1);
    FlightBound(prefix, p);
    FlightNonNegative(run[i]);
  }

  // ---- The cap is tight ----

  lemma {:induction false} Extend(run: seq<State>, step: Step, p: int) returns (longer: seq<State>)
    requires IsRun(run) && Within(run, p) && Enabled(Last(run), step) && InFlight(Apply(Last(run), step)) <= p
    ensures IsRun(longer) && Within(longer, p) && longer[0] == run[0]
    ensures Last(longer) == Apply(Last(run), step)
  {
    longer := RunExtends(run, step);
  }

  // n handlers, the first m of them counted and the rest at Start.
  ghost predicate Shape(s: State, limit: int, n: nat, m: nat) {
    && s.accept == Accepting && s.listening && s.limit == limit
    && |s.handlers| == n && m <= n && s.activeConns == m && Sum(s.handlers, Waiting) == n - m
    && forall i :: m <= i < n ==> s.handlers[i].pc == Start
  }

  lemma {:induction false} AdmitOne(run: seq<State>, limit: int, n: nat, m: nat, p: int) returns (longer: seq<State>)
    requires IsRun(run) && Within(run, p) && Shape(Last(run), limit, n, m) && m < limit && n - m < p
    ensures IsRun(longer) && Within(longer, p) && longer[0] == run[0] && Shape(Last(longer), limit, n + 1, m)
  {
    longer := AdmitAnother(run, limit, n, m, p);
  }

  lemma {:induction false} AdmitAnother(run: seq<State>, limit: int, n: nat, m: nat, p: int)
    returns (longer: seq<State>)
    requires IsRun(run) && Within(run, p) && Shape(Last(run), limit, n, m) && (limit <= 0 || m < limit) && n - m < p
    ensures IsRun(longer) && Within(longer, p) && longer[0] == run[0] && Shape(Last(longer), limit, n + 1, m)
  {
    var s := Last(run);
    var r1 := Extend(run, AcceptConn([]), p);
    var r2 := Extend(r1, Admit, p);
    var r3 := Extend(r2, WgAdd, p);
    SumAppend(s.handlers, Spawned([]), Waiting);
    assert Apply(Last(r3), Spawn).handlers == s.handlers + [Spawned([])];
    longer := Extend(r3, Spawn, p);
  }

  lemma {:induction false} CountOne(run: seq<State>, limit: int, n: nat, m: nat, p: int) returns (longer: seq<State>)
    requires IsRun(run) && Within(run, p) && Shape(Last(run), limit, n, m) && m < n
    ensures IsRun(longer) && Within(longer, p) && longer[0] == run[0] && Shape(Last(longer), limit, n, m + 1)
  {
    var s := Last(run);
    var ch := Choice(true, true, true, 0, 0);
    SumUpdate(s.handlers, m, s.handlers[m].(pc := Split), Waiting);
    assert run[|run| - 1] == s && InFlight(s) <= p;
    longer := Extend(run, Handle(m, ch), p);
  }

  lemma {:induction false} Fill(run: seq<State>, limit: int, m: nat, p: int) returns (longer: seq<State>)
    requires IsRun(run) && Within(run, p) && p >= 1 && Shape(Last(run), limit, m, m) && m < limit
    ensures IsRun(longer) && Within(longer, p) && longer[0] == run[0]
    ensures Shape(Last(longer), limit, limit - 1, limit - 1)
    decreases limit - m
  {
    if m == limit - 1 {
      longer := run;
    } else {
      var r1 := AdmitOne(run, limit, m, m, p);
      var r2 := CountOne(r1, limit, m + 1, m, p);
      longer := Fill(r2, limit, m + 1, p);
    }
  }

  lemma {:induction false} Burst(run: seq<State>, limit: int, m: nat, k: nat, p: int) returns (longer: seq<State>)
    requires IsRun(run) && Within(run, p) && Shape(Last(run), limit, m + k, m) && m < limit && k <= p
    ensures IsRun(longer) && Within(longer, p) && longer[0] == run[0] && Shape(Last(longer), limit, m + p, m)
    decreases p - k
  {
    if k == p {
      longer := run;
    } else {
      var r1 := AdmitOne(run, limit, m + k, m, p);
      longer := Burst(r1, limit, m, k + 1, p);
    }
  }

  lemma {:induction false} Drain(run: seq<State>, limit: int, n: nat, m: nat, p: int) returns (longer: seq<State>)
    requires IsRun(run) && Within(run, p) && Shape(Last(run), limit, n, m)
    ensures IsRun(longer) && Within(longer, p) && longer[0] == run[0] && Shape(Last(longer), limit, n, n)
    decreases n - m
  {
    if m == n {
      longer := run;
    } else {
      var r1 := CountOne(run, limit, n, m, p);
      longer := Drain(r1, limit, n, m + 1, p);
    }
  }

  // For every limit and every p the bound of SoftCap is reached.
  lemma {:induction false} SoftCapIsTight(limit: int, p: int) returns (run: seq<State>)
    requires limit > 0 && p >= 1
    ensures IsRun(run) && Within(run, p) && run[0].limit == limit
    ensures Last(run).activeConns == limit + p - 1
  {
    var s := Fresh(limit, true);
    var r0 := [s];
    assert Within(r0, p);
    var r1 := Fill(r0, limit, 0, p);
    var r2 := Burst(r1, limit, limit - 1, 0, p);
    run := Drain(r2, limit, limit - 1 + p, limit - 1, p);
  }

  // Counting only spawned handlers, without the connection the accept loop has
  // admitted and not yet spawned, the bound is one higher ...
  ghost predicate SpawnedWithin(run: seq<State>, p: int) {
    forall i :: 0 <= i < |run| ==> Sum(run[i].handlers, Waiting) <= p
  }

  lemma {:induction false} SpawnedOnlyCap(run: seq<State>, p: int, i: nat)
    requires IsRun(run) && SpawnedWithin(run, p) && p >= 0 && run[0].limit > 0 && i < |run|
    ensures run[i].activeConns <= run[0].limit + p
  {
    assert Within(run, p + 1);
    SoftCap(run, p + 1, i);
  }

  lemma {:induction false} ExtendSpawned(run: seq<State>, step: Step, p: int) returns (longer: seq<State>)
    requires IsRun(run) && SpawnedWithin(run, p) && Enabled(Last(run), step)
    requires Sum(Apply(Last(run), step).handlers, Waiting) <= p
    ensures IsRun(longer) && SpawnedWithin(longer, p) && longer[0] == run[0]
    ensures Last(longer) == Apply(Last(run), step)
  {
    longer := RunExtends(run, step);
  }

  // limit - 1 counted connections, p spawned ones waiting, and one more admitted.
  lemma {:induction false} AdmittedEarly(limit: int, p: int) returns (run: seq<State>)
    requires limit > 0 && p >= 1
    ensures IsRun(run) && SpawnedWithin(run, p) && run[0].limit == limit
    ensures Last(run).accept.Adding? && Shape(Last(run).(accept := Accepting), limit, limit - 1 + p, limit - 1)
  {
    var r0 := [Fresh(limit, true)];
    assert Within(r0, p);
    var r1 := Fill(r0, limit, 0, p);
    var r2 := Burst(r1, limit, limit - 1, 0, p);
    assert SpawnedWithin(r2, p) by {
      forall i | 0 <= i < |r2| ensures Sum(r2[i].handlers, Waiting) <= p { assert InFlight(r2[i]) <= p; }
    }
    var r3 := ExtendSpawned(r2, AcceptConn([]), p);
    run := ExtendSpawned(r3, Admit, p);
  }

  // One of the waiting handlers counts itself, whatever the accept loop is at.
  lemma {:induction false} CountSpawned(run: seq<State>, limit: int, n: nat, m: nat, p: int)
    returns (longer: seq<State>)
    requires IsRun(run) && SpawnedWithin(run, p) && Shape(Last(run).(accept := Accepting), limit, n, m) && m < n
    ensures IsRun(longer) && SpawnedWithin(longer, p) && longer[0] == run[0]
    ensures Last(longer).accept == Last(run).accept && Shape(Last(longer).(accept := Accepting), limit, n, m + 1)
  {
    var s := Last(run);
    SumUpdate(s.handlers, m, s.handlers[m].(pc := Split), Waiting);
    assert run[|run| - 1] == s && Sum(s.handlers, Waiting) <= p;
    longer := ExtendSpawned(run, Handle(m, Choice(true, true, true, 0, 0)), p);
  }

  // The admitted connection is spawned.
  lemma {:induction false} SpawnAdmitted(run: seq<State>, limit: int, n: nat, m: nat, p: int)
    returns (longer: seq<State>)
    requires IsRun(run) && SpawnedWithin(run, p) && Last(run).accept.Adding?
    requires Shape(Last(run).(accept := Accepting), limit, n, m) && n - m < p
    ensures IsRun(longer) && SpawnedWithin(longer, p) && longer[0] == run[0] && Shape(Last(longer), limit, n + 1, m)
  {
    var s := Last(run);
    var r1 := ExtendSpawned(run, WgAdd, p);
    SumAppend(s.handlers, Spawned(s.accept.ip), Waiting);
    assert Apply(Last(r1), Spawn).handlers == s.handlers + [Spawned(s.accept.ip)];
    longer := ExtendSpawned(r1, Spawn, p);
  }

  lemma {:induction false} DrainSpawned(run: seq<State>, limit: int, n: nat, m: nat, p: int)
    returns (longer: seq<State>)
    requires IsRun(run) && SpawnedWithin(run, p) && Shape(Last(run).(accept := Accepting), limit, n, m)
    ensures IsRun(longer) && SpawnedWithin(longer, p) && longer[0] == run[0] && Last(longer).activeConns == n
    decreases n - m
  {
    if m == n {
      longer := run;
    } else {
      var r1 := CountSpawned(run, limit, n, m, p);
      longer := DrainSpawned(r1, limit, n, m + 1, p);
    }
  }

  // ... and reached, for every limit and every p >= 1.
  lemma {:induction false} SpawnedOnlyExceeds(limit: int, p: int) returns (run: seq<State>)
    requires limit > 0 && p >= 1
    ensures IsRun(run) && SpawnedWithin(run, p) && run[0].limit == limit && Last(run).activeConns == limit + p
  {
    var r1 := AdmittedEarly(limit, p);
    var r2 := CountSpawned(r1, limit, limit - 1 + p, limit - 1, p);
    var r3 := SpawnAdmitted(r2, limit, limit - 1 + p, limit, p);
    run := DrainSpawned(r3, limit, limit + p, limit, p);
  }

  // ---- No limit ----

  // A connection is turned away exactly when there is a positive limit and it is
  // reached; a limit of 0, the default, turns none away.
  lemma {:induction false} AdmittedIff(s: State)
    requires Enabled(s, Admit)
    ensures Apply(s, Admit).accept
         == if s.limit <= 0 || s.activeConns < s.limit then Adding(s.accept.ip) else Accepting
  {
  }

  // Without a limit any number of connections is counted at once, one after the
  // other.
  lemma {:induction false} UnlimitedGrows(n: nat) returns (run: seq<State>)
    ensures IsRun(run) && Within(run, 1) && run[0].limit == 0 && Shape(Last(run), 0, n, n)
  {
    if n == 0 {
      run := [Fresh(0, true)];
      assert Within(run, 1);
    } else {
      var r := UnlimitedGrows(n - 1);
      var r1 := AdmitAnother(r, 0, n - 1, n - 1, 1);
      run := CountOne(r1, 0, n, n - 1, 1);
    }
  }

  // ---- Shutdown ----

  lemma {:induction false} StoppedStep(s: State, t: State)
    requires SystemOk(s) && Next(s, t) && s.stop == Returned
    ensures t.stop == Returned && t.handlers == s.handlers && t.store == s.store && t.activeConns == s.activeConns
  {
    var step :| StepTo(s, step, t);
    AfterStop(s, step);
    OutsideFrame(s, step);
  }

  lemma {:induction false} StoppedLast(run: seq<State>)
    requires IsRun(run) && |run| > 1 && run[|run| - 2].stop == Returned
    ensures var s := run[|run| - 2]; var t := Last(run);
      t.stop == Returned && t.handlers == s.handlers && t.store == s.store
  {
    var n := |run| - 1;
    LastOk(run[..n]);
    assert Last(run[..n]) == run[n - 1];
    StoppedStep(run[n - 1], run[n]);
  }

  lemma {:induction false} StoppedStays(run: seq<State>, i: nat)
    requires IsRun(run) && i < |run| && run[i].stop == Returned
    ensures Last(run).stop == Returned && Last(run).handlers == run[i].handlers && Last(run).store == run[i].store
  {
    var n := |run| - 1;
    if i < n {
      StoppedStays(run[..n], i);
      assert Last(run[..n]) == run[n - 1];
      StoppedLast(run);
    }
  }

  // Once Relay.Stop has returned, no handler starts or moves, every active
  // count is zero, and the connection total is the number of records ever made.
  lemma {:induction false} StoppedForGood(run: seq<State>, i: nat)
    requires IsRun(run) && i < |run| && run[i].stop == Returned
    ensures Last(run).handlers == run[i].handlers && Last(run).store == run[i].store
    ensures Last(run).activeConns == 0
    ensures forall ip: Ip :: Lookup(Last(run).store, ip).active == 0
    ensures HeapSum(Last(run).store.heap, Total) == |Last(run).store.records|
  {
    StoppedStays(run, i);
    LastOk(run);
    AfterStop(Last(run), WaitDone);
  }

  // ---- Every state of every run ----

  // Racing creations leave one record per address.
  lemma {:induction false} OneRecordPerAddress(run: seq<State>, i: nat, q: nat, r: nat)
    requires IsRun(run) && i < |run| && q < r < |run[i].store.heap|
    ensures run[i].store.heap[q].ip != run[i].store.heap[r].ip
  {
    RunOk(run, i);
    assert RefOf(run[i].store, run[i].store.heap[q].ip) == q;
  }

  // An address is only ever found in its own shard, and there exactly when it
  // has a record.
  lemma {:induction false} LivesInOwnShard(run: seq<State>, i: nat, k: nat, ip: Ip)
    requires IsRun(run) && i < |run| && k < NUM_SHARDS
    ensures var st := run[i].store;
      ip in st.shards[k] <==> k == ShardOf(ip) && exists r :: 0 <= r < |st.heap| && st.heap[r].ip == ip
  {
    RunOk(run, i);
    var st := run[i].store;
    if ip in st.shards[k] {
      TableAt(st, k, ip);
    }
  }

  // No increment is lost: each address's counters are what its handlers added.
  lemma {:induction false} NoIncrementLost(run: seq<State>, i: nat, ip: Ip, f: Field)
    requires IsRun(run) && i < |run|
    ensures Get(Lookup(run[i].store, ip), f) == Sum(run[i].handlers, ShareAt(ip, f))
  {
    RunOk(run, i);
  }

  lemma {:induction false} ActiveAlwaysChained(run: seq<State>, i: nat)
    requires IsRun(run) && i < |run|
    ensures 0 <= HeapSum(run[i].store.heap, Active) <= run[i].activeConns
    ensures run[i].activeConns <= Sum(run[i].handlers, Live) <= run[i].wg
    ensures Enabled(run[i], WgAdd) ==> run[i].wg >= 1
  {
    RunOk(run, i);
    ActiveChain(run[i]);
    if Enabled(run[i], WgAdd) {
      NeverAddsFromZero(run[i]);
    }
  }

  lemma {:induction false} ConnectionsRecordedOnce(run: seq<State>, c: nat, i: nat)
    requires IsRun(run) && c < |run| && i < |run[c].handlers|
    requires run[c].handlers[i].pc == Finished && !run[c].handlers[i].bad
    ensures var records := run[c].store.records; var h := run[c].handlers[i];
      exists k :: 0 <= k < |records| &&
        records[k].id == h.id && records[k].ip == h.ip && records[k].tx == h.tx && records[k].rx == h.rx &&
        records[k].upstream == h.upstream &&
        forall m :: 0 <= m < |records| && records[m].id == h.id ==> m == k
  {
    RunOk(run, c);
    RecordedExactlyOnce(run[c], i);
    var k :| 0 <= k < |run[c].store.records| && Tells(run[c].store.records[k], run[c].handlers[i]) &&
      forall m :: 0 <= m < |run[c].store.records| && run[c].store.records[m].id == run[c].handlers[i].id ==> m == k;
  }

  lemma {:induction false} SamplesNeverUnderflow(run: seq<State>, c: nat, tooSoon: bool)
    requires IsRun(run) && c < |run| && Enabled(run[c], EndSample(tooSoon)) && run[c].sampler.hasBase
    ensures run[c].sampler.lastTx <= run[c].scans[run[c].sampler.scan].acc.tx
    ensures run[c].sampler.lastRx <= run[c].scans[run[c].sampler.scan].acc.rx
  {
    RunOk(run, c);
    SampleNeverUnderflows(run[c], tooSoon);
  }
}
