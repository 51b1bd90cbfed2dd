// What scans return over whole runs: where each value comes from, and how the
// results of successive scans compare.

module ScanResults {
  import opened DeviceCounters
  import opened Machine
  import opened Accounting
  import opened Scans
  import opened Runs
  import opened Rings

  lemma {:induction false} NextAt(run: seq<State>, k: nat)
    requires IsRun(run) && k + 1 < |run|
    ensures Next(run[k], run[k + 1])
  {
    PrefixIsRun(run, k + 1);
    var p := run[..k + 2];
    assert p[|p| - 2] == run[k] && p[|p| - 1] == run[k + 1];
  }

  lemma {:induction false} StepOf(run: seq<State>, k: nat)
    requires IsRun(run) && k + 1 < |run|
    ensures SystemOk(run[k]) && Next(run[k], run[k + 1])
  {
    RunOk(run, k);
    NextAt(run, k);
  }

  // ---- Where a value was loaded ----

  // Scan j loads field f of record r between states a and a + 1.
  ghost predicate LoadsAt(run: seq<State>, a: nat, j: nat, f: Field, r: nat) {
    && a + 1 < |run| && j < |run[a].scans| && j < |run[a + 1].scans|
    && (f, r) !in run[a].scans[j].seen && (f, r) in run[a + 1].scans[j].seen
  }

  lemma {:induction false} MoveSeen(sc: Scan, st: Store, m: ScanMove, f: Field, r: nat)
    requires ScanOk(sc, st) && ScanEnabled(sc, st, m)
    ensures var t := ScanStep(sc, st, m);
      && t.order == sc.order
      && ((f, r) in sc.seen ==> (f, r) in t.seen && t.seen[(f, r)] == sc.seen[(f, r)])
      && ((f, r) in t.seen && (f, r) !in sc.seen ==>
            r < |st.heap| && t.seen[(f, r)] == Get(st.heap[r].c, f)
            && sc.cur.At? && sc.cur.ref == r && sc.cur.pos < 4 && sc.order[sc.cur.pos] == f)
  {
    if m.Load? {
      assert sc.cur.pos < 4 && (sc.order[sc.cur.pos], sc.cur.ref) !in sc.seen;
    }
  }

  // One step keeps what scan j has loaded, and what it loads is the value of that moment.
  ghost predicate SeenStep(s: State, t: State, j: nat, f: Field, r: nat)
    requires j < |s.scans|
  {
    && j < |t.scans| && t.scans[j].order == s.scans[j].order
    && ((f, r) in s.scans[j].seen ==>
          (f, r) in t.scans[j].seen && t.scans[j].seen[(f, r)] == s.scans[j].seen[(f, r)])
    && ((f, r) in t.scans[j].seen && (f, r) !in s.scans[j].seen ==>
          r < |s.store.heap| && t.scans[j].seen[(f, r)] == Get(s.store.heap[r].c, f)
          && s.scans[j].cur.At? && s.scans[j].cur.ref == r && s.scans[j].cur.pos < 4
          && s.scans[j].cur.pos < |s.scans[j].order| && s.scans[j].order[s.scans[j].cur.pos] == f)
  }

  lemma {:induction false} OtherScansStay(s: State, step: Step, j: nat)
    requires Enabled(s, step) && j < |s.scans| && !(step.Scanning? && step.j == j)
    ensures j < |Apply(s, step).scans| && Apply(s, step).scans[j] == s.scans[j]
  {
  }

  lemma {:induction false} NextSeen(s: State, t: State, j: nat, f: Field, r: nat)
    requires j < |s.scans| && ScanOk(s.scans[j], s.store) && Next(s, t)
    ensures SeenStep(s, t, j, f, r)
  {
    var step :| StepTo(s, step, t);
    if step.Scanning? && step.j == j {
      MoveSeen(s.scans[j], s.store, step.m, f, r);
    } else {
      OtherScansStay(s, step, j);
    }
  }

  lemma {:induction false} SeenAt(run: seq<State>, k: nat, j: nat, f: Field, r: nat)
    requires IsRun(run) && k + 1 < |run| && j < |run[k].scans|
    ensures SeenStep(run[k], run[k + 1], j, f, r)
  {
    StepOf(run, k);
    assert ScanOk(run[k].scans[j], run[k].store);
    NextSeen(run[k], run[k + 1], j, f, r);
  }

  // A value once loaded is the one shown in the end.
  lemma {:induction false} SeenKept(run: seq<State>, a: nat, c: nat, j: nat, f: Field, r: nat)
    requires IsRun(run) && a <= c < |run| && j < |run[a].scans| && (f, r) in run[a].scans[j].seen
    ensures j < |run[c].scans| && (f, r) in run[c].scans[j].seen
    ensures run[c].scans[j].seen[(f, r)] == run[a].scans[j].seen[(f, r)]
    ensures run[c].scans[j].order == run[a].scans[j].order
  {
    if a < c {
      SeenKept(run, a, c - 1, j, f, r);
      SeenAt(run, c - 1, j, f, r);
    }
  }

  lemma {:induction false} LoadedValue(run: seq<State>, a: nat, c: nat, j: nat, f: Field, r: nat)
    requires IsRun(run) && LoadsAt(run, a, j, f, r) && a < c < |run|
    ensures r < |run[a].store.heap| && j < |run[c].scans| && (f, r) in run[c].scans[j].seen
    ensures run[c].scans[j].seen[(f, r)] == Get(run[a].store.heap[r].c, f)
  {
    SeenAt(run, a, j, f, r);
    SeenKept(run, a + 1, c, j, f, r);
  }

  // Every loaded value was loaded in some step.
  lemma {:induction false} LoadedSomewhere(run: seq<State>, c: nat, j: nat, f: Field, r: nat) returns (a: nat)
    requires IsRun(run) && c < |run| && j < |run[c].scans| && (f, r) in run[c].scans[j].seen
    ensures a < c && LoadsAt(run, a, j, f, r)
  {
    if c == 0 {
      StartsEmpty(run);
      assert false;
    } else {
      if j < |run[c - 1].scans| {
        if (f, r) in run[c - 1].scans[j].seen {
          a := LoadedSomewhere(run, c - 1, j, f, r);
        } else {
          a := c - 1;
        }
      } else {
        NewScanEmpty(run, c - 1, j);
        assert false;
      }
    }
  }

  lemma {:induction false} StartsEmpty(run: seq<State>)
    requires IsRun(run)
    ensures run[0].scans == []
  {
    PrefixIsRun(run, 0);
    assert run[..1][0] == run[0];
  }

  lemma {:induction false} NewScanEmpty(run: seq<State>, k: nat, j: nat)
    requires IsRun(run) && k + 1 < |run| && |run[k].scans| <= j < |run[k + 1].scans|
    ensures run[k + 1].scans[j].seen == map[]
  {
    StepOf(run, k);
    var step :| StepTo(run[k], step, run[k + 1]);
    NewScanEmptyStep(run[k], step, j);
  }

  lemma {:induction false} NewScanEmptyStep(s: State, step: Step, j: nat)
    requires Enabled(s, step) && |s.scans| <= j < |Apply(s, step).scans|
    ensures Apply(s, step).scans[j].seen == map[]
  {
  }

  lemma {:induction false} OrderKept(run: seq<State>, b: nat, c: nat, j: nat)
    requires IsRun(run) && b <= c < |run| && j < |run[b].scans|
    ensures j < |run[c].scans| && run[c].scans[j].order == run[b].scans[j].order
  {
    if b < c {
      OrderKept(run, b, c - 1, j);
      SeenAt(run, c - 1, j, Tx, 0);
    }
  }

  // ---- A scan at rest ----

  lemma {:induction false} ScansGrowAt(run: seq<State>, k: nat)
    requires IsRun(run) && k + 1 < |run|
    ensures |run[k].scans| <= |run[k + 1].scans|
  {
    StepOf(run, k);
    var step :| StepTo(run[k], step, run[k + 1]);
    ScansGrowStep(run[k], step);
  }

  lemma {:induction false} ScansGrowStep(s: State, step: Step)
    requires Enabled(s, step)
    ensures |s.scans| <= |Apply(s, step).scans|
  {
  }

  lemma {:induction false} ScansGrow(run: seq<State>, a: nat, b: nat)
    requires IsRun(run) && a <= b < |run|
    ensures |run[a].scans| <= |run[b].scans|
  {
    if a < b {
      ScansGrow(run, a, b - 1);
      ScansGrowAt(run, b - 1);
    }
  }

  lemma {:induction false} SeenExact(seen: map<(Field, nat), int>, heap: seq<Device>, f: Field, n: nat)
    requires n <= |heap|
    requires forall r: nat :: r < n ==> (f, r) in seen && seen[(f, r)] == Get(heap[r].c, f)
    ensures SeenSum(seen, f, n) == HeapSum(heap[..n], f)
  {
    if n > 0 {
      SeenExact(seen, heap, f, n - 1);
      assert heap[..n][..n - 1] == heap[..n - 1];
    }
  }

  lemma {:induction false} RestingValue(run: seq<State>, a: nat, j: nat, c: nat, f: Field, r: nat)
    requires IsRun(run) && BeginsAt(run, a, j) && a < c < |run|
    requires forall k :: a <= k <= c ==> run[k].store == run[a].store
    requires j < |run[c].scans| && (f, r) in run[c].scans[j].seen
    ensures r < |run[a].store.heap| && run[c].scans[j].seen[(f, r)] == Get(run[a].store.heap[r].c, f)
  {
    var k := LoadedSomewhere(run, c, j, f, r);
    LoadedValue(run, k, c, j, f, r);
    if k < a {
      ScansGrow(run, k, a);
    }
  }

  lemma {:induction false} AllSeen(s: State, j: nat, f: Field, r: nat)
    requires SystemOk(s) && j < |s.scans| && Done(s.scans[j]) && r < |s.scans[j].start|
    ensures (f, r) in s.scans[j].seen && Get(s.scans[j].acc, f) == SeenSum(s.scans[j].seen, f, |s.store.heap|)
  {
    var sc := s.scans[j];
    assert ScanOk(sc, s.store) && !Ahead(sc, sc.start[r].ip);
  }

  lemma {:induction false} AccIsSum(s: State, j: nat, f: Field)
    requires SystemOk(s) && j < |s.scans|
    ensures Get(s.scans[j].acc, f) == SeenSum(s.scans[j].seen, f, |s.store.heap|)
  {
    assert ScanOk(s.scans[j], s.store);
  }

  // A scan that begins and ends with the same collector returns the true bytes,
  // connections and device count, and the true active count too if the
  // collector does not change in between.
  lemma {:induction false} RestingScanIsExact(run: seq<State>, a: nat, j: nat, c: nat, f: Field)
    requires IsRun(run) && BeginsAt(run, a, j) && a < c < |run|
    requires run[c].store == run[a].store
    requires Monotone(f) || forall k :: a <= k <= c ==> run[k].store == run[a].store
    ensures j < |run[c].scans|
    ensures Done(run[c].scans[j]) ==>
      Get(run[c].scans[j].acc, f) == HeapSum(run[a].store.heap, f) && run[c].scans[j].count == |run[a].store.heap|
  {
    StartIsKept(run, a, j, c);
    TotalsBetween(run, a, j, c, Total);
    var heap := run[a].store.heap;
    if Monotone(f) {
      TotalsBetween(run, a, j, c, f);
    } else if Done(run[c].scans[j]) {
      RunOk(run, c);
      forall r: nat | r < |heap|
        ensures (f, r) in run[c].scans[j].seen && run[c].scans[j].seen[(f, r)] == Get(heap[r].c, f)
      {
        AllSeen(run[c], j, f, r);
        RestingValue(run, a, j, c, f, r);
      }
      AccIsSum(run[c], j, f);
      SeenExact(run[c].scans[j].seen, heap, f, |heap|);
      assert heap[..|heap|] == heap;
    }
  }

  // ---- Successive scans ----

  // A scan that is finished when another begins returns no more than that one,
  // in bytes, connections and devices.
  lemma {:induction false} ScansNeverDecrease(run: seq<State>, a: nat, j: nat, b: nat, k: nat, c: nat, f: Field)
    requires IsRun(run) && BeginsAt(run, a, j) && BeginsAt(run, b, k) && a < b < c < |run| && Monotone(f)
    ensures j < |run[b].scans| && k < |run[c].scans|
    ensures Done(run[b].scans[j]) && Done(run[c].scans[k]) ==>
      && Get(run[b].scans[j].acc, f) <= Get(run[c].scans[k].acc, f)
      && run[b].scans[j].count <= run[c].scans[k].count
  {
    TotalsBetween(run, a, j, b, f);
    TotalsBetween(run, b, k, c, f);
  }

  // A finished scan has no move.
  lemma {:induction false} DoneStep(s: State, step: Step, j: nat)
    requires j < |s.scans| && ScanOk(s.scans[j], s.store) && Done(s.scans[j]) && Enabled(s, step)
    ensures !(step.Scanning? && step.j == j)
  {
  }

  lemma {:induction false} DoneAt(run: seq<State>, k: nat, j: nat)
    requires IsRun(run) && k + 1 < |run| && j < |run[k].scans| && Done(run[k].scans[j])
    ensures j < |run[k + 1].scans| && run[k + 1].scans[j] == run[k].scans[j]
  {
    StepOf(run, k);
    assert ScanOk(run[k].scans[j], run[k].store);
    var step :| StepTo(run[k], step, run[k + 1]);
    DoneStep(run[k], step, j);
    OtherScansStay(run[k], step, j);
  }

  // A finished scan does not change any more.
  lemma {:induction false} DoneStays(run: seq<State>, b: nat, c: nat, j: nat)
    requires IsRun(run) && b <= c < |run| && j < |run[b].scans| && Done(run[b].scans[j])
    ensures j < |run[c].scans| && run[c].scans[j] == run[b].scans[j]
  {
    if b < c {
      DoneStays(run, b, c - 1, j);
      DoneAt(run, c - 1, j);
    }
  }

  // ---- The sampler's scans ----

  // The sampler begins scan j after state a.
  ghost predicate SamplesAt(run: seq<State>, a: nat, j: nat) {
    BeginsAt(run, a, j) && !run[a].sampler.busy && run[a + 1].sampler.busy
  }

  predicate UnderWay(s: State, j: nat) {
    j < |s.scans| && (Done(s.scans[j]) || (s.sampler.busy && s.sampler.scan == j))
  }

  lemma {:induction false} StepUnderWay(s: State, step: Step, j: nat)
    requires ScansOk(s) && Enabled(s, step) && UnderWay(s, j)
    ensures UnderWay(Apply(s, step), j)
  {
    assert ScanOk(s.scans[j], s.store);
    if Done(s.scans[j]) {
      DoneStep(s, step, j);
      OtherScansStay(s, step, j);
    } else if !(step.Scanning? && step.j == j) {
      OtherScansStay(s, step, j);
    }
  }

  lemma {:induction false} BeginSampleStep(s: State, step: Step)
    requires Enabled(s, step) && !s.sampler.busy && Apply(s, step).sampler.busy
    ensures step.BeginSample?
  {
  }

  lemma {:induction false} SampleUnderWay(run: seq<State>, a: nat, j: nat, b: nat)
    requires IsRun(run) && SamplesAt(run, a, j) && a < b < |run|
    ensures UnderWay(run[b], j)
  {
    if b == a + 1 {
      SampleBegins(run, a, j);
    } else {
      SampleUnderWay(run, a, j, b - 1);
      UnderWayAt(run, b - 1, j);
    }
  }

  lemma {:induction false} SampleBegins(run: seq<State>, a: nat, j: nat)
    requires IsRun(run) && SamplesAt(run, a, j)
    ensures UnderWay(run[a + 1], j)
  {
    StepOf(run, a);
    var step :| StepTo(run[a], step, run[a + 1]);
    BeginSampleStep(run[a], step);
  }

  lemma {:induction false} UnderWayAt(run: seq<State>, k: nat, j: nat)
    requires IsRun(run) && k + 1 < |run| && UnderWay(run[k], j)
    ensures UnderWay(run[k + 1], j)
  {
    StepOf(run, k);
    var step :| StepTo(run[k], step, run[k + 1]);
    StepUnderWay(run[k], step, j);
  }

  // The single sampler's scans follow one another, so what they return never decreases.
  lemma {:induction false} SamplesNeverDecrease(run: seq<State>, a: nat, j: nat, b: nat, k: nat, c: nat, f: Field)
    requires IsRun(run) && SamplesAt(run, a, j) && SamplesAt(run, b, k) && a < b < c < |run| && Monotone(f)
    ensures j < |run[c].scans| && k < |run[c].scans|
    ensures Done(run[c].scans[k]) ==>
      Done(run[c].scans[j]) && Get(run[c].scans[j].acc, f) <= Get(run[c].scans[k].acc, f)
  {
    SampleUnderWay(run, a, j, b);
    DoneStays(run, b, c, j);
    ScansNeverDecrease(run, a, j, b, k, c, f);
  }

  // The end of a sample, whatever the clock says: the first one sets the base,
  // and a later one moves it to its own totals unless it comes too soon.
  lemma {:induction false} SampleSets(s: State, tooSoon: bool)
    requires Enabled(s, EndSample(tooSoon))
    ensures var t := Apply(s, EndSample(tooSoon)).sampler; var read := s.scans[s.sampler.scan].acc;
      && t.hasBase && !t.busy
      && (t.lastTx, t.lastRx) == (if s.sampler.hasBase && tooSoon then (s.sampler.lastTx, s.sampler.lastRx)
                                  else (read.tx, read.rx))
  {
  }

  // The same base as the sampler on values keeps.
  lemma {:induction false} SamplersAgree(sm: Sampler, m: Meter, t: Counters, now: int)
    requires t.tx >= 0 && t.rx >= 0 && m.started == sm.hasBase
    requires m.started ==> m.tx == sm.lastTx && m.rx == sm.lastRx && m.tx <= t.tx && m.rx <= t.rx
    ensures var e := SamplerEnd(sm, t, TooSoon(m.last, now)); var r := Sampled(m, Reading(now, t.tx, t.rx));
      r.started == e.hasBase && r.tx == e.lastTx && r.rx == e.lastRx
  {
  }

  // rs are what the samples begun at starts read, all finished in the last state.
  ghost predicate Reads(run: seq<State>, starts: seq<nat>, rs: seq<Reading>) {
    && run != [] && |rs| == |starts|
    && (forall i, k :: 0 <= i < k < |starts| ==> starts[i] < starts[k])
    && forall i :: 0 <= i < |starts| ==>
         && starts[i] + 1 < |run|
         && var j := |run[starts[i]].scans|;
         && SamplesAt(run, starts[i], j)
         && j < |Last(run).scans| && Done(Last(run).scans[j])
         && rs[i].tx == Last(run).scans[j].acc.tx && rs[i].rx == Last(run).scans[j].acc.rx
  }

  // In every run the sampler's readings, skipped ones included, never decrease.
  lemma {:induction false} SamplerReadingsRise(run: seq<State>, starts: seq<nat>, rs: seq<Reading>)
    requires IsRun(run) && Reads(run, starts, rs)
    ensures Rising(rs)
  {
    forall i, k | 0 <= i <= k < |rs| ensures rs[i].tx <= rs[k].tx && rs[i].rx <= rs[k].rx {
      if i < k {
        var a, b := starts[i], starts[k];
        SamplesNeverDecrease(run, a, |run[a].scans|, b, |run[b].scans|, |run| - 1, Tx);
        SamplesNeverDecrease(run, a, |run[a].scans|, b, |run[b].scans|, |run| - 1, Rx);
      }
    }
  }

  // So in every run, at whatever times it samples, the sampler's rates conserve bytes.
  lemma {:induction false} SamplerConserves(run: seq<State>, starts: seq<nat>, rs: seq<Reading>)
    requires IsRun(run) && Reads(run, starts, rs) && rs != []
    ensures Rising(rs)
    ensures var m := SampledAll(rs);
      && m.baseTx == rs[0].tx && m.baseRx == rs[0].rx
      && Conserves(CarriedTx(m.log), Span(m.log), m.tx - m.baseTx, m.log != [])
      && Conserves(CarriedRx(m.log), Span(m.log), m.rx - m.baseRx, m.log != [])
      && Span(m.log) * 1_000_000_000.0 == (m.last - rs[0].now) as real
  {
    SamplerReadingsRise(run, starts, rs);
    RatesConserve(rs);
  }
}
