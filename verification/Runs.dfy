// The invariant over every run, and what it says about scans and the sampler.

module Runs {
  import opened ShardIndex
  import opened Sums
  import opened DeviceCounters
  import opened Machine
  import opened Accounting
  import opened RelayInvariants
  import opened Scans

  ghost predicate ScansOk(s: State) {
    forall j :: 0 <= j < |s.scans| ==> ScanOk(s.scans[j], s.store)
  }

  // The sampler's base never exceeds the true totals at its current scan's start.
  ghost predicate SamplerOk(s: State) {
    && (s.sampler.busy ==> s.sampler.scan < |s.scans|)
    && (s.sampler.hasBase ==>
          var heap := if s.sampler.busy then s.scans[s.sampler.scan].start else s.store.heap;
          s.sampler.lastTx <= HeapSum(heap, Tx) && s.sampler.lastRx <= HeapSum(heap, Rx))
  }

  ghost predicate SystemOk(s: State) {
    CollectorOk(s) && RelayOk(s) && ScansOk(s) && SamplerOk(s)
  }

  // ---- Sums of loaded values against sums of true values ----

  lemma {:induction false} ShareSane(s: State, r: nat)
    requires CollectorOk(s) && r < |s.store.heap|
    ensures var c := s.store.heap[r].c; 0 <= c.tx && 0 <= c.rx && 0 <= c.active <= c.total
  {
    var ip := s.store.heap[r].ip;
    assert Lookup(s.store, ip) == s.store.heap[r].c;
    forall f: Field ensures 0 <= Get(Lookup(s.store, ip), f) {
      SumLe(s.handlers, (h: Handler) => 0, ShareAt(ip, f));
      SumZero(s.handlers, (h: Handler) => 0);
    }
    SumLe(s.handlers, ShareAt(ip, Active), ShareAt(ip, Total));
    assert 0 <= Get(Lookup(s.store, ip), Tx) && 0 <= Get(Lookup(s.store, ip), Rx);
    assert 0 <= Get(Lookup(s.store, ip), Active) <= Get(Lookup(s.store, ip), Total);
  }

  lemma {:induction false} CollectorSane(s: State)
    requires CollectorOk(s)
    ensures Sane(s.store)
  {
    forall r | 0 <= r < |s.store.heap|
      ensures var c := s.store.heap[r].c; 0 <= c.tx && 0 <= c.rx && 0 <= c.active <= c.total
    {
      ShareSane(s, r);
    }
  }

  lemma {:induction false} GrowingSum(a: seq<Device>, b: seq<Device>, f: Field)
    requires Grows(a, b) && Monotone(f)
    requires forall r :: 0 <= r < |b| ==> 0 <= Get(b[r].c, f)
    ensures HeapSum(a, f) <= HeapSum(b, f)
  {
    if |a| < |b| {
      GrowingSum(a, b[..|b| - 1], f);
    } else if a != [] {
      GrowingSum(a[..|a| - 1], b[..|b| - 1], f);
    }
  }

  // Loaded values lie between the record's value at the start and its value now.
  lemma {:induction false} SeenBelow(sc: Scan, st: Store, f: Field, n: nat)
    requires SeenOk(sc, st) && Sane(st) && Monotone(f) && n <= |st.heap|
    ensures SeenSum(sc.seen, f, n) <= HeapSum(st.heap[..n], f)
  {
    if n > 0 {
      SeenBelow(sc, st, f, n - 1);
      assert st.heap[..n][..n - 1] == st.heap[..n - 1];
    }
  }

  lemma {:induction false} SeenAbove(sc: Scan, f: Field, n: nat, m: nat)
    requires Monotone(f) && m == if n < |sc.start| then n else |sc.start|
    requires forall r: nat :: r < |sc.start| ==> (f, r) in sc.seen && Get(sc.start[r].c, f) <= sc.seen[(f, r)]
    requires forall r: nat :: (f, r) in sc.seen ==> 0 <= sc.seen[(f, r)]
    ensures HeapSum(sc.start[..m], f) <= SeenSum(sc.seen, f, n)
  {
    if n > 0 {
      var k := if n - 1 < |sc.start| then n - 1 else |sc.start|;
      SeenAbove(sc, f, n - 1, k);
      if n <= |sc.start| {
        assert sc.start[..n][..n - 1] == sc.start[..n - 1];
      }
    }
  }

  lemma {:induction false} SeenTorn(sc: Scan, st: Store, n: nat)
    requires TornOk(sc, st) && sc.order == TotalsOrder()
    requires forall r: nat :: (Active, r) in sc.seen ==> (Total, r) in sc.seen
    ensures 0 <= SeenSum(sc.seen, Active, n) <= SeenSum(sc.seen, Total, n)
  {
    if n > 0 {
      SeenTorn(sc, st, n - 1);
    }
  }

  // ---- Device count ----

  function Ips(heap: seq<Device>): set<Ip> {
    set r | 0 <= r < |heap| :: heap[r].ip
  }

  lemma {:induction false} IpsCount(heap: seq<Device>)
    requires forall q, r :: 0 <= q < r < |heap| ==> heap[q].ip != heap[r].ip
    ensures |Ips(heap)| == |heap|
  {
    if heap != [] {
      var n := |heap| - 1;
      IpsCount(heap[..n]);
      assert Ips(heap) == Ips(heap[..n]) + {heap[n].ip} by {
        forall ip | ip in Ips(heap) ensures ip in Ips(heap[..n]) + {heap[n].ip} {
          var r :| 0 <= r < |heap| && heap[r].ip == ip;
          if r < n { assert heap[..n][r].ip == ip; }
        }
        forall ip | ip in Ips(heap[..n]) ensures ip in Ips(heap) {
          var r :| 0 <= r < n && heap[..n][r].ip == ip;
          assert heap[r].ip == ip;
        }
      }
      assert heap[n].ip !in Ips(heap[..n]);
    }
  }

  lemma {:induction false} SubsetSize<T>(a: set<T>, b: set<T>)
    requires a <= b
    ensures |a| <= |b|
  {
    assert b == a + (b - a);
  }

  // ---- A finished scan ----

  // Torn reads are bounded: every monotone total lies between its true value
  // when the scan began and its true value when it ended, and so does the
  // device count.
  lemma {:induction false} FinishedScan(sc: Scan, st: Store, f: Field)
    requires TableOk(st) && Sane(st) && ScanOk(sc, st) && Done(sc)
    ensures Monotone(f) ==> HeapSum(sc.start, f) <= Get(sc.acc, f) <= HeapSum(st.heap, f)
    ensures |sc.start| <= sc.count <= |st.heap|
  {
    if Monotone(f) {
      SeenBelow(sc, st, f, |st.heap|);
      assert st.heap[..|st.heap|] == st.heap;
      forall r: nat | r < |sc.start| ensures (f, r) in sc.seen {
        assert !Ahead(sc, sc.start[r].ip);
      }
      SeenAbove(sc, f, |st.heap|, |sc.start|);
      assert sc.start[..|sc.start|] == sc.start;
    }
    FinishedCount(sc, st);
  }

  lemma {:induction false} FinishedCount(sc: Scan, st: Store)
    requires TableOk(st) && ScanOk(sc, st) && Done(sc)
    ensures |sc.start| <= sc.count <= |st.heap|
  {
    IpsCount(sc.start);
    IpsCount(st.heap);
    forall ip | ip in Ips(sc.start) ensures ip in sc.counted {
      var r :| 0 <= r < |sc.start| && sc.start[r].ip == ip;
      assert Passed(sc, ShardOf(ip));
    }
    forall ip | ip in sc.counted ensures ip in Ips(st.heap) {
      assert st.heap[RefOf(st, ip)].ip == ip;
    }
    SubsetSize(Ips(sc.start), sc.counted);
    SubsetSize(sc.counted, Ips(st.heap));
  }

  // No Totals result shows more active than total connections, even torn.
  lemma {:induction false} TotalsNeverTears(sc: Scan, st: Store)
    requires ScanOk(sc, st) && sc.order == TotalsOrder() && sc.cur == NoDevice
    ensures 0 <= sc.acc.active <= sc.acc.total
  {
    SeenTorn(sc, st, |st.heap|);
    assert Get(sc.acc, Active) == SeenSum(sc.seen, Active, |st.heap|);
    assert Get(sc.acc, Total) == SeenSum(sc.seen, Total, |st.heap|);
  }

  // ---- Every step keeps the invariant ----

  lemma {:induction false} HandleKeepsScans(s: State, i: nat, ch: Choice)
    requires CollectorOk(s) && ScansOk(s) && Enabled(s, Handle(i, ch))
    ensures StoreGrows(s.store, HandleNext(s, i, ch).store)
    ensures ScansOk(HandleNext(s, i, ch))
  {
    var h := s.handlers[i];
    var t := HandleNext(s, i, ch);
    EffectGrows(h, s.store);
    forall j | 0 <= j < |s.scans| ensures ScanOk(t.scans[j], t.store) {
      var sc := s.scans[j];
      assert sc in s.scans;
      assert h.pc.Create? ==> !Holds(sc, ShardOf(h.ip));
      assert sc.locked ==> sc.shard < NUM_SHARDS;
      GrowKeepsScan(sc, s.store, t.store);
    }
  }

  lemma {:induction false} StepKeepsScans(s: State, step: Step)
    requires SystemOk(s) && Enabled(s, step)
    ensures ScansOk(Apply(s, step))
  {
    CollectorSane(s);
    match step
    case Handle(i, ch) => HandleKeepsScans(s, i, ch);
    case Scanning(j, m) => MoveKeepsScan(s.scans[j], s.store, m);
    case BeginScan(order) => NewScanOk(order, s.store);
    case BeginSample => NewScanOk(TotalsOrder(), s.store);
    case _ =>
  }

  lemma {:induction false} TotalsGrow(s: State, a: seq<Device>, f: Field)
    requires CollectorOk(s) && Grows(a, s.store.heap) && Monotone(f)
    ensures HeapSum(a, f) <= HeapSum(s.store.heap, f)
  {
    CollectorSane(s);
    GrowingSum(a, s.store.heap, f);
  }

  // The totals a finished scan returns lie between the true totals at its start and now.
  lemma {:induction false} FinishedInState(s: State, j: nat, f: Field)
    requires SystemOk(s) && j < |s.scans| && Done(s.scans[j])
    ensures Monotone(f) ==>
      HeapSum(s.scans[j].start, f) <= Get(s.scans[j].acc, f) <= HeapSum(s.store.heap, f)
    ensures |s.scans[j].start| <= s.scans[j].count <= |s.store.heap|
  {
    CollectorSane(s);
    FinishedScan(s.scans[j], s.store, f);
  }

  // Lines 287-288 of internal/stats/stats.go subtract the base from a fresh total.
  lemma {:induction false} SampleNeverUnderflows(s: State, tooSoon: bool)
    requires SystemOk(s) && Enabled(s, EndSample(tooSoon)) && s.sampler.hasBase
    ensures s.sampler.lastTx <= s.scans[s.sampler.scan].acc.tx
    ensures s.sampler.lastRx <= s.scans[s.sampler.scan].acc.rx
  {
    FinishedInState(s, s.sampler.scan, Tx);
    FinishedInState(s, s.sampler.scan, Rx);
  }

  lemma {:induction false} HandleKeepsSampler(s: State, i: nat, ch: Choice)
    requires SystemOk(s) && Enabled(s, Handle(i, ch))
    requires CollectorOk(HandleNext(s, i, ch))
    ensures SamplerOk(HandleNext(s, i, ch))
  {
    var t := HandleNext(s, i, ch);
    HandleKeepsScans(s, i, ch);
    TotalsGrow(t, s.store.heap, Tx);
    TotalsGrow(t, s.store.heap, Rx);
  }

  lemma {:induction false} EndKeepsSampler(s: State, tooSoon: bool)
    requires SystemOk(s) && Enabled(s, EndSample(tooSoon))
    ensures SamplerOk(Apply(s, EndSample(tooSoon)))
  {
    var sc := s.scans[s.sampler.scan];
    FinishedInState(s, s.sampler.scan, Tx);
    FinishedInState(s, s.sampler.scan, Rx);
    TotalsGrow(s, sc.start, Tx);
    TotalsGrow(s, sc.start, Rx);
  }

  lemma {:induction false} ScanKeepsStart(s: State, j: nat, m: ScanMove)
    requires Enabled(s, Scanning(j, m)) && SamplerOk(s)
    ensures SamplerOk(Apply(s, Scanning(j, m)))
  {
    assert ScanStep(s.scans[j], s.store, m).start == s.scans[j].start;
  }

  lemma {:induction false} StepKeepsSampler(s: State, step: Step)
    requires SystemOk(s) && Enabled(s, step)
    requires CollectorOk(Apply(s, step))
    ensures SamplerOk(Apply(s, step))
  {
    match step
    case Handle(i, ch) => HandleKeepsSampler(s, i, ch);
    case EndSample(tooSoon) => EndKeepsSampler(s, tooSoon);
    case Scanning(j, m) => ScanKeepsStart(s, j, m);
    case _ => assert Apply(s, step).store == s.store;
  }

  lemma {:induction false} StepKeepsSystem(s: State, step: Step)
    requires SystemOk(s) && Enabled(s, step)
    ensures SystemOk(Apply(s, step))
  {
    StepKeepsCollector(s, step);
    StepKeepsRelay(s, step);
    StepKeepsScans(s, step);
    StepKeepsSampler(s, step);
  }

  lemma {:induction false} InitOk(s: State)
    requires Init(s)
    ensures SystemOk(s)
  {
  }

  lemma {:induction false} NextKeepsSystem(s: State, t: State)
    requires SystemOk(s) && Next(s, t)
    ensures SystemOk(t)
  {
    var step :| StepTo(s, step, t);
    StepKeepsSystem(s, step);
  }

  function Last(run: seq<State>): State
    requires run != []
  {
    run[|run| - 1]
  }

  lemma {:induction false} LastOk(run: seq<State>)
    requires IsRun(run)
    ensures SystemOk(Last(run))
  {
    if |run| == 1 {
      InitOk(run[0]);
    } else {
      var prior := run[..|run| - 1];
      LastOk(prior);
      assert Last(prior) == run[|run| - 2];
      NextKeepsSystem(Last(prior), Last(run));
    }
  }

  // A run can take any enabled step.
  lemma {:induction false} RunExtends(run: seq<State>, step: Step) returns (longer: seq<State>)
    requires IsRun(run) && Enabled(Last(run), step)
    ensures longer == run + [Apply(Last(run), step)] && IsRun(longer)
  {
    longer := run + [Apply(Last(run), step)];
    assert longer[..|longer| - 1] == run;
    assert StepTo(Last(run), step, Last(longer));
  }

  function Fresh(limit: int, fallback: bool): (s: State)
    ensures Init(s)
  {
    State(limit, fallback, Accepting, Running, false, true, 1, 0, [], [],
          EmptyStore(), [], Sampler(false, 0, false, 0, 0))
  }

  lemma {:induction false} PrefixIsRun(run: seq<State>, i: nat)
    requires IsRun(run) && i < |run|
    ensures IsRun(run[..i + 1])
  {
    var n := |run| - 1;
    if i < n {
      PrefixIsRun(run[..n], i);
      assert run[..n][..i + 1] == run[..i + 1];
    } else {
      assert run[..i + 1] == run;
    }
  }

  // The invariant holds in every state of every run.
  lemma {:induction false} RunOk(run: seq<State>, i: nat)
    requires IsRun(run) && i < |run|
    ensures SystemOk(run[i])
  {
    PrefixIsRun(run, i);
    LastOk(run[..i + 1]);
  }

  // ---- Scans over a run ----

  lemma {:induction false} StepKeepsStarts(s: State, step: Step, j: nat)
    requires Enabled(s, step) && j < |s.scans|
    ensures j < |Apply(s, step).scans| && Apply(s, step).scans[j].start == s.scans[j].start
    ensures Apply(s, step).scans[j].order == s.scans[j].order
  {
  }

  lemma {:induction false} NextKeepsStarts(s: State, t: State, j: nat)
    requires Next(s, t)
    ensures j < |s.scans| ==> j < |t.scans| && t.scans[j].start == s.scans[j].start
    ensures |s.scans| == j < |t.scans| ==> t.scans[j].start == s.store.heap
  {
    var step :| StepTo(s, step, t);
    if j < |s.scans| {
      StepKeepsStarts(s, step, j);
    } else if j < |t.scans| {
      assert step.BeginScan? || step.BeginSample?;
    }
  }

  // Scan j began between states a and a+1 of the run.
  ghost predicate BeginsAt(run: seq<State>, a: nat, j: nat) {
    a + 1 < |run| && |run[a].scans| == j < |run[a + 1].scans|
  }

  lemma {:induction false} StartIsKept(run: seq<State>, a: nat, j: nat, c: nat)
    requires IsRun(run) && BeginsAt(run, a, j) && a < c < |run|
    ensures j < |run[c].scans| && run[c].scans[j].start == run[a].store.heap
  {
    var n := |run| - 1;
    NextKeepsStarts(run[n - 1], run[n], j);
    if a + 1 < n {
      if c < n {
        StartIsKept(run[..n], a, j, c);
      } else {
        StartIsKept(run[..n], a, j, n - 1);
      }
    }
  }

  // In every interleaving: what a scan returns lies between the true values at
  // the state where it began and at any state where it has finished, the first
  // such state included.
  lemma {:induction false} TotalsBetween(run: seq<State>, a: nat, j: nat, c: nat, f: Field)
    requires IsRun(run) && BeginsAt(run, a, j) && a < c < |run| && Monotone(f)
    ensures j < |run[c].scans|
    ensures Done(run[c].scans[j]) ==>
      && HeapSum(run[a].store.heap, f) <= Get(run[c].scans[j].acc, f) <= HeapSum(run[c].store.heap, f)
      && |run[a].store.heap| <= run[c].scans[j].count <= |run[c].store.heap|
  {
    StartIsKept(run, a, j, c);
    RunOk(run, c);
    if Done(run[c].scans[j]) {
      FinishedInState(run[c], j, f);
    }
  }

  // Every Totals result of every run is sane, even torn inside OpenConn.
  lemma {:induction false} TotalsSane(run: seq<State>, c: nat, j: nat)
    requires IsRun(run) && c < |run| && j < |run[c].scans|
    requires run[c].scans[j].order == TotalsOrder() && Done(run[c].scans[j])
    ensures 0 <= run[c].scans[j].acc.active <= run[c].scans[j].acc.total
  {
    RunOk(run, c);
    assert ScanOk(run[c].scans[j], run[c].store);
    TotalsNeverTears(run[c].scans[j], run[c].store);
  }
}
