// The collector's two ring buffers and the arithmetic of traffic sampling.

module Rings {
  // ---- Arithmetic modulo a ring's capacity ----

  lemma {:induction false} Multiple(k: int, n: nat)
    ensures k >= 1 ==> k * n >= n
    ensures k <= -1 ==> k * n <= 0 - n
  {
  }

  lemma {:induction false} ModIs(q: int, r: nat, n: nat)
    requires r < n
    ensures (q * n + r) % n == r
  {
    var x := q * n + r;
    var k := x / n - q;
    assert k * n == (x / n) * n - q * n;
    assert x == (x / n) * n + x % n;
    Multiple(k, n);
  }

  // Going i + 1 slots back from the slot of number h reaches the slot of h-1-i.
  lemma {:induction false} StepBack(h: nat, i: nat, n: nat)
    requires i < h && i < n
    ensures (h % n - 1 - i + n) % n == (h - 1 - i) % n
  {
    var q, r := h / n, h % n;
    assert h == q * n + r;
    if i < r {
      assert h - 1 - i == q * n + (r - 1 - i);
      ModIs(q, r - 1 - i, n);
      assert r - 1 - i + n == 1 * n + (r - 1 - i);
      ModIs(1, r - 1 - i, n);
    } else {
      assert q > 0;
      assert h - 1 - i == (q - 1) * n + (r - 1 - i + n);
      ModIs(q - 1, r - 1 - i + n, n);
      ModIs(0, r - 1 - i + n, n);
    }
  }

  lemma {:induction false} StepOn(h: nat, n: nat)
    requires n > 0
    ensures (h % n + 1) % n == (h + 1) % n
  {
    var q, r := h / n, h % n;
    assert h + 1 == q * n + (r + 1);
    if r + 1 < n {
      ModIs(q, r + 1, n);
      ModIs(0, r + 1, n);
    } else {
      assert h + 1 == (q + 1) * n + 0;
      ModIs(q + 1, 0, n);
      ModIs(1, 0, n);
    }
  }

  lemma {:induction false} SlotsDiffer(a: nat, b: nat, n: nat)
    requires a < b < a + n
    ensures a % n != b % n
  {
    var k := b / n - a / n;
    assert k * n == (b / n) * n - (a / n) * n;
    assert b - a == k * n + (b % n - a % n);
    Multiple(k, n);
  }

  // ---- The list of recent connections ----

  function Min(a: int, b: int): int {
    if a < b then a else b
  }

  // The last n elements, newest first.
  function Newest<T>(h: seq<T>, n: nat): (r: seq<T>)
    requires n <= |h|
    ensures |r| == n && forall i :: 0 <= i < n ==> r[i] == h[|h| - 1 - i]
  {
    seq(n, i requires 0 <= i < n => h[|h| - 1 - i])
  }

  class RecentLog<T(0)> {
    const recent: array<T>
    var recentIdx: nat
    var recentLen: nat
    // Every record ever made.
    ghost var history: seq<T>

    ghost predicate Valid()
      reads this, recent
    {
      && recent.Length > 0
      && recentIdx == |history| % recent.Length
      && recentLen == Min(|history|, recent.Length)
      && forall j :: |history| - recentLen <= j < |history| ==> recent[j % recent.Length] == history[j]
    }

    constructor (recentCap: int)
      ensures Valid() && fresh(recent) && history == []
      ensures recent.Length == if recentCap <= 0 then 500 else recentCap
    {
      recent := new T[if recentCap <= 0 then 500 else recentCap];
      recentIdx := 0;
      recentLen := 0;
      history := [];
    }

    // The locked tail of RecordConn.
    method Append(rec: T)
      requires Valid()
      modifies this, recent
      ensures Valid() && history == old(history) + [rec]
    {
      var n := recent.Length;
      forall j | |history| - n < j < |history| && 0 <= j
        ensures j % n != |history| % n
      {
        SlotsDiffer(j, |history|, n);
      }
      StepOn(|history|, n);
      recent[recentIdx] := rec;
      recentIdx := (recentIdx + 1) % n;
      if recentLen < n {
        recentLen := recentLen + 1;
      }
      history := history + [rec];
    }

    // A negative limit panics in the source.
    method Recent(limit: nat) returns (out: seq<T>)
      requires Valid()
      ensures |out| == if limit <= recent.Length && limit <= |history| then limit
                       else if recent.Length <= |history| then recent.Length else |history|
      ensures forall i :: 0 <= i < |out| ==> out[i] == history[|history| - 1 - i]
    {
      var n := Min(limit, recentLen);
      out := [];
      for i := 0 to n
        invariant out == Newest(history, i)
      {
        StepBack(|history|, i, recent.Length);
        out := out + [recent[(recentIdx - 1 - i + recent.Length) % recent.Length]];
      }
    }
  }

  // ---- Traffic samples ----

  const SAMPLE_CAP := 300

  datatype Point = Point(timestamp: int, txRate: int, rxRate: int)

  const NO_POINT := Point(0, 0, 0)

  // A recorded point with the seconds it stands for.
  datatype Measured = Measured(p: Point, elapsed: real)

  function Points(log: seq<Measured>): (r: seq<Point>)
    ensures |r| == |log| && forall i :: 0 <= i < |log| ==> r[i] == log[i].p
  {
    if log == [] then [] else Points(log[..|log| - 1]) + [log[|log| - 1].p]
  }

  // Bytes the recorded rates account for, and the seconds they span.
  function CarriedTx(log: seq<Measured>): real {
    if log == [] then 0.0 else CarriedTx(log[..|log| - 1]) + log[|log| - 1].p.txRate as real * log[|log| - 1].elapsed
  }

  function CarriedRx(log: seq<Measured>): real {
    if log == [] then 0.0 else CarriedRx(log[..|log| - 1]) + log[|log| - 1].p.rxRate as real * log[|log| - 1].elapsed
  }

  function Span(log: seq<Measured>): real {
    if log == [] then 0.0 else Span(log[..|log| - 1]) + log[|log| - 1].elapsed
  }

  function Rate(delta: nat, elapsed: real): int
    requires elapsed > 0.0
  {
    (delta as real / elapsed).Floor
  }

  // A truncated rate loses less than one byte per second.
  lemma {:induction false} RateBracket(delta: nat, elapsed: real)
    requires elapsed > 0.0
    ensures Rate(delta, elapsed) as real * elapsed <= delta as real
    ensures (delta as real) < Rate(delta, elapsed) as real * elapsed + elapsed
  {
    Bracket(delta as real / elapsed, Rate(delta, elapsed) as real, elapsed, delta as real);
  }

  lemma {:induction false} Bracket(x: real, r: real, e: real, d: real)
    requires e > 0.0 && r <= x < r + 1.0 && x * e == d
    ensures r * e <= d && d < r * e + e
  {
    var lost, kept := x - r, r + 1.0 - x;
    Product(lost, e);
    Product(kept, e);
    assert lost * e >= 0.0 && kept * e > 0.0;
    assert lost * e == x * e - r * e;
    assert (lost + kept) * e == e;
    assert kept * e == e - lost * e;
    var g := lost * e;
    assert g < e;
    assert d == r * e + g;
    assert r * e + g < r * e + e;
  }

  lemma {:induction false} Product(a: real, b: real)
    requires b > 0.0
    ensures a >= 0.0 ==> a * b >= 0.0
    ensures a > 0.0 ==> a * b > 0.0
  {
  }

  // Truncation never adds bytes and loses less than one per second.
  ghost predicate Conserves(carried: real, span: real, bytes: int, some: bool) {
    && carried <= bytes as real
    && (if some then (bytes as real) < carried + span else bytes == 0)
  }

  // The samples with a timestamp.
  function Stamped(s: seq<Point>): seq<Point> {
    if s == [] then [] else
    Stamped(s[..|s| - 1]) + if s[|s| - 1].timestamp == 0 then [] else [s[|s| - 1]]
  }

  lemma {:induction false} StampedAppend(s: seq<Point>, p: Point)
    ensures Stamped(s + [p]) == Stamped(s) + if p.timestamp == 0 then [] else [p]
  {
    assert (s + [p])[..|s|] == s;
  }

  lemma {:induction false} StampedNone(a: seq<Point>)
    requires forall i :: 0 <= i < |a| ==> a[i].timestamp == 0
    ensures Stamped(a) == []
  {
    if a != [] {
      StampedNone(a[..|a| - 1]);
    }
  }

  lemma {:induction false} StampedSkips(a: seq<Point>, b: seq<Point>)
    requires forall i :: 0 <= i < |a| ==> a[i].timestamp == 0
    ensures Stamped(a + b) == Stamped(b)
    decreases |b|
  {
    if b == [] {
      assert a + b == a;
      StampedNone(a);
    } else {
      var n := |b| - 1;
      assert a + b == (a + b[..n]) + [b[n]];
      StampedAppend(a + b[..n], b[n]);
      StampedSkips(a, b[..n]);
    }
  }

  lemma {:induction false} StampedAll(s: seq<Point>)
    requires forall i :: 0 <= i < |s| ==> s[i].timestamp != 0
    ensures Stamped(s) == s
  {
    if s != [] {
      StampedAll(s[..|s| - 1]);
      assert s == s[..|s| - 1] + [s[|s| - 1]];
    }
  }

  // The last min(300, count) points, oldest first.
  function Window(points: seq<Point>): seq<Point> {
    points[|points| - Min(SAMPLE_CAP, |points|)..]
  }

  // What TrafficSamples returns for any history, zero timestamps included: the
  // ring looks empty when its write index and its oldest timestamp are both zero.
  function Shown(points: seq<Point>): seq<Point> {
    if |points| % SAMPLE_CAP == 0 && (points == [] || Window(points)[0].timestamp == 0) then []
    else Stamped(Window(points))
  }

  // With non-zero timestamps the ring shows exactly the last points.
  lemma {:induction false} ShownIsWindow(points: seq<Point>)
    requires forall i :: 0 <= i < |points| ==> points[i].timestamp != 0
    ensures Shown(points) == if |points| <= 300 then points else points[|points| - 300..]
  {
    StampedAll(Window(points));
  }

  class TrafficSampler {
    const samples: array<Point>
    var sampleIdx: nat
    // lastSample in nanoseconds, meaningful once started.
    var started: bool
    var lastSample: int
    var lastTx: nat
    var lastRx: nat
    // Every point recorded, and the totals at the first call.
    ghost var log: seq<Measured>
    ghost var baseTx: nat
    ghost var baseRx: nat

    ghost predicate RingOk()
      reads this`sampleIdx, this`log, samples
    {
      && samples.Length == SAMPLE_CAP
      && sampleIdx == |log| % SAMPLE_CAP
      && (forall j :: 0 <= j < |log| && |log| - SAMPLE_CAP <= j ==> samples[j % SAMPLE_CAP] == log[j].p)
      && (forall k :: |log| <= k < SAMPLE_CAP ==> samples[k] == NO_POINT)
    }

    ghost predicate Conserved()
      reads this
    {
      Kept(State())
    }

    ghost predicate Valid()
      reads this, samples
    {
      RingOk() && Conserved()
    }

    ghost function State(): Meter
      reads this
    {
      Meter(started, lastSample, lastTx, lastRx, baseTx, baseRx, log)
    }

    constructor ()
      ensures Valid() && fresh(samples) && State() == Meter(false, 0, 0, 0, 0, 0, [])
    {
      samples := new Point[SAMPLE_CAP](_ => NO_POINT);
      sampleIdx, started, lastSample, lastTx, lastRx := 0, false, 0, 0, 0;
      log, baseTx, baseRx := [], 0, 0;
    }

    method Put(p: Point, ghost elapsed: real)
      requires RingOk()
      modifies this`sampleIdx, this`log, samples
      ensures RingOk() && log == old(log) + [Measured(p, elapsed)]
    {
      samples[sampleIdx] := p;
      sampleIdx := (sampleIdx + 1) % SAMPLE_CAP;
      log := log + [Measured(p, elapsed)];
    }

    // tx and rx come from Totals at time now; they never fall below the last
    // totals (Admission.SamplesNeverUnderflow).
    method Sample(now: int, tx: nat, rx: nat)
      requires Valid()
      requires started ==> lastTx <= tx && lastRx <= rx
      modifies this, samples
      ensures Valid() && started
      ensures State() == Sampled(old(State()), Reading(now, tx, rx))
    {
      ghost var next := Sampled(State(), Reading(now, tx, rx));
      SampledKeeps(State(), Reading(now, tx, rx));
      if !started {
        started, lastSample, lastTx, lastRx := true, now, tx, rx;
        baseTx, baseRx := tx, rx;
        return;
      }
      if TooSoon(lastSample, now) {
        return;
      }
      var m := Measure(lastSample, now, tx - lastTx, rx - lastRx);
      Put(m.p, m.elapsed);
      lastSample, lastTx, lastRx := now, tx, rx;
      assert State() == next;
    }

    // The loop of TrafficSamples.
    method ReadRing() returns (out: seq<Point>)
      requires RingOk()
      ensures out == Stamped(Window(Points(log)))
    {
      out := [];
      ghost var visited: seq<Point> := [];
      for i := 0 to SAMPLE_CAP
        invariant |visited| == i && out == Stamped(visited)
        invariant forall k :: 0 <= k < i ==> visited[k] == samples[(sampleIdx + k) % SAMPLE_CAP]
      {
        var p := samples[(sampleIdx + i) % SAMPLE_CAP];
        StampedAppend(visited, p);
        visited := visited + [p];
        if p.timestamp != 0 {
          out := out + [p];
        }
      }
      RingOrder(visited, Points(log));
    }

    method TrafficSamples() returns (out: seq<Point>)
      requires Valid()
      ensures out == Shown(Points(log))
    {
      if sampleIdx == 0 {
        FirstSlot();
      }
      if sampleIdx == 0 && samples[0].timestamp == 0 {
        out := [];
        return;
      }
      out := ReadRing();
    }

    // With the write index at zero, slot zero is unwritten or the oldest point.
    lemma {:induction false} FirstSlot()
      requires RingOk() && sampleIdx == 0
      ensures samples[0] == if log == [] then NO_POINT else Window(Points(log))[0]
    {
      SlotAt(0);
      if log != [] {
        assert |log| >= SAMPLE_CAP;
      }
    }

    // Reading the ring from the write index meets unwritten slots, then the window.
    lemma {:induction false} SlotAt(k: nat)
      requires RingOk() && k < SAMPLE_CAP
      ensures var p, n := samples[(sampleIdx + k) % SAMPLE_CAP], |log|;
        if n + k < SAMPLE_CAP then p == NO_POINT
        else n + k - SAMPLE_CAP < n && p == log[n + k - SAMPLE_CAP].p
    {
      var n := |log|;
      SlotIndex(n, k);
      if n + k < SAMPLE_CAP {
        assert samples[n + k] == NO_POINT;
      } else {
        var j := n + k - SAMPLE_CAP;
        assert samples[j % SAMPLE_CAP] == log[j].p;
      }
    }

    lemma {:induction false} RingOrder(visited: seq<Point>, points: seq<Point>)
      requires RingOk() && points == Points(log) && |visited| == SAMPLE_CAP
      requires forall k :: 0 <= k < SAMPLE_CAP ==> visited[k] == samples[(sampleIdx + k) % SAMPLE_CAP]
      ensures Stamped(visited) == Stamped(Window(points))
    {
      forall k | 0 <= k < SAMPLE_CAP
        ensures if |log| + k < SAMPLE_CAP then visited[k] == NO_POINT else visited[k] == points[|log| + k - SAMPLE_CAP]
      {
        SlotAt(k);
      }
      GapThenWindow(visited, points);
    }
  }

  lemma {:induction false} SlotIndex(n: nat, k: nat)
    requires k < SAMPLE_CAP
    ensures (n % SAMPLE_CAP + k) % SAMPLE_CAP == (n + k) % SAMPLE_CAP
    ensures n + k >= SAMPLE_CAP ==> (n + k) % SAMPLE_CAP == (n + k - SAMPLE_CAP) % SAMPLE_CAP
  {
  }

  lemma {:induction false} GapThenWindow(visited: seq<Point>, points: seq<Point>)
    requires |visited| == SAMPLE_CAP
    requires forall k :: 0 <= k < SAMPLE_CAP ==>
      if |points| + k < SAMPLE_CAP then visited[k] == NO_POINT else visited[k] == points[|points| + k - SAMPLE_CAP]
    ensures Stamped(visited) == Stamped(Window(points))
  {
    var gap := SAMPLE_CAP - Min(SAMPLE_CAP, |points|);
    assert visited == visited[..gap] + visited[gap..];
    assert visited[gap..] == Window(points);
    StampedSkips(visited[..gap], visited[gap..]);
  }

  function Elapsed(last: int, now: int): real {
    (now - last) as real / 1000000000.0
  }

  predicate TooSoon(last: int, now: int) {
    Elapsed(last, now) < 0.5
  }

  function Measure(last: int, now: int, tx: nat, rx: nat): Measured
    requires !TooSoon(last, now)
  {
    var e := Elapsed(last, now);
    Measured(Point(now / 1000000, Rate(tx, e), Rate(rx, e)), e)
  }

  // One recorded point keeps conservation.
  lemma {:induction false} ConserveStep(carried: real, span: real, bytes: int, some: bool, d: nat, e: real)
    requires e > 0.0 && Conserves(carried, span, bytes, some) && (!some ==> carried == 0.0 && span == 0.0)
    ensures Conserves(carried + Rate(d, e) as real * e, span + e, bytes + d, true)
  {
    RateBracket(d, e);
  }

  lemma {:induction false} NothingCarried(log: seq<Measured>)
    ensures log == [] ==> CarriedTx(log) == 0.0 && CarriedRx(log) == 0.0 && Span(log) == 0.0
  {
  }

  lemma {:induction false} LogStepTx(log: seq<Measured>, m: Measured, tx: int, dtx: nat)
    requires m.elapsed > 0.0 && m.p.txRate == Rate(dtx, m.elapsed)
    requires Conserves(CarriedTx(log), Span(log), tx, log != [])
    ensures Conserves(CarriedTx(log + [m]), Span(log + [m]), tx + dtx, true)
  {
    LogAppend(log, m);
    NothingCarried(log);
    assert CarriedTx(log + [m]) == CarriedTx(log) + Rate(dtx, m.elapsed) as real * m.elapsed;
    ConserveStep(CarriedTx(log), Span(log), tx, log != [], dtx, m.elapsed);
  }

  lemma {:induction false} LogStepRx(log: seq<Measured>, m: Measured, rx: int, drx: nat)
    requires m.elapsed > 0.0 && m.p.rxRate == Rate(drx, m.elapsed)
    requires Conserves(CarriedRx(log), Span(log), rx, log != [])
    ensures Conserves(CarriedRx(log + [m]), Span(log + [m]), rx + drx, true)
  {
    LogAppend(log, m);
    NothingCarried(log);
    assert CarriedRx(log + [m]) == CarriedRx(log) + Rate(drx, m.elapsed) as real * m.elapsed;
    ConserveStep(CarriedRx(log), Span(log), rx, log != [], drx, m.elapsed);
  }

  lemma {:induction false} LogStep(log: seq<Measured>, m: Measured, tx: int, dtx: nat, rx: int, drx: nat)
    requires m.elapsed > 0.0 && m.p.txRate == Rate(dtx, m.elapsed) && m.p.rxRate == Rate(drx, m.elapsed)
    requires Conserves(CarriedTx(log), Span(log), tx, log != [])
    requires Conserves(CarriedRx(log), Span(log), rx, log != [])
    ensures Conserves(CarriedTx(log + [m]), Span(log + [m]), tx + dtx, true)
    ensures Conserves(CarriedRx(log + [m]), Span(log + [m]), rx + drx, true)
  {
    LogStepTx(log, m, tx, dtx);
    LogStepRx(log, m, rx, drx);
  }

  lemma {:induction false} LogAppend(log: seq<Measured>, m: Measured)
    ensures CarriedTx(log + [m]) == CarriedTx(log) + m.p.txRate as real * m.elapsed
    ensures CarriedRx(log + [m]) == CarriedRx(log) + m.p.rxRate as real * m.elapsed
    ensures Span(log + [m]) == Span(log) + m.elapsed
  {
    assert (log + [m])[..|log|] == log;
  }

  // ---- The sampler on values ----

  datatype Meter = Meter(started: bool, last: int, tx: nat, rx: nat, baseTx: nat, baseRx: nat, log: seq<Measured>)

  // The clock and the totals at one call.
  datatype Reading = Reading(now: int, tx: nat, rx: nat)

  predicate Follows(m: Meter, r: Reading) {
    m.started ==> m.tx <= r.tx && m.rx <= r.rx
  }

  // The first call only sets the base; one within half a second does nothing.
  function Sampled(m: Meter, r: Reading): Meter
    requires Follows(m, r)
  {
    if !m.started then Meter(true, r.now, r.tx, r.rx, r.tx, r.rx, m.log)
    else if TooSoon(m.last, r.now) then m
    else m.(last := r.now, tx := r.tx, rx := r.rx, log := m.log + [Measure(m.last, r.now, r.tx - m.tx, r.rx - m.rx)])
  }

  // In the clock's own nanoseconds: a point is recorded exactly half a second or
  // more after the last one, with the time in milliseconds and the bytes per
  // second since then, rounded down.
  lemma {:induction false} SampledPoint(m: Meter, r: Reading)
    requires m.started && Follows(m, r)
    ensures var t := Sampled(m, r); var ns := r.now - m.last;
      if ns < 500_000_000 then t == m
      else
        && t.log != [] && t.log[..|t.log| - 1] == m.log
        && (t.last, t.tx, t.rx, t.baseTx, t.baseRx) == (r.now, r.tx, r.rx, m.baseTx, m.baseRx)
        && var p := t.log[|t.log| - 1];
        && p.elapsed * 1_000_000_000.0 == ns as real
        && p.p.timestamp == r.now / 1_000_000
        && p.p.txRate * ns <= (r.tx - m.tx) * 1_000_000_000 < (p.p.txRate + 1) * ns
        && p.p.rxRate * ns <= (r.rx - m.rx) * 1_000_000_000 < (p.p.rxRate + 1) * ns
  {
    var ns := r.now - m.last;
    ElapsedIs(m.last, r.now);
    if ns >= 500_000_000 {
      var p := Measure(m.last, r.now, r.tx - m.tx, r.rx - m.rx);
      assert Sampled(m, r).log == m.log + [p];
      RateInBytes(r.tx - m.tx, ns, p.elapsed);
      RateInBytes(r.rx - m.rx, ns, p.elapsed);
    }
  }

  lemma {:induction false} ElapsedIs(last: int, now: int)
    ensures Elapsed(last, now) * 1_000_000_000.0 == (now - last) as real
    ensures TooSoon(last, now) <==> now - last < 500_000_000
  {
  }

  // A rate in bytes per second, from nanoseconds.
  lemma {:induction false} RateInBytes(delta: nat, ns: int, e: real)
    requires e > 0.0 && e * 1_000_000_000.0 == ns as real
    ensures var r := Rate(delta, e);
      r * ns <= delta * 1_000_000_000 < (r + 1) * ns
  {
    var r := Rate(delta, e);
    RateBracket(delta, e);
    Scaled(r as real, e, delta as real, ns as real);
    assert (r * ns) as real == r as real * ns as real;
    assert ((r + 1) * ns) as real == r as real * ns as real + ns as real;
  }

  lemma {:induction false} Scaled(r: real, e: real, d: real, ns: real)
    requires r * e <= d < r * e + e && e * 1_000_000_000.0 == ns
    ensures r * ns <= d * 1_000_000_000.0 < r * ns + ns
  {
    assert r * ns == r * (e * 1_000_000_000.0) == (r * e) * 1_000_000_000.0;
  }

  // The recorded rates conserve the bytes.
  ghost predicate Kept(m: Meter) {
    && (!m.started ==> m.log == [])
    && (m.started ==>
          && Conserves(CarriedTx(m.log), Span(m.log), m.tx - m.baseTx, m.log != [])
          && Conserves(CarriedRx(m.log), Span(m.log), m.rx - m.baseRx, m.log != []))
  }

  // One more point, standing for dtx and drx bytes.
  lemma {:induction false} RecordedKeeps(m: Meter, t: Meter, p: Measured, dtx: nat, drx: nat)
    requires m.started && t.started && Kept(m) && t.log == m.log + [p] && p.elapsed > 0.0
    requires p.p.txRate == Rate(dtx, p.elapsed) && p.p.rxRate == Rate(drx, p.elapsed)
    requires t.tx - t.baseTx == (m.tx - m.baseTx) + dtx && t.rx - t.baseRx == (m.rx - m.baseRx) + drx
    ensures Kept(t)
  {
    LogStep(m.log, p, m.tx - m.baseTx, dtx, m.rx - m.baseRx, drx);
    assert t.log != [];
  }

  lemma {:induction false} SampledKeeps(m: Meter, r: Reading)
    requires Follows(m, r) && Kept(m)
    ensures Kept(Sampled(m, r))
  {
    if m.started && !TooSoon(m.last, r.now) {
      var p := Measure(m.last, r.now, r.tx - m.tx, r.rx - m.rx);
      RecordedKeeps(m, Sampled(m, r), p, r.tx - m.tx, r.rx - m.rx);
    } else if !m.started {
      NothingCarried(m.log);
    }
  }

  // The totals never decrease; ScanResults.SamplerReadingsRise proves it of every
  // run of the concurrent system.
  predicate Rising(rs: seq<Reading>) {
    forall i, j :: 0 <= i <= j < |rs| ==> rs[i].tx <= rs[j].tx && rs[i].rx <= rs[j].rx
  }

  function SampledAll(rs: seq<Reading>): (m: Meter)
    requires Rising(rs)
    ensures m.started <==> rs != []
    ensures rs != [] ==> Follows(m, rs[|rs| - 1]) && m.baseTx <= m.tx && m.baseRx <= m.rx
  {
    if rs == [] then Meter(false, 0, 0, 0, 0, 0, []) else
    var prior := SampledAll(rs[..|rs| - 1]);
    assert |rs| > 1 ==> rs[..|rs| - 1][|rs| - 2] == rs[|rs| - 2];
    Sampled(prior, rs[|rs| - 1])
  }

  // Over any run of calls, skipped ones included: the recorded rates carry the
  // bytes between the first call's totals and the last recorded ones, less
  // under one byte per second of the time they span.
  lemma {:induction false} RatesConserve(rs: seq<Reading>)
    requires Rising(rs) && rs != []
    ensures var m := SampledAll(rs);
      && m.baseTx == rs[0].tx && m.baseRx == rs[0].rx
      && Conserves(CarriedTx(m.log), Span(m.log), m.tx - m.baseTx, m.log != [])
      && Conserves(CarriedRx(m.log), Span(m.log), m.rx - m.baseRx, m.log != [])
      && Span(m.log) * 1_000_000_000.0 == (m.last - rs[0].now) as real
  {
    var n := |rs| - 1;
    if n > 0 {
      RatesConserve(rs[..n]);
      assert rs[..n][n - 1] == rs[n - 1];
    }
    SampledKeeps(SampledAll(rs[..n]), rs[n]);
    SpanGrows(SampledAll(rs[..n]), rs[n]);
  }

  // The recorded intervals are the time between the recorded calls.
  lemma {:induction false} SpanGrows(m: Meter, r: Reading)
    requires Follows(m, r) && (!m.started ==> m.log == [])
    ensures var t := Sampled(m, r);
      if !m.started then Span(t.log) == 0.0 && t.last == r.now
      else Span(t.log) * 1_000_000_000.0 == Span(m.log) * 1_000_000_000.0 + (t.last - m.last) as real
  {
    if m.started && !TooSoon(m.last, r.now) {
      ElapsedIs(m.last, r.now);
      LogAppend(m.log, Measure(m.last, r.now, r.tx - m.tx, r.rx - m.rx));
    } else if !m.started {
      NothingCarried(m.log);
    }
  }
}
