// Torn reads: what a shard-by-shard scan returns while handlers keep counting.

module Scans {
  import opened ShardIndex
  import opened DeviceCounters
  import opened Machine
  import opened Accounting

  // Bytes and connection totals only grow; the active count does not.
  predicate Monotone(f: Field) { f != Active }

  ghost predicate Grows(a: seq<Device>, b: seq<Device>) {
    && |a| <= |b|
    && (forall r :: 0 <= r < |a| ==> a[r].ip == b[r].ip)
    && (forall r, f :: 0 <= r < |a| && Monotone(f) ==> Get(a[r].c, f) <= Get(b[r].c, f))
  }

  predicate Sane(st: Store) {
    forall r :: 0 <= r < |st.heap| ==>
      var c := st.heap[r].c;
      0 <= c.tx && 0 <= c.rx && 0 <= c.active <= c.total
  }

  // The sum of the loaded values of field f over records below n.
  function SeenSum(seen: map<(Field, nat), int>, f: Field, n: nat): int {
    if n == 0 then 0 else
    SeenSum(seen, f, n - 1) + if (f, n - 1) in seen then seen[(f, n - 1)] else 0
  }

  lemma {:induction false} SeenSumAdd(seen: map<(Field, nat), int>, f: Field, r: nat, v: int, g: Field, n: nat)
    requires (f, r) !in seen
    ensures SeenSum(seen[(f, r) := v], g, n) == SeenSum(seen, g, n) + if f == g && r < n then v else 0
  {
    if n > 0 {
      SeenSumAdd(seen, f, r, v, g, n - 1);
    }
  }

  lemma {:induction false} SeenSumBeyond(seen: map<(Field, nat), int>, f: Field, n: nat, m: nat)
    requires n <= m && forall r: nat :: (f, r) in seen ==> r < n
    ensures SeenSum(seen, f, m) == SeenSum(seen, f, n)
  {
    if n < m {
      SeenSumBeyond(seen, f, n, m - 1);
    }
  }

  // ---- The invariant of one scan ----

  // The scan has still to reach this address.
  predicate Ahead(sc: Scan, ip: Ip) {
    ShardOf(ip) > sc.shard || (ShardOf(ip) == sc.shard && (!sc.locked || ip in sc.pending))
  }

  predicate CursorOk(sc: Scan, st: Store) {
    sc.cur.At? ==>
      && sc.locked
      && sc.cur.ref < |st.heap| && sc.cur.pos < 4
      && ShardOf(st.heap[sc.cur.ref].ip) == sc.shard && st.heap[sc.cur.ref].ip !in sc.pending
      && |sc.order| == 4
      && (forall j :: 0 <= j < 4 ==> ((sc.order[j], sc.cur.ref) in sc.seen <==> j < sc.cur.pos))
  }

  predicate PlaceOk(sc: Scan, st: Store) {
    && (sc.order == TotalsOrder() || sc.order == DevicesOrder())
    && sc.shard <= NUM_SHARDS
    && (sc.locked ==> sc.shard < NUM_SHARDS && sc.pending <= st.shards[sc.shard].Keys)
    && CursorOk(sc, st)
  }

  ghost predicate SeenOk(sc: Scan, st: Store) {
    forall f: Field, r: nat :: (f, r) in sc.seen ==>
      && r < |st.heap|
      && !Ahead(sc, st.heap[r].ip)
      && (Monotone(f) ==> 0 <= sc.seen[(f, r)] <= Get(st.heap[r].c, f))
      && (Monotone(f) && r < |sc.start| ==> Get(sc.start[r].c, f) <= sc.seen[(f, r)])
  }

  ghost predicate Covered(sc: Scan) {
    forall f: Field, r: nat :: r < |sc.start| && !Ahead(sc, sc.start[r].ip) && !(sc.cur.At? && sc.cur.ref == r) ==>
      (f, r) in sc.seen
  }

  ghost predicate AccOk(sc: Scan, st: Store) {
    forall f: Field :: Get(sc.acc, f) == SeenSum(sc.seen, f, |st.heap|)
  }

  ghost predicate TornOk(sc: Scan, st: Store) {
    sc.order == TotalsOrder() ==> forall r: nat :: (Active, r) in sc.seen || (Total, r) in sc.seen ==>
      && r < |st.heap|
      && (Active, r) in sc.seen
      && 0 <= sc.seen[(Active, r)] <= st.heap[r].c.total
      && ((Total, r) in sc.seen || sc.cur == At(r, 3))
      && ((Total, r) in sc.seen ==> sc.seen[(Active, r)] <= sc.seen[(Total, r)])
  }

  // The addresses of the shards locked so far.
  predicate Passed(sc: Scan, k: nat) {
    k < sc.shard || (k == sc.shard && sc.locked)
  }

  ghost predicate CountOk(sc: Scan, st: Store) {
    && sc.count == |sc.counted|
    && (forall ip :: ip in sc.counted ==> Has(st, ip) && Passed(sc, ShardOf(ip)))
    && (forall r :: 0 <= r < |sc.start| && Passed(sc, ShardOf(sc.start[r].ip)) ==> sc.start[r].ip in sc.counted)
  }

  ghost predicate ScanOk(sc: Scan, st: Store) {
    && PlaceOk(sc, st) && SeenOk(sc, st) && Covered(sc) && AccOk(sc, st)
    && TornOk(sc, st) && CountOk(sc, st) && Grows(sc.start, st.heap)
  }

  // ---- Preservation when the collector moves ----

  ghost predicate StoreGrows(st: Store, st': Store) {
    && Grows(st.heap, st'.heap)
    && forall ip :: Has(st, ip) ==> Has(st', ip)
  }

  lemma {:induction false} EffectGrows(h: Handler, st: Store)
    requires TableOk(st) && HoldsOwn(h, st)
    ensures StoreGrows(st, Effect(h, st))
    ensures forall k :: 0 <= k < NUM_SHARDS && !(Inserting(h, st) && k == ShardOf(h.ip)) ==>
      Effect(h, st).shards[k] == st.shards[k]
  {
    EffectKinds(h, st);
    if Inserting(h, st) {
      InsertKeepsTable(st, h.ip);
    }
  }

  lemma {:induction false} GrowKeepsSeen(sc: Scan, st: Store, st': Store)
    requires SeenOk(sc, st) && Grows(st.heap, st'.heap)
    ensures SeenOk(sc, st')
  {
  }

  lemma {:induction false} GrowKeepsAcc(sc: Scan, st: Store, st': Store)
    requires SeenOk(sc, st) && AccOk(sc, st) && Grows(st.heap, st'.heap)
    ensures AccOk(sc, st')
  {
    forall f: Field ensures Get(sc.acc, f) == SeenSum(sc.seen, f, |st'.heap|) {
      SeenSumBeyond(sc.seen, f, |st.heap|, |st'.heap|);
    }
  }

  lemma {:induction false} GrowKeepsTorn(sc: Scan, st: Store, st': Store)
    requires TornOk(sc, st) && Grows(st.heap, st'.heap)
    ensures TornOk(sc, st')
  {
    if sc.order == TotalsOrder() {
      forall r: nat | (Active, r) in sc.seen || (Total, r) in sc.seen
        ensures r < |st'.heap| && (Active, r) in sc.seen && 0 <= sc.seen[(Active, r)] <= st'.heap[r].c.total
        ensures (Total, r) in sc.seen || sc.cur == At(r, 3)
        ensures (Total, r) in sc.seen ==> sc.seen[(Active, r)] <= sc.seen[(Total, r)]
      {
        assert Monotone(Total) && Get(st.heap[r].c, Total) <= Get(st'.heap[r].c, Total);
      }
    }
  }

  lemma {:induction false} GrowsTransitive(a: seq<Device>, b: seq<Device>, c: seq<Device>)
    requires Grows(a, b) && Grows(b, c)
    ensures Grows(a, c)
  {
    forall r, f | 0 <= r < |a| && Monotone(f) ensures Get(a[r].c, f) <= Get(c[r].c, f) {
      assert Get(a[r].c, f) <= Get(b[r].c, f) && Get(b[r].c, f) <= Get(c[r].c, f);
    }
  }

  // A scan is not disturbed by a collector step that leaves the shard it holds alone.
  lemma {:induction false} GrowKeepsScan(sc: Scan, st: Store, st': Store)
    requires ScanOk(sc, st) && StoreGrows(st, st')
    requires sc.locked ==> st'.shards[sc.shard] == st.shards[sc.shard]
    ensures ScanOk(sc, st')
  {
    GrowKeepsSeen(sc, st, st');
    GrowKeepsAcc(sc, st, st');
    GrowKeepsTorn(sc, st, st');
    GrowsTransitive(sc.start, st.heap, st'.heap);
    assert CursorOk(sc, st');
  }

  // ---- Preservation by the scan's own moves ----

  lemma {:induction false} LockKeepsScan(sc: Scan, st: Store)
    requires TableOk(st) && ScanOk(sc, st) && ScanEnabled(sc, st, Lock)
    ensures ScanOk(ScanStep(sc, st, Lock), st)
  {
    var t := ScanStep(sc, st, Lock);
    var keys := st.shards[sc.shard].Keys;
    forall r: nat | r < |st.heap| ensures Ahead(t, st.heap[r].ip) <==> Ahead(sc, st.heap[r].ip) {
      assert Has(st, st.heap[r].ip);
    }
    assert sc.counted !! keys;
    assert |sc.counted + keys| == |sc.counted| + |keys|;
    assert |keys| == |st.shards[sc.shard]|;
    forall r | 0 <= r < |t.start| && Passed(t, ShardOf(t.start[r].ip)) ensures t.start[r].ip in t.counted {
      assert t.start[r].ip == st.heap[r].ip && Has(st, st.heap[r].ip);
    }
    forall f: Field, r: nat | r < |t.start| && !Ahead(t, t.start[r].ip) ensures (f, r) in t.seen {
      assert t.start[r].ip == st.heap[r].ip;
    }
  }

  // Picking a pending address moves exactly that address out of what lies ahead.
  lemma {:induction false} PickMovesOne(sc: Scan, st: Store, ip: Ip)
    requires TableOk(st) && PlaceOk(sc, st) && ScanEnabled(sc, st, Pick(ip))
    ensures var r := st.shards[sc.shard][ip];
      r < |st.heap| && st.heap[r].ip == ip && ShardOf(ip) == sc.shard && Ahead(sc, ip)
    ensures forall a :: Ahead(ScanStep(sc, st, Pick(ip)), a) <==> Ahead(sc, a) && a != ip
  {
    TableAt(st, sc.shard, ip);
  }

  lemma {:induction false} PickKeepsScan(sc: Scan, st: Store, ip: Ip)
    requires TableOk(st) && ScanOk(sc, st) && ScanEnabled(sc, st, Pick(ip))
    ensures ScanOk(ScanStep(sc, st, Pick(ip)), st)
  {
    var t := ScanStep(sc, st, Pick(ip));
    var r0 := st.shards[sc.shard][ip];
    PickMovesOne(sc, st, ip);
    assert CursorOk(t, st) by {
      forall j | 0 <= j < 4 ensures (t.order[j], r0) !in t.seen {}
    }
    assert SeenOk(t, st);
    assert Covered(t) by {
      forall f: Field, r: nat | r < |t.start| && !Ahead(t, t.start[r].ip) && r != r0 ensures (f, r) in t.seen {
        assert t.start[r].ip == st.heap[r].ip && RefOf(st, st.heap[r].ip) == r;
      }
    }
    forall k: nat ensures Passed(t, k) <==> Passed(sc, k) {}
  }

  lemma {:induction false} LoadKeepsAcc(sc: Scan, st: Store)
    requires ScanOk(sc, st) && ScanEnabled(sc, st, Load)
    ensures AccOk(ScanStep(sc, st, Load), st)
  {
    var t := ScanStep(sc, st, Load);
    var At(r, pos) := sc.cur;
    var f, v := sc.order[pos], Get(st.heap[r].c, sc.order[pos]);
    forall g: Field ensures Get(t.acc, g) == SeenSum(t.seen, g, |st.heap|) {
      SeenSumAdd(sc.seen, f, r, v, g, |st.heap|);
    }
  }

  lemma {:induction false} LoadKeepsSeen(sc: Scan, st: Store)
    requires ScanOk(sc, st) && Sane(st) && ScanEnabled(sc, st, Load)
    ensures SeenOk(ScanStep(sc, st, Load), st) && CursorOk(ScanStep(sc, st, Load), st)
  {
  }

  lemma {:induction false} LoadKeepsCovered(sc: Scan, st: Store)
    requires ScanOk(sc, st) && ScanEnabled(sc, st, Load)
    ensures Covered(ScanStep(sc, st, Load))
  {
    var t := ScanStep(sc, st, Load);
    var At(r0, pos) := sc.cur;
    forall f: Field, r: nat | r < |t.start| && !Ahead(t, t.start[r].ip) && !(t.cur.At? && t.cur.ref == r)
      ensures (f, r) in t.seen
    {
      if r == r0 {
        assert pos == 3;
        assert f == sc.order[0] || f == sc.order[1] || f == sc.order[2] || f == sc.order[3];
      }
    }
  }

  lemma {:induction false} LoadKeepsTorn(sc: Scan, st: Store)
    requires ScanOk(sc, st) && Sane(st) && ScanEnabled(sc, st, Load)
    ensures TornOk(ScanStep(sc, st, Load), st)
  {
    if sc.order == TotalsOrder() {
      var At(r, pos) := sc.cur;
      if pos == 3 {
        assert (sc.order[2], r) in sc.seen;
      } else {
        assert (sc.order[3], r) !in sc.seen;
      }
    }
  }

  lemma {:induction false} LoadKeepsScan(sc: Scan, st: Store)
    requires ScanOk(sc, st) && Sane(st) && ScanEnabled(sc, st, Load)
    ensures ScanOk(ScanStep(sc, st, Load), st)
  {
    LoadKeepsAcc(sc, st);
    LoadKeepsSeen(sc, st);
    LoadKeepsCovered(sc, st);
    LoadKeepsTorn(sc, st);
  }

  lemma {:induction false} UnlockKeepsScan(sc: Scan, st: Store)
    requires ScanOk(sc, st) && ScanEnabled(sc, st, Unlock)
    ensures ScanOk(ScanStep(sc, st, Unlock), st)
  {
    var t := ScanStep(sc, st, Unlock);
    forall ip: Ip ensures Ahead(t, ip) <==> Ahead(sc, ip) {}
    forall k: nat ensures Passed(t, k) <==> Passed(sc, k) {}
  }

  lemma {:induction false} MoveKeepsScan(sc: Scan, st: Store, m: ScanMove)
    requires TableOk(st) && Sane(st) && ScanOk(sc, st) && ScanEnabled(sc, st, m)
    ensures ScanOk(ScanStep(sc, st, m), st)
  {
    match m
    case Lock => LockKeepsScan(sc, st);
    case Pick(ip) => PickKeepsScan(sc, st, ip);
    case Load => LoadKeepsScan(sc, st);
    case Unlock => UnlockKeepsScan(sc, st);
  }

  lemma {:induction false} NewScanOk(order: seq<Field>, st: Store)
    requires order == TotalsOrder() || order == DevicesOrder()
    ensures ScanOk(NewScan(order, st), st)
  {
    var sc := NewScan(order, st);
    forall f: Field ensures Get(sc.acc, f) == SeenSum(sc.seen, f, |st.heap|) {
      EmptySum(f, |st.heap|);
    }
  }

  lemma {:induction false} EmptySum(f: Field, n: nat)
    ensures SeenSum(map[], f, n) == 0
  {
    if n > 0 {
      EmptySum(f, n - 1);
    }
  }
}
