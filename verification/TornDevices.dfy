// Devices loads the connection total before the active count, so unlike Totals
// it can report a device with more active connections than connections.

module TornDevices {
  import opened ShardIndex
  import opened DeviceCounters
  import opened Machine
  import opened Runs

  const CHOICE := Choice(true, true, true, 0, 0)

  // One connection is accepted and its handler has created the device record.
  lemma {:induction false} Spawning() returns (run: seq<State>)
    ensures IsRun(run) && |Last(run).handlers| == 1 && Last(run).handlers[0] == Spawned([])
    ensures Last(run).store == EmptyStore() && Last(run).scans == []
  {
    run := [Fresh(0, true)];
    run := RunExtends(run, AcceptConn([]));
    run := RunExtends(run, Admit);
    run := RunExtends(run, WgAdd);
    run := RunExtends(run, Spawn);
  }

  lemma {:induction false} Parsed() returns (run: seq<State>)
    ensures IsRun(run) && |Last(run).handlers| == 1 && Last(run).handlers[0] == Spawned([]).(pc := Find(Opening))
    ensures Last(run).store == EmptyStore() && Last(run).scans == []
  {
    run := Spawning();
    run := RunExtends(run, Handle(0, CHOICE));
    run := RunExtends(run, Handle(0, CHOICE));
  }

  lemma {:induction false} Created() returns (run: seq<State>)
    ensures IsRun(run) && |Last(run).handlers| == 1 && Last(run).handlers[0] == Spawned([]).(pc := AddTotal)
    ensures Last(run).store == Insert(EmptyStore(), []) && Last(run).scans == []
  {
    run := Parsed();
    run := RunExtends(run, Handle(0, CHOICE));
    run := RunExtends(run, Handle(0, CHOICE));
  }

  lemma {:induction false} Begun() returns (run: seq<State>)
    ensures IsRun(run) && |Last(run).handlers| == 1 && Last(run).handlers[0] == Spawned([]).(pc := AddTotal)
    ensures Last(run).store == Insert(EmptyStore(), [])
    ensures Last(run).scans == [NewScan(DevicesOrder(), Last(run).store)]
  {
    run := Created();
    run := RunExtends(run, BeginScan(DevicesOrder()));
  }

  lemma {:induction false} LockFirst()
    ensures var st := Insert(EmptyStore(), []); var sc := NewScan(DevicesOrder(), st);
      && ScanEnabled(sc, st, Lock)
      && var t := ScanStep(sc, st, Lock);
         t.order == DevicesOrder() && t.locked && t.shard == 0
         && t.cur == NoDevice && [] in t.pending && t.seen == map[]
  {
    assert ShardOf([]) == 0;
  }

  lemma {:induction false} Locked() returns (run: seq<State>)
    ensures IsRun(run) && |Last(run).handlers| == 1 && Last(run).handlers[0] == Spawned([]).(pc := AddTotal)
    ensures Last(run).store == Insert(EmptyStore(), []) && |Last(run).scans| == 1
    ensures var sc := Last(run).scans[0];
      && sc.order == DevicesOrder() && sc.locked && sc.shard == 0
      && sc.cur == NoDevice && [] in sc.pending && sc.seen == map[]
  {
    run := Begun();
    LockFirst();
    run := RunExtends(run, Scanning(0, Lock));
  }

  // The empty address lives in shard 0, at reference 0.
  lemma {:induction false} PickFirst(sc: Scan)
    requires sc.locked && sc.shard == 0 && sc.cur == NoDevice && [] in sc.pending
    ensures var st := Insert(EmptyStore(), []);
      && st.heap == [Device([], ZERO)]
      && ScanEnabled(sc, st, Pick([]))
      && ScanStep(sc, st, Pick([])) == sc.(pending := sc.pending - {[]}, cur := At(0, 0))
  {
    assert ShardOf([]) == 0;
  }

  lemma {:induction false} Picked() returns (run: seq<State>)
    ensures IsRun(run) && |Last(run).handlers| == 1 && Last(run).handlers[0] == Spawned([]).(pc := AddTotal)
    ensures Last(run).store.heap == [Device([], ZERO)]
    ensures |Last(run).scans| == 1
    ensures var sc := Last(run).scans[0]; sc.order == DevicesOrder() && sc.cur == At(0, 0) && sc.seen == map[]
  {
    run := Locked();
    PickFirst(Last(run).scans[0]);
    run := RunExtends(run, Scanning(0, Pick([])));
  }

  // A Devices scan loads the record up to and including its connection total.
  lemma {:induction false} HalfRead() returns (run: seq<State>)
    ensures IsRun(run) && |Last(run).handlers| == 1 && Last(run).handlers[0] == Spawned([]).(pc := AddTotal)
    ensures Last(run).store.heap == [Device([], ZERO)]
    ensures |Last(run).scans| == 1
    ensures var sc := Last(run).scans[0];
      sc.order == DevicesOrder() && sc.cur == At(0, 3) && (Total, 0) in sc.seen && sc.seen[(Total, 0)] == 0
  {
    run := Picked();
    run := RunExtends(run, Scanning(0, Load));
    run := RunExtends(run, Scanning(0, Load));
    run := RunExtends(run, Scanning(0, Load));
  }

  // The handler counts itself between the two loads.
  lemma {:induction false} TotalBetween() returns (run: seq<State>)
    ensures IsRun(run) && |Last(run).handlers| == 1
    ensures Last(run).handlers[0].pc == AddActive && Last(run).handlers[0].ref == 0
    ensures |Last(run).store.heap| == 1 && Last(run).store.heap[0].c.active == 0
    ensures |Last(run).scans| == 1
    ensures var sc := Last(run).scans[0];
      sc.order == DevicesOrder() && sc.cur == At(0, 3) && (Total, 0) in sc.seen && sc.seen[(Total, 0)] == 0
  {
    run := HalfRead();
    run := RunExtends(run, Handle(0, CHOICE));
  }

  lemma {:induction false} CountedBetween() returns (run: seq<State>)
    ensures IsRun(run) && |Last(run).store.heap| == 1 && Last(run).store.heap[0].c.active == 1
    ensures |Last(run).scans| == 1
    ensures var sc := Last(run).scans[0];
      sc.order == DevicesOrder() && sc.cur == At(0, 3) && (Total, 0) in sc.seen && sc.seen[(Total, 0)] == 0
  {
    run := TotalBetween();
    run := RunExtends(run, Handle(0, CHOICE));
  }

  lemma {:induction false} DevicesCanTear() returns (run: seq<State>)
    ensures IsRun(run) && |Last(run).scans| == 1
    ensures var sc := Last(run).scans[0];
      && sc.order == DevicesOrder() && sc.cur == NoDevice
      && (Active, 0) in sc.seen && (Total, 0) in sc.seen && sc.seen[(Active, 0)] == 1 && sc.seen[(Total, 0)] == 0
  {
    run := CountedBetween();
    run := RunExtends(run, Scanning(0, Load));
  }
}
