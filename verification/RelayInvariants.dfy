// The relay's counters, identifiers and connection log, over every step.

module RelayInvariants {
  import opened ShardIndex
  import opened Sums
  import opened DeviceCounters
  import opened Machine
  import opened Accounting

  function Waiting(h: Handler): int { if h.pc == Start then 1 else 0 }

  function Counted(h: Handler): int { if 0 < Rank(h.pc) <= 15 then 1 else 0 }

  function Live(h: Handler): int { if h.pc != Finished then 1 else 0 }

  predicate Recorded(h: Handler) { !h.bad && Rank(h.pc) >= 15 }

  predicate HasId(h: Handler) { !h.bad && Rank(h.pc) >= 7 }

  function RecordedOne(h: Handler): int { if Recorded(h) then 1 else 0 }

  function Held(a: AcceptPc): int {
    if a == Exited then 0 else if a.Spawning? then 2 else 1
  }

  ghost predicate CountsOk(s: State) {
    && s.activeConns == Sum(s.handlers, Counted)
    && s.wg == Sum(s.handlers, Live) + Held(s.accept)
    && |s.store.records| == Sum(s.handlers, RecordedOne)
  }

  predicate StopOk(s: State) {
    && (s.closed <==> s.stop != Running)
    && (s.listening <==> s.stop == Running || s.stop == ChannelClosed)
    && (s.accept == Exiting || s.accept == Exited ==> s.closed)
    && (s.stop == Returned ==> s.wg == 0)
  }

  predicate IdsOk(s: State) {
    && (forall i :: 0 <= i < |s.handlers| && HasId(s.handlers[i]) ==> 1 <= s.handlers[i].id <= s.store.connSeq)
    && (forall i, j :: 0 <= i < j < |s.handlers| && HasId(s.handlers[i]) && HasId(s.handlers[j]) ==>
          s.handlers[i].id != s.handlers[j].id)
  }

  // log names the handler behind each record; slot is its inverse.
  predicate LogOk(s: State) {
    && |s.log| == |s.store.records|
    && (forall k :: 0 <= k < |s.log| ==> s.log[k] < |s.handlers| && OwnsRecord(s, s.log[k], k))
    && (forall i :: 0 <= i < |s.handlers| && Recorded(s.handlers[i]) ==>
          s.handlers[i].slot < |s.log| && s.log[s.handlers[i].slot] == i)
  }

  predicate OwnsRecord(s: State, i: nat, k: nat)
    requires i < |s.handlers| && k < |s.store.records|
  {
    var h := s.handlers[i];
    Recorded(h) && h.slot == k && s.store.records[k] == RecordOf(h)
  }

  ghost predicate RelayOk(s: State) {
    CountsOk(s) && StopOk(s) && IdsOk(s) && LogOk(s)
  }

  // ---- Preservation ----

  lemma {:induction false} LiveBound(s: State)
    requires CountsOk(s)
    ensures 0 <= Sum(s.handlers, Live)
    ensures s.wg >= Held(s.accept)
  {
    SumLe(s.handlers, (h: Handler) => 0, Live);
    SumZero(s.handlers, (h: Handler) => 0);
  }

  // When the group is at zero, the accept loop has exited and every handler is done.
  lemma {:induction false} AllFinished(hs: seq<Handler>, i: nat)
    requires Sum(hs, Live) == 0 && i < |hs|
    ensures hs[i].pc == Finished
  {
    var n := |hs| - 1;
    SumLe(hs[..n], (h: Handler) => 0, Live);
    SumZero(hs[..n], (h: Handler) => 0);
    if i < n {
      AllFinished(hs[..n], i);
    }
  }

  lemma {:induction false} NothingRunsAfterStop(s: State)
    requires CountsOk(s) && StopOk(s) && s.wg == 0
    ensures s.accept == Exited
    ensures forall i :: 0 <= i < |s.handlers| ==> s.handlers[i].pc == Finished
  {
    LiveBound(s);
    forall i | 0 <= i < |s.handlers| ensures s.handlers[i].pc == Finished {
      AllFinished(s.handlers, i);
    }
  }

  lemma {:induction false} HandleKeepsCounts(s: State, i: nat, ch: Choice)
    requires CountsOk(s) && HandlersOk(s) && Enabled(s, Handle(i, ch))
    ensures CountsOk(HandleNext(s, i, ch))
  {
    var h, h' := s.handlers[i], Move(s.handlers[i], s.store, s.fallback, ch);
    SumUpdate(s.handlers, i, h', Counted);
    SumUpdate(s.handlers, i, h', Live);
    SumUpdate(s.handlers, i, h', RecordedOne);
    MoveCounts(h, s.store, s.fallback, ch);
  }

  lemma {:induction false} MoveCounts(h: Handler, st: Store, fallback: bool, ch: Choice)
    requires h.pc != Finished && BadIsLate(h)
    ensures Counted(Move(h, st, fallback, ch)) == Counted(h) + ActiveChange(h.pc)
    ensures Live(Move(h, st, fallback, ch)) == Live(h) - (if h.pc == Finish then 1 else 0)
    ensures RecordedOne(Move(h, st, fallback, ch)) == RecordedOne(h) + (if h.pc == Append then 1 else 0)
    ensures |Effect(h, st).records| == |st.records| + (if h.pc == Append then 1 else 0)
  {
  }

  lemma {:induction false} MoveId(h: Handler, st: Store, fallback: bool, ch: Choice)
    requires h.pc != Finished && BadIsLate(h)
    ensures HasId(Move(h, st, fallback, ch)) <==> HasId(h) || h.pc == TakeId
    ensures Effect(h, st).connSeq == if h.pc == TakeId then st.connSeq + 1 else st.connSeq
    ensures Move(h, st, fallback, ch).id == if h.pc == TakeId then st.connSeq + 1 else h.id
  {
  }

  lemma {:induction false} HandleKeepsIds(s: State, i: nat, ch: Choice)
    requires IdsOk(s) && HandlersOk(s) && Enabled(s, Handle(i, ch))
    ensures IdsOk(HandleNext(s, i, ch))
  {
    MoveId(s.handlers[i], s.store, s.fallback, ch);
  }

  lemma {:induction false} MoveRecord(h: Handler, st: Store, fallback: bool, ch: Choice)
    requires h.pc != Finished && BadIsLate(h)
    ensures Recorded(Move(h, st, fallback, ch)) <==> Recorded(h) || h.pc == Append
    ensures h.pc == Append ==> Move(h, st, fallback, ch).slot == |st.records|
    ensures h.pc != Append ==> Move(h, st, fallback, ch).slot == h.slot
    ensures Recorded(h) || h.pc == Append ==> RecordOf(Move(h, st, fallback, ch)) == RecordOf(h)
    ensures Effect(h, st).records == if h.pc == Append then st.records + [RecordOf(h)] else st.records
    ensures h.pc == Append ==> !Recorded(h)
  {
  }

  lemma {:induction false} HandleKeepsLog(s: State, i: nat, ch: Choice)
    requires LogOk(s) && HandlersOk(s) && Enabled(s, Handle(i, ch))
    ensures LogOk(HandleNext(s, i, ch))
  {
    var t := HandleNext(s, i, ch);
    MoveRecord(s.handlers[i], s.store, s.fallback, ch);
    forall k | 0 <= k < |t.log| ensures t.log[k] < |t.handlers| && OwnsRecord(t, t.log[k], k) {
      if k < |s.log| {
        assert OwnsRecord(s, s.log[k], k);
      }
    }
  }

  lemma {:induction false} HandleKeepsRelay(s: State, i: nat, ch: Choice)
    requires RelayOk(s) && HandlersOk(s) && Enabled(s, Handle(i, ch))
    ensures RelayOk(HandleNext(s, i, ch))
  {
    if s.stop == Returned {
      NothingRunsAfterStop(s);
    }
    HandleKeepsCounts(s, i, ch);
    HandleKeepsIds(s, i, ch);
    HandleKeepsLog(s, i, ch);
  }

  lemma {:induction false} SpawnKeepsCounts(s: State)
    requires CountsOk(s) && Enabled(s, Spawn)
    ensures CountsOk(Apply(s, Spawn))
  {
    var h := Spawned(s.accept.ip);
    SumAppend(s.handlers, h, Counted);
    SumAppend(s.handlers, h, Live);
    SumAppend(s.handlers, h, RecordedOne);
  }

  // The log survives a step that at most adds a handler without a record.
  lemma {:induction false} LogFrame(s: State, t: State)
    requires LogOk(s) && t.store == s.store && t.log == s.log && s.handlers <= t.handlers
    requires forall i :: |s.handlers| <= i < |t.handlers| ==> !Recorded(t.handlers[i])
    ensures LogOk(t)
  {
    forall k | 0 <= k < |t.log| ensures t.log[k] < |t.handlers| && OwnsRecord(t, t.log[k], k) {
      assert OwnsRecord(s, s.log[k], k);
    }
  }

  lemma {:induction false} SpawnKeepsIds(s: State)
    requires StopOk(s) && IdsOk(s) && CountsOk(s) && Enabled(s, Spawn)
    ensures StopOk(Apply(s, Spawn)) && IdsOk(Apply(s, Spawn))
  {
  }

  lemma {:induction false} SpawnKeepsRelay(s: State)
    requires RelayOk(s) && Enabled(s, Spawn)
    ensures RelayOk(Apply(s, Spawn))
  {
    SpawnKeepsCounts(s);
    SpawnKeepsIds(s);
    LogFrame(s, Apply(s, Spawn));
  }

  // Steps that leave handlers, collector and log alone.
  predicate Outside(step: Step) {
    !step.Handle? && !step.Spawn?
  }

  lemma {:induction false} OutsideFrame(s: State, step: Step)
    requires Enabled(s, step) && Outside(step)
    ensures Apply(s, step).handlers == s.handlers && Apply(s, step).store == s.store
    ensures Apply(s, step).log == s.log && Apply(s, step).activeConns == s.activeConns
    ensures Apply(s, step).wg - Held(Apply(s, step).accept) == s.wg - Held(s.accept)
  {
  }

  lemma {:induction false} OutsideKeepsStop(s: State, step: Step)
    requires StopOk(s) && CountsOk(s) && Enabled(s, step) && Outside(step)
    ensures StopOk(Apply(s, step))
  {
    if s.stop == Returned {
      NothingRunsAfterStop(s);
    }
  }

  lemma {:induction false} OutsideKeepsRelay(s: State, step: Step)
    requires RelayOk(s) && Enabled(s, step) && Outside(step)
    ensures RelayOk(Apply(s, step))
  {
    OutsideFrame(s, step);
    OutsideKeepsStop(s, step);
    LogFrame(s, Apply(s, step));
  }

  lemma {:induction false} StepKeepsRelay(s: State, step: Step)
    requires RelayOk(s) && HandlersOk(s) && Enabled(s, step)
    ensures RelayOk(Apply(s, step))
  {
    match step
    case Spawn => SpawnKeepsRelay(s);
    case Handle(i, ch) => HandleKeepsRelay(s, i, ch);
    case _ => OutsideKeepsRelay(s, step);
  }

  // ---- What the invariants mean ----

  // The collector's active total, the relay's counter, the live handlers and the group.
  lemma {:induction false} ActiveChain(s: State)
    requires CollectorOk(s) && RelayOk(s)
    ensures 0 <= HeapSum(s.store.heap, Active) <= s.activeConns <= Sum(s.handlers, Live) <= s.wg
  {
    SumLe(s.handlers, (h: Handler) => 0, ShareOf(Active));
    SumZero(s.handlers, (h: Handler) => 0);
    SumLe(s.handlers, ShareOf(Active), Counted);
    SumLe(s.handlers, Counted, Live);
  }

  // sync.WaitGroup forbids Add from zero concurrently with Wait.
  lemma {:induction false} NeverAddsFromZero(s: State)
    requires RelayOk(s) && Enabled(s, WgAdd)
    ensures s.wg >= 1 && s.stop != Returned
  {
    LiveBound(s);
  }

  // The record is this connection's: its own identifier, address, bytes sent and
  // received, and upstream.
  predicate Tells(rec: Record, h: Handler) {
    rec.id == h.id && rec.ip == h.ip && rec.tx == h.tx && rec.rx == h.rx && rec.upstream == h.upstream
  }

  // A handler that opened a connection and finished has exactly one record,
  // under its own identifier, with its own address and byte counts.
  lemma {:induction false} RecordedExactlyOnce(s: State, i: nat)
    requires RelayOk(s) && i < |s.handlers| && s.handlers[i].pc == Finished && !s.handlers[i].bad
    ensures exists k :: 0 <= k < |s.store.records| && Tells(s.store.records[k], s.handlers[i]) &&
              forall m :: 0 <= m < |s.store.records| && s.store.records[m].id == s.handlers[i].id ==> m == k
  {
    var k := s.handlers[i].slot;
    assert OwnsRecord(s, s.log[k], k);
    forall m | 0 <= m < |s.store.records| && s.store.records[m].id == s.handlers[i].id ensures m == k {
      assert OwnsRecord(s, s.log[m], m);
      assert HasId(s.handlers[s.log[m]]) && HasId(s.handlers[i]);
      assert s.log[m] == i;
    }
  }

  // Until Append, no record carries the handler's identifier.
  lemma {:induction false} NotRecordedEarly(s: State, i: nat, m: nat)
    requires RelayOk(s) && i < |s.handlers| && HasId(s.handlers[i]) && !Recorded(s.handlers[i])
    requires m < |s.store.records|
    ensures s.store.records[m].id != s.handlers[i].id
  {
    assert OwnsRecord(s, s.log[m], m);
    assert HasId(s.handlers[s.log[m]]);
  }

  // After Relay.Stop has returned.
  lemma {:induction false} AfterStop(s: State, step: Step)
    requires CollectorOk(s) && RelayOk(s) && s.stop == Returned
    ensures Enabled(s, step) ==> !step.Spawn? && !step.WgAdd? && !step.Handle? && !step.AcceptConn?
    ensures s.activeConns == 0
    ensures forall ip: Ip :: Lookup(s.store, ip).active == 0
    ensures HeapSum(s.store.heap, Total) == |s.store.records|
  {
    NothingRunsAfterStop(s);
    SumZero(s.handlers, Counted);
    forall ip: Ip ensures Lookup(s.store, ip).active == 0 {
      SumZero(s.handlers, ShareAt(ip, Active));
      assert Get(Lookup(s.store, ip), Active) == 0;
    }
    SumLe(s.handlers, ShareOf(Total), RecordedOne);
    SumLe(s.handlers, RecordedOne, ShareOf(Total));
  }
}
