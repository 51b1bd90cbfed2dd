// What a row of Devices shows: it loads a record's connection total before its
// active count, so the row is torn exactly by what is opened in between.

module DeviceRows {
  import opened ShardIndex
  import opened DeviceCounters
  import opened Machine
  import opened Accounting
  import opened RelayInvariants
  import opened Scans
  import opened Runs
  import opened Admission
  import opened ScanResults

  // ---- Handlers' steps, seen from the states around them ----

  // Between s and t a handler of ip left pc.
  ghost predicate Took(s: State, t: State, ip: Ip, pc: Pc) {
    exists i :: 0 <= i < |s.handlers| && i < |t.handlers| && s.handlers[i].ip == ip
      && s.handlers[i].pc == pc && t.handlers[i].pc != pc
  }

  // How many did in the states from a to b.
  ghost function Steps(run: seq<State>, a: nat, b: nat, ip: Ip, pc: Pc): nat
    requires b < |run|
  {
    if b <= a then 0 else
    Steps(run, a, b - 1, ip, pc) + if Took(run[b - 1], run[b], ip, pc) then 1 else 0
  }

  lemma {:induction false} HandleTakes(s: State, i: nat, ch: Choice, ip: Ip, pc: Pc)
    requires Enabled(s, Handle(i, ch)) && (pc == AddActive || pc == SubActive)
    ensures Took(s, HandleNext(s, i, ch), ip, pc) <==> s.handlers[i].ip == ip && s.handlers[i].pc == pc
  {
    var t := HandleNext(s, i, ch);
    if s.handlers[i].ip == ip && s.handlers[i].pc == pc {
      assert t.handlers[i].pc != pc;
    }
  }

  lemma {:induction false} OthersTakeNothing(s: State, step: Step, ip: Ip, pc: Pc)
    requires Enabled(s, step) && !step.Handle?
    ensures !Took(s, Apply(s, step), ip, pc) && Apply(s, step).store == s.store
  {
  }

  lemma {:induction false} HandleActive(s: State, i: nat, ch: Choice, r: nat)
    requires CollectorOk(s) && Enabled(s, Handle(i, ch)) && r < |s.store.heap|
    ensures var t := HandleNext(s, i, ch); var ip := s.store.heap[r].ip; var h := s.handlers[i];
      && r < |t.store.heap| && t.store.heap[r].ip == ip
      && t.store.heap[r].c.active == s.store.heap[r].c.active
         + (if h.ip == ip && h.pc == AddActive then 1 else 0) - (if h.ip == ip && h.pc == SubActive then 1 else 0)
  {
    var h := s.handlers[i];
    assert HoldsOwn(h, s.store);
    EffectKinds(h, s.store);
    assert RefOf(s.store, s.store.heap[r].ip) == r;
  }

  // A record's active count moves by exactly these steps.
  lemma {:induction false} NextActive(s: State, t: State, r: nat)
    requires CollectorOk(s) && Next(s, t) && r < |s.store.heap|
    ensures var ip := s.store.heap[r].ip;
      && r < |t.store.heap| && t.store.heap[r].ip == ip
      && t.store.heap[r].c.active == s.store.heap[r].c.active
         + (if Took(s, t, ip, AddActive) then 1 else 0) - (if Took(s, t, ip, SubActive) then 1 else 0)
  {
    var step :| StepTo(s, step, t);
    var ip := s.store.heap[r].ip;
    if step.Handle? {
      HandleTakes(s, step.i, step.ch, ip, AddActive);
      HandleTakes(s, step.i, step.ch, ip, SubActive);
      HandleActive(s, step.i, step.ch, r);
    } else {
      OthersTakeNothing(s, step, ip, AddActive);
      OthersTakeNothing(s, step, ip, SubActive);
    }
  }

  lemma {:induction false} ActiveAt(run: seq<State>, k: nat, r: nat)
    requires IsRun(run) && k + 1 < |run| && r < |run[k].store.heap|
    ensures var s := run[k]; var t := run[k + 1]; var ip := s.store.heap[r].ip;
      && r < |t.store.heap| && t.store.heap[r].ip == ip
      && t.store.heap[r].c.active == s.store.heap[r].c.active
         + (if Took(s, t, ip, AddActive) then 1 else 0) - (if Took(s, t, ip, SubActive) then 1 else 0)
  {
    StepOf(run, k);
    NextActive(run[k], run[k + 1], r);
  }

  lemma {:induction false} ActiveBetween(run: seq<State>, a: nat, b: nat, r: nat)
    requires IsRun(run) && a <= b < |run| && r < |run[a].store.heap|
    ensures var ip := run[a].store.heap[r].ip;
      && r < |run[b].store.heap| && run[b].store.heap[r].ip == ip
      && run[b].store.heap[r].c.active
         == run[a].store.heap[r].c.active + Steps(run, a, b, ip, AddActive) - Steps(run, a, b, ip, SubActive)
  {
    if a < b {
      ActiveBetween(run, a, b - 1, r);
      ActiveAt(run, b - 1, r);
    }
  }

  // ---- Rows ----

  // A Devices scan loads a record's total, then its active count.
  lemma {:induction false} TotalFirst(run: seq<State>, b: nat, j: nat, r: nat) returns (a: nat)
    requires IsRun(run) && LoadsAt(run, b, j, Active, r) && run[b].scans[j].order == DevicesOrder()
    ensures a < b && LoadsAt(run, a, j, Total, r)
  {
    SeenAt(run, b, j, Active, r);
    RunOk(run, b);
    var sc := run[b].scans[j];
    assert ScanOk(sc, run[b].store) && sc.cur.pos == 3;
    assert (sc.order[2], r) in sc.seen;
    a := LoadedSomewhere(run, b, j, Total, r);
  }

  // In every run, for every row with both counts: it shows more active than
  // total connections exactly when the opens of that address between the two
  // loads, less the closes, exceed the connections that were not active at the first.
  lemma {:induction false} RowTornIff(run: seq<State>, a: nat, b: nat, c: nat, j: nat, r: nat)
    requires IsRun(run) && a < b < c < |run|
    requires LoadsAt(run, a, j, Total, r) && LoadsAt(run, b, j, Active, r)
    ensures r < |run[a].store.heap| && j < |run[c].scans|
    ensures (Active, r) in run[c].scans[j].seen && (Total, r) in run[c].scans[j].seen
    ensures var row := run[c].scans[j].seen; var d := run[a].store.heap[r];
      row[(Active, r)] > row[(Total, r)]
      <==> Steps(run, a, b, d.ip, AddActive) - Steps(run, a, b, d.ip, SubActive) > d.c.total - d.c.active
  {
    LoadedValue(run, a, c, j, Total, r);
    LoadedValue(run, b, c, j, Active, r);
    ActiveBetween(run, a, b, r);
  }

  // Every row of every Devices scan comes about in this way.
  lemma {:induction false} RowLoads(run: seq<State>, c: nat, j: nat, r: nat) returns (a: nat, b: nat)
    requires IsRun(run) && c < |run| && j < |run[c].scans| && run[c].scans[j].order == DevicesOrder()
    requires (Active, r) in run[c].scans[j].seen
    ensures a < b < c && LoadsAt(run, a, j, Total, r) && LoadsAt(run, b, j, Active, r)
  {
    b := LoadedSomewhere(run, c, j, Active, r);
    OrderKept(run, b, c, j);
    a := TotalFirst(run, b, j, r);
  }

  // A row between whose loads no connection of its address is counted as open is sane.
  lemma {:induction false} RowSaneWithoutOpens(run: seq<State>, a: nat, b: nat, c: nat, j: nat, r: nat)
    requires IsRun(run) && a < b < c < |run|
    requires LoadsAt(run, a, j, Total, r) && LoadsAt(run, b, j, Active, r)
    requires r < |run[a].store.heap| && Steps(run, a, b, run[a].store.heap[r].ip, AddActive) == 0
    ensures j < |run[c].scans| && (Active, r) in run[c].scans[j].seen && (Total, r) in run[c].scans[j].seen
    ensures run[c].scans[j].seen[(Active, r)] <= run[c].scans[j].seen[(Total, r)]
  {
    RowTornIff(run, a, b, c, j, r);
    RunOk(run, a);
    ShareSane(run[a], r);
  }

  lemma {:induction false} StoppedAt(run: seq<State>, k: nat, ip: Ip, pc: Pc)
    requires IsRun(run) && k + 1 < |run| && run[k].stop == Returned
    ensures run[k + 1].stop == Returned && !Took(run[k], run[k + 1], ip, pc)
  {
    StepOf(run, k);
    StoppedStep(run[k], run[k + 1]);
  }

  lemma {:induction false} StoppedTakesNothing(run: seq<State>, a: nat, b: nat, ip: Ip, pc: Pc)
    requires IsRun(run) && a <= b < |run| && run[a].stop == Returned
    ensures run[b].stop == Returned && Steps(run, a, b, ip, pc) == 0
  {
    if a < b {
      StoppedTakesNothing(run, a, b - 1, ip, pc);
      StoppedAt(run, b - 1, ip, pc);
    }
  }

  // Once Relay.Stop has returned, every row read from then on is sane and shows
  // no active connection.
  lemma {:induction false} StoppedRowsSane(run: seq<State>, a: nat, b: nat, c: nat, j: nat, r: nat)
    requires IsRun(run) && a < b < c < |run| && run[a].stop == Returned
    requires LoadsAt(run, a, j, Total, r) && LoadsAt(run, b, j, Active, r)
    ensures j < |run[c].scans| && (Active, r) in run[c].scans[j].seen && (Total, r) in run[c].scans[j].seen
    ensures 0 == run[c].scans[j].seen[(Active, r)] <= run[c].scans[j].seen[(Total, r)]
  {
    LoadedValue(run, a, c, j, Total, r);
    var ip := run[a].store.heap[r].ip;
    StoppedTakesNothing(run, a, b, ip, AddActive);
    RowSaneWithoutOpens(run, a, b, c, j, r);
    LoadedValue(run, b, c, j, Active, r);
    RunOk(run, b);
    assert RefOf(run[b].store, run[b].store.heap[r].ip) == r;
    AfterStop(run[b], WaitDone);
    assert Lookup(run[b].store, run[b].store.heap[r].ip).active == 0;
  }
}
