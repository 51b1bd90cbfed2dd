// The connection records against the counters: two accounts of the same
// connections, kept by different operations.

module Ledger {
  import opened ShardIndex
  import opened Sums
  import opened DeviceCounters
  import opened Machine
  import opened Accounting
  import opened RelayInvariants
  import opened Runs

  // What one record says about an address.
  function TxOf(ip: Ip): Record -> int {
    (rec: Record) => if rec.ip == ip then rec.tx else 0
  }

  function RxOf(ip: Ip): Record -> int {
    (rec: Record) => if rec.ip == ip then rec.rx else 0
  }

  function OneOf(ip: Ip): Record -> int {
    (rec: Record) => if rec.ip == ip then 1 else 0
  }

  // The same of a handler, once it has its record.
  function TxDone(ip: Ip): Handler -> int {
    (h: Handler) => if Recorded(h) && h.ip == ip then h.tx else 0
  }

  function RxDone(ip: Ip): Handler -> int {
    (h: Handler) => if Recorded(h) && h.ip == ip then h.rx else 0
  }

  function OneDone(ip: Ip): Handler -> int {
    (h: Handler) => if Recorded(h) && h.ip == ip then 1 else 0
  }

  ghost predicate LedgerOk(s: State) {
    forall ip: Ip ::
      && Sum(s.store.records, TxOf(ip)) == Sum(s.handlers, TxDone(ip))
      && Sum(s.store.records, RxOf(ip)) == Sum(s.handlers, RxDone(ip))
      && Sum(s.store.records, OneOf(ip)) == Sum(s.handlers, OneDone(ip))
  }

  lemma {:induction false} MoveDone(h: Handler, st: Store, fallback: bool, ch: Choice, ip: Ip)
    requires h.pc != Finished && BadIsLate(h)
    ensures var h' := Move(h, st, fallback, ch); var now := h.pc == Append && h.ip == ip;
      && TxDone(ip)(h') == TxDone(ip)(h) + (if now then h.tx else 0)
      && RxDone(ip)(h') == RxDone(ip)(h) + (if now then h.rx else 0)
      && OneDone(ip)(h') == OneDone(ip)(h) + (if now then 1 else 0)
  {
  }

  lemma {:induction false} AppendTells(h: Handler, st: Store, ip: Ip)
    ensures var before := st.records; var after := Effect(h, st).records; var now := h.pc == Append && h.ip == ip;
      && Sum(after, TxOf(ip)) == Sum(before, TxOf(ip)) + (if now then h.tx else 0)
      && Sum(after, RxOf(ip)) == Sum(before, RxOf(ip)) + (if now then h.rx else 0)
      && Sum(after, OneOf(ip)) == Sum(before, OneOf(ip)) + (if now then 1 else 0)
  {
    if h.pc == Append {
      SumAppend(st.records, RecordOf(h), TxOf(ip));
      SumAppend(st.records, RecordOf(h), RxOf(ip));
      SumAppend(st.records, RecordOf(h), OneOf(ip));
    }
  }

  lemma {:induction false} HandleKeepsLedger(s: State, i: nat, ch: Choice)
    requires LedgerOk(s) && i < |s.handlers| && s.handlers[i].pc != Finished && BadIsLate(s.handlers[i])
    ensures LedgerOk(HandleNext(s, i, ch))
  {
    var h := s.handlers[i];
    var t := HandleNext(s, i, ch);
    forall ip: Ip
      ensures Sum(t.store.records, TxOf(ip)) == Sum(t.handlers, TxDone(ip))
      ensures Sum(t.store.records, RxOf(ip)) == Sum(t.handlers, RxDone(ip))
      ensures Sum(t.store.records, OneOf(ip)) == Sum(t.handlers, OneDone(ip))
    {
      AppendTells(h, s.store, ip);
      MoveDone(h, s.store, s.fallback, ch, ip);
      SumUpdate(s.handlers, i, t.handlers[i], TxDone(ip));
      SumUpdate(s.handlers, i, t.handlers[i], RxDone(ip));
      SumUpdate(s.handlers, i, t.handlers[i], OneDone(ip));
    }
  }

  lemma {:induction false} SpawnKeepsLedger(s: State)
    requires LedgerOk(s) && Enabled(s, Spawn)
    ensures LedgerOk(Apply(s, Spawn))
  {
    var h := Spawned(s.accept.ip);
    forall ip: Ip
      ensures Sum(s.handlers + [h], TxDone(ip)) == Sum(s.handlers, TxDone(ip))
      ensures Sum(s.handlers + [h], RxDone(ip)) == Sum(s.handlers, RxDone(ip))
      ensures Sum(s.handlers + [h], OneDone(ip)) == Sum(s.handlers, OneDone(ip))
    {
      SumAppend(s.handlers, h, TxDone(ip));
      SumAppend(s.handlers, h, RxDone(ip));
      SumAppend(s.handlers, h, OneDone(ip));
    }
  }

  lemma {:induction false} StepKeepsLedger(s: State, step: Step)
    requires HandlersOk(s) && LedgerOk(s) && Enabled(s, step)
    ensures LedgerOk(Apply(s, step))
  {
    match step
    case Spawn => SpawnKeepsLedger(s);
    case Handle(i, ch) => HandleKeepsLedger(s, i, ch);
    case _ =>
      assert Apply(s, step).store == s.store && Apply(s, step).handlers == s.handlers;
  }

  lemma {:induction false} LastHandlers(run: seq<State>)
    requires IsRun(run)
    ensures HandlersOk(Last(run))
  {
    LastOk(run);
  }

  lemma {:induction false} LedgerKept(run: seq<State>)
    requires IsRun(run)
    ensures LedgerOk(Last(run))
  {
    var n := |run| - 1;
    if n > 0 {
      LedgerKept(run[..n]);
      LastHandlers(run[..n]);
      assert Last(run[..n]) == run[n - 1];
      var step :| StepTo(run[n - 1], step, run[n]);
      StepKeepsLedger(run[n - 1], step);
    }
  }

  // ---- After the last connection ----

  lemma {:induction false} SumSame(hs: seq<Handler>, v: Handler -> int, w: Handler -> int)
    requires forall i :: 0 <= i < |hs| ==> v(hs[i]) == w(hs[i])
    ensures Sum(hs, v) == Sum(hs, w)
  {
    SumLe(hs, v, w);
    SumLe(hs, w, v);
  }

  lemma {:induction false} FinishedAgree(s: State, ip: Ip)
    requires CollectorOk(s) && LedgerOk(s)
    requires forall i :: 0 <= i < |s.handlers| ==> s.handlers[i].pc == Finished
    ensures var c := Lookup(s.store, ip);
      && c.tx == Sum(s.store.records, TxOf(ip))
      && c.rx == Sum(s.store.records, RxOf(ip))
      && c.total == Sum(s.store.records, OneOf(ip))
      && c.active == 0
  {
    SumSame(s.handlers, ShareAt(ip, Tx), TxDone(ip));
    SumSame(s.handlers, ShareAt(ip, Rx), RxDone(ip));
    SumSame(s.handlers, ShareAt(ip, Total), OneDone(ip));
    SumZero(s.handlers, ShareAt(ip, Active));
    assert Get(Lookup(s.store, ip), Tx) == Sum(s.handlers, ShareAt(ip, Tx));
    assert Get(Lookup(s.store, ip), Rx) == Sum(s.handlers, ShareAt(ip, Rx));
    assert Get(Lookup(s.store, ip), Total) == Sum(s.handlers, ShareAt(ip, Total));
    assert Get(Lookup(s.store, ip), Active) == Sum(s.handlers, ShareAt(ip, Active));
  }

  // Once Relay.Stop has returned, each address's bytes and connections in the
  // collector are exactly those of the records that carry it.
  lemma {:induction false} CountersAreRecords(run: seq<State>, i: nat, ip: Ip)
    requires IsRun(run) && i < |run| && run[i].stop == Returned
    ensures var st := run[i].store; var c := Lookup(st, ip);
      && c.tx == Sum(st.records, TxOf(ip))
      && c.rx == Sum(st.records, RxOf(ip))
      && c.total == Sum(st.records, OneOf(ip))
      && c.active == 0
  {
    PrefixIsRun(run, i);
    assert Last(run[..i + 1]) == run[i];
    LedgerKept(run[..i + 1]);
    RunOk(run, i);
    NothingRunsAfterStop(run[i]);
    FinishedAgree(run[i], ip);
  }

  // ---- What the records say of the upstream ----

  // A dial tries the proxy first, and the destination itself only with fallback on.
  predicate RouteOk(s: State, h: Handler) {
    && (h.upstream == Direct ==> s.fallback)
    && (h.upstream == Failed && !h.bad ==> h.tx == 0 && h.rx == 0)
  }

  ghost predicate RoutesOk(s: State) {
    && (forall i :: 0 <= i < |s.handlers| ==>
          && RouteOk(s, s.handlers[i])
          && (Rank(s.handlers[i].pc) <= 7 ==> s.handlers[i].upstream == Proxy)
          && (s.handlers[i].pc == Copying ==> s.handlers[i].upstream != Failed))
    && (forall k :: 0 <= k < |s.store.records| ==>
          && (s.store.records[k].upstream == Direct ==> s.fallback)
          && (s.store.records[k].upstream == Failed ==> s.store.records[k].tx == 0 && s.store.records[k].rx == 0))
  }

  // The one choice of upstream there is.
  lemma {:induction false} DialTries(h: Handler, st: Store, fallback: bool, ch: Choice)
    requires h.pc == Dial
    ensures var h' := Move(h, st, fallback, ch);
      && (h'.pc == Copying <==> ch.proxyOk || (fallback && ch.directOk))
      && (h'.upstream == Proxy <==> ch.proxyOk)
      && (h'.upstream == Direct <==> !ch.proxyOk && fallback && ch.directOk)
      && (h'.pc != Copying ==> h'.pc == Find(Recording) && h'.upstream == Failed && h'.tx == 0 && h'.rx == 0)
  {
  }

  // A handler's bytes are what its copy moved, and no later step changes them.
  lemma {:induction false} BytesStay(h: Handler, st: Store, fallback: bool, ch: Choice)
    ensures var h' := Move(h, st, fallback, ch);
      && (h.pc == Copying ==> h'.tx == ch.tx && h'.rx == ch.rx)
      && (Rank(h.pc) > 8 ==> h'.tx == h.tx && h'.rx == h.rx)
  {
  }

  // ---- Connections whose address does not parse ----

  // Such a connection is counted and uncounted by the relay and leaves no trace
  // in the collector.
  lemma {:induction false} BadLeavesNothing() returns (run: seq<State>)
    ensures IsRun(run) && |Last(run).handlers| == 1
    ensures Last(run).handlers[0].bad && Last(run).handlers[0].pc == Finished
    ensures Last(run).store == EmptyStore() && Last(run).activeConns == 0 && Last(run).wg == 1
  {
    var ch := Choice(false, true, true, 0, 0);
    run := BadSplit();
    run := RunExtends(run, Handle(0, ch));
    run := RunExtends(run, Handle(0, ch));
  }

  lemma {:induction false} BadSpawned() returns (run: seq<State>)
    ensures IsRun(run) && |Last(run).handlers| == 1 && Last(run).handlers[0] == Spawned([])
    ensures Last(run).store == EmptyStore() && Last(run).activeConns == 0 && Last(run).wg == 2
  {
    run := [Runs.Fresh(0, true)];
    run := RunExtends(run, AcceptConn([]));
    run := RunExtends(run, Admit);
    run := RunExtends(run, WgAdd);
    run := RunExtends(run, Spawn);
  }

  lemma {:induction false} BadSplit() returns (run: seq<State>)
    ensures IsRun(run) && |Last(run).handlers| == 1
    ensures Last(run).handlers[0] == Spawned([]).(bad := true, pc := Uncount)
    ensures Last(run).store == EmptyStore() && Last(run).activeConns == 1 && Last(run).wg == 2
  {
    var ch := Choice(false, true, true, 0, 0);
    run := BadSpawned();
    run := RunExtends(run, Handle(0, ch));
    run := RunExtends(run, Handle(0, ch));
  }

  lemma {:induction false} MoveKeepsRoute(s: State, h: Handler, ch: Choice)
    requires RouteOk(s, h) && BadIsLate(h) && h.pc != Finished
    requires (Rank(h.pc) <= 7 ==> h.upstream == Proxy) && (h.pc == Copying ==> h.upstream != Failed)
    ensures var h' := Move(h, s.store, s.fallback, ch);
      && RouteOk(s, h')
      && (Rank(h'.pc) <= 7 ==> h'.upstream == Proxy) && (h'.pc == Copying ==> h'.upstream != Failed)
  {
    if h.pc == Dial { DialTries(h, s.store, s.fallback, ch); }
  }

  lemma {:induction false} EffectRecords(h: Handler, st: Store)
    ensures Effect(h, st).records == if h.pc == Append then st.records + [RecordOf(h)] else st.records
  {
  }

  lemma {:induction false} StepKeepsRoutes(s: State, step: Step)
    requires HandlersOk(s) && RoutesOk(s) && Enabled(s, step)
    ensures RoutesOk(Apply(s, step))
  {
    if step.Handle? {
      var h := s.handlers[step.i];
      MoveKeepsRoute(s, h, step.ch);
      EffectRecords(h, s.store);
    } else if !step.Spawn? {
      assert Apply(s, step).store == s.store && Apply(s, step).handlers == s.handlers;
      assert Apply(s, step).fallback == s.fallback;
    }
  }

  lemma {:induction false} RoutesKept(run: seq<State>)
    requires IsRun(run)
    ensures RoutesOk(Last(run))
  {
    var n := |run| - 1;
    if n > 0 {
      RoutesKept(run[..n]);
      LastHandlers(run[..n]);
      assert Last(run[..n]) == run[n - 1];
      var step :| StepTo(run[n - 1], step, run[n]);
      StepKeepsRoutes(run[n - 1], step);
    }
  }

  // In every run a record of a direct connection means that fallback is on, and
  // one of a failed connection carries no bytes.
  lemma {:induction false} RecordsTellRoutes(run: seq<State>, i: nat, k: nat)
    requires IsRun(run) && i < |run| && k < |run[i].store.records|
    ensures run[i].store.records[k].upstream == Direct ==> run[i].fallback
    ensures run[i].store.records[k].upstream == Failed ==>
      run[i].store.records[k].tx == 0 && run[i].store.records[k].rx == 0
  {
    PrefixIsRun(run, i);
    assert Last(run[..i + 1]) == run[i];
    RoutesKept(run[..i + 1]);
  }
}
