// Run and Stop as they overlap (cmd/gateway/main.go): two routines interleaved
// step by step, the accept loop that Stop waits for, and the end of the process.

module Overlap {
  import opened Optional
  import opened Hosts
  import opened RouteSpec
  import opened Retries
  import opened Lifecycle
  import opened Steps

  datatype End = Running | Exited | StopPanicked | RunPanicked

  // looked: what Stop first saw in applied. accepting: the accept loop is up,
  // and wg.Wait blocks.
  datatype Sys = Sys(g: Gateway, run: Pc, stop: StopPc, looked: Option<bool>, accepting: bool, end: End)

  datatype Move = RunMoves | StopMoves | LoopEnds

  function Starting(w: World): Sys {
    Sys(Lifecycle.Fresh(w), AtListen, Ready, None, false, Running)
  }

  // The kernel closes a dead process's sockets.
  function Over(s: Sys, end: End, faults: Faults): Sys {
    s.(g := s.g.(l := Do(s.g.l, Unlisten, faults).0), end := end)
  }

  predicate CanMove(s: Sys, m: Move) {
    && s.end == Running
    && match m
       case RunMoves => !s.run.Ended? && !(s.run.AtJoin? && s.accepting)
       case StopMoves => !(s.stop == ToWait && s.accepting)
       // Accept fails, and finds closeCh closed
       case LoopEnds => s.accepting && s.g.closed
  }

  function RunMoved(s: Sys, ipv6: bool, faults: Faults): Sys {
    var p := RunStep(Proc(s.g, s.run), ipv6, faults);
    s.(g := p.g, run := p.pc, accepting := s.accepting || s.run == AtAccept)
  }

  function StopMoved(s: Sys, faults: Faults): Sys {
    var (g, pc) := StopStep(s.g, s.stop, faults);
    s.(g := g, stop := pc, looked := if s.stop.ToLook? && s.looked.None? then Some(s.g.nft) else s.looked)
  }

  // A routine that cannot move lets the others go on.
  function Play(s: Sys, m: Move, ipv6: bool, faults: Faults): Sys {
    if !CanMove(s, m) then s else
    match m
    case RunMoves =>
      var t := RunMoved(s, ipv6, faults);
      if t.run == Ended(Panicked) then Over(t, RunPanicked, faults) else t
    case StopMoves =>
      if s.stop == ToClose && s.g.closed then Over(s, StopPanicked, faults) else
      var t := StopMoved(s, faults);
      if t.stop == Left then Over(t, Exited, faults) else t
    case LoopEnds => s.(accepting := false)
  }

  function Played(s: Sys, moves: seq<Move>, ipv6: bool, faults: Faults): Sys {
    if moves == [] then s else
    var n := |moves| - 1;
    Play(Played(s, moves[..n], ipv6, faults), moves[n], ipv6, faults)
  }

  // ---- The table ----

  // Run's load has been made.
  ghost predicate Loaded(s: Sys) {
    Installed(s.g.l.trace, Table)
  }

  // The deletes of the table since.
  function Drops(s: Sys): seq<bool> {
    DeletesSince(s.g.l.trace, Table)
  }

  predicate Neutral(c: Cmd) {
    c != Load && c != Delete(Table) && c != Add(Table)
  }

  lemma {:induction false} DoTable(l: Log, c: Cmd, faults: Faults)
    ensures var (l', ok) := Do(l, c, faults); var e := Event(c, ok, l'.world);
      && (Installed(l'.trace, Table) <==> Installed(l.trace, Table) || Installs(e, Table))
      && DeletesSince(l'.trace, Table) ==
           if Installs(e, Table) then []
           else DeletesSince(l.trace, Table) + if c == Delete(Table) then [ok] else []
  {
    var t := Do(l, c, faults).0.trace;
    assert t[..|t| - 1] == l.trace;
    InstalledSplits(t, Table);
  }

  lemma {:induction false} NeutralKeeps(w: World, l: Log, c: Cmd, faults: Faults)
    requires Follows(w, l) && Neutral(c)
    ensures var l' := Do(l, c, faults).0;
      && Follows(w, l')
      && (Installed(l'.trace, Table) <==> Installed(l.trace, Table))
      && DeletesSince(l'.trace, Table) == DeletesSince(l.trace, Table)
      && (Unfound(l) ==> Unfound(l'))
  {
    DoFollows(w, l, c, faults);
    DoTable(l, c, faults);
    UnfoundStays(l, c, faults);
  }

  // Nothing has been done to the table.
  ghost predicate SameTable(w: World, l: Log, l': Log) {
    && Follows(w, l')
    && (Installed(l'.trace, Table) <==> Installed(l.trace, Table))
    && DeletesSince(l'.trace, Table) == DeletesSince(l.trace, Table)
    && (Unfound(l) ==> Unfound(l'))
  }

  predicate IsServed(pc: Pc) {
    pc == AtApplied || pc == Ended(Serving)
  }

  predicate HasItem(pc: Pc) {
    pc.AtDelete? || pc.AtAdd? || pc.AtAdded?
  }

  ghost predicate RunPart(w: World, s: Sys) {
    && Follows(w, s.g.l)
    && (Loaded(s) <==> IsServed(s.run))
    && (s.g.nft ==> s.run == Ended(Serving))
    && (HasItem(s.run) ==> s.run.x != Table)
  }

  // Past the nftables phase.
  predicate Past(pc: StopPc) {
    pc.ToUndo? || pc.ToUndoing? || pc.ToClean? || pc == ToClose || pc == ToUnlisten || pc == ToWait || pc == Left
  }

  predicate Trying(pc: StopPc) {
    pc == ToFind || pc == ToList || pc == ToForce
  }

  // The forced clean has failed to find nft or to list the table; Run's own look
  // for nft succeeded if the table is loaded.
  ghost predicate Unfound(l: Log) {
    false in Attempts(l.trace, FindNft) || false in Attempts(l.trace, ListTable)
  }

  lemma {:induction false} UnfoundStays(l: Log, c: Cmd, faults: Faults)
    ensures Unfound(l) ==> Unfound(Do(l, c, faults).0)
    ensures (c == FindNft || c == ListTable) && !Do(l, c, faults).1 ==> Unfound(Do(l, c, faults).0)
  {
    DoTries(l, FindNft, faults, FindNft);
    DoTries(l, c, faults, FindNft);
    DoTries(l, c, faults, ListTable);
    var ok := Do(l, c, faults).1;
    if c == FindNft && !ok { Last(Attempts(l.trace, FindNft), ok); }
    if c == ListTable && !ok { Last(Attempts(l.trace, ListTable), ok); }
    Kept(Attempts(l.trace, FindNft), if c == FindNft then [ok] else []);
    Kept(Attempts(l.trace, ListTable), if c == ListTable then [ok] else []);
  }

  lemma {:induction false} Last(a: seq<bool>, b: bool)
    ensures b in a + [b]
  {
    assert (a + [b])[|a|] == b;
  }

  lemma {:induction false} Kept(a: seq<bool>, b: seq<bool>)
    ensures false in a ==> false in a + b
  {
    if false in a {
      var i :| 0 <= i < |a| && !a[i];
      assert !(a + b)[i];
    }
  }

  // Every delete of Stop has failed, the forced one included unless it was not
  // come to.
  predicate AllFailed(d: seq<bool>, unfound: bool) {
    |d| >= ATTEMPTS && d == Fails(|d|) && (|d| > ATTEMPTS || unfound)
  }

  // d: the deletes of a loaded table so far.
  predicate Told(d: seq<bool>, unfound: bool, nft: bool, pc: StopPc) {
    if pc.ToLook? || pc.ToDrop? then nft && 1 <= pc.left <= ATTEMPTS && d == Fails(ATTEMPTS - pc.left)
    else if pc == ToClear then true in d
    else if Trying(pc) then nft && d == Fails(ATTEMPTS)
    else Past(pc) && (true in d || AllFailed(d, unfound))
  }

  predicate StopPart(loaded: bool, d: seq<bool>, unfound: bool, nft: bool, served: bool,
                     looked: Option<bool>, pc: StopPc)
  {
    match looked
    case None => (pc == Ready || pc == ToLook(ATTEMPTS)) && (loaded ==> d == []) && (served ==> nft)
    case Some(false) => Past(pc) && (loaded ==> d == [])
    case Some(true) => loaded && served && Told(d, unfound, nft, pc)
  }

  ghost predicate TableOk(w: World, s: Sys) {
    && RunPart(w, s)
    && StopPart(Loaded(s), Drops(s), Unfound(s.g.l), s.g.nft, s.run == Ended(Serving), s.looked, s.stop)
  }

  // ---- Steps of Run ----

  predicate Plain(pc: Pc) {
    pc != AtStale && pc != AtLoad && pc != AtApplied && !pc.Ended?
  }

  lemma {:induction false} PlainRunStep(w: World, p: Proc, ipv6: bool, faults: Faults)
    requires Follows(w, p.g.l) && Plain(p.pc) && (HasItem(p.pc) ==> p.pc.x != Table)
    ensures var q := RunStep(p, ipv6, faults);
      && SameTable(w, p.g.l, q.g.l) && q.g.nft == p.g.nft
      && !IsServed(q.pc) && (HasItem(q.pc) ==> q.pc.x != Table)
  {
    var c := RunCmd(p.pc);
    if c.Some? { NeutralKeeps(w, p.g.l, c.value, faults); }
    RunDoes(p, ipv6, faults);
  }

  // The command of a step, if it has one.
  function RunCmd(pc: Pc): Option<Cmd> {
    match pc
    case AtListen => Some(Listen)
    case AtRead(f) => Some(ReadFwd(f))
    case AtWrite(f) => Some(WriteFwd(f, 1))
    case AtDelete(x) => Some(Delete(x))
    case AtAdd(x) => Some(Add(x))
    case AtFind => Some(FindNft)
    case AtUndoing(k) => Some(UndoCmd(k))
    case AtUnlisten(_) => Some(Unlisten)
    case _ => None
  }

  lemma {:induction false} RunDoes(p: Proc, ipv6: bool, faults: Faults)
    requires Plain(p.pc)
    ensures var q := RunStep(p, ipv6, faults);
      && q.g.nft == p.g.nft && !IsServed(q.pc)
      && (q.g.l == p.g.l || (RunCmd(p.pc).Some? && q.g.l == Do(p.g.l, RunCmd(p.pc).value, faults).0))
    ensures var q := RunStep(p, ipv6, faults);
      (HasItem(p.pc) ==> p.pc.x != Table) ==> (HasItem(q.pc) ==> q.pc.x != Table)
    ensures RunCmd(p.pc).Some? && (HasItem(p.pc) ==> p.pc.x != Table) ==> Neutral(RunCmd(p.pc).value)
  {
  }

  lemma {:induction false} PlainKeepsTable(w: World, s: Sys, ipv6: bool, faults: Faults)
    requires TableOk(w, s) && Plain(s.run)
    ensures TableOk(w, RunMoved(s, ipv6, faults))
  {
    PlainRunStep(w, Proc(s.g, s.run), ipv6, faults);
    var t := RunMoved(s, ipv6, faults);
    PartStays(Loaded(s), Drops(s), Unfound(s.g.l), Unfound(t.g.l), s.g.nft, false, s.looked, s.stop);
  }

  lemma {:induction false} StaleKeepsTable(w: World, s: Sys, ipv6: bool, faults: Faults)
    requires TableOk(w, s) && s.run == AtStale
    ensures TableOk(w, RunMoved(s, ipv6, faults))
  {
    DoFollows(w, s.g.l, Delete(Table), faults);
    DoTable(s.g.l, Delete(Table), faults);
  }

  lemma {:induction false} LoadKeepsTable(w: World, s: Sys, ipv6: bool, faults: Faults)
    requires TableOk(w, s) && s.run == AtLoad
    ensures TableOk(w, RunMoved(s, ipv6, faults))
  {
    DoFollows(w, s.g.l, Load, faults);
    DoTable(s.g.l, Load, faults);
  }

  lemma {:induction false} RunKeepsTable(w: World, s: Sys, ipv6: bool, faults: Faults)
    requires TableOk(w, s) && !s.run.Ended?
    ensures TableOk(w, RunMoved(s, ipv6, faults))
  {
    if Plain(s.run) {
      PlainKeepsTable(w, s, ipv6, faults);
    } else if s.run == AtStale {
      StaleKeepsTable(w, s, ipv6, faults);
    } else if s.run == AtLoad {
      LoadKeepsTable(w, s, ipv6, faults);
    }
  }

  // ---- Steps of Stop ----

  // The command of a step, if it has one.
  function StopCmd(pc: StopPc): Option<Cmd> {
    match pc
    case ToDrop(_) => Some(Delete(Table))
    case ToFind => Some(FindNft)
    case ToList => Some(ListTable)
    case ToForce => Some(Delete(Table))
    case ToUndoing(_, k, _) => Some(UndoCmd(k))
    case ToClean(k) => Some(CleanCmd(k))
    case ToUnlisten => Some(Unlisten)
    case _ => None
  }

  lemma {:induction false} StopDoes(g: Gateway, pc: StopPc, faults: Faults)
    requires Past(pc)
    ensures var (g', pc') := StopStep(g, pc, faults);
      && Past(pc') && g'.nft == g.nft
      && (g'.l == g.l || (StopCmd(pc).Some? && g'.l == Do(g.l, StopCmd(pc).value, faults).0))
    ensures StopCmd(pc).Some? ==> Neutral(StopCmd(pc).value)
  {
  }

  lemma {:induction false} PastMoves(w: World, s: Sys, faults: Faults)
    requires Follows(w, s.g.l) && Past(s.stop)
    ensures var t := StopMoved(s, faults);
      && Past(t.stop) && SameTable(w, s.g.l, t.g.l)
      && t.g.nft == s.g.nft && t.run == s.run && t.looked == s.looked && t.end == s.end
  {
    StopDoes(s.g, s.stop, faults);
    var c := StopCmd(s.stop);
    if c.Some? { NeutralKeeps(w, s.g.l, c.value, faults); }
  }

  lemma {:induction false} PastKeepsTable(w: World, s: Sys, faults: Faults)
    requires TableOk(w, s) && Past(s.stop)
    ensures TableOk(w, StopMoved(s, faults))
  {
    PastMoves(w, s, faults);
    var t := StopMoved(s, faults);
    PartKept(Loaded(s), Drops(s), Unfound(s.g.l), Unfound(t.g.l), s.g.nft, s.run == Ended(Serving),
             s.looked, s.stop, t.stop);
  }

  // Past the nftables phase, moving on changes nothing Stop has told.
  lemma {:induction false} PartKept(loaded: bool, d: seq<bool>, u: bool, u': bool, nft: bool, served: bool,
                                    looked: Option<bool>, pc: StopPc, pc': StopPc)
    requires StopPart(loaded, d, u, nft, served, looked, pc) && Past(pc) && Past(pc') && (u ==> u')
    ensures StopPart(loaded, d, u', nft, served, looked, pc')
  {
  }

  // The table's account while Run moves on.
  lemma {:induction false} PartStays(loaded: bool, d: seq<bool>, u: bool, u': bool, nft: bool, served: bool,
                                     looked: Option<bool>, pc: StopPc)
    requires StopPart(loaded, d, u, nft, served, looked, pc) && (u ==> u')
    ensures StopPart(loaded, d, u', nft, served, looked, pc)
  {
  }

  lemma {:induction false} DropTells(d: seq<bool>, left: nat, ok: bool)
    requires 1 <= left <= ATTEMPTS && d == Fails(ATTEMPTS - left)
    ensures var e := d + [ok];
      if ok then true in e else e == Fails(ATTEMPTS - (left - 1))
  {
    assert (d + [ok])[|d|] == ok;
  }

  lemma {:induction false} ForceTells(d: seq<bool>, ok: bool)
    requires d == Fails(ATTEMPTS)
    ensures var e := d + [ok]; true in e || AllFailed(e, false)
  {
    assert (d + [ok])[|d|] == ok;
    if !ok { assert d + [ok] == Fails(ATTEMPTS + 1); }
  }

  lemma {:induction false} DropTold(d: seq<bool>, u: bool, left: nat, ok: bool)
    requires Told(d, u, true, ToDrop(left))
    ensures Told(d + [ok], u, true, if ok then ToClear else if left <= 1 then ToFind else ToLook(left - 1))
  {
    DropTells(d, left, ok);
  }

  lemma {:induction false} DropKeepsTable(w: World, s: Sys, faults: Faults)
    requires TableOk(w, s) && s.looked == Some(true) && s.stop.ToDrop?
    ensures TableOk(w, StopMoved(s, faults))
  {
    var l := s.g.l;
    var ok := Do(l, Delete(Table), faults).1;
    DoFollows(w, l, Delete(Table), faults);
    DoTable(l, Delete(Table), faults);
    UnfoundStays(l, Delete(Table), faults);
    var t := StopMoved(s, faults);
    assert Drops(t) == Drops(s) + [ok];
    DropTold(Drops(s), Unfound(t.g.l), s.stop.left, ok);
  }

  lemma {:induction false} ForceKeepsTable(w: World, s: Sys, faults: Faults)
    requires TableOk(w, s) && s.looked == Some(true) && s.stop == ToForce
    ensures TableOk(w, StopMoved(s, faults))
  {
    DoFollows(w, s.g.l, Delete(Table), faults);
    DoTable(s.g.l, Delete(Table), faults);
    ForceTells(Drops(s), Do(s.g.l, Delete(Table), faults).1);
  }

  lemma {:induction false} FindKeepsTable(w: World, s: Sys, faults: Faults)
    requires TableOk(w, s) && s.looked == Some(true) && (s.stop == ToFind || s.stop == ToList)
    ensures TableOk(w, StopMoved(s, faults))
  {
    NeutralKeeps(w, s.g.l, StopCmd(s.stop).value, faults);
    UnfoundStays(s.g.l, StopCmd(s.stop).value, faults);
  }

  lemma {:induction false} TryKeepsTable(w: World, s: Sys, faults: Faults)
    requires TableOk(w, s) && s.looked == Some(true) && !Past(s.stop)
    ensures TableOk(w, StopMoved(s, faults))
  {
    if s.stop.ToDrop? {
      DropKeepsTable(w, s, faults);
    } else if s.stop == ToForce {
      ForceKeepsTable(w, s, faults);
    } else if Trying(s.stop) {
      FindKeepsTable(w, s, faults);
    }
  }

  lemma {:induction false} StopKeepsTable(w: World, s: Sys, faults: Faults)
    requires TableOk(w, s)
    ensures TableOk(w, StopMoved(s, faults))
  {
    if Past(s.stop) {
      PastKeepsTable(w, s, faults);
    } else if s.looked == Some(true) {
      TryKeepsTable(w, s, faults);
    }
  }

  lemma {:induction false} OverKeepsTable(w: World, s: Sys, end: End, faults: Faults)
    requires TableOk(w, s)
    ensures TableOk(w, Over(s, end, faults))
  {
    NeutralKeeps(w, s.g.l, Unlisten, faults);
  }

  lemma {:induction false} PlayKeepsTable(w: World, s: Sys, m: Move, ipv6: bool, faults: Faults)
    requires TableOk(w, s)
    ensures TableOk(w, Play(s, m, ipv6, faults))
  {
    if CanMove(s, m) {
      match m
      case RunMoves =>
        RunKeepsTable(w, s, ipv6, faults);
        OverKeepsTable(w, RunMoved(s, ipv6, faults), RunPanicked, faults);
      case StopMoves =>
        StopKeepsTable(w, s, faults);
        OverKeepsTable(w, s, StopPanicked, faults);
        OverKeepsTable(w, StopMoved(s, faults), Exited, faults);
      case LoopEnds =>
    }
  }

  lemma {:induction false} PlayedKeepsTable(w: World, moves: seq<Move>, ipv6: bool, faults: Faults)
    requires Table !in w.items
    ensures TableOk(w, Played(Starting(w), moves, ipv6, faults))
  {
    if moves != [] {
      var n := |moves| - 1;
      PlayedKeepsTable(w, moves[..n], ipv6, faults);
      PlayKeepsTable(w, Played(Starting(w), moves[..n], ipv6, faults), moves[n], ipv6, faults);
    }
  }

  // ---- Which close panics ----

  predicate StopClosed(pc: StopPc) {
    pc == ToUnlisten || pc == ToWait || pc == Left
  }

  predicate RunClosed(pc: Pc) {
    pc.AtUnlisten? || pc.AtJoin? || pc == Ended(RouteFailed) || pc == Ended(TableFailed)
  }

  predicate ChannelOk(s: Sys) {
    && (s.g.closed <==> StopClosed(s.stop) || RunClosed(s.run))
    && !(StopClosed(s.stop) && RunClosed(s.run))
    && (s.run == Ended(Panicked) <==> s.end == RunPanicked)
    && (s.end == RunPanicked ==> StopClosed(s.stop))
    && (s.end == StopPanicked ==> s.stop == ToClose && RunClosed(s.run))
    && (s.stop == Left <==> s.end == Exited)
  }

  lemma {:induction false} RunKeepsChannel(s: Sys, ipv6: bool, faults: Faults)
    requires ChannelOk(s) && CanMove(s, RunMoves)
    ensures ChannelOk(Play(s, RunMoves, ipv6, faults))
  {
  }

  lemma {:induction false} StopKeepsChannel(s: Sys, ipv6: bool, faults: Faults)
    requires ChannelOk(s) && CanMove(s, StopMoves)
    ensures ChannelOk(Play(s, StopMoves, ipv6, faults))
  {
  }

  lemma {:induction false} ChannelKept(s: Sys, moves: seq<Move>, ipv6: bool, faults: Faults)
    requires ChannelOk(s)
    ensures ChannelOk(Played(s, moves, ipv6, faults))
  {
    if moves != [] {
      var n := |moves| - 1;
      ChannelKept(s, moves[..n], ipv6, faults);
      var t := Played(s, moves[..n], ipv6, faults);
      if CanMove(t, moves[n]) {
        match moves[n]
        case RunMoves => RunKeepsChannel(t, ipv6, faults);
        case StopMoves => StopKeepsChannel(t, ipv6, faults);
        case LoopEnds =>
      }
    }
  }

  lemma {:induction false} PlayedKeepsChannel(w: World, moves: seq<Move>, ipv6: bool, faults: Faults)
    ensures ChannelOk(Played(Starting(w), moves, ipv6, faults))
  {
    ChannelKept(Starting(w), moves, ipv6, faults);
  }

  // In every interleaving under any failures the process only ends after both
  // cleaning phases of Stop. Of a rollback and Stop, the one that closes the
  // relay's channel second panics: Stop if the rollback got there first, Run if
  // Stop did; without a rollback that gets there, main returns.
  lemma {:induction false} WhichClosePanics(w: World, moves: seq<Move>, ipv6: bool, faults: Faults)
    ensures var s := Played(Starting(w), moves, ipv6, faults);
      s.end != Running ==>
        && (s.stop == ToClose || StopClosed(s.stop))
        && (s.end == StopPanicked <==> RunClosed(s.run))
        && (s.end == StopPanicked <==> s.stop == ToClose)
        && (s.end == RunPanicked <==> s.run == Ended(Panicked))
        && (s.end == Exited <==> s.stop == Left)
  {
    PlayedKeepsChannel(w, moves, ipv6, faults);
  }

  // ---- What is left ----

  // From a clean start, in every interleaving and under any failures: when the
  // process is over nothing listens, and the table is left exactly when it was
  // loaded and Stop looked at applied before Run had set it, or each of Stop's
  // deletes failed: four, or three where nft or the table could not be found.
  lemma {:induction false} TableLeftIff(w: World, moves: seq<Move>, ipv6: bool, faults: Faults)
    requires Table !in w.items
    ensures var s := Played(Starting(w), moves, ipv6, faults); var end := s.g.l.world; var d := Drops(s);
      s.end != Running ==>
        && !end.listening
        && (Table in end.items
            <==> Loaded(s) && (s.looked == Some(false) || AllFailed(d, Unfound(s.g.l))))
        && (Safe(end, Wanted(ipv6)) <==> Table !in end.items)
  {
    PlayedKeepsTable(w, moves, ipv6, faults);
    PlayedKeepsChannel(w, moves, ipv6, faults);
    PlayedEndsDeaf(w, moves, ipv6, faults);
    var s := Played(Starting(w), moves, ipv6, faults);
    SurvivesIffAllDeletesFailed(w, s.g.l.trace, Table);
    if s.looked == Some(true) && s.end != Running {
      assert Told(Drops(s), Unfound(s.g.l), s.g.nft, s.stop);
    }
  }

  lemma {:induction false} PlayedEndsDeaf(w: World, moves: seq<Move>, ipv6: bool, faults: Faults)
    ensures var s := Played(Starting(w), moves, ipv6, faults);
      s.end != Running ==> !s.g.l.world.listening
  {
    if moves != [] {
      PlayedEndsDeaf(w, moves[..|moves| - 1], ipv6, faults);
    }
  }

  // ---- Without faults ----

  predicate Going(pc: Pc) {
    !pc.AtUndo? && !pc.AtUndoing? && !pc.AtClose? && !pc.AtUnlisten? && !pc.AtJoin?
    && (pc.Ended? ==> pc.res == Serving)
  }

  // No step of Run fails from here.
  predicate FitRun(pc: Pc, w: World) {
    Going(pc) && (pc.AtAdd? ==> pc.x !in w.items)
  }

  predicate FitStop(pc: StopPc, looked: Option<bool>, d: seq<bool>) {
    && !Trying(pc)
    && (pc.ToLook? || pc.ToDrop? ==> pc.left == ATTEMPTS)
    && (pc.ToDrop? ==> looked == Some(true))
    && (looked == Some(true) && Past(pc) ==> true in d)
  }

  ghost predicate Fit(s: Sys) {
    && FitRun(s.run, s.g.l.world)
    && FitStop(s.stop, s.looked, Drops(s))
    && (s.end != Running ==> s.end == Exited)
  }

  lemma {:induction false} RunGoesOn(g: Gateway, pc: Pc, ipv6: bool, faults: Faults)
    requires FitRun(pc, g.l.world) && !pc.Ended? && forall n: nat :: !faults(n)
    ensures var q := RunStep(Proc(g, pc), ipv6, faults); FitRun(q.pc, q.g.l.world)
  {
  }

  lemma {:induction false} RunStaysFit(w: World, s: Sys, ipv6: bool, faults: Faults)
    requires TableOk(w, s) && Fit(s) && CanMove(s, RunMoves) && forall n: nat :: !faults(n)
    ensures Fit(Play(s, RunMoves, ipv6, faults))
  {
    RunGoesOn(s.g, s.run, ipv6, faults);
    if Plain(s.run) {
      PlainRunStep(w, Proc(s.g, s.run), ipv6, faults);
    } else {
      LoadStaysFit(w, s, ipv6, faults);
    }
  }

  // Run's own delete and load come before Stop finds anything applied.
  lemma {:induction false} LoadStaysFit(w: World, s: Sys, ipv6: bool, faults: Faults)
    requires TableOk(w, s) && Fit(s) && !s.run.Ended? && !Plain(s.run)
    ensures FitStop(s.stop, s.looked, Drops(RunMoved(s, ipv6, faults)))
  {
    assert s.looked != Some(true);
  }

  // An undo or a forced delete only takes items away.
  lemma {:induction false} StopTakesAway(g: Gateway, pc: StopPc, faults: Faults, x: Item)
    requires x in StopStep(g, pc, faults).0.l.world.items
    ensures x in g.l.world.items
  {
  }

  // The one delete of an applied table that is still there succeeds.
  lemma {:induction false} DropSucceeds(w: World, s: Sys, faults: Faults)
    requires TableOk(w, s) && FitStop(s.stop, s.looked, Drops(s)) && s.stop.ToDrop? && forall n: nat :: !faults(n)
    ensures Do(s.g.l, Delete(Table), faults).1
  {
    SurvivesIffAllDeletesFailed(w, s.g.l.trace, Table);
    assert Drops(s) == [];
  }

  lemma {:induction false} DropStaysFit(w: World, s: Sys, ipv6: bool, faults: Faults)
    requires TableOk(w, s) && Fit(s) && CanMove(s, StopMoves) && s.stop.ToDrop? && forall n: nat :: !faults(n)
    ensures Fit(Play(s, StopMoves, ipv6, faults))
  {
    DropSucceeds(w, s, faults);
    TakenAwayFits(s.g, s.stop, s.run, faults);
  }

  lemma {:induction false} TakenAwayFits(g: Gateway, pc: StopPc, run: Pc, faults: Faults)
    requires FitRun(run, g.l.world)
    ensures FitRun(run, StopStep(g, pc, faults).0.l.world)
  {
    if run.AtAdd? && run.x in StopStep(g, pc, faults).0.l.world.items {
      StopTakesAway(g, pc, faults, run.x);
    }
  }

  lemma {:induction false} PastMovesFit(w: World, s: Sys, faults: Faults)
    requires TableOk(w, s) && Fit(s) && Past(s.stop)
    ensures var t := StopMoved(s, faults);
      && FitRun(t.run, t.g.l.world) && FitStop(t.stop, t.looked, Drops(t)) && t.end == s.end
  {
    TakenAwayFits(s.g, s.stop, s.run, faults);
    PastMoves(w, s, faults);
  }

  lemma {:induction false} ExitStaysFit(w: World, s: Sys, faults: Faults)
    requires Follows(w, s.g.l) && Fit(s)
    ensures Fit(Over(s, Exited, faults))
  {
    NeutralKeeps(w, s.g.l, Unlisten, faults);
  }

  lemma {:induction false} NoSecondClose(s: Sys)
    requires ChannelOk(s) && Going(s.run) && s.stop == ToClose
    ensures !s.g.closed
  {
  }

  lemma {:induction false} PastStaysFit(w: World, s: Sys, ipv6: bool, faults: Faults)
    requires TableOk(w, s) && ChannelOk(s) && Fit(s) && CanMove(s, StopMoves) && Past(s.stop)
    ensures Fit(Play(s, StopMoves, ipv6, faults))
  {
    if s.stop == ToClose { NoSecondClose(s); }
    PastMovesFit(w, s, faults);
    StopKeepsTable(w, s, faults);
    ExitStaysFit(w, StopMoved(s, faults), faults);
  }

  lemma {:induction false} StopStaysFit(w: World, s: Sys, ipv6: bool, faults: Faults)
    requires TableOk(w, s) && ChannelOk(s) && Fit(s) && CanMove(s, StopMoves) && forall n: nat :: !faults(n)
    ensures Fit(Play(s, StopMoves, ipv6, faults))
  {
    if s.stop.ToDrop? {
      DropStaysFit(w, s, ipv6, faults);
    } else if Past(s.stop) {
      PastStaysFit(w, s, ipv6, faults);
    }
  }

  lemma {:induction false} PlayedStaysFit(w: World, moves: seq<Move>, ipv6: bool, faults: Faults)
    requires Table !in w.items && forall n: nat :: !faults(n)
    ensures Fit(Played(Starting(w), moves, ipv6, faults))
  {
    if moves != [] {
      var n := |moves| - 1;
      var s := Played(Starting(w), moves[..n], ipv6, faults);
      PlayedStaysFit(w, moves[..n], ipv6, faults);
      PlayedKeepsTable(w, moves[..n], ipv6, faults);
      PlayedKeepsChannel(w, moves[..n], ipv6, faults);
      if CanMove(s, moves[n]) {
        match moves[n]
        case RunMoves => RunStaysFit(w, s, ipv6, faults);
        case StopMoves => StopStaysFit(w, s, ipv6, faults);
        case LoopEnds =>
      }
    }
  }

  // Without faults nothing panics, and the table is left exactly when the load
  // has run and Stop looked at applied before Run had set it.
  lemma {:induction false} TableLeftWithoutFaults(w: World, moves: seq<Move>, ipv6: bool, faults: Faults)
    requires Table !in w.items && forall n: nat :: !faults(n)
    ensures var s := Played(Starting(w), moves, ipv6, faults);
      s.end != Running ==>
        && s.end == Exited
        && (Table in s.g.l.world.items <==> Loaded(s) && s.looked == Some(false))
  {
    PlayedStaysFit(w, moves, ipv6, faults);
    PlayedKeepsTable(w, moves, ipv6, faults);
    TableLeftIff(w, moves, ipv6, faults);
    PlayedKeepsChannel(w, moves, ipv6, faults);
    var s := Played(Starting(w), moves, ipv6, faults);
    if true in Drops(s) && AllFailed(Drops(s), Unfound(s.g.l)) {
      assert false;
    }
  }

  // ---- Both cases occur ----

  lemma {:induction false} PlayedFirst(s: Sys, m: Move, more: seq<Move>, ipv6: bool, faults: Faults)
    ensures Played(s, [m] + more, ipv6, faults) == Played(Play(s, m, ipv6, faults), more, ipv6, faults)
  {
    if more == [] {
      assert [m] + more == [m] && [m][..0] == [];
    } else {
      var n := |more| - 1;
      assert ([m] + more)[..n + 1] == [m] + more[..n];
      PlayedFirst(s, m, more[..n], ipv6, faults);
    }
  }

  lemma {:induction false} PlayedOn(s: Sys, a: seq<Move>, b: seq<Move>, ipv6: bool, faults: Faults)
    ensures Played(s, a + b, ipv6, faults) == Played(Played(s, a, ipv6, faults), b, ipv6, faults)
  {
    if b == [] {
      assert a + b == a;
    } else {
      var n := |b| - 1;
      assert (a + b)[..|a| + n] == a + b[..n];
      PlayedOn(s, a, b[..n], ipv6, faults);
    }
  }

  lemma {:induction false} LookedStays(s: Sys, moves: seq<Move>, ipv6: bool, faults: Faults)
    requires s.looked.Some?
    ensures Played(s, moves, ipv6, faults).looked == s.looked
  {
    if moves != [] {
      LookedStays(s, moves[..|moves| - 1], ipv6, faults);
    }
  }

  lemma {:induction false} StopMovesOn(s: Sys, ipv6: bool, faults: Faults)
    requires CanMove(s, StopMoves)
    ensures var t := Play(s, StopMoves, ipv6, faults);
      t.end != Running || StopRemaining(t.stop) < StopRemaining(s.stop)
  {
    if !StopOver(s.g, s.stop) { StopAdvances(s.g, s.stop, faults); }
  }

  // From any state of any schedule Stop alone can bring the process to its end;
  // the accept loop it waits for ends once the channel is closed.
  lemma {:induction false} StopCanEnd(s: Sys, ipv6: bool, faults: Faults) returns (more: seq<Move>)
    requires ChannelOk(s)
    ensures Played(s, more, ipv6, faults).end != Running
    decreases StopRemaining(s.stop), s.accepting
  {
    if s.end != Running {
      more := [];
    } else {
      var m := if CanMove(s, StopMoves) then StopMoves else LoopEnds;
      var t := Play(s, m, ipv6, faults);
      if m == StopMoves {
        StopKeepsChannel(s, ipv6, faults);
        StopMovesOn(s, ipv6, faults);
      }
      if t.end != Running {
        more := [m];
        assert [m][..0] == [];
      } else {
        var rest := StopCanEnd(t, ipv6, faults);
        PlayedFirst(s, m, rest, ipv6, faults);
        more := [m] + rest;
      }
    }
  }

  lemma {:induction false} RunCanEnd(w: World, s: Sys, ipv6: bool, faults: Faults) returns (more: seq<Move>)
    requires TableOk(w, s) && Fit(s) && s.end == Running && forall n: nat :: !faults(n)
    ensures var t := Played(s, more, ipv6, faults); t.run.Ended? && Fit(t) && TableOk(w, t)
    decreases Remaining(s.run, ipv6)
  {
    if s.run.Ended? {
      more := [];
    } else {
      var t := Play(s, RunMoves, ipv6, faults);
      RunStaysFit(w, s, ipv6, faults);
      PlayKeepsTable(w, s, RunMoves, ipv6, faults);
      StepAdvances(Proc(s.g, s.run), ipv6, faults);
      var rest := RunCanEnd(w, t, ipv6, faults);
      PlayedFirst(s, RunMoves, rest, ipv6, faults);
      more := [RunMoves] + rest;
    }
  }

  // Run to its end, then Stop to its own.
  lemma {:induction false} BothCanEnd(w: World, s: Sys, ipv6: bool, faults: Faults) returns (more: seq<Move>)
    requires TableOk(w, s) && Fit(s) && s.end == Running && s.looked.Some? && forall n: nat :: !faults(n)
    requires ChannelOk(s)
    ensures var t := Played(s, more, ipv6, faults);
      t.end != Running && t.run == Ended(Serving) && t.looked == s.looked
  {
    var a := RunCanEnd(w, s, ipv6, faults);
    var t := Played(s, a, ipv6, faults);
    LookedStays(s, a, ipv6, faults);
    ChannelKept(s, a, ipv6, faults);
    var b := StopCanEnd(t, ipv6, faults);
    LookedStays(t, b, ipv6, faults);
    EndedStays(t, b, ipv6, faults);
    PlayedOn(s, a, b, ipv6, faults);
    more := a + b;
  }

  // Without faults, from every state of every schedule in which Stop has looked
  // too early, wherever Run was then: Run can go on to load the table, and Stop
  // to end the process with the table left.
  lemma {:induction false} EarlyLookCanLeave(w: World, moves: seq<Move>, ipv6: bool, faults: Faults)
    returns (more: seq<Move>)
    requires Table !in w.items && forall n: nat :: !faults(n)
    requires Played(Starting(w), moves, ipv6, faults).end == Running
    requires Played(Starting(w), moves, ipv6, faults).looked == Some(false)
    ensures var t := Played(Starting(w), moves + more, ipv6, faults); t.end == Exited && Table in t.g.l.world.items
  {
    var s := Played(Starting(w), moves, ipv6, faults);
    PlayedStaysFit(w, moves, ipv6, faults);
    PlayedKeepsTable(w, moves, ipv6, faults);
    PlayedKeepsChannel(w, moves, ipv6, faults);
    more := BothCanEnd(w, s, ipv6, faults);
    PlayedOn(Starting(w), moves, more, ipv6, faults);
    PlayedKeepsTable(w, moves + more, ipv6, faults);
    TableLeftWithoutFaults(w, moves + more, ipv6, faults);
  }

  lemma {:induction false} EndedStays(s: Sys, moves: seq<Move>, ipv6: bool, faults: Faults)
    requires s.run.Ended?
    ensures Played(s, moves, ipv6, faults).run == s.run
  {
    if moves != [] {
      EndedStays(s, moves[..|moves| - 1], ipv6, faults);
    }
  }
}
