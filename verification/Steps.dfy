// Run and Stop (internal/app/app.go) in single steps: each is one command, one
// look at what the other may change, or the note a manager makes.

module Steps {
  import opened Families
  import opened Hosts
  import opened Retries
  import opened RouteSpec
  import opened Lifecycle

  // ---- route.Restore, step by step ----

  const UNDOS: nat := 6

  function UndoCmd(k: nat): Cmd {
    match k
    case 0 => Delete(Route(V6))
    case 1 => Delete(Rule(V6))
    case 2 => Delete(Route(V4))
    case 3 => Delete(Rule(V4))
    case 4 => WriteFwd(V6, 0)
    case _ => WriteFwd(V4, 0)
  }

  // Whether the flags call for the k-th undo.
  function Called(r: Flags, k: nat): bool {
    match k
    case 0 => Route(V6) in r.applied
    case 1 => Rule(V6) in r.applied
    case 2 => Route(V4) in r.applied
    case 3 => Rule(V4) in r.applied
    case 4 => Owes(r, V6)
    case _ => Owes(r, V4)
  }

  function UndoAt(l: Log, r: Flags, k: nat, faults: Faults): (Log, bool) {
    if Called(r, k) then Do(l, UndoCmd(k), faults) else (l, true)
  }

  function UndoFrom(l: Log, r: Flags, k: nat, faults: Faults): (Log, bool)
    decreases UNDOS - k
  {
    if k >= UNDOS then (l, true) else
    var (l1, a) := UndoAt(l, r, k, faults);
    var (l2, b) := UndoFrom(l1, r, k + 1, faults);
    (l2, a && b)
  }

  lemma {:induction false} UndoUnfolds(l: Log, r: Flags, k: nat, faults: Faults)
    requires k < UNDOS
    ensures var (l1, a) := UndoAt(l, r, k, faults); var (l2, b) := UndoFrom(l1, r, k + 1, faults);
      UndoFrom(l, r, k, faults) == (l2, a && b)
  {
  }

  lemma {:induction false} UndoAtItem(l: Log, r: Flags, k: nat, faults: Faults)
    requires k < UNDOS
    ensures UndoAt(l, r, k, faults) ==
      match k
      case 0 => Undo(l, r, Route(V6), faults)
      case 1 => Undo(l, r, Rule(V6), faults)
      case 2 => Undo(l, r, Route(V4), faults)
      case 3 => Undo(l, r, Rule(V4), faults)
      case 4 => UndoForward(l, r, V6, faults)
      case _ => UndoForward(l, r, V4, faults)
  {
  }

  lemma {:induction false} UndosAreRestore(l: Log, r: Flags, faults: Faults)
    ensures UndoFrom(l, r, 0, faults) == Restore(l, r, faults)
  {
    var l1 := Undo(l, r, Route(V6), faults).0;
    var l2 := Undo(l1, r, Rule(V6), faults).0;
    var l3 := Undo(l2, r, Route(V4), faults).0;
    var l4 := Undo(l3, r, Rule(V4), faults).0;
    var l5 := UndoForward(l4, r, V6, faults).0;
    var l6 := UndoForward(l5, r, V4, faults).0;
    UndoAtItem(l, r, 0, faults);
    UndoAtItem(l1, r, 1, faults);
    UndoAtItem(l2, r, 2, faults);
    UndoAtItem(l3, r, 3, faults);
    UndoAtItem(l4, r, 4, faults);
    UndoAtItem(l5, r, 5, faults);
    assert UndoFrom(l6, r, 6, faults) == (l6, true);
    UndoUnfolds(l5, r, 5, faults);
    UndoUnfolds(l4, r, 4, faults);
    UndoUnfolds(l3, r, 3, faults);
    UndoUnfolds(l2, r, 2, faults);
    UndoUnfolds(l1, r, 1, faults);
    UndoUnfolds(l, r, 0, faults);
  }

  // ---- Run ----

  datatype Pc =
    | AtListen
    | AtStore                     // store the listener
    | AtAccept                    // wg.Add(1) and go acceptLoop
    | AtRead(f: Family) | AtWrite(f: Family)
    | AtForwarded(f: Family)      // set the forwarding flag
    | AtDelete(x: Item) | AtAdd(x: Item)
    | AtAdded(x: Item)            // set the item's flag
    | AtFind | AtStale | AtLoad
    | AtApplied                   // set applied
    | AtUndo(k: nat)              // rollback: look at the k-th flag
    | AtUndoing(k: nat)           // its command
    | AtClose(table: bool)        // rollback: close closeCh, or panic
    | AtUnlisten(table: bool)
    | AtJoin(table: bool)         // wg.Wait
    | Ended(res: RunResult)

  datatype Proc = Proc(g: Gateway, pc: Pc)

  function AfterItem(x: Item, ipv6: bool): Pc {
    match x
    case Rule(f) => AtDelete(Route(f))
    case Route(f) => if f == V4 && ipv6 then AtRead(V6) else AtFind
    case Table => AtFind
  }

  // Relay.Stop's look at the listener.
  function Unlistened(g: Gateway, faults: Faults): Gateway {
    g.(l := if g.listener then Do(g.l, Unlisten, faults).0 else g.l)
  }

  function Error(table: bool): RunResult {
    if table then TableFailed else RouteFailed
  }

  function RunStep(p: Proc, ipv6: bool, faults: Faults): Proc {
    var g := p.g;
    match p.pc
    case AtListen =>
      var (l, ok) := Do(g.l, Listen, faults);
      Proc(g.(l := l), if ok then AtStore else Ended(RelayFailed))
    case AtStore => Proc(g.(listener := true), AtAccept)
    case AtAccept => Proc(g, AtRead(V4))
    case AtRead(f) =>
      var (l, ok) := Do(g.l, ReadFwd(f), faults);
      if !ok then Proc(g.(l := l), AtClose(false))
      else if Fwd(l.world, f) == 1 then
        Proc(g.(l := l, r := g.r.(wasEnabled := g.r.wasEnabled + {f})), AtDelete(Rule(f)))
      else
        Proc(g.(l := l, r := g.r.(wasEnabled := g.r.wasEnabled - {f})), AtWrite(f))
    case AtWrite(f) =>
      var (l, ok) := Do(g.l, WriteFwd(f, 1), faults);
      Proc(g.(l := l), if ok then AtForwarded(f) else AtClose(false))
    case AtForwarded(f) => Proc(g.(r := g.r.(forwarded := g.r.forwarded + {f})), AtDelete(Rule(f)))
    case AtDelete(x) => Proc(g.(l := Do(g.l, Delete(x), faults).0), AtAdd(x))
    case AtAdd(x) =>
      var (l, ok) := Do(g.l, Add(x), faults);
      Proc(g.(l := l), if ok then AtAdded(x) else AtClose(false))
    case AtAdded(x) => Proc(g.(r := g.r.(applied := g.r.applied + {x})), AfterItem(x, ipv6))
    case AtFind =>
      var (l, ok) := Do(g.l, FindNft, faults);
      Proc(g.(l := l), if ok then AtStale else AtUndo(0))
    case AtStale => Proc(g.(l := Do(g.l, Delete(Table), faults).0), AtLoad)
    case AtLoad =>
      var (l, ok) := Do(g.l, Load, faults);
      Proc(g.(l := l), if ok then AtApplied else AtUndo(0))
    case AtApplied => Proc(g.(nft := true), Ended(Serving))
    case AtUndo(k) =>
      Proc(g, if k >= UNDOS then AtClose(true) else if Called(g.r, k) then AtUndoing(k) else AtUndo(k + 1))
    case AtUndoing(k) => Proc(g.(l := Do(g.l, UndoCmd(k), faults).0), AtUndo(k + 1))
    case AtClose(table) => if g.closed then Proc(g, Ended(Panicked)) else Proc(g.(closed := true), AtUnlisten(table))
    case AtUnlisten(table) => Proc(Unlistened(g, faults), AtJoin(table))
    case AtJoin(table) => Proc(g, Ended(Error(table)))
    case Ended(_) => p
  }

  function Tail(f: Family, ipv6: bool): nat {
    if f == V4 && ipv6 then 39 else 30
  }

  function Slot(x: Item, ipv6: bool): nat {
    match x
    case Rule(f) => Tail(f, ipv6) + 3
    case Route(f) => Tail(f, ipv6)
    case Table => 30
  }

  // At most so many steps to come.
  function Remaining(pc: Pc, ipv6: bool): nat {
    match pc
    case AtListen => Tail(V4, ipv6) + 12
    case AtStore => Tail(V4, ipv6) + 11
    case AtAccept => Tail(V4, ipv6) + 10
    case AtRead(f) => Tail(f, ipv6) + 9
    case AtWrite(f) => Tail(f, ipv6) + 8
    case AtForwarded(f) => Tail(f, ipv6) + 7
    case AtDelete(x) => Slot(x, ipv6) + 3
    case AtAdd(x) => Slot(x, ipv6) + 2
    case AtAdded(x) => Slot(x, ipv6) + 1
    case AtFind => 30
    case AtStale => 29
    case AtLoad => 28
    case AtApplied => 1
    case AtUndo(k) => if k >= UNDOS then 4 else 4 + 2 * (UNDOS - k)
    case AtUndoing(k) => if k >= UNDOS then 5 else 3 + 2 * (UNDOS - k)
    case AtClose(_) => 3
    case AtUnlisten(_) => 2
    case AtJoin(_) => 1
    case Ended(_) => 0
  }

  lemma {:induction false} ItemAdvances(x: Item, ipv6: bool)
    ensures Remaining(AfterItem(x, ipv6), ipv6) <= Slot(x, ipv6)
  {
  }

  predicate Setting(pc: Pc) {
    pc.AtListen? || pc.AtStore? || pc.AtAccept? || pc.AtRead? || pc.AtWrite? || pc.AtForwarded?
    || pc.AtDelete? || pc.AtAdd? || pc.AtAdded?
  }

  lemma {:induction false} SettingAdvances(p: Proc, ipv6: bool, faults: Faults)
    requires Setting(p.pc)
    ensures Remaining(RunStep(p, ipv6, faults).pc, ipv6) < Remaining(p.pc, ipv6)
  {
    if p.pc.AtAdded? { ItemAdvances(p.pc.x, ipv6); }
  }

  lemma {:induction false} EndingAdvances(p: Proc, ipv6: bool, faults: Faults)
    requires !Setting(p.pc) && !p.pc.Ended?
    ensures Remaining(RunStep(p, ipv6, faults).pc, ipv6) < Remaining(p.pc, ipv6)
  {
  }

  lemma {:induction false} StepAdvances(p: Proc, ipv6: bool, faults: Faults)
    requires !p.pc.Ended?
    ensures Remaining(RunStep(p, ipv6, faults).pc, ipv6) < Remaining(p.pc, ipv6)
  {
    if Setting(p.pc) { SettingAdvances(p, ipv6, faults); } else { EndingAdvances(p, ipv6, faults); }
  }

  // The rest of Run when nothing comes between.
  function Finish(p: Proc, ipv6: bool, faults: Faults): Proc
    decreases Remaining(p.pc, ipv6)
  {
    if p.pc.Ended? then p else
    StepAdvances(p, ipv6, faults);
    Finish(RunStep(p, ipv6, faults), ipv6, faults)
  }

  lemma {:induction false} Unfold(p: Proc, ipv6: bool, faults: Faults)
    requires !p.pc.Ended?
    ensures Finish(p, ipv6, faults) == Finish(RunStep(p, ipv6, faults), ipv6, faults)
  {
  }

  lemma {:induction false} ForwardSteps(g: Gateway, f: Family, ipv6: bool, faults: Faults)
    ensures var o := EnableForward(g.l, g.r, f, faults); var g' := g.(l := o.l, r := o.r);
      Finish(Proc(g, AtRead(f)), ipv6, faults)
      == Finish(Proc(g', if o.ok then AtDelete(Rule(f)) else AtClose(false)), ipv6, faults)
  {
    var p := Proc(g, AtRead(f));
    Unfold(p, ipv6, faults);
    var p1 := RunStep(p, ipv6, faults);
    if p1.pc.AtWrite? {
      Unfold(p1, ipv6, faults);
      var p2 := RunStep(p1, ipv6, faults);
      if p2.pc.AtForwarded? {
        Unfold(p2, ipv6, faults);
      }
    }
  }

  lemma {:induction false} ItemSteps(g: Gateway, x: Item, ipv6: bool, faults: Faults)
    ensures var o := AddItem(g.l, g.r, x, faults); var g' := g.(l := o.l, r := o.r);
      Finish(Proc(g, AtDelete(x)), ipv6, faults)
      == Finish(Proc(g', if o.ok then AfterItem(x, ipv6) else AtClose(false)), ipv6, faults)
  {
    var p := Proc(g, AtDelete(x));
    Unfold(p, ipv6, faults);
    var p1 := RunStep(p, ipv6, faults);
    Unfold(p1, ipv6, faults);
    var p2 := RunStep(p1, ipv6, faults);
    if p2.pc.AtAdded? {
      Unfold(p2, ipv6, faults);
    }
  }

  lemma {:induction false} FamilySteps(g: Gateway, f: Family, ipv6: bool, faults: Faults)
    ensures var o := SetupFamily(g.l, g.r, f, faults); var g' := g.(l := o.l, r := o.r);
      Finish(Proc(g, AtRead(f)), ipv6, faults)
      == Finish(Proc(g', if o.ok then AfterItem(Route(f), ipv6) else AtClose(false)), ipv6, faults)
  {
    var a := EnableForward(g.l, g.r, f, faults);
    ForwardSteps(g, f, ipv6, faults);
    var g1 := g.(l := a.l, r := a.r);
    ItemSteps(g1, Rule(f), ipv6, faults);
    var b := AddItem(a.l, a.r, Rule(f), faults);
    ItemSteps(g1.(l := b.l, r := b.r), Route(f), ipv6, faults);
  }

  lemma {:induction false} SetupSteps(g: Gateway, ipv6: bool, faults: Faults)
    ensures var o := Setup(g.l, g.r, ipv6, faults); var g' := g.(l := o.l, r := o.r);
      Finish(Proc(g, AtRead(V4)), ipv6, faults)
      == Finish(Proc(g', if o.ok then AtFind else AtClose(false)), ipv6, faults)
  {
    FamilySteps(g, V4, ipv6, faults);
    var a := SetupFamily(g.l, g.r, V4, faults);
    if a.ok && ipv6 {
      FamilySteps(g.(l := a.l, r := a.r), V6, ipv6, faults);
    }
  }

  lemma {:induction false} TableSteps(g: Gateway, ipv6: bool, faults: Faults)
    ensures var (l, ok) := NftSetup(g.l, faults);
      Finish(Proc(g, AtFind), ipv6, faults)
      == Finish(Proc(g.(l := l), if ok then AtApplied else AtUndo(0)), ipv6, faults)
  {
    var p := Proc(g, AtFind);
    Unfold(p, ipv6, faults);
    var p1 := RunStep(p, ipv6, faults);
    if p1.pc.AtStale? {
      Unfold(p1, ipv6, faults);
      Unfold(RunStep(p1, ipv6, faults), ipv6, faults);
    }
  }

  lemma {:induction false} UndoSteps(g: Gateway, k: nat, ipv6: bool, faults: Faults)
    requires k <= UNDOS
    ensures Finish(Proc(g, AtUndo(k)), ipv6, faults)
      == Finish(Proc(g.(l := UndoFrom(g.l, g.r, k, faults).0), AtClose(true)), ipv6, faults)
    decreases UNDOS - k
  {
    var p := Proc(g, AtUndo(k));
    Unfold(p, ipv6, faults);
    if k < UNDOS {
      UndoUnfolds(g.l, g.r, k, faults);
      if Called(g.r, k) {
        Unfold(Proc(g, AtUndoing(k)), ipv6, faults);
      }
      UndoSteps(g.(l := UndoAt(g.l, g.r, k, faults).0), k + 1, ipv6, faults);
    }
  }

  function GivenUp(g: Gateway, table: bool, faults: Faults): Proc {
    var (g', res) := GiveUp(g, Error(table), faults);
    Proc(g', Ended(res))
  }

  lemma {:induction false} CloseSteps(g: Gateway, table: bool, ipv6: bool, faults: Faults)
    ensures Finish(Proc(g, AtClose(table)), ipv6, faults) == GivenUp(g, table, faults)
  {
    var p := Proc(g, AtClose(table));
    Unfold(p, ipv6, faults);
    if !g.closed {
      var p1 := RunStep(p, ipv6, faults);
      Unfold(p1, ipv6, faults);
      Unfold(RunStep(p1, ipv6, faults), ipv6, faults);
    }
  }

  lemma {:induction false} RollbackSteps(g: Gateway, ipv6: bool, faults: Faults)
    ensures Finish(Proc(g, AtUndo(0)), ipv6, faults) == GivenUp(g.(l := Restore(g.l, g.r, faults).0), true, faults)
  {
    UndoSteps(g, 0, ipv6, faults);
    UndosAreRestore(g.l, g.r, faults);
    CloseSteps(g.(l := Restore(g.l, g.r, faults).0), true, ipv6, faults);
  }

  lemma {:induction false} LoadSteps(g: Gateway, ipv6: bool, faults: Faults)
    ensures var (l, ok) := NftSetup(g.l, faults);
      Finish(Proc(g, AtFind), ipv6, faults)
      == if ok then Proc(g.(l := l, nft := true), Ended(Serving))
         else GivenUp(g.(l := Restore(l, g.r, faults).0), true, faults)
  {
    TableSteps(g, ipv6, faults);
    var (l, ok) := NftSetup(g.l, faults);
    if ok {
      Unfold(Proc(g.(l := l), AtApplied), ipv6, faults);
    } else {
      RollbackSteps(g.(l := l), ipv6, faults);
    }
  }

  lemma {:induction false} ListeningSteps(g: Gateway, ipv6: bool, faults: Faults)
    ensures var o := Setup(g.l, g.r, ipv6, faults); var g' := g.(l := o.l, r := o.r);
      Finish(Proc(g, AtRead(V4)), ipv6, faults)
      == if o.ok then Finish(Proc(g', AtFind), ipv6, faults) else GivenUp(g', false, faults)
  {
    SetupSteps(g, ipv6, faults);
    var o := Setup(g.l, g.r, ipv6, faults);
    CloseSteps(g.(l := o.l, r := o.r), false, ipv6, faults);
  }

  // With nothing in between, under any failures and from any state, these
  // steps are Run.
  lemma {:induction false} StepsAreRun(g: Gateway, ipv6: bool, faults: Faults)
    ensures Finish(Proc(g, AtListen), ipv6, faults)
      == var (g', res) := Run(g, ipv6, faults); Proc(g', Ended(res))
  {
    var p := Proc(g, AtListen);
    Unfold(p, ipv6, faults);
    var (l1, listening) := Do(g.l, Listen, faults);
    if listening {
      var g1 := g.(l := l1);
      Unfold(Proc(g1, AtStore), ipv6, faults);
      var g2 := g1.(listener := true);
      Unfold(Proc(g2, AtAccept), ipv6, faults);
      ListeningSteps(g2, ipv6, faults);
      var o := Setup(g2.l, g2.r, ipv6, faults);
      LoadSteps(g2.(l := o.l, r := o.r), ipv6, faults);
    }
  }

  // ---- Stop ----

  datatype StopPc =
    | Ready                                       // no signal, and Run has not returned
    | ToLook(left: nat)                           // netfilter.Restore: look at applied
    | ToDrop(left: nat)                           // delete the table
    | ToClear                                     // clear applied
    | ToFind | ToList | ToForce                   // netfilter.ForceClean
    | ToUndo(left: nat, k: nat, ok: bool)         // route.Restore: look at the k-th flag
    | ToUndoing(left: nat, k: nat, ok: bool)      // its command
    | ToClean(k: nat)                             // route.ForceClean
    | ToClose                                     // close closeCh, or panic
    | ToUnlisten                                  // look at the listener, and close it
    | ToWait                                      // wg.Wait
    | Left                                        // main returns

  const ROUTES := ToUndo(ATTEMPTS, 0, true)

  function CleanCmd(k: nat): Cmd {
    match k
    case 0 => Delete(Route(V4))
    case 1 => Delete(Rule(V4))
    case 2 => Delete(Route(V6))
    case _ => Delete(Rule(V6))
  }

  // Closing a closed channel leaves the step where it is; the process is over.
  function StopStep(g: Gateway, pc: StopPc, faults: Faults): (Gateway, StopPc) {
    match pc
    case Ready => (g, ToLook(ATTEMPTS))
    case ToLook(left) => (g, if g.nft then ToDrop(left) else ROUTES)
    case ToDrop(left) =>
      var (l, ok) := Do(g.l, Delete(Table), faults);
      (g.(l := l), if ok then ToClear else if left <= 1 then ToFind else ToLook(left - 1))
    case ToClear => (g.(nft := false), ROUTES)
    case ToFind =>
      var (l, ok) := Do(g.l, FindNft, faults);
      (g.(l := l), if ok then ToList else ROUTES)
    case ToList =>
      var (l, ok) := Do(g.l, ListTable, faults);
      (g.(l := l), if ok then ToForce else ROUTES)
    case ToForce => (g.(l := Do(g.l, Delete(Table), faults).0), ROUTES)
    case ToUndo(left, k, ok) =>
      (g, if k < UNDOS then (if Called(g.r, k) then ToUndoing(left, k, ok) else ToUndo(left, k + 1, ok))
          else if ok then ToClose
          else if left <= 1 then ToClean(0)
          else ToUndo(left - 1, 0, true))
    case ToUndoing(left, k, ok) =>
      var (l, done) := Do(g.l, UndoCmd(k), faults);
      (g.(l := l), ToUndo(left, k + 1, ok && done))
    case ToClean(k) =>
      if k >= 4 then (g, ToClose) else (g.(l := Do(g.l, CleanCmd(k), faults).0), ToClean(k + 1))
    case ToClose => if g.closed then (g, ToClose) else (g.(closed := true), ToUnlisten)
    case ToUnlisten => (Unlistened(g, faults), ToWait)
    case ToWait => (g, Left)
    case Left => (g, Left)
  }

  function StopRemaining(pc: StopPc): nat {
    match pc
    case Ready => 113
    case ToLook(left) => 106 + 2 * left
    case ToDrop(left) => 105 + 2 * left
    case ToClear => 100
    case ToFind => 102
    case ToList => 101
    case ToForce => 100
    case ToUndo(left, k, _) => 10 + 20 * left + if k >= UNDOS then 0 else 2 * (UNDOS - k)
    case ToUndoing(left, k, _) => 11 + 20 * left + if k >= UNDOS then 0 else 2 * (UNDOS - k) - 2
    case ToClean(k) => if k >= 4 then 4 else 8 - k
    case ToClose => 3
    case ToUnlisten => 2
    case ToWait => 1
    case Left => 0
  }

  predicate StopOver(g: Gateway, pc: StopPc) {
    pc == Left || (pc == ToClose && g.closed)
  }

  lemma {:induction false} StopAdvances(g: Gateway, pc: StopPc, faults: Faults)
    requires !StopOver(g, pc)
    ensures StopRemaining(StopStep(g, pc, faults).1) < StopRemaining(pc)
  {
  }

  // The rest of Stop when nothing comes between; the flag tells whether it panics.
  function StopFinish(g: Gateway, pc: StopPc, faults: Faults): (Gateway, bool)
    decreases StopRemaining(pc)
  {
    if StopOver(g, pc) then (g, pc == ToClose) else
    StopAdvances(g, pc, faults);
    var (g', pc') := StopStep(g, pc, faults);
    StopFinish(g', pc', faults)
  }

  lemma {:induction false} StopUnfold(g: Gateway, pc: StopPc, faults: Faults)
    requires !StopOver(g, pc)
    ensures var (g', pc') := StopStep(g, pc, faults);
      StopFinish(g, pc, faults) == StopFinish(g', pc', faults)
  {
  }

  lemma {:induction false} StopUndoStep(g: Gateway, left: nat, k: nat, ok: bool, faults: Faults)
    requires k < UNDOS
    ensures var (l, done) := UndoAt(g.l, g.r, k, faults);
      StopFinish(g, ToUndo(left, k, ok), faults) == StopFinish(g.(l := l), ToUndo(left, k + 1, ok && done), faults)
  {
    StopUnfold(g, ToUndo(left, k, ok), faults);
    if Called(g.r, k) {
      StopUnfold(g, ToUndoing(left, k, ok), faults);
    } else {
      assert g.(l := g.l) == g;
    }
  }

  function UndoRest(g: Gateway, k: nat, faults: Faults): (Gateway, bool) {
    var (l, done) := UndoFrom(g.l, g.r, k, faults);
    (g.(l := l), done)
  }

  lemma {:induction false} UndoRestUnfolds(g: Gateway, k: nat, faults: Faults)
    ensures k >= UNDOS ==> UndoRest(g, k, faults) == (g, true)
    ensures k < UNDOS ==>
      var (l, a) := UndoAt(g.l, g.r, k, faults); var (g', b) := UndoRest(g.(l := l), k + 1, faults);
      UndoRest(g, k, faults) == (g', a && b)
  {
    if k < UNDOS { UndoUnfolds(g.l, g.r, k, faults); }
  }

  lemma {:induction false} StopUndoSteps(g: Gateway, left: nat, k: nat, ok: bool, faults: Faults)
    requires k <= UNDOS
    ensures var (g', done) := UndoRest(g, k, faults);
      StopFinish(g, ToUndo(left, k, ok), faults) == StopFinish(g', ToUndo(left, UNDOS, ok && done), faults)
    decreases UNDOS - k
  {
    UndoRestUnfolds(g, k, faults);
    if k < UNDOS {
      StopUndoStep(g, left, k, ok, faults);
      var (l1, done) := UndoAt(g.l, g.r, k, faults);
      StopUndoSteps(g.(l := l1), left, k + 1, ok && done, faults);
    }
  }

  lemma {:induction false} StopCleanSteps(g: Gateway, faults: Faults)
    ensures StopFinish(g, ToClean(0), faults) == StopFinish(g.(l := ForceClean(g.l, faults)), ToClose, faults)
  {
    var g1 := g.(l := Do(g.l, CleanCmd(0), faults).0);
    var g2 := g1.(l := Do(g1.l, CleanCmd(1), faults).0);
    var g3 := g2.(l := Do(g2.l, CleanCmd(2), faults).0);
    var g4 := g3.(l := Do(g3.l, CleanCmd(3), faults).0);
    StopUnfold(g, ToClean(0), faults);
    StopUnfold(g1, ToClean(1), faults);
    StopUnfold(g2, ToClean(2), faults);
    StopUnfold(g3, ToClean(3), faults);
    StopUnfold(g4, ToClean(4), faults);
  }

  lemma {:induction false} RetryUnfolds<S>(fn: S -> (S, bool), s: S, n: nat)
    requires n > 0
    ensures var (s1, ok) := fn(s); Retry(fn, s, n) == if ok || n == 1 then (s1, ok) else Retry(fn, s1, n - 1)
  {
  }

  // One attempt of route.Restore.
  lemma {:induction false} StopRouteTry(g: Gateway, left: nat, faults: Faults)
    requires left > 0
    ensures var (l, ok) := Restoring(g.r, faults)(g.l); var g1 := g.(l := l);
      StopFinish(g, ToUndo(left, 0, true), faults)
      == StopFinish(g1, if ok then ToClose else if left == 1 then ToClean(0) else ToUndo(left - 1, 0, true), faults)
  {
    StopUndoSteps(g, left, 0, true, faults);
    UndosAreRestore(g.l, g.r, faults);
    var (l, ok) := Restore(g.l, g.r, faults);
    StopUnfold(g.(l := l), ToUndo(left, UNDOS, ok), faults);
  }

  // The state route.Restore under retry, and ForceClean behind it, leave.
  function RoutesDone(g: Gateway, left: nat, faults: Faults): Gateway
    requires left > 0
  {
    var (l, ok) := Retry(Restoring(g.r, faults), g.l, left);
    g.(l := if ok then l else ForceClean(l, faults))
  }

  lemma {:induction false} RoutesDoneUnfolds(g: Gateway, left: nat, faults: Faults)
    requires left > 0
    ensures var (l, ok) := Restoring(g.r, faults)(g.l); var g1 := g.(l := l);
      RoutesDone(g, left, faults)
      == if ok then g1 else if left == 1 then g1.(l := ForceClean(l, faults)) else RoutesDone(g1, left - 1, faults)
  {
    RetryUnfolds(Restoring(g.r, faults), g.l, left);
  }

  lemma {:induction false} StopRouteSteps(g: Gateway, left: nat, faults: Faults)
    requires left > 0
    ensures StopFinish(g, ToUndo(left, 0, true), faults) == StopFinish(RoutesDone(g, left, faults), ToClose, faults)
    decreases left
  {
    StopRouteTry(g, left, faults);
    RoutesDoneUnfolds(g, left, faults);
    var (l1, ok) := Restoring(g.r, faults)(g.l);
    if !ok && left == 1 {
      StopCleanSteps(g.(l := l1), faults);
    } else if !ok {
      StopRouteSteps(g.(l := l1), left - 1, faults);
    }
  }

  lemma {:induction false} StopForceSteps(g: Gateway, faults: Faults)
    ensures StopFinish(g, ToFind, faults) == StopFinish(g.(l := NftForceClean(g.l, faults).0), ROUTES, faults)
  {
    StopUnfold(g, ToFind, faults);
    var (l1, found) := Do(g.l, FindNft, faults);
    if found {
      var g1 := g.(l := l1);
      StopUnfold(g1, ToList, faults);
      var (l2, listed) := Do(l1, ListTable, faults);
      if listed {
        StopUnfold(g1.(l := l2), ToForce, faults);
      }
    }
  }

  // One attempt of netfilter.Restore.
  lemma {:induction false} StopTableTry(g: Gateway, left: nat, faults: Faults)
    requires left > 0
    ensures var ((l, nft), ok) := NftRestoring(faults)((g.l, g.nft)); var g1 := g.(l := l, nft := nft);
      StopFinish(g, ToLook(left), faults)
      == StopFinish(g1, if ok then ROUTES else if left == 1 then ToFind else ToLook(left - 1), faults)
  {
    StopUnfold(g, ToLook(left), faults);
    if g.nft {
      StopUnfold(g, ToDrop(left), faults);
      var (l1, ok) := Do(g.l, Delete(Table), faults);
      if ok {
        StopUnfold(g.(l := l1), ToClear, faults);
      }
    }
  }

  // The state netfilter.Restore under retry, and ForceClean behind it, leave.
  function TableDone(g: Gateway, left: nat, faults: Faults): Gateway
    requires left > 0
  {
    var ((l, nft), ok) := Retry(NftRestoring(faults), (g.l, g.nft), left);
    g.(l := if ok then l else NftForceClean(l, faults).0, nft := nft)
  }

  lemma {:induction false} TableDoneUnfolds(g: Gateway, left: nat, faults: Faults)
    requires left > 0
    ensures var ((l, nft), ok) := NftRestoring(faults)((g.l, g.nft)); var g1 := g.(l := l, nft := nft);
      TableDone(g, left, faults)
      == if ok then g1 else if left == 1 then g1.(l := NftForceClean(l, faults).0) else TableDone(g1, left - 1, faults)
  {
    RetryUnfolds(NftRestoring(faults), (g.l, g.nft), left);
  }

  lemma {:induction false} StopTableSteps(g: Gateway, left: nat, faults: Faults)
    requires left > 0
    ensures StopFinish(g, ToLook(left), faults) == StopFinish(TableDone(g, left, faults), ROUTES, faults)
    decreases left
  {
    StopTableTry(g, left, faults);
    TableDoneUnfolds(g, left, faults);
    var ((l1, nft1), ok) := NftRestoring(faults)((g.l, g.nft));
    var g1 := g.(l := l1, nft := nft1);
    if !ok && left == 1 {
      StopForceSteps(g1, faults);
    } else if !ok {
      StopTableSteps(g1, left - 1, faults);
    }
  }

  lemma {:induction false} StopCloseSteps(g: Gateway, faults: Faults)
    ensures StopFinish(g, ToClose, faults) == StopRelay(g, faults)
  {
    if !g.closed {
      StopUnfold(g, ToClose, faults);
      var g1 := g.(closed := true);
      StopUnfold(g1, ToUnlisten, faults);
      StopUnfold(Unlistened(g1, faults), ToWait, faults);
    }
  }

  // With nothing in between these steps are Stop.
  lemma {:induction false} StepsAreStop(g: Gateway, faults: Faults)
    ensures StopFinish(g, Ready, faults) == Stop(g, faults)
  {
    StopUnfold(g, Ready, faults);
    StopTableSteps(g, ATTEMPTS, faults);
    var g1 := StopTable(g, faults);
    StopRouteSteps(g1, ATTEMPTS, faults);
    StopCloseSteps(StopRoutes(g1, faults), faults);
  }
}
