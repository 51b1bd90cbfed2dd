// Policy routing as functions on values (internal/route/route.go), and what
// they do under every pattern of command failures.

module RouteSpec {
  import opened Families
  import opened Hosts
  import opened Retries

  // The manager's flags: appliedRule, appliedRoute, appliedRule6, appliedRoute6
  // as a set of items; appliedForward(6) and forward(6)WasEnabled as sets of
  // families.
  datatype Flags = Flags(applied: set<Item>, forwarded: set<Family>, wasEnabled: set<Family>)

  const NO_FLAGS := Flags({}, {}, {})

  datatype Out = Out(l: Log, r: Flags, ok: bool)

  function Both(f: Family): set<Item> {
    {Rule(f), Route(f)}
  }

  // Everything a complete Setup installs.
  function Wanted(ipv6: bool): set<Item> {
    if ipv6 then Both(V4) + Both(V6) else Both(V4)
  }

  // ---- Specification functions ----

  // enableForward and enableForward6.
  function EnableForward(l: Log, r: Flags, f: Family, faults: Faults): Out {
    var (l1, readOk) := Do(l, ReadFwd(f), faults);
    if !readOk then Out(l1, r, false) else
    if Fwd(l1.world, f) == 1 then Out(l1, r.(wasEnabled := r.wasEnabled + {f}), true) else
    var r1 := r.(wasEnabled := r.wasEnabled - {f});
    var (l2, ok) := Do(l1, WriteFwd(f, 1), faults);
    Out(l2, if ok then r1.(forwarded := r1.forwarded + {f}) else r1, ok)
  }

  // addRule, addRoute, addRule6, addRoute6: a delete whose outcome is ignored, then the add.
  function AddItem(l: Log, r: Flags, x: Item, faults: Faults): Out {
    var (l1, _) := Do(l, Delete(x), faults);
    var (l2, ok) := Do(l1, Add(x), faults);
    Out(l2, if ok then r.(applied := r.applied + {x}) else r, ok)
  }

  function SetupFamily(l: Log, r: Flags, f: Family, faults: Faults): Out {
    var a := EnableForward(l, r, f, faults);
    if !a.ok then a else
    var b := AddItem(a.l, a.r, Rule(f), faults);
    if !b.ok then b else
    AddItem(b.l, b.r, Route(f), faults)
  }

  function Setup(l: Log, r: Flags, ipv6: bool, faults: Faults): Out {
    var a := SetupFamily(l, r, V4, faults);
    if !a.ok || !ipv6 then a else SetupFamily(a.l, a.r, V6, faults)
  }

  // Deletes x if its flag is set; ok tells whether no error was added.
  function Undo(l: Log, r: Flags, x: Item, faults: Faults): (Log, bool) {
    if x in r.applied then Do(l, Delete(x), faults) else (l, true)
  }

  function UndoForward(l: Log, r: Flags, f: Family, faults: Faults): (Log, bool) {
    if f in r.forwarded && f !in r.wasEnabled then Do(l, WriteFwd(f, 0), faults) else (l, true)
  }

  // The flags are never cleared.
  function Restore(l: Log, r: Flags, faults: Faults): (Log, bool) {
    var (l1, a) := Undo(l, r, Route(V6), faults);
    var (l2, b) := Undo(l1, r, Rule(V6), faults);
    var (l3, c) := Undo(l2, r, Route(V4), faults);
    var (l4, d) := Undo(l3, r, Rule(V4), faults);
    var (l5, e) := UndoForward(l4, r, V6, faults);
    var (l6, f) := UndoForward(l5, r, V4, faults);
    (l6, a && b && c && d && e && f)
  }

  // Both families, whether or not IPv6 is enabled; outcomes are ignored.
  function ForceClean(l: Log, faults: Faults): Log {
    var l1 := Do(l, Delete(Route(V4)), faults).0;
    var l2 := Do(l1, Delete(Rule(V4)), faults).0;
    var l3 := Do(l2, Delete(Route(V6)), faults).0;
    Do(l3, Delete(Rule(V6)), faults).0
  }

  // ---- Setup ----

  // The flags mark exactly the commands that succeeded.
  ghost predicate Marks(l: Log, r: Flags) {
    && (forall x :: x in r.applied <==> true in Attempts(l.trace, Add(x)))
    && (forall f :: f in r.forwarded <==> true in Attempts(l.trace, WriteFwd(f, 1)))
  }

  lemma {:induction false} EnableForwardWorld(l: Log, r: Flags, f: Family, faults: Faults)
    ensures var o := EnableForward(l, r, f, faults);
      && o.r.applied == r.applied
      && o.l.world.items == l.world.items && o.l.world.listening == l.world.listening
      && (o.r.forwarded == r.forwarded || o.r.forwarded == r.forwarded + {f})
      && (if f in o.r.forwarded && f !in r.forwarded then Fwd(l.world, f) != 1 && Fwd(o.l.world, f) == 1
          else o.r.forwarded == r.forwarded && (f in r.forwarded || o.l.world == l.world))
      && (forall g :: g != f ==> Fwd(o.l.world, g) == Fwd(l.world, g))
      && (f !in o.r.forwarded || f in r.forwarded || f !in o.r.wasEnabled)
      && (o.ok ==> Fwd(o.l.world, f) == 1)
      && (if faults(|l.trace|) then o.r == r else f in o.r.wasEnabled <==> Fwd(l.world, f) == 1)
  {
  }

  lemma {:induction false} EnableForwardTries(l: Log, r: Flags, f: Family, faults: Faults, d: Cmd)
    requires d != ReadFwd(f)
    ensures var o := EnableForward(l, r, f, faults);
      if d == WriteFwd(f, 1) then
        true in Attempts(o.l.trace, d) <==> true in Attempts(l.trace, d) || (o.ok && Fwd(l.world, f) != 1)
      else Attempts(o.l.trace, d) == Attempts(l.trace, d)
  {
    var l1 := Do(l, ReadFwd(f), faults).0;
    DoTries(l, ReadFwd(f), faults, d);
    DoTries(l1, WriteFwd(f, 1), faults, d);
  }

  lemma {:induction false} EnableForwardKeepsMarks(l: Log, r: Flags, f: Family, faults: Faults)
    requires Marks(l, r)
    ensures Marks(EnableForward(l, r, f, faults).l, EnableForward(l, r, f, faults).r)
  {
    var o := EnableForward(l, r, f, faults);
    forall x ensures x in o.r.applied <==> true in Attempts(o.l.trace, Add(x)) {
      EnableForwardTries(l, r, f, faults, Add(x));
    }
    forall g ensures g in o.r.forwarded <==> true in Attempts(o.l.trace, WriteFwd(g, 1)) {
      EnableForwardTries(l, r, f, faults, WriteFwd(g, 1));
    }
  }

  lemma {:induction false} AddItemWorld(l: Log, r: Flags, x: Item, faults: Faults)
    ensures var o := AddItem(l, r, x, faults);
      && o.r == (if o.ok then r.(applied := r.applied + {x}) else r)
      && (o.ok ==> x in o.l.world.items)
      && (forall y :: y != x ==> (y in o.l.world.items <==> y in l.world.items))
      && o.l.world.(items := l.world.items) == l.world
  {
  }

  lemma {:induction false} AddItemTries(l: Log, r: Flags, x: Item, faults: Faults, d: Cmd)
    ensures var o := AddItem(l, r, x, faults);
      && (d == Add(x) ==> Attempts(o.l.trace, d) == Attempts(l.trace, d) + [o.ok])
      && (d != Add(x) && d != Delete(x) ==> Attempts(o.l.trace, d) == Attempts(l.trace, d))
  {
    DoTries(l, Delete(x), faults, d);
    DoTries(Do(l, Delete(x), faults).0, Add(x), faults, d);
  }

  lemma {:induction false} AddItemKeepsMarks(l: Log, r: Flags, x: Item, faults: Faults)
    requires Marks(l, r)
    ensures Marks(AddItem(l, r, x, faults).l, AddItem(l, r, x, faults).r)
  {
    var o := AddItem(l, r, x, faults);
    forall y ensures y in o.r.applied <==> true in Attempts(o.l.trace, Add(y)) {
      AddItemTries(l, r, x, faults, Add(y));
    }
    forall g ensures g in o.r.forwarded <==> true in Attempts(o.l.trace, WriteFwd(g, 1)) {
      AddItemTries(l, r, x, faults, WriteFwd(g, 1));
    }
  }

  lemma {:induction false} FamilyKeepsMarks(l: Log, r: Flags, f: Family, faults: Faults)
    requires Marks(l, r)
    ensures Marks(SetupFamily(l, r, f, faults).l, SetupFamily(l, r, f, faults).r)
  {
    var a := EnableForward(l, r, f, faults);
    EnableForwardKeepsMarks(l, r, f, faults);
    var b := AddItem(a.l, a.r, Rule(f), faults);
    AddItemKeepsMarks(a.l, a.r, Rule(f), faults);
    AddItemKeepsMarks(b.l, b.r, Route(f), faults);
  }

  // Wherever Setup stops, the flags mark exactly the steps this process completed.
  lemma {:induction false} SetupMarks(l: Log, ipv6: bool, faults: Faults)
    requires Marks(l, NO_FLAGS)
    ensures Marks(Setup(l, NO_FLAGS, ipv6, faults).l, Setup(l, NO_FLAGS, ipv6, faults).r)
  {
    FamilyKeepsMarks(l, NO_FLAGS, V4, faults);
    var a := SetupFamily(l, NO_FLAGS, V4, faults);
    FamilyKeepsMarks(a.l, a.r, V6, faults);
  }

  // What the flags say about the world: installed items are present, forwarded
  // families had another value and now have 1, everything else is untouched.
  ghost predicate Applied(before: World, after: World, r: Flags) {
    && r.applied <= after.items
    && (forall x :: x !in Both(V4) + Both(V6) ==> (x in after.items <==> x in before.items))
    && after.listening == before.listening
    && (forall f :: if f in r.forwarded then Fwd(before, f) != 1 && Fwd(after, f) == 1 && f !in r.wasEnabled
                    else Fwd(after, f) == Fwd(before, f))
  }

  lemma {:induction false} FamilyApplies(before: World, l: Log, r: Flags, f: Family, faults: Faults)
    requires Applied(before, l.world, r) && f !in r.forwarded && r.applied !! Both(f)
    ensures var o := SetupFamily(l, r, f, faults);
      && Applied(before, o.l.world, o.r)
      && r.applied <= o.r.applied <= r.applied + Both(f)
      && (o.ok <==> o.r.applied == r.applied + Both(f))
      && o.r.forwarded <= r.forwarded + {f}
      && (forall x :: x !in Both(f) ==> (x in o.l.world.items <==> x in l.world.items))
      && (o.ok ==> Fwd(o.l.world, f) == 1)
      && (forall g :: g != f ==> Fwd(o.l.world, g) == Fwd(l.world, g))
  {
    var a := EnableForward(l, r, f, faults);
    EnableForwardWorld(l, r, f, faults);
    assert Applied(before, a.l.world, a.r) by {
      forall g ensures if g in a.r.forwarded then Fwd(before, g) != 1 && Fwd(a.l.world, g) == 1 && g !in a.r.wasEnabled
                       else Fwd(a.l.world, g) == Fwd(before, g) {}
    }
    var b := AddItem(a.l, a.r, Rule(f), faults);
    AddItemWorld(a.l, a.r, Rule(f), faults);
    AddItemWorld(b.l, b.r, Route(f), faults);
  }

  lemma {:induction false} SetupApplies(l: Log, ipv6: bool, faults: Faults)
    ensures var o := Setup(l, NO_FLAGS, ipv6, faults); var w := l.world;
      && Applied(w, o.l.world, o.r)
      && o.r.applied <= Wanted(ipv6)
      && (o.ok <==> o.r.applied == Wanted(ipv6))
      && (o.ok ==> Fwd(o.l.world, V4) == 1 && (ipv6 ==> Fwd(o.l.world, V6) == 1))
      && (!ipv6 ==> V6 !in o.r.forwarded && forall x :: x in Both(V6) ==> (x in o.l.world.items <==> x in w.items))
  {
    var w := l.world;
    FamilyApplies(w, l, NO_FLAGS, V4, faults);
    var a := SetupFamily(l, NO_FLAGS, V4, faults);
    if a.ok && ipv6 {
      FamilyApplies(w, a.l, a.r, V6, faults);
    }
  }

  // ---- Restore ----

  lemma {:induction false} UndoItem(l: Log, r: Flags, y: Item, faults: Faults, x: Item)
    ensures var (l', ok) := Undo(l, r, y, faults);
      && (x in l'.world.items ==> x in l.world.items)
      && (x != y || y !in r.applied ==>
            (x in l'.world.items <==> x in l.world.items)
            && Attempts(l'.trace, Delete(x)) == Attempts(l.trace, Delete(x)))
      && (x == y && y in r.applied ==>
            ok == Removed(l.world, l'.world, x)
            && Attempts(l'.trace, Delete(x)) == Attempts(l.trace, Delete(x)) + [ok])
      && l'.world.(items := l.world.items) == l.world
      && (y !in r.applied ==> l' == l && ok)
  {
    DoTries(l, Delete(y), faults, Delete(x));
  }

  predicate Owes(r: Flags, f: Family) {
    f in r.forwarded && f !in r.wasEnabled
  }

  lemma {:induction false} UndoForwardWorld(l: Log, r: Flags, g: Family, faults: Faults, f: Family)
    ensures var (l', ok) := UndoForward(l, r, g, faults);
      && l'.world.items == l.world.items && l'.world.listening == l.world.listening
      && (f != g || !Owes(r, g) ==>
            Fwd(l'.world, f) == Fwd(l.world, f)
            && Attempts(l'.trace, WriteFwd(f, 0)) == Attempts(l.trace, WriteFwd(f, 0)))
      && (f == g && Owes(r, g) ==>
            Fwd(l'.world, f) == (if ok then 0 else Fwd(l.world, f))
            && Attempts(l'.trace, WriteFwd(f, 0)) == Attempts(l.trace, WriteFwd(f, 0)) + [ok])
      && (!Owes(r, g) ==> ok)
  {
    DoTries(l, WriteFwd(g, 0), faults, WriteFwd(f, 0));
  }

  lemma {:induction false} UndoForwardTriesNoDelete(l: Log, r: Flags, g: Family, faults: Faults, c: Cmd)
    requires !c.WriteFwd?
    ensures Attempts(UndoForward(l, r, g, faults).0.trace, c) == Attempts(l.trace, c)
  {
    DoTries(l, WriteFwd(g, 0), faults, c);
  }

  // Restore in two halves: the items, then the forwarding files.
  function UndoItems(l: Log, r: Flags, faults: Faults): (Log, bool) {
    var (l1, a) := Undo(l, r, Route(V6), faults);
    var (l2, b) := Undo(l1, r, Rule(V6), faults);
    var (l3, c) := Undo(l2, r, Route(V4), faults);
    var (l4, d) := Undo(l3, r, Rule(V4), faults);
    (l4, a && b && c && d)
  }

  function UndoForwards(l: Log, r: Flags, faults: Faults): (Log, bool) {
    var (l1, e) := UndoForward(l, r, V6, faults);
    var (l2, f) := UndoForward(l1, r, V4, faults);
    (l2, e && f)
  }

  lemma {:induction false} RestoreHalves(l: Log, r: Flags, faults: Faults)
    ensures var (l1, a) := UndoItems(l, r, faults); var (l2, b) := UndoForwards(l1, r, faults);
      Restore(l, r, faults) == (l2, a && b)
  {
  }

  lemma {:induction false} FourItems(x: Item)
    requires x != Table
    ensures x == Route(V6) || x == Rule(V6) || x == Route(V4) || x == Rule(V4)
  {
    match x
    case Rule(f) => if f != V4 { assert f == V6 by { match f case V4 => case V6 => } }
    case Route(f) => if f != V4 { assert f == V6 by { match f case V4 => case V6 => } }
  }

  lemma {:induction false} UndoItemsItem(l: Log, r: Flags, faults: Faults, x: Item)
    requires x != Table
    ensures var (l', ok) := UndoItems(l, r, faults);
      if x in r.applied then
        && Attempts(l'.trace, Delete(x)) == Attempts(l.trace, Delete(x)) + [Removed(l.world, l'.world, x)]
        && (x in l'.world.items ==> x in l.world.items)
        && (ok ==> Removed(l.world, l'.world, x))
      else
        && Attempts(l'.trace, Delete(x)) == Attempts(l.trace, Delete(x))
        && (x in l'.world.items <==> x in l.world.items)
  {
    FourItems(x);
    var l1 := Undo(l, r, Route(V6), faults).0;
    var l2 := Undo(l1, r, Rule(V6), faults).0;
    var l3 := Undo(l2, r, Route(V4), faults).0;
    UndoItem(l, r, Route(V6), faults, x);
    UndoItem(l1, r, Rule(V6), faults, x);
    UndoItem(l2, r, Route(V4), faults, x);
    UndoItem(l3, r, Rule(V4), faults, x);
  }

  lemma {:induction false} UndoFrame(l: Log, r: Flags, y: Item, faults: Faults, c: Cmd)
    requires y != Table && (!c.Delete? || c.x == Table)
    ensures var l' := Undo(l, r, y, faults).0;
      && l'.world.(items := l.world.items) == l.world
      && (Table in l'.world.items <==> Table in l.world.items)
      && Attempts(l'.trace, c) == Attempts(l.trace, c)
  {
    DoTries(l, Delete(y), faults, c);
  }

  lemma {:induction false} UndoItemsFrame(l: Log, r: Flags, faults: Faults, c: Cmd)
    requires !c.Delete? || c.x == Table
    ensures var l' := UndoItems(l, r, faults).0;
      && l'.world.(items := l.world.items) == l.world
      && (Table in l'.world.items <==> Table in l.world.items)
      && Attempts(l'.trace, c) == Attempts(l.trace, c)
  {
    var l1 := Undo(l, r, Route(V6), faults).0;
    var l2 := Undo(l1, r, Rule(V6), faults).0;
    var l3 := Undo(l2, r, Route(V4), faults).0;
    UndoFrame(l, r, Route(V6), faults, c);
    UndoFrame(l1, r, Rule(V6), faults, c);
    UndoFrame(l2, r, Route(V4), faults, c);
    UndoFrame(l3, r, Rule(V4), faults, c);
  }

  // One attempt of Restore at a flagged item is one delete.
  lemma {:induction false} RestoreItem(l: Log, r: Flags, faults: Faults, x: Item)
    ensures var (l', ok) := Restore(l, r, faults);
      if x in r.applied && x != Table then
        && Attempts(l'.trace, Delete(x)) == Attempts(l.trace, Delete(x)) + [Removed(l.world, l'.world, x)]
        && (x in l'.world.items ==> x in l.world.items)
        && (ok ==> Removed(l.world, l'.world, x))
      else
        && Attempts(l'.trace, Delete(x)) == Attempts(l.trace, Delete(x))
        && (x in l'.world.items <==> x in l.world.items)
  {
    RestoreHalves(l, r, faults);
    if x == Table { UndoItemsFrame(l, r, faults, Delete(x)); } else { UndoItemsItem(l, r, faults, x); }
    var l1 := UndoItems(l, r, faults).0;
    var l2 := UndoForward(l1, r, V6, faults).0;
    UndoForwardTriesNoDelete(l1, r, V6, faults, Delete(x));
    UndoForwardTriesNoDelete(l2, r, V4, faults, Delete(x));
    UndoForwardWorld(l1, r, V6, faults, V6);
    UndoForwardWorld(l2, r, V4, faults, V4);
  }

  // One attempt of Restore at an owed forwarding file is one write of 0.
  lemma {:induction false} RestoreForward(l: Log, r: Flags, faults: Faults, f: Family)
    ensures var (l', ok) := Restore(l, r, faults);
      && l'.world.listening == l.world.listening
      && if Owes(r, f) then
           exists b :: Wrote(l, l', f, b) && (ok ==> b)
         else
           && Attempts(l'.trace, WriteFwd(f, 0)) == Attempts(l.trace, WriteFwd(f, 0))
           && Fwd(l'.world, f) == Fwd(l.world, f)
  {
    RestoreHalves(l, r, faults);
    UndoItemsFrame(l, r, faults, WriteFwd(f, 0));
    var l1 := UndoItems(l, r, faults).0;
    var l2 := UndoForward(l1, r, V6, faults).0;
    UndoForwardWorld(l1, r, V6, faults, f);
    UndoForwardWorld(l2, r, V4, faults, f);
    if Owes(r, f) {
      var l3 := Restore(l, r, faults).0;
      var b := if f == V6 then UndoForward(l1, r, V6, faults).1 else UndoForward(l2, r, V4, faults).1;
      assert Wrote(l, l3, f, b);
    }
  }

  lemma {:induction false} RestoreUndoes(w: World, l: Log, r: Flags, faults: Faults, x: Item, f: Family)
    requires Applied(w, l.world, r) && r.applied <= Wanted(true)
    ensures var (l', ok) := Restore(l, r, faults);
      ok ==>
        && (x in l'.world.items <==> x in l.world.items && x !in r.applied)
        && (Fwd(l'.world, f) == Fwd(w, f) <==> (f in r.forwarded ==> Fwd(w, f) == 0))
        && l'.world.listening == w.listening
  {
    RestoreItem(l, r, faults, x);
    RestoreForward(l, r, faults, f);
  }

  // One fully successful Restore after any Setup removes exactly what Setup
  // flagged; a forwarding file gets its original value back exactly when it was
  // not written or held 0, as it does when it can only hold 0 or 1.
  lemma {:induction false} RestoreUndoesSetup(l: Log, ipv6: bool, faults: Faults, x: Item, f: Family)
    ensures var o := Setup(l, NO_FLAGS, ipv6, faults); var w := l.world; var (l', ok) := Restore(o.l, o.r, faults);
      ok ==>
        && (x in l'.world.items <==> x in o.l.world.items && x !in o.r.applied)
        && (Fwd(l'.world, f) == Fwd(w, f) <==> (f in o.r.forwarded ==> Fwd(w, f) == 0))
        && l'.world.listening == w.listening
  {
    var o := Setup(l, NO_FLAGS, ipv6, faults);
    SetupApplies(l, ipv6, faults);
    RestoreUndoes(l.world, o.l, o.r, faults, x, f);
  }

  // With IPv6 off, Setup and Restore leave the IPv6 state alone, whatever fails.
  lemma {:induction false} NoIPv6(l: Log, faults: Faults, x: Item)
    requires x in Both(V6)
    ensures var o := Setup(l, NO_FLAGS, false, faults); var (l', ok) := Restore(o.l, o.r, faults);
      Fwd(l'.world, V6) == Fwd(l.world, V6) && (x in l'.world.items <==> x in l.world.items)
  {
    var o := Setup(l, NO_FLAGS, false, faults);
    SetupApplies(l, false, faults);
    RestoreItem(o.l, o.r, faults, x);
    RestoreForward(o.l, o.r, faults, V6);
  }

  // Restore as the function retry is given.
  function Restoring(r: Flags, faults: Faults): Log -> (Log, bool) {
    (l: Log) => Restore(l, r, faults)
  }

  lemma {:induction false} RestoringDeletes(r: Flags, faults: Faults, x: Item)
    requires x in r.applied && x != Table
    ensures Deletes(Restoring(r, faults), x)
  {
    forall l: Log ensures DeletesFrom(Restoring(r, faults), l, x) {
      RestoreItem(l, r, faults, x);
    }
  }

  lemma {:induction false} RestoringSpares(r: Flags, faults: Faults, x: Item)
    requires x !in r.applied || x == Table
    ensures Spares(Restoring(r, faults), x)
  {
    forall l: Log ensures SparesFrom(Restoring(r, faults), l, x) {
      RestoreItem(l, r, faults, x);
    }
  }

  lemma {:induction false} RestoringWrites(r: Flags, faults: Faults, f: Family)
    ensures Writes(Restoring(r, faults), f, Owes(r, f))
  {
    forall l: Log ensures WritesFrom(Restoring(r, faults), l, f, Owes(r, f)) {
      RestoreForward(l, r, faults, f);
    }
  }
}
