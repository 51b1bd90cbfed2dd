// The order of start-up, rollback and teardown (internal/app/app.go): traffic
// is intercepted only while the relay listens and the policy routing is whole.

module Ordering {
  import opened Families
  import opened Hosts
  import opened Retries
  import opened RouteSpec
  import opened Lifecycle
  import opened Teardown

  // No table, and never an unsafe moment so far.
  predicate Idle(l: Log, needed: set<Item>) {
    Table !in l.world.items && AllSafe(l.trace, needed)
  }

  // The table may be there, but then everything it relies on is.
  predicate Guarded(l: Log, needed: set<Item>) {
    AllSafe(l.trace, needed) && Safe(l.world, needed)
  }

  lemma {:induction false} IdleStep(l: Log, c: Cmd, faults: Faults, needed: set<Item>)
    requires Idle(l, needed) && c != Load && c != Add(Table)
    ensures Idle(Do(l, c, faults).0, needed)
  {
    DoSafe(l, c, faults, needed);
  }

  lemma {:induction false} NftStep(l: Log, c: Cmd, faults: Faults, ipv6: bool)
    requires Guarded(l, Wanted(ipv6)) && (c == FindNft || c == ListTable || c == Delete(Table))
    ensures Guarded(Do(l, c, faults).0, Wanted(ipv6))
  {
    DoSafe(l, c, faults, Wanted(ipv6));
  }

  // ---- Start-up and rollback ----

  lemma {:induction false} EnableIdle(l: Log, r: Flags, f: Family, faults: Faults, needed: set<Item>)
    requires Idle(l, needed)
    ensures Idle(EnableForward(l, r, f, faults).l, needed)
  {
    IdleStep(l, ReadFwd(f), faults, needed);
    IdleStep(Do(l, ReadFwd(f), faults).0, WriteFwd(f, 1), faults, needed);
  }

  lemma {:induction false} AddIdle(l: Log, r: Flags, x: Item, faults: Faults, needed: set<Item>)
    requires Idle(l, needed) && x != Table
    ensures Idle(AddItem(l, r, x, faults).l, needed)
  {
    IdleStep(l, Delete(x), faults, needed);
    var l1 := Do(l, Delete(x), faults).0;
    IdleStep(l1, Add(x), faults, needed);
    DoSafe(l1, Add(x), faults, needed);
  }

  lemma {:induction false} FamilyIdle(l: Log, r: Flags, f: Family, faults: Faults, needed: set<Item>)
    requires Idle(l, needed)
    ensures Idle(SetupFamily(l, r, f, faults).l, needed)
  {
    var a := EnableForward(l, r, f, faults);
    var b := AddItem(a.l, a.r, Rule(f), faults);
    EnableIdle(l, r, f, faults, needed);
    AddIdle(a.l, a.r, Rule(f), faults, needed);
    AddIdle(b.l, b.r, Route(f), faults, needed);
  }

  lemma {:induction false} SetupIdle(l: Log, r: Flags, ipv6: bool, faults: Faults, needed: set<Item>)
    requires Idle(l, needed)
    ensures Idle(Setup(l, r, ipv6, faults).l, needed)
  {
    FamilyIdle(l, r, V4, faults, needed);
    var a := SetupFamily(l, r, V4, faults);
    FamilyIdle(a.l, a.r, V6, faults, needed);
  }

  lemma {:induction false} RestoreIdle(l: Log, r: Flags, faults: Faults, needed: set<Item>)
    requires Idle(l, needed)
    ensures Idle(Restore(l, r, faults).0, needed)
  {
    var l1 := Undo(l, r, Route(V6), faults).0;
    var l2 := Undo(l1, r, Rule(V6), faults).0;
    var l3 := Undo(l2, r, Route(V4), faults).0;
    var l4 := Undo(l3, r, Rule(V4), faults).0;
    var l5 := UndoForward(l4, r, V6, faults).0;
    IdleStep(l, Delete(Route(V6)), faults, needed);
    IdleStep(l1, Delete(Rule(V6)), faults, needed);
    IdleStep(l2, Delete(Route(V4)), faults, needed);
    IdleStep(l3, Delete(Rule(V4)), faults, needed);
    IdleStep(l4, WriteFwd(V6, 0), faults, needed);
    IdleStep(l5, WriteFwd(V4, 0), faults, needed);
  }

  // The table is loaded last, onto a complete base; a failed load leaves none.
  lemma {:induction false} NftSetupGuarded(l: Log, faults: Faults, ipv6: bool)
    requires Idle(l, Wanted(ipv6)) && l.world.listening && Wanted(ipv6) <= l.world.items
    ensures var (l', ok) := NftSetup(l, faults);
      && Guarded(l', Wanted(ipv6))
      && (Table in l'.world.items <==> ok)
      && l'.world == l.world.(items := l'.world.items)
      && l'.world.listening && Wanted(ipv6) <= l'.world.items
  {
    var needed := Wanted(ipv6);
    IdleStep(l, FindNft, faults, needed);
    var l1 := Do(l, FindNft, faults).0;
    IdleStep(l1, Delete(Table), faults, needed);
    var l2 := Do(l1, Delete(Table), faults).0;
    DoSafe(l2, Load, faults, needed);
  }

  // From any start, whatever fails: a Run that serves loads last, and then no
  // table of that name is left for the ruleset to be merged into, unless one was
  // there and its delete failed.
  lemma {:induction false} RunLoadsAfresh(w: World, ipv6: bool, faults: Faults)
    requires Run(Fresh(w), ipv6, faults).1 == Serving
    ensures var tr := Run(Fresh(w), ipv6, faults).0.l.trace; var n := |tr|;
      && n >= 2 && tr[n - 1].cmd == Load && tr[n - 1].ok
      && (Table in tr[n - 2].after.items <==> Table in w.items && faults(n - 2))
  {
    var l1 := Do(Log(w, []), Listen, faults).0;
    SetupApplies(l1, ipv6, faults);
    LoadsAfresh(Setup(l1, NO_FLAGS, ipv6, faults).l, faults);
  }

  lemma {:induction false} LoadsAfresh(l: Log, faults: Faults)
    ensures var (l', ok) := NftSetup(l, faults); var n := |l'.trace|;
      ok ==>
        && n >= 2 && n == |l.trace| + 3 && l'.trace[n - 1].cmd == Load && l'.trace[n - 1].ok
        && (Table in l'.trace[n - 2].after.items <==> Table in l.world.items && faults(n - 2))
  {
  }

  // Run ends serving with everything in place, or with no table.
  lemma {:induction false} RunGuarded(w: World, ipv6: bool, faults: Faults)
    requires Table !in w.items
    ensures var (g, res) := Run(Fresh(w), ipv6, faults); var needed := Wanted(ipv6);
      && Guarded(g.l, needed)
      && (g.nft <==> res == Serving)
      && (Table in g.l.world.items <==> res == Serving)
      && (res == Serving ==>
            && !g.closed && g.listener && g.l.world.listening && needed == g.r.applied && needed <= g.l.world.items
            && Fwd(g.l.world, V4) == 1 && (ipv6 ==> Fwd(g.l.world, V6) == 1))
  {
    var l, needed := Log(w, []), Wanted(ipv6);
    assert Idle(l, needed);
    IdleStep(l, Listen, faults, needed);
    var l1 := Do(l, Listen, faults).0;
    SetupIdle(l1, NO_FLAGS, ipv6, faults, needed);
    SetupApplies(l1, ipv6, faults);
    var o := Setup(l1, NO_FLAGS, ipv6, faults);
    IdleStep(o.l, Unlisten, faults, needed);
    if Do(l, Listen, faults).1 && o.ok {
      NftSetupGuarded(o.l, faults, ipv6);
      var (l3, loaded) := NftSetup(o.l, faults);
      if !loaded {
        RestoreIdle(l3, o.r, faults, needed);
        IdleStep(Restore(l3, o.r, faults).0, Unlisten, faults, needed);
      }
    }
  }

  // What Run returns says how far it came.
  lemma {:induction false} RunResults(w: World, ipv6: bool, faults: Faults)
    ensures var (g, res) := Run(Fresh(w), ipv6, faults);
      res == (if faults(0) then RelayFailed
              else if g.r.applied != Wanted(ipv6) then RouteFailed
              else if !g.nft then TableFailed
              else Serving)
  {
    SetupApplies(Do(Log(w, []), Listen, faults).0, ipv6, faults);
    assert Wanted(ipv6) != {} by { assert Rule(V4) in Wanted(ipv6); }
  }

  // The relay is stopped again exactly after a failed set-up.
  lemma {:induction false} RunStopsRelay(w: World, ipv6: bool, faults: Faults)
    ensures var (g, res) := Run(Fresh(w), ipv6, faults);
      && (g.listener <==> res != RelayFailed)
      && (g.closed <==> res == RouteFailed || res == TableFailed)
      && (g.l.world.listening <==> res == Serving || (res == RelayFailed && w.listening))
  {
    var l1 := Do(Log(w, []), Listen, faults).0;
    SetupListens(l1, ipv6, faults);
    NftSetupListens(Setup(l1, NO_FLAGS, ipv6, faults).l, faults);
  }

  lemma {:induction false} SetupListens(l: Log, ipv6: bool, faults: Faults)
    ensures Setup(l, NO_FLAGS, ipv6, faults).l.world.listening == l.world.listening
  {
    SetupApplies(l, ipv6, faults);
  }

  lemma {:induction false} NftSetupListens(l: Log, faults: Faults)
    ensures NftSetup(l, faults).0.world.listening == l.world.listening
  {
  }

  // ---- Teardown ----

  lemma {:induction false} NftRetryGuarded(s: Nft, n: nat, faults: Faults, ipv6: bool)
    requires Guarded(s.0, Wanted(ipv6)) && n > 0
    ensures Guarded(Retry(NftRestoring(faults), s, n).0.0, Wanted(ipv6))
    decreases n
  {
    NftStep(s.0, Delete(Table), faults, ipv6);
    var (s1, ok) := NftRestoring(faults)(s);
    if !ok && n > 1 {
      NftRetryGuarded(s1, n - 1, faults, ipv6);
    }
  }

  lemma {:induction false} StopTableGuarded(g: Gateway, faults: Faults, ipv6: bool)
    requires Guarded(g.l, Wanted(ipv6))
    ensures Guarded(StopTable(g, faults).l, Wanted(ipv6))
  {
    NftRetryGuarded((g.l, g.nft), ATTEMPTS, faults, ipv6);
    var l1 := Retry(NftRestoring(faults), (g.l, g.nft), ATTEMPTS).0.0;
    NftStep(l1, FindNft, faults, ipv6);
    var l2 := Do(l1, FindNft, faults).0;
    NftStep(l2, ListTable, faults, ipv6);
    var l3 := Do(l2, ListTable, faults).0;
    NftStep(l3, Delete(Table), faults, ipv6);
  }

  lemma {:induction false} RetryIdle(l: Log, r: Flags, n: nat, faults: Faults, needed: set<Item>)
    requires Idle(l, needed) && n > 0
    ensures Idle(Retry(Restoring(r, faults), l, n).0, needed)
    decreases n
  {
    RestoreIdle(l, r, faults, needed);
    var (l1, ok) := Restoring(r, faults)(l);
    if !ok && n > 1 {
      RetryIdle(l1, r, n - 1, faults, needed);
    }
  }

  lemma {:induction false} ForceCleanIdle(l: Log, faults: Faults, needed: set<Item>)
    requires Idle(l, needed)
    ensures Idle(ForceClean(l, faults), needed)
  {
    var l1 := Do(l, Delete(Route(V4)), faults).0;
    var l2 := Do(l1, Delete(Rule(V4)), faults).0;
    var l3 := Do(l2, Delete(Route(V6)), faults).0;
    IdleStep(l, Delete(Route(V4)), faults, needed);
    IdleStep(l1, Delete(Rule(V4)), faults, needed);
    IdleStep(l2, Delete(Route(V6)), faults, needed);
    IdleStep(l3, Delete(Rule(V6)), faults, needed);
  }

  lemma {:induction false} StopRoutesIdle(g: Gateway, faults: Faults, needed: set<Item>)
    requires Idle(g.l, needed)
    ensures Idle(StopRoutes(g, faults).l, needed)
  {
    RetryIdle(g.l, g.r, ATTEMPTS, faults, needed);
    ForceCleanIdle(Retry(Restoring(g.r, faults), g.l, ATTEMPTS).0, faults, needed);
  }

  lemma {:induction false} StopIdle(g: Gateway, faults: Faults, needed: set<Item>)
    requires Idle(StopTable(g, faults).l, needed)
    ensures Idle(Stop(g, faults).0.l, needed)
  {
    var g1 := StopTable(g, faults);
    StopRoutesIdle(g1, faults, needed);
    IdleStep(StopRoutes(g1, faults).l, Unlisten, faults, needed);
  }

  lemma {:induction false} UnlistenUnsafe(l: Log, faults: Faults, needed: set<Item>)
    requires Table in l.world.items
    ensures var l' := Do(l, Unlisten, faults).0; Table in l'.world.items && !AllSafe(l'.trace, needed)
  {
    DoSafe(l, Unlisten, faults, needed);
  }

  // A table that outlives its deletes outlives the relay.
  lemma {:induction false} StopUnsafe(g: Gateway, faults: Faults, needed: set<Item>)
    requires !g.closed && g.listener && Table in StopTable(g, faults).l.world.items
    ensures var l := Stop(g, faults).0.l; Table in l.world.items && !AllSafe(l.trace, needed)
  {
    var g1 := StopTable(g, faults);
    StopRoutesTable(g1, faults);
    var g2 := StopRoutes(g1, faults);
    assert g2 == g1.(l := g2.l) && g1 == g.(l := g1.l, nft := g1.nft);
    UnlistenUnsafe(g2.l, faults, needed);
  }

  // From a clean start, whatever fails: at every moment of start-up, rollback
  // and teardown the table is only there while the relay listens and the policy
  // routing is whole, exactly when the table is gone in the end.
  lemma {:induction false} SafeThroughout(w: World, ipv6: bool, faults: Faults)
    requires Table !in w.items
    ensures var g := Run(Fresh(w), ipv6, faults).0; var l := Stop(g, faults).0.l;
      && AllSafe(g.l.trace, Wanted(ipv6))
      && (AllSafe(l.trace, Wanted(ipv6)) <==> Table !in l.world.items)
  {
    var g, needed := Run(Fresh(w), ipv6, faults).0, Wanted(ipv6);
    RunGuarded(w, ipv6, faults);
    StopTableGuarded(g, faults, ipv6);
    StopTableFrame(g, faults);
    if Table in StopTable(g, faults).l.world.items {
      StopUnsafe(g, faults, needed);
    } else {
      StopIdle(g, faults, needed);
    }
  }

  lemma {:induction false} StaysAbsent(g: Gateway, faults: Faults)
    requires !g.nft && Table !in g.l.world.items
    ensures Table !in Stop(g, faults).0.l.world.items
  {
    StopTableFrame(g, faults);
    StopRoutesTable(g, faults);
  }

  // So it is safe throughout as soon as Run did not load the table or one
  // delete of Stop succeeded.
  lemma {:induction false} SafeOnceDeleted(w: World, ipv6: bool, faults: Faults)
    requires Table !in w.items
    ensures var (g, res) := Run(Fresh(w), ipv6, faults); var l := Stop(g, faults).0.l;
      AllSafe(l.trace, Wanted(ipv6)) <==> (res == Serving ==> true in Tried(g.l, l, Delete(Table)))
  {
    var (g, res) := Run(Fresh(w), ipv6, faults);
    RunGuarded(w, ipv6, faults);
    SafeThroughout(w, ipv6, faults);
    if res == Serving {
      StopRemovesTable(g, faults);
    } else {
      StaysAbsent(g, faults);
    }
  }

  // ---- Without faults ----

  lemma {:induction false} FamilySucceeds(l: Log, r: Flags, f: Family, faults: Faults)
    requires forall n: nat :: !faults(n)
    ensures SetupFamily(l, r, f, faults).ok
  {
    var a := EnableForward(l, r, f, faults);
    assert a.ok;
    AddSucceeds(a.l, a.r, Rule(f), faults);
    var b := AddItem(a.l, a.r, Rule(f), faults);
    AddSucceeds(b.l, b.r, Route(f), faults);
  }

  // Setup succeeds over any leftovers.
  lemma {:induction false} SetupSucceeds(l: Log, r: Flags, ipv6: bool, faults: Faults)
    requires forall n: nat :: !faults(n)
    ensures Setup(l, r, ipv6, faults).ok
  {
    FamilySucceeds(l, r, V4, faults);
    var a := SetupFamily(l, r, V4, faults);
    FamilySucceeds(a.l, a.r, V6, faults);
  }

  lemma {:induction false} AddSucceeds(l: Log, r: Flags, x: Item, faults: Faults)
    requires forall n: nat :: !faults(n)
    ensures AddItem(l, r, x, faults).ok
  {
  }
}
