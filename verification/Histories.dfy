// The histories of start-up and teardown: everything is a legal command, and a
// teardown installs nothing.

module Histories {
  import opened Families
  import opened Hosts
  import opened Retries
  import opened RouteSpec
  import opened Lifecycle

  // ---- A teardown after l0 ----

  // l continues l0 without installing anything.
  ghost predicate Undone(start: World, l0: Log, l: Log) {
    && Follows(start, l)
    && l0.trace <= l.trace
    && forall i :: |l0.trace| <= i < |l.trace| ==> !l.trace[i].cmd.Add? && !l.trace[i].cmd.Load?
  }

  lemma {:induction false} DoUndone(start: World, l0: Log, l: Log, c: Cmd, faults: Faults)
    requires Undone(start, l0, l) && !c.Add? && !c.Load?
    ensures Undone(start, l0, Do(l, c, faults).0)
  {
    DoFollows(start, l, c, faults);
  }

  // The deletes since the last install are those before the teardown and those in it.
  lemma {:induction false} UndoneDeletes(tr: seq<Event>, n: nat, x: Item) returns (d: seq<bool>)
    requires n <= |tr| && forall i :: n <= i < |tr| ==> !tr[i].cmd.Add? && !tr[i].cmd.Load?
    ensures DeletesSince(tr, x) == DeletesSince(tr[..n], x) + d
    ensures Attempts(tr, Delete(x)) == Attempts(tr[..n], Delete(x)) + d
  {
    if n == |tr| {
      d := [];
      assert tr[..n] == tr;
    } else {
      var m := |tr| - 1;
      d := UndoneDeletes(tr[..m], n, x);
      assert tr[..m][..n] == tr[..n];
      d := d + if tr[m].cmd == Delete(x) then [tr[m].ok] else [];
    }
  }

  lemma {:induction false} DeletesSplit(start: World, l0: Log, l: Log, x: Item)
    requires Undone(start, l0, l)
    ensures DeletesSince(l.trace, x) == DeletesSince(l0.trace, x) + Tried(l0, l, Delete(x))
  {
    var d := UndoneDeletes(l.trace, |l0.trace|, x);
    assert l.trace[..|l0.trace|] == l0.trace;
    TriedIs(l0, l, Delete(x), d);
  }

  lemma {:induction false} RestoreUndone(start: World, l0: Log, l: Log, r: Flags, faults: Faults)
    requires Undone(start, l0, l)
    ensures Undone(start, l0, Restore(l, r, faults).0)
  {
    var l1 := Undo(l, r, Route(V6), faults).0;
    var l2 := Undo(l1, r, Rule(V6), faults).0;
    var l3 := Undo(l2, r, Route(V4), faults).0;
    var l4 := Undo(l3, r, Rule(V4), faults).0;
    var l5 := UndoForward(l4, r, V6, faults).0;
    DoUndone(start, l0, l, Delete(Route(V6)), faults);
    DoUndone(start, l0, l1, Delete(Rule(V6)), faults);
    DoUndone(start, l0, l2, Delete(Route(V4)), faults);
    DoUndone(start, l0, l3, Delete(Rule(V4)), faults);
    DoUndone(start, l0, l4, WriteFwd(V6, 0), faults);
    DoUndone(start, l0, l5, WriteFwd(V4, 0), faults);
  }

  lemma {:induction false} ForceCleanUndone(start: World, l0: Log, l: Log, faults: Faults)
    requires Undone(start, l0, l)
    ensures Undone(start, l0, ForceClean(l, faults))
  {
    var l1 := Do(l, Delete(Route(V4)), faults).0;
    var l2 := Do(l1, Delete(Rule(V4)), faults).0;
    var l3 := Do(l2, Delete(Route(V6)), faults).0;
    DoUndone(start, l0, l, Delete(Route(V4)), faults);
    DoUndone(start, l0, l1, Delete(Rule(V4)), faults);
    DoUndone(start, l0, l2, Delete(Route(V6)), faults);
    DoUndone(start, l0, l3, Delete(Rule(V6)), faults);
  }

  lemma {:induction false} NftForceCleanUndone(start: World, l0: Log, l: Log, faults: Faults)
    requires Undone(start, l0, l)
    ensures Undone(start, l0, NftForceClean(l, faults).0)
  {
    var l1 := Do(l, FindNft, faults).0;
    var l2 := Do(l1, ListTable, faults).0;
    DoUndone(start, l0, l, FindNft, faults);
    DoUndone(start, l0, l1, ListTable, faults);
    DoUndone(start, l0, l2, Delete(Table), faults);
  }

  lemma {:induction false} NftRetryUndone(start: World, l0: Log, s: Nft, n: nat, faults: Faults)
    requires Undone(start, l0, s.0) && n > 0
    ensures Undone(start, l0, Retry(NftRestoring(faults), s, n).0.0)
    decreases n
  {
    DoUndone(start, l0, s.0, Delete(Table), faults);
    var (s1, ok) := NftRestoring(faults)(s);
    if !ok && n > 1 {
      NftRetryUndone(start, l0, s1, n - 1, faults);
    }
  }

  lemma {:induction false} RetryUndone(start: World, l0: Log, l: Log, r: Flags, n: nat, faults: Faults)
    requires Undone(start, l0, l) && n > 0
    ensures Undone(start, l0, Retry(Restoring(r, faults), l, n).0)
    decreases n
  {
    RestoreUndone(start, l0, l, r, faults);
    var (l1, ok) := Restoring(r, faults)(l);
    if !ok && n > 1 {
      RetryUndone(start, l0, l1, r, n - 1, faults);
    }
  }

  lemma {:induction false} StopTableUndone(start: World, l0: Log, g: Gateway, faults: Faults)
    requires Undone(start, l0, g.l)
    ensures Undone(start, l0, StopTable(g, faults).l)
  {
    NftRetryUndone(start, l0, (g.l, g.nft), ATTEMPTS, faults);
    NftForceCleanUndone(start, l0, Retry(NftRestoring(faults), (g.l, g.nft), ATTEMPTS).0.0, faults);
  }

  lemma {:induction false} StopRoutesUndone(start: World, l0: Log, g: Gateway, faults: Faults)
    requires Undone(start, l0, g.l)
    ensures Undone(start, l0, StopRoutes(g, faults).l)
  {
    RetryUndone(start, l0, g.l, g.r, ATTEMPTS, faults);
    ForceCleanUndone(start, l0, Retry(Restoring(g.r, faults), g.l, ATTEMPTS).0, faults);
  }

  // Stop only undoes.
  lemma {:induction false} StopUndone(start: World, g: Gateway, faults: Faults)
    requires Follows(start, g.l)
    ensures Undone(start, g.l, Stop(g, faults).0.l)
  {
    StopTableUndone(start, g.l, g, faults);
    var g1 := StopTable(g, faults);
    StopRoutesUndone(start, g.l, g1, faults);
    DoUndone(start, g.l, StopRoutes(g1, faults).l, Unlisten, faults);
  }

  // ---- Start-up ----

  lemma {:induction false} EnableFollows(start: World, l: Log, r: Flags, f: Family, faults: Faults)
    requires Follows(start, l)
    ensures Follows(start, EnableForward(l, r, f, faults).l)
  {
    DoFollows(start, l, ReadFwd(f), faults);
    DoFollows(start, Do(l, ReadFwd(f), faults).0, WriteFwd(f, 1), faults);
  }

  lemma {:induction false} AddFollows(start: World, l: Log, r: Flags, x: Item, faults: Faults)
    requires Follows(start, l)
    ensures Follows(start, AddItem(l, r, x, faults).l)
  {
    DoFollows(start, l, Delete(x), faults);
    DoFollows(start, Do(l, Delete(x), faults).0, Add(x), faults);
  }

  lemma {:induction false} FamilyFollows(start: World, l: Log, r: Flags, f: Family, faults: Faults)
    requires Follows(start, l)
    ensures Follows(start, SetupFamily(l, r, f, faults).l)
  {
    var a := EnableForward(l, r, f, faults);
    var b := AddItem(a.l, a.r, Rule(f), faults);
    EnableFollows(start, l, r, f, faults);
    AddFollows(start, a.l, a.r, Rule(f), faults);
    AddFollows(start, b.l, b.r, Route(f), faults);
  }

  lemma {:induction false} SetupFollows(start: World, l: Log, r: Flags, ipv6: bool, faults: Faults)
    requires Follows(start, l)
    ensures Follows(start, Setup(l, r, ipv6, faults).l)
  {
    FamilyFollows(start, l, r, V4, faults);
    var a := SetupFamily(l, r, V4, faults);
    FamilyFollows(start, a.l, a.r, V6, faults);
  }

  lemma {:induction false} NftSetupFollows(start: World, l: Log, faults: Faults)
    requires Follows(start, l)
    ensures Follows(start, NftSetup(l, faults).0)
  {
    var l1 := Do(l, FindNft, faults).0;
    var l2 := Do(l1, Delete(Table), faults).0;
    DoFollows(start, l, FindNft, faults);
    DoFollows(start, l1, Delete(Table), faults);
    DoFollows(start, l2, Load, faults);
  }

  lemma {:induction false} RunFollows(w: World, ipv6: bool, faults: Faults)
    ensures Follows(w, Run(Fresh(w), ipv6, faults).0.l)
  {
    var l := Log(w, []);
    assert Follows(w, l);
    DoFollows(w, l, Listen, faults);
    var l1 := Do(l, Listen, faults).0;
    SetupFollows(w, l1, NO_FLAGS, ipv6, faults);
    var o := Setup(l1, NO_FLAGS, ipv6, faults);
    DoFollows(w, o.l, Unlisten, faults);
    NftSetupFollows(w, o.l, faults);
    var l3 := NftSetup(o.l, faults).0;
    RestoreUndone(w, l3, l3, o.r, faults);
    DoFollows(w, Restore(l3, o.r, faults).0, Unlisten, faults);
  }
}
