// What is left behind once Stop has returned, for every pattern of command
// failures, when Run had reached its select or had returned.

module Teardown {
  import opened Families
  import opened Hosts
  import opened Retries
  import opened RouteSpec
  import opened Lifecycle
  import opened Histories

  // ---- What the flags mean ----

  lemma {:induction false} DoMarks(l: Log, r: Flags, c: Cmd, faults: Faults)
    requires Marks(l, r) && !c.Add? && !(c.WriteFwd? && c.v == 1)
    ensures Marks(Do(l, c, faults).0, r)
  {
    forall x ensures x in r.applied <==> true in Attempts(Do(l, c, faults).0.trace, Add(x)) {
      DoTries(l, c, faults, Add(x));
    }
    forall f ensures f in r.forwarded <==> true in Attempts(Do(l, c, faults).0.trace, WriteFwd(f, 1)) {
      DoTries(l, c, faults, WriteFwd(f, 1));
    }
  }

  lemma {:induction false} RestoreMarks(l: Log, r: Flags, faults: Faults)
    requires Marks(l, r)
    ensures Marks(Restore(l, r, faults).0, r)
  {
    var l1 := Undo(l, r, Route(V6), faults).0;
    var l2 := Undo(l1, r, Rule(V6), faults).0;
    var l3 := Undo(l2, r, Route(V4), faults).0;
    var l4 := Undo(l3, r, Rule(V4), faults).0;
    var l5 := UndoForward(l4, r, V6, faults).0;
    DoMarks(l, r, Delete(Route(V6)), faults);
    DoMarks(l1, r, Delete(Rule(V6)), faults);
    DoMarks(l2, r, Delete(Route(V4)), faults);
    DoMarks(l3, r, Delete(Rule(V4)), faults);
    DoMarks(l4, r, WriteFwd(V6, 0), faults);
    DoMarks(l5, r, WriteFwd(V4, 0), faults);
  }

  lemma {:induction false} NftSetupMarks(l: Log, r: Flags, faults: Faults)
    requires Marks(l, r)
    ensures Marks(NftSetup(l, faults).0, r)
  {
    var l1 := Do(l, FindNft, faults).0;
    var l2 := Do(l1, Delete(Table), faults).0;
    DoMarks(l, r, FindNft, faults);
    DoMarks(l1, r, Delete(Table), faults);
    DoMarks(l2, r, Load, faults);
  }

  // Wherever Run ends, rollback included, the flags mark exactly the rules,
  // routes and forwarding files whose command succeeded in this process.
  lemma {:induction false} RunMarks(w: World, ipv6: bool, faults: Faults)
    ensures var g := Run(Fresh(w), ipv6, faults).0; Marks(g.l, g.r)
  {
    var l := Log(w, []);
    DoMarks(l, NO_FLAGS, Listen, faults);
    var l1 := Do(l, Listen, faults).0;
    SetupMarks(l1, ipv6, faults);
    var o := Setup(l1, NO_FLAGS, ipv6, faults);
    DoMarks(o.l, o.r, Unlisten, faults);
    NftSetupMarks(o.l, o.r, faults);
    var l3 := NftSetup(o.l, faults).0;
    RestoreMarks(l3, o.r, faults);
    DoMarks(Restore(l3, o.r, faults).0, o.r, Unlisten, faults);
  }

  // ---- The nftables phase ----

  // Between l and l' only nft ran.
  ghost predicate OnlyNft(l: Log, l': Log) {
    && (forall x :: x != Table ==> (x in l'.world.items <==> x in l.world.items))
    && l'.world.(items := l.world.items) == l.world
    && (forall c :: c != FindNft && c != ListTable && c != Delete(Table) ==>
          Attempts(l'.trace, c) == Attempts(l.trace, c))
  }

  lemma {:induction false} DoOnlyNft(l: Log, c: Cmd, faults: Faults)
    requires c == FindNft || c == ListTable || c == Delete(Table)
    ensures OnlyNft(l, Do(l, c, faults).0)
  {
    forall d | d != FindNft && d != ListTable && d != Delete(Table)
      ensures Attempts(Do(l, c, faults).0.trace, d) == Attempts(l.trace, d)
    {
      DoTries(l, c, faults, d);
    }
  }

  // From s, fn tries to delete an applied table once.
  ghost predicate TriesTable(fn: Nft -> (Nft, bool), s: Nft) {
    var ((l', nft'), ok) := fn(s); var c := Delete(Table);
    && OnlyNft(s.0, l')
    && (s.1 ==>
          && nft' == !ok && Attempts(l'.trace, c) == Attempts(s.0.trace, c) + [ok]
          && (if ok then Removed(s.0.world, l'.world, Table) else l'.world == s.0.world))
  }

  lemma {:induction false} NftOnce(s: Nft, faults: Faults)
    ensures TriesTable(NftRestoring(faults), s)
  {
    DoOnlyNft(s.0, Delete(Table), faults);
    DoTries(s.0, Delete(Table), faults, Delete(Table));
  }

  lemma {:induction false} OneMoreFailure(a: seq<bool>, k: nat, rest: seq<bool>)
    ensures a + [false] + Fails(k) + rest == a + Fails(k + 1) + rest
  {
    assert Fails(k + 1) == [false] + Fails(k);
    assert a + [false] + Fails(k) == a + ([false] + Fails(k));
  }

  // What n tries did to an applied table: k failures, then perhaps a success.
  ghost predicate RetryTold(l: Log, l': Log, nft': bool, ok: bool, n: nat, k: nat) {
    && OnlyNft(l, l')
    && nft' == !ok
    && Attempts(l'.trace, Delete(Table)) == Attempts(l.trace, Delete(Table)) + Fails(k) + (if ok then [true] else [])
    && (if ok then Removed(l.world, l'.world, Table)
        else k == n && (Table in l'.world.items <==> Table in l.world.items))
  }

  lemma {:induction false} FailedThen(l: Log, l1: Log, l': Log, nft': bool, ok: bool, n: nat, k: nat)
    requires OnlyNft(l, l1) && l1.world == l.world
    requires Attempts(l1.trace, Delete(Table)) == Attempts(l.trace, Delete(Table)) + [false]
    requires RetryTold(l1, l', nft', ok, n, k)
    ensures RetryTold(l, l', nft', ok, n + 1, k + 1)
  {
    OneMoreFailure(Attempts(l.trace, Delete(Table)), k, if ok then [true] else []);
  }

  lemma {:induction false} ToldOnce(l: Log, l': Log, ok: bool)
    requires OnlyNft(l, l') && Attempts(l'.trace, Delete(Table)) == Attempts(l.trace, Delete(Table)) + [ok]
    requires if ok then Removed(l.world, l'.world, Table) else l'.world == l.world
    ensures RetryTold(l, l', !ok, ok, 1, if ok then 0 else 1)
  {
    assert Fails(1) == [false] && Fails(0) == [];
    assert Attempts(l.trace, Delete(Table)) + [] == Attempts(l.trace, Delete(Table));
  }

  lemma {:induction false} TableRetry(fn: Nft -> (Nft, bool), s: Nft, n: nat) returns (k: nat)
    requires n > 0 && s.1 && forall t: Nft :: TriesTable(fn, t)
    ensures var ((l', nft'), ok) := Retry(fn, s, n); RetryTold(s.0, l', nft', ok, n, k)
    decreases n
  {
    assert TriesTable(fn, s);
    var (s1, ok) := fn(s);
    if ok || n == 1 {
      ToldOnce(s.0, s1.0, ok);
      k := if ok then 0 else 1;
    } else {
      var k1 := TableRetry(fn, s1, n - 1);
      var ((l', nft'), ok') := Retry(fn, s1, n - 1);
      FailedThen(s.0, s1.0, l', nft', ok', n - 1, k1);
      k := k1 + 1;
    }
  }

  lemma {:induction false} NftRetry(s: Nft, faults: Faults) returns (k: nat)
    requires s.1
    ensures var ((l', nft'), ok) := Retry(NftRestoring(faults), s, ATTEMPTS); RetryTold(s.0, l', nft', ok, ATTEMPTS, k)
  {
    forall t: Nft ensures TriesTable(NftRestoring(faults), t) {
      NftOnce(t, faults);
    }
    k := TableRetry(NftRestoring(faults), s, ATTEMPTS);
  }

  lemma {:induction false} NftForceCleans(l: Log, faults: Faults)
    ensures var l' := NftForceClean(l, faults).0; var d := Tried(l, l', Delete(Table));
      && OnlyNft(l, l')
      && Attempts(l'.trace, Delete(Table)) == Attempts(l.trace, Delete(Table)) + d
      && (Table in l'.world.items <==> Table in l.world.items && true !in d)
      && (Table in l'.world.items ==> d == Fails(0) || d == Fails(1))
      && (Table in l'.world.items && d == Fails(0) ==> faults(|l.trace|) || faults(|l.trace| + 1))
  {
    var c := Delete(Table);
    var l1 := Do(l, FindNft, faults).0;
    var (l2, listed) := Do(l1, ListTable, faults);
    var (l3, ok) := Do(l2, c, faults);
    DoOnlyNft(l, FindNft, faults);
    DoOnlyNft(l1, ListTable, faults);
    DoOnlyNft(l2, c, faults);
    DoTries(l, FindNft, faults, c);
    DoTries(l1, ListTable, faults, c);
    DoTries(l2, c, faults, c);
    TriedIs(l, l1, c, []);
    TriedIs(l, l2, c, []);
    TriedIs(l, l3, c, [ok]);
    assert [ok][0] == ok;
    assert Fails(1) == [false];
  }

  lemma {:induction false} NftRestoreSkips(l: Log, faults: Faults)
    ensures Retry(NftRestoring(faults), (l, false), ATTEMPTS) == ((l, false), true)
  {
  }

  lemma {:induction false} StopTableFrame(g: Gateway, faults: Faults)
    ensures var g' := StopTable(g, faults);
      && OnlyNft(g.l, g'.l) && g' == g.(l := g'.l, nft := g'.nft)
      && (!g.nft ==> g' == g)
  {
    if g.nft {
      var _ := NftRetry((g.l, g.nft), faults);
      NftForceCleans(Retry(NftRestoring(faults), (g.l, g.nft), ATTEMPTS).0.0, faults);
    } else {
      NftRestoreSkips(g.l, faults);
    }
  }

  // Three failures and what the forced clean adds.
  lemma {:induction false} GivenUp(l: Log, l1: Log, l2: Log)
    requires Attempts(l1.trace, Delete(Table)) == Attempts(l.trace, Delete(Table)) + Fails(3)
    requires Attempts(l2.trace, Delete(Table)) == Attempts(l1.trace, Delete(Table)) + Tried(l1, l2, Delete(Table))
    ensures Tried(l, l2, Delete(Table)) == Fails(3) + Tried(l1, l2, Delete(Table))
    ensures true in Tried(l, l2, Delete(Table)) <==> true in Tried(l1, l2, Delete(Table))
  {
    var c, d := Delete(Table), Tried(l1, l2, Delete(Table));
    assert Attempts(l.trace, c) + Fails(3) + d == Attempts(l.trace, c) + (Fails(3) + d);
    TriedIs(l, l2, c, Fails(3) + d);
    SplitTrue(Fails(3), d);
    FailsAdd(3, 0);
  }

  // ---- Which failures keep the table ----

  lemma {:induction false} DropTry(s: Nft, faults: Faults)
    requires s.1 && Table in s.0.world.items
    ensures var ((l', nft'), ok) := NftRestoring(faults)(s);
      && ok == !faults(|s.0.trace|) && nft' == !ok
      && |l'.trace| == |s.0.trace| + 1
      && (Table in l'.world.items <==> !ok)
  {
  }

  // n commands from the m-th on fail.
  predicate FaultRun(faults: Faults, m: nat, n: nat)
    decreases n
  {
    n == 0 || (faults(m) && FaultRun(faults, m + 1, n - 1))
  }

  lemma {:induction false} DropRetry(s: Nft, n: nat, faults: Faults)
    requires n > 0 && s.1 && Table in s.0.world.items
    ensures var ((l', _), ok) := Retry(NftRestoring(faults), s, n);
      && (!ok <==> FaultRun(faults, |s.0.trace|, n))
      && (Table in l'.world.items <==> !ok)
      && (!ok ==> |l'.trace| == |s.0.trace| + n)
    decreases n
  {
    DropTry(s, faults);
    var (s1, ok) := NftRestoring(faults)(s);
    if !ok && n > 1 {
      DropRetry(s1, n - 1, faults);
    }
  }

  // The forced clean deletes the table unless one of its three commands fails,
  // and reports an error only for the delete.
  lemma {:induction false} ForceDrops(l: Log, faults: Faults)
    ensures var (l', ok) := NftForceClean(l, faults); var n := |l.trace|;
      && (Table in l'.world.items <==> Table in l.world.items && (faults(n) || faults(n + 1) || faults(n + 2)))
      && (!ok <==> Table in l.world.items && !faults(n) && !faults(n + 1) && faults(n + 2))
  {
  }

  lemma {:induction false} StopTableDrops(g: Gateway, faults: Faults)
    requires g.nft && Table in g.l.world.items
    ensures var n := |g.l.trace|;
      Table in StopTable(g, faults).l.world.items
      <==> faults(n) && faults(n + 1) && faults(n + 2) && (faults(n + 3) || faults(n + 4) || faults(n + 5))
  {
    var n := |g.l.trace|;
    DropRetry((g.l, g.nft), ATTEMPTS, faults);
    assert FaultRun(faults, n + 2, 1) == faults(n + 2);
    assert FaultRun(faults, n + 1, 2) == (faults(n + 1) && FaultRun(faults, n + 2, 1));
    var ((l1, _), ok) := Retry(NftRestoring(faults), (g.l, g.nft), ATTEMPTS);
    if !ok { ForceDrops(l1, faults); }
  }

  // The table this process applied survives exactly when all delete attempts of
  // Stop failed: three, and a forced one unless finding nft or listing the table
  // failed.
  lemma {:induction false} StopTableRemoves(g: Gateway, faults: Faults)
    requires g.nft
    ensures var l' := StopTable(g, faults).l; var d := Tried(g.l, l', Delete(Table));
      && (Table in l'.world.items <==> Table in g.l.world.items && true !in d)
      && (Table in l'.world.items ==> d == Fails(3) || d == Fails(4))
      && (Table in l'.world.items && d == Fails(3) ==> faults(|g.l.trace| + 3) || faults(|g.l.trace| + 4))
  {
    var c := Delete(Table);
    if Table in g.l.world.items { DropRetry((g.l, g.nft), ATTEMPTS, faults); }
    var k := NftRetry((g.l, g.nft), faults);
    var ((l1, nft1), ok) := Retry(NftRestoring(faults), (g.l, g.nft), ATTEMPTS);
    if ok {
      assert Attempts(g.l.trace, c) + Fails(k) + [true] == Attempts(g.l.trace, c) + (Fails(k) + [true]);
      TriedIs(g.l, l1, c, Fails(k) + [true]);
      assert (Fails(k) + [true])[k];
    } else {
      NftForceCleans(l1, faults);
      var l2 := NftForceClean(l1, faults).0;
      GivenUp(g.l, l1, l2);
      FailsAdd(3, 0);
      FailsAdd(3, 1);
    }
  }

  lemma {:induction false} SplitTrue(a: seq<bool>, b: seq<bool>)
    ensures true in a + b <==> true in a || true in b
  {
  }

  lemma {:induction false} FailsAdd(m: nat, n: nat)
    ensures Fails(m) + Fails(n) == Fails(m + n)
    ensures true !in Fails(m)
  {
  }

  // ---- The policy-routing phase ----

  // One delete of y, seen by x.
  lemma {:induction false} DeleteStep(l: Log, y: Item, faults: Faults, x: Item)
    ensures var l' := Do(l, Delete(y), faults).0;
      && (x in l'.world.items ==> x in l.world.items)
      && l'.world.(items := l.world.items) == l.world
      && (if x == y then
            Attempts(l'.trace, Delete(x)) == Attempts(l.trace, Delete(x)) + [Removed(l.world, l'.world, x)]
          else
            && Attempts(l'.trace, Delete(x)) == Attempts(l.trace, Delete(x))
            && (x in l'.world.items <==> x in l.world.items))
  {
    DoTries(l, Delete(y), faults, Delete(x));
  }

  lemma {:induction false} ForceCleans(l: Log, faults: Faults, x: Item)
    ensures var l' := ForceClean(l, faults);
      if x == Table then
        && Attempts(l'.trace, Delete(x)) == Attempts(l.trace, Delete(x))
        && (x in l'.world.items <==> x in l.world.items)
      else
        && Attempts(l'.trace, Delete(x)) == Attempts(l.trace, Delete(x)) + [Removed(l.world, l'.world, x)]
        && (x in l'.world.items ==> x in l.world.items)
  {
    if x != Table { FourItems(x); }
    var l1 := Do(l, Delete(Route(V4)), faults).0;
    var l2 := Do(l1, Delete(Rule(V4)), faults).0;
    var l3 := Do(l2, Delete(Route(V6)), faults).0;
    DeleteStep(l, Route(V4), faults, x);
    DeleteStep(l1, Rule(V4), faults, x);
    DeleteStep(l2, Route(V6), faults, x);
    DeleteStep(l3, Rule(V6), faults, x);
  }

  lemma {:induction false} ForceCleanSpares(l: Log, faults: Faults, c: Cmd)
    requires !c.Delete?
    ensures var l' := ForceClean(l, faults);
      Attempts(l'.trace, c) == Attempts(l.trace, c) && l'.world.(items := l.world.items) == l.world
  {
    var l1 := Do(l, Delete(Route(V4)), faults).0;
    var l2 := Do(l1, Delete(Rule(V4)), faults).0;
    var l3 := Do(l2, Delete(Route(V6)), faults).0;
    DoTries(l, Delete(Route(V4)), faults, c);
    DoTries(l1, Delete(Rule(V4)), faults, c);
    DoTries(l2, Delete(Route(V6)), faults, c);
    DoTries(l3, Delete(Rule(V6)), faults, c);
  }

  // The retries' outcomes and the forced clean's.
  lemma {:induction false} ForcedAfter(l: Log, l1: Log, l2: Log, x: Item, d: seq<bool>)
    requires Attempts(l1.trace, Delete(x)) == Attempts(l.trace, Delete(x)) + d
    requires Attempts(l2.trace, Delete(x)) == Attempts(l1.trace, Delete(x)) + [Removed(l1.world, l2.world, x)]
    requires x in l1.world.items <==> x in l.world.items && true !in d
    requires x in l2.world.items ==> x in l1.world.items
    requires |d| == 3
    ensures x in l2.world.items <==> x in l.world.items && true !in Tried(l, l2, Delete(x))
    ensures x in l2.world.items ==> Tried(l, l2, Delete(x)) == Fails(4)
  {
    var c, b := Delete(x), Removed(l1.world, l2.world, x);
    assert Attempts(l.trace, c) + d + [b] == Attempts(l.trace, c) + (d + [b]);
    TriedIs(l, l2, c, d + [b]);
    SplitTrue(d, [b]);
    assert [b][0] == b;
    if true !in d {
      FailsOnly(d);
      FailsAdd(3, 1);
    }
  }

  lemma {:induction false} StopRoutesItem(g: Gateway, faults: Faults, x: Item)
    requires x in g.r.applied && x != Table
    ensures var l' := StopRoutes(g, faults).l; var d := Tried(g.l, l', Delete(x));
      && (x in l'.world.items <==> x in g.l.world.items && true !in d)
      && (x in l'.world.items ==> d == Fails(4))
  {
    var fn := Restoring(g.r, faults);
    RestoringDeletes(g.r, faults, x);
    RetryAttempts(fn, g.l, ATTEMPTS, x);
    RetryItem(fn, g.l, ATTEMPTS, x);
    var (l1, ok) := Retry(fn, g.l, ATTEMPTS);
    var d := Outcomes(fn, g.l, ATTEMPTS, x);
    if ok {
      TriedIs(g.l, l1, Delete(x), d);
    } else {
      ForceCleans(l1, faults, x);
      ForcedAfter(g.l, l1, ForceClean(l1, faults), x, d);
    }
  }

  // Convergence of route.Restore under retry, which never clears its flags: a
  // nil result means that its last attempt deleted every flagged rule and route
  // and no earlier one deleted any; one attempt that deletes something and
  // fails leaves the rest of the work to the forced clean.
  lemma {:induction false} RestoreConverges(l: Log, r: Flags, n: nat, faults: Faults, x: Item)
    requires n > 0 && x in r.applied && x != Table
    ensures var fn := Restoring(r, faults); var (l', ok) := Retry(fn, l, n);
      var tried := Tried(l, l', Delete(x));
      && (ok ==> x !in l'.world.items && tried != [] && tried == Fails(|tried| - 1) + [true])
      && (!fn(l).1 && Removed(l.world, fn(l).0.world, x) ==> !ok)
      && (!ok ==> |tried| == n)
  {
    var fn := Restoring(r, faults);
    RestoringDeletes(r, faults, x);
    RetryAttempts(fn, l, n, x);
    RetryItem(fn, l, n, x);
    var (l', ok) := Retry(fn, l, n);
    TriedIs(l, l', Delete(x), Outcomes(fn, l, n, x));
    if ok {
      RetryConverges(fn, l, n, x);
      if !fn(l).1 && Removed(l.world, fn(l).0.world, x) {
        PartialAttemptIsFinal(fn, l, n, x);
      }
    }
  }

  // The same for the forwarding files, whatever items are flagged: an owed file
  // is written once per attempt, holds 0 from the first success on, and does
  // when the result is nil; one that is not owed is left alone.
  lemma {:induction false} RestoreWritesForwarding(l: Log, r: Flags, n: nat, faults: Faults, f: Family)
    requires n > 0
    ensures var (l', ok) := Retry(Restoring(r, faults), l, n);
      var tried := Tried(l, l', WriteFwd(f, 0));
      && Fwd(l'.world, f) == (if true in tried then 0 else Fwd(l.world, f))
      && (Owes(r, f) ==> tried != [] && (ok ==> true in tried) && (!ok ==> |tried| == n))
      && (!Owes(r, f) ==> tried == [])
  {
    var fn := Restoring(r, faults);
    RestoringWrites(r, faults, f);
    var d := RetryWrites(fn, l, n, f, Owes(r, f));
    TriedIs(l, Retry(fn, l, n).0, WriteFwd(f, 0), d);
  }

  lemma {:induction false} StopRoutesTable(g: Gateway, faults: Faults)
    ensures var l' := StopRoutes(g, faults).l;
      && (Table in l'.world.items <==> Table in g.l.world.items)
      && Attempts(l'.trace, Delete(Table)) == Attempts(g.l.trace, Delete(Table))
  {
    RestoringSpares(g.r, faults, Table);
    RetrySpares(Restoring(g.r, faults), g.l, ATTEMPTS, Table);
    ForceCleans(Retry(Restoring(g.r, faults), g.l, ATTEMPTS).0, faults, Table);
  }

  // The closing of the relay is no attempt at anything else.
  lemma {:induction false} CloseRelayFrame(g: Gateway, faults: Faults, c: Cmd)
    requires c != Unlisten
    ensures Attempts(CloseRelay(g, faults).l.trace, c) == Attempts(g.l.trace, c)
    ensures CloseRelay(g, faults).l.world == if g.listener then g.l.world.(listening := false) else g.l.world
  {
    DoTries(g.l, Unlisten, faults, c);
  }

  // ---- Stop as a whole ----

  // A rule or route whose flag is set survives Stop exactly when all four delete
  // attempts failed: three by retry and the forced one.
  lemma {:induction false} StopRemovesItem(g: Gateway, faults: Faults, x: Item)
    requires x in g.r.applied && x != Table
    ensures var l' := Stop(g, faults).0.l; var d := Tried(g.l, l', Delete(x));
      && (x in l'.world.items <==> x in g.l.world.items && true !in d)
      && (x in l'.world.items ==> d == Fails(4))
  {
    var c := Delete(x);
    StopTableFrame(g, faults);
    var g1 := StopTable(g, faults);
    assert Attempts(g1.l.trace, c) == Attempts(g.l.trace, c);
    StopRoutesItem(g1, faults, x);
    CloseRelayFrame(StopRoutes(g1, faults), faults, c);
  }

  lemma {:induction false} StopRemovesTable(g: Gateway, faults: Faults)
    requires g.nft
    ensures var l' := Stop(g, faults).0.l; var d := Tried(g.l, l', Delete(Table));
      && (Table in l'.world.items <==> Table in g.l.world.items && true !in d)
      && (Table in l'.world.items ==> d == Fails(3) || d == Fails(4))
      && (Table in l'.world.items && d == Fails(3) ==> faults(|g.l.trace| + 3) || faults(|g.l.trace| + 4))
  {
    StopTableRemoves(g, faults);
    var g1 := StopTable(g, faults);
    StopRoutesTable(g1, faults);
    CloseRelayFrame(StopRoutes(g1, faults), faults, Delete(Table));
  }

  // By the commands themselves: a table that is there survives Stop exactly when
  // its first three commands, the deletes, fail and one of the next three does,
  // which find nft, list the table and delete it.
  lemma {:induction false} StopDropsTable(g: Gateway, faults: Faults)
    requires g.nft && Table in g.l.world.items
    ensures var n := |g.l.trace|;
      Table in Stop(g, faults).0.l.world.items
      <==> faults(n) && faults(n + 1) && faults(n + 2) && (faults(n + 3) || faults(n + 4) || faults(n + 5))
  {
    StopTableDrops(g, faults);
    var g1 := StopTable(g, faults);
    StopRoutesTable(g1, faults);
    CloseRelayFrame(StopRoutes(g1, faults), faults, Delete(Table));
  }

  // ---- IPv6 off ----

  // Run with IPv6 off leaves IPv6 rules and routes alone.
  lemma {:induction false} RunSparesIPv6(w: World, faults: Faults, x: Item)
    requires x in Both(V6)
    ensures var g := Run(Fresh(w), false, faults).0;
      x !in g.r.applied && (x in g.l.world.items <==> x in w.items)
  {
    var l1 := Do(Log(w, []), Listen, faults).0;
    SetupSparesIPv6(l1, faults, x);
    var o := Setup(l1, NO_FLAGS, false, faults);
    NftSetupSpares(o.l, faults, x);
    RestoreSparesOther(NftSetup(o.l, faults).0, o.r, faults, x);
  }

  lemma {:induction false} SetupSparesIPv6(l: Log, faults: Faults, x: Item)
    requires x in Both(V6)
    ensures var o := Setup(l, NO_FLAGS, false, faults);
      x !in o.r.applied && (x in o.l.world.items <==> x in l.world.items)
  {
    SetupApplies(l, false, faults);
  }

  lemma {:induction false} RestoreSparesOther(l: Log, r: Flags, faults: Faults, x: Item)
    requires x !in r.applied
    ensures x in Restore(l, r, faults).0.world.items <==> x in l.world.items
  {
    RestoreItem(l, r, faults, x);
  }

  lemma {:induction false} NftSetupSpares(l: Log, faults: Faults, x: Item)
    requires x != Table
    ensures x in NftSetup(l, faults).0.world.items <==> x in l.world.items
  {
  }

  // ForceClean deletes an IPv6 route with its third command, a rule with its fourth.
  lemma {:induction false} ForceCleanIPv6(l: Log, faults: Faults, x: Item)
    requires x in Both(V6)
    ensures x in ForceClean(l, faults).world.items
      <==> x in l.world.items && faults(|l.trace| + if x == Route(V6) then 2 else 3)
  {
    var l1 := Do(l, Delete(Route(V4)), faults).0;
    var l2 := Do(l1, Delete(Rule(V4)), faults).0;
    var l3 := Do(l2, Delete(Route(V6)), faults).0;
    assert x in l2.world.items <==> x in l.world.items;
    assert |l3.trace| == |l.trace| + 3 && |l2.trace| == |l.trace| + 2;
    DeleteStep(l, Route(V4), faults, x);
    DeleteStep(l1, Rule(V4), faults, x);
    DeleteStep(l2, Route(V6), faults, x);
    DeleteStep(l3, Rule(V6), faults, x);
  }

  lemma {:induction false} RoutesLeftoverIPv6(g: Gateway, faults: Faults, x: Item)
    requires x in Both(V6) && x !in g.r.applied
    ensures var (l1, ok) := Retry(Restoring(g.r, faults), g.l, ATTEMPTS);
      x in StopRoutes(g, faults).l.world.items
      <==> x in g.l.world.items && (ok || faults(|l1.trace| + if x == Route(V6) then 2 else 3))
  {
    RestoringSpares(g.r, faults, x);
    RetrySpares(Restoring(g.r, faults), g.l, ATTEMPTS, x);
    ForceCleanIPv6(Retry(Restoring(g.r, faults), g.l, ATTEMPTS).0, faults, x);
  }

  // Closing the relay touches no item, and the nftables phase none but the table.
  lemma {:induction false} StopItems(g: Gateway, faults: Faults, x: Item)
    ensures Stop(g, faults).0.l.world.items == StopRoutes(StopTable(g, faults), faults).l.world.items
    ensures var g1 := StopTable(g, faults);
      g1.r == g.r && (x != Table ==> (x in g1.l.world.items <==> x in g.l.world.items))
  {
    StopTableFrame(g, faults);
    CloseRelayFrame(StopRoutes(StopTable(g, faults), faults), faults, Delete(x));
  }

  lemma {:induction false} StopLeftoverIPv6(g: Gateway, faults: Faults, x: Item)
    requires x in Both(V6) && x !in g.r.applied
    ensures var (l1, ok) := Retry(Restoring(g.r, faults), StopTable(g, faults).l, ATTEMPTS);
      x in Stop(g, faults).0.l.world.items
      <==> x in g.l.world.items && (ok || faults(|l1.trace| + if x == Route(V6) then 2 else 3))
  {
    StopItems(g, faults, x);
    RoutesLeftoverIPv6(StopTable(g, faults), faults, x);
  }

  // With IPv6 off a leftover IPv6 rule or route still survives Run and Stop
  // only if route.Restore succeeded under retry, or the forced clean's delete
  // of it failed.
  lemma {:induction false} LeftoverIPv6(w: World, faults: Faults, x: Item)
    requires x in Both(V6)
    ensures var g := Run(Fresh(w), false, faults).0;
      var (l1, ok) := Retry(Restoring(g.r, faults), StopTable(g, faults).l, ATTEMPTS);
      x in Stop(g, faults).0.l.world.items
      <==> x in w.items && (ok || faults(|l1.trace| + if x == Route(V6) then 2 else 3))
  {
    RunSparesIPv6(w, faults, x);
    StopLeftoverIPv6(Run(Fresh(w), false, faults).0, faults, x);
  }

  // ---- The whole process ----

  lemma {:induction false} TriedInstalls(tr: seq<Event>, x: Item)
    requires true in Attempts(tr, Add(x))
    ensures Installed(tr, x)
  {
    var n := |tr| - 1;
    if Installs(tr[n], x) {
      assert Installed(tr, x);
    } else {
      SplitTrue(Attempts(tr[..n], Add(x)), if tr[n].cmd == Add(x) then [tr[n].ok] else []);
      TriedInstalls(tr[..n], x);
      InstalledSplits(tr, x);
    }
  }

  // Four failures at the end of a history of failures only.
  lemma {:induction false} FailsAtLeast(a: seq<bool>, b: seq<bool>)
    requires true !in a && true !in b
    ensures a + b == Fails(|a| + |b|) && true !in a + b
  {
    SplitTrue(a, b);
    FailsOnly(a + b);
  }

  // A rollback after a failed load has tried each flagged item once.
  lemma {:induction false} RollbackTried(w: World, ipv6: bool, faults: Faults, x: Item)
    requires Run(Fresh(w), ipv6, faults).1 == TableFailed
    requires x in Run(Fresh(w), ipv6, faults).0.r.applied && x != Table
    ensures DeletesSince(Run(Fresh(w), ipv6, faults).0.l.trace, x) != []
  {
    var l1 := Do(Log(w, []), Listen, faults).0;
    assert Follows(w, Log(w, []));
    DoFollows(w, Log(w, []), Listen, faults);
    SetupFollows(w, l1, NO_FLAGS, ipv6, faults);
    var o := Setup(l1, NO_FLAGS, ipv6, faults);
    NftSetupFollows(w, o.l, faults);
    RolledBack(w, NftSetup(o.l, faults).0, o.r, faults, x);
  }

  lemma {:induction false} RolledBack(w: World, l: Log, r: Flags, faults: Faults, x: Item)
    requires Follows(w, l) && x in r.applied && x != Table
    ensures DeletesSince(Do(Restore(l, r, faults).0, Unlisten, faults).0.trace, x) != []
  {
    var l1 := Restore(l, r, faults).0;
    var l2 := Do(l1, Unlisten, faults).0;
    RestoreUndone(w, l, l, r, faults);
    DoUndone(w, l, l1, Unlisten, faults);
    DeletesSplit(w, l, l2, x);
    RestoreItem(l, r, faults, x);
    DoTries(l1, Unlisten, faults, Delete(x));
    TriedIs(l, l2, Delete(x), [Removed(l.world, l1.world, x)]);
  }

  lemma {:induction false} SurvivesAfter(w: World, g: Gateway, faults: Faults, x: Item, k: nat)
    requires Follows(w, g.l) && Installed(g.l.trace, x) && x in g.r.applied && x != Table
    requires |DeletesSince(g.l.trace, x)| >= k
    ensures var l := Stop(g, faults).0.l; var d := DeletesSince(l.trace, x);
      x in l.world.items <==> |d| >= k + 4 && d == Fails(|d|)
  {
    var l := Stop(g, faults).0.l;
    SurvivesIffAllDeletesFailed(w, g.l.trace, x);
    StopUndone(w, g, faults);
    DeletesSplit(w, g.l, l, x);
    StopRemovesItem(g, faults, x);
    SplitTrue(DeletesSince(g.l.trace, x), Tried(g.l, l, Delete(x)));
    if x in l.world.items {
      FailsAtLeast(DeletesSince(g.l.trace, x), Fails(4));
    } else {
      NoSuccess(DeletesSince(l.trace, x));
    }
  }

  // Over Run and Stop: a rule or route this process installed is left in the end
  // exactly when every delete of it since failed: Stop's four, and before them
  // one of the rollback after a failed load.
  lemma {:induction false} ItemSurvivesProcess(w: World, ipv6: bool, faults: Faults, x: Item)
    requires x in Run(Fresh(w), ipv6, faults).0.r.applied && x != Table
    ensures var (g, res) := Run(Fresh(w), ipv6, faults); var l := Stop(g, faults).0.l;
      var d := DeletesSince(l.trace, x);
      x in l.world.items <==> |d| >= (if res == TableFailed then 5 else 4) && d == Fails(|d|)
  {
    var (g, res) := Run(Fresh(w), ipv6, faults);
    RunFollows(w, ipv6, faults);
    RunMarks(w, ipv6, faults);
    TriedInstalls(g.l.trace, x);
    if res == TableFailed { RollbackTried(w, ipv6, faults, x); }
    SurvivesAfter(w, g, faults, x, if res == TableFailed then 1 else 0);
  }

  lemma {:induction false} NoSuccess(d: seq<bool>)
    ensures d == Fails(|d|) ==> true !in d
  {
  }

  // The same for the table Run loaded: four deletes, or three where the forced
  // clean failed to find nft or to list the table.
  lemma {:induction false} TableSurvivesProcess(w: World, ipv6: bool, faults: Faults)
    requires Run(Fresh(w), ipv6, faults).1 == Serving
    ensures var g := Run(Fresh(w), ipv6, faults).0; var l := Stop(g, faults).0.l;
      var d := DeletesSince(l.trace, Table); var n := |g.l.trace|;
      Table in l.world.items
      <==> |d| >= 3 && d == Fails(|d|) && (|d| >= 4 || faults(n + 3) || faults(n + 4))
  {
    var g := Run(Fresh(w), ipv6, faults).0;
    var l := Stop(g, faults).0.l;
    RunFollows(w, ipv6, faults);
    LoadedLast(w, ipv6, faults);
    StopUndone(w, g, faults);
    DeletesSplit(w, g.l, l, Table);
    StopRemovesTable(g, faults);
    if Table in l.world.items {
      FailsOnly(Tried(g.l, l, Delete(Table)));
    } else {
      NoSuccess(DeletesSince(l.trace, Table));
    }
  }

  // Run that serves ends with the load.
  lemma {:induction false} LoadedLast(w: World, ipv6: bool, faults: Faults)
    requires Run(Fresh(w), ipv6, faults).1 == Serving
    ensures var g := Run(Fresh(w), ipv6, faults).0;
      g.nft && Table in g.l.world.items && DeletesSince(g.l.trace, Table) == []
  {
  }

  // ---- Forwarding ----

  lemma {:induction false} SetupNeverWritesZero(l: Log, r: Flags, ipv6: bool, faults: Faults, f: Family)
    ensures Attempts(Setup(l, r, ipv6, faults).l.trace, WriteFwd(f, 0)) == Attempts(l.trace, WriteFwd(f, 0))
  {
    FamilyNeverWritesZero(l, r, V4, faults, f);
    var a := SetupFamily(l, r, V4, faults);
    FamilyNeverWritesZero(a.l, a.r, V6, faults, f);
  }

  lemma {:induction false} FamilyNeverWritesZero(l: Log, r: Flags, g: Family, faults: Faults, f: Family)
    ensures Attempts(SetupFamily(l, r, g, faults).l.trace, WriteFwd(f, 0)) == Attempts(l.trace, WriteFwd(f, 0))
  {
    var c := WriteFwd(f, 0);
    var a := EnableForward(l, r, g, faults);
    var b := AddItem(a.l, a.r, Rule(g), faults);
    EnableForwardTries(l, r, g, faults, c);
    AddItemTries(a.l, a.r, Rule(g), faults, c);
    AddItemTries(b.l, b.r, Route(g), faults, c);
  }

  // A file this process wrote holds 0 once a write of 0 has succeeded and 1 until then.
  ghost predicate FwdTold(w: World, l: Log, r: Flags, f: Family) {
    && (f in r.forwarded ==> f !in r.wasEnabled && Fwd(w, f) != 1)
    && Fwd(l.world, f) ==
         if f !in r.forwarded then Fwd(w, f)
         else if true in Attempts(l.trace, WriteFwd(f, 0)) then 0 else 1
  }

  lemma {:induction false} SetupTellsFwd(w: World, l: Log, ipv6: bool, faults: Faults, f: Family)
    requires Fwd(l.world, f) == Fwd(w, f) && Attempts(l.trace, WriteFwd(f, 0)) == []
    ensures var o := Setup(l, NO_FLAGS, ipv6, faults); FwdTold(w, o.l, o.r, f)
  {
    SetupNeverWritesZero(l, NO_FLAGS, ipv6, faults, f);
    FamilyApplies(l.world, l, NO_FLAGS, V4, faults);
    var a := SetupFamily(l, NO_FLAGS, V4, faults);
    if a.ok && ipv6 {
      FamilyApplies(l.world, a.l, a.r, V6, faults);
    }
  }

  lemma {:induction false} RestoreTellsFwd(w: World, l: Log, r: Flags, faults: Faults, f: Family)
    requires FwdTold(w, l, r, f)
    ensures FwdTold(w, Restore(l, r, faults).0, r, f)
  {
    RestoreForward(l, r, faults, f);
    if Owes(r, f) {
      var l' := Restore(l, r, faults).0;
      var b :| Wrote(l, l', f, b);
      SplitTrue(Attempts(l.trace, WriteFwd(f, 0)), [b]);
      assert [b][0] == b;
    }
  }

  lemma {:induction false} DoTellsFwd(w: World, l: Log, r: Flags, c: Cmd, faults: Faults, f: Family)
    requires FwdTold(w, l, r, f) && !c.WriteFwd?
    ensures FwdTold(w, Do(l, c, faults).0, r, f)
  {
    DoTries(l, c, faults, WriteFwd(f, 0));
  }

  lemma {:induction false} NftSetupTellsFwd(w: World, l: Log, r: Flags, faults: Faults, f: Family)
    requires FwdTold(w, l, r, f)
    ensures FwdTold(w, NftSetup(l, faults).0, r, f)
  {
    DoTellsFwd(w, l, r, FindNft, faults, f);
    var l2 := Do(l, FindNft, faults).0;
    DoTellsFwd(w, l2, r, Delete(Table), faults, f);
    var l3 := Do(l2, Delete(Table), faults).0;
    DoTellsFwd(w, l3, r, Load, faults, f);
  }

  lemma {:induction false} RunTellsFwd(w: World, ipv6: bool, faults: Faults, f: Family)
    ensures var g := Run(Fresh(w), ipv6, faults).0; FwdTold(w, g.l, g.r, f)
  {
    var l := Log(w, []);
    DoTellsFwd(w, l, NO_FLAGS, Listen, faults, f);
    DoTries(l, Listen, faults, WriteFwd(f, 0));
    var l1 := Do(l, Listen, faults).0;
    SetupTellsFwd(w, l1, ipv6, faults, f);
    var o := Setup(l1, NO_FLAGS, ipv6, faults);
    DoTellsFwd(w, o.l, o.r, Unlisten, faults, f);
    NftSetupTellsFwd(w, o.l, o.r, faults, f);
    var l4 := NftSetup(o.l, faults).0;
    RestoreTellsFwd(w, l4, o.r, faults, f);
    DoTellsFwd(w, Restore(l4, o.r, faults).0, o.r, Unlisten, faults, f);
  }

  lemma {:induction false} FwdToldSame(w: World, l: Log, l': Log, r: Flags, f: Family)
    requires FwdTold(w, l, r, f)
    requires Attempts(l'.trace, WriteFwd(f, 0)) == Attempts(l.trace, WriteFwd(f, 0))
    requires Fwd(l'.world, f) == Fwd(l.world, f)
    ensures FwdTold(w, l', r, f)
  {
  }

  lemma {:induction false} StopRoutesTellsFwd(w: World, g: Gateway, faults: Faults, f: Family)
    requires FwdTold(w, g.l, g.r, f)
    ensures var l' := StopRoutes(g, faults).l; var d := Attempts(l'.trace, WriteFwd(f, 0));
      && FwdTold(w, l', g.r, f)
      && (f in g.r.forwarded && true !in d ==> |d| >= |Attempts(g.l.trace, WriteFwd(f, 0))| + 3)
  {
    var c, fn := WriteFwd(f, 0), Restoring(g.r, faults);
    RestoringWrites(g.r, faults, f);
    var d := RetryWrites(fn, g.l, ATTEMPTS, f, Owes(g.r, f));
    SplitTrue(Attempts(g.l.trace, c), d);
    var (l1, ok) := Retry(fn, g.l, ATTEMPTS);
    ForceCleanSpares(l1, faults, c);
  }

  lemma {:induction false} StopTellsFwd(w: World, g: Gateway, faults: Faults, f: Family)
    requires FwdTold(w, g.l, g.r, f)
    ensures var l' := Stop(g, faults).0.l; var d := Attempts(l'.trace, WriteFwd(f, 0));
      && FwdTold(w, l', g.r, f)
      && (f in g.r.forwarded && true !in d ==> |d| >= |Attempts(g.l.trace, WriteFwd(f, 0))| + 3)
  {
    StopTableFrame(g, faults);
    var g1 := StopTable(g, faults);
    assert Fwd(g1.l.world, f) == Fwd(g.l.world, f);
    FwdToldSame(w, g.l, g1.l, g.r, f);
    StopRoutesTellsFwd(w, g1, faults, f);
    var g2 := StopRoutes(g1, faults);
    CloseRelayFrame(g2, faults, WriteFwd(f, 0));
    FwdToldSame(w, g2.l, CloseRelay(g2, faults).l, g.r, f);
  }

  // A rollback after a failed load has tried each forwarding file it owes.
  lemma {:induction false} RollbackWrote(w: World, ipv6: bool, faults: Faults, f: Family)
    requires var (g, res) := Run(Fresh(w), ipv6, faults); res == TableFailed && Owes(g.r, f)
    ensures |Attempts(Run(Fresh(w), ipv6, faults).0.l.trace, WriteFwd(f, 0))| >= 1
  {
    var o := Setup(Do(Log(w, []), Listen, faults).0, NO_FLAGS, ipv6, faults);
    var l3 := NftSetup(o.l, faults).0;
    RestoreForward(l3, o.r, faults, f);
    DoTries(Restore(l3, o.r, faults).0, Unlisten, faults, WriteFwd(f, 0));
  }

  // A forwarding file ends with its original value exactly when this process
  // did not write it, or it held 0 and some restoring write succeeded; if none
  // did, Stop's three were made, and before them the one of a rollback.
  lemma {:induction false} ForwardingRestored(w: World, ipv6: bool, faults: Faults, f: Family)
    ensures var (g, res) := Run(Fresh(w), ipv6, faults); var l := Stop(g, faults).0.l;
      var zeros := Attempts(l.trace, WriteFwd(f, 0));
      && (Fwd(l.world, f) == Fwd(w, f) <==> (f in g.r.forwarded ==> Fwd(w, f) == 0 && true in zeros))
      && (f in g.r.forwarded && true !in zeros ==>
            Fwd(l.world, f) == 1 && |zeros| >= if res == TableFailed then 4 else 3)
  {
    var (g, res) := Run(Fresh(w), ipv6, faults);
    RunTellsFwd(w, ipv6, faults, f);
    if res == TableFailed && Owes(g.r, f) { RollbackWrote(w, ipv6, faults, f); }
    StopTellsFwd(w, g, faults, f);
  }
}
