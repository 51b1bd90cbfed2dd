// The host as explicit state: the TPROXY table, the policy rules and routes of
// both families, the two forwarding files and the relay's listening socket.
// Every command may fail, and a failed command changes nothing.

module Hosts {
  import opened Families

  datatype Item = Table | Rule(fam: Family) | Route(fam: Family)

  // What the files under /proc hold; the kernel accepts more than 0 and 1.
  datatype World = World(items: set<Item>, fwd4: int, fwd6: int, listening: bool)

  function Fwd(w: World, f: Family): int {
    if f == V4 then w.fwd4 else w.fwd6
  }

  datatype Cmd =
    | FindNft                     // exec.LookPath("nft")
    | ListTable                   // nft list table
    | Load                        // nft -f -
    | Delete(x: Item)
    | Add(x: Item)
    | ReadFwd(f: Family)
    | WriteFwd(f: Family, v: int)
    | Listen                      // bind the TPROXY port
    | Unlisten                    // close the listener

  // Adding a rule or route that exists and deleting an item that does not fail.
  function Exec(w: World, c: Cmd, fault: bool): (World, bool) {
    if fault && c != Unlisten then (w, false) else
    match c
    case FindNft => (w, true)
    case ListTable => (w, Table in w.items)
    case Load => (w.(items := w.items + {Table}), true)
    case Delete(x) => if x in w.items then (w.(items := w.items - {x}), true) else (w, false)
    case Add(x) => if x in w.items then (w, false) else (w.(items := w.items + {x}), true)
    case ReadFwd(_) => (w, true)
    case WriteFwd(f, v) => (if f == V4 then w.(fwd4 := v) else w.(fwd6 := v), true)
    case Listen => (w.(listening := true), true)
    case Unlisten => (w.(listening := false), true)
  }

  datatype Event = Event(cmd: Cmd, ok: bool, after: World)

  // The outcomes of the attempts at one command, in order.
  function Attempts(tr: seq<Event>, c: Cmd): seq<bool> {
    if tr == [] then [] else
    var e := tr[|tr| - 1];
    Attempts(tr[..|tr| - 1], c) + if e.cmd == c then [e.ok] else []
  }

  // Traffic is only intercepted while the relay listens and the policy routing
  // that carries it there is complete.
  predicate Safe(w: World, needed: set<Item>) {
    Table in w.items ==> w.listening && needed <= w.items
  }

  predicate AllSafe(tr: seq<Event>, needed: set<Item>) {
    forall i :: 0 <= i < |tr| ==> Safe(tr[i].after, needed)
  }

  // ---- Histories in general ----

  ghost predicate Legal(start: World, tr: seq<Event>) {
    tr == [] ||
    var n := |tr| - 1;
    && Legal(start, tr[..n])
    && Possible(End(start, tr[..n]), tr[n])
  }

  predicate Possible(w: World, e: Event) {
    (e.after, e.ok) == Exec(w, e.cmd, false) || (e.after, e.ok) == Exec(w, e.cmd, true)
  }

  function End(start: World, tr: seq<Event>): World {
    if tr == [] then start else tr[|tr| - 1].after
  }

  predicate Installs(e: Event, x: Item) {
    e.ok && (e.cmd == Add(x) || (e.cmd == Load && x == Table))
  }

  predicate Installed(tr: seq<Event>, x: Item) {
    exists i :: 0 <= i < |tr| && Installs(tr[i], x)
  }

  // The outcomes of the attempts to delete x since it was last installed.
  function DeletesSince(tr: seq<Event>, x: Item): seq<bool> {
    if tr == [] then [] else
    var e := tr[|tr| - 1];
    if Installs(e, x) then [] else
    DeletesSince(tr[..|tr| - 1], x) + if e.cmd == Delete(x) then [e.ok] else []
  }

  // In any history of commands under any failures: an item is present at the
  // end exactly when it was there or installed and every later delete failed.
  lemma {:induction false} SurvivesIffAllDeletesFailed(start: World, tr: seq<Event>, x: Item)
    requires Legal(start, tr)
    ensures x in End(start, tr).items <==>
      (x in start.items || Installed(tr, x)) && true !in DeletesSince(tr, x)
  {
    if tr != [] {
      var n := |tr| - 1;
      SurvivesIffAllDeletesFailed(start, tr[..n], x);
      InstalledSplits(tr, x);
    }
  }

  lemma {:induction false} InstalledSplits(tr: seq<Event>, x: Item)
    requires tr != []
    ensures Installed(tr, x) <==> Installed(tr[..|tr| - 1], x) || Installs(tr[|tr| - 1], x)
  {
    var n := |tr| - 1;
    if Installed(tr, x) {
      var i :| 0 <= i < |tr| && Installs(tr[i], x);
      assert i < n ==> tr[..n][i] == tr[i];
    }
    if Installed(tr[..n], x) {
      var i :| 0 <= i < n && Installs(tr[..n][i], x);
      assert tr[..n][i] == tr[i];
    }
  }

  // ---- One host, driven by commands ----

  // faults decides which commands fail, by their position in the history.
  type Faults = nat -> bool

  datatype Log = Log(world: World, trace: seq<Event>)

  function Do(l: Log, c: Cmd, faults: Faults): (Log, bool) {
    var (w, ok) := Exec(l.world, c, faults(|l.trace|));
    (Log(w, l.trace + [Event(c, ok, w)]), ok)
  }

  ghost predicate Follows(start: World, l: Log) {
    Legal(start, l.trace) && l.world == End(start, l.trace)
  }

  lemma {:induction false} DoFollows(start: World, l: Log, c: Cmd, faults: Faults)
    requires Follows(start, l)
    ensures Follows(start, Do(l, c, faults).0)
  {
    var t := Do(l, c, faults).0.trace;
    assert t[..|t| - 1] == l.trace;
    assert Possible(l.world, t[|t| - 1]);
  }

  // What one command does to the history.
  lemma {:induction false} DoTries(l: Log, c: Cmd, faults: Faults, d: Cmd)
    ensures Attempts(Do(l, c, faults).0.trace, d)
         == Attempts(l.trace, d) + if d == c then [Do(l, c, faults).1] else []
  {
    var t := Do(l, c, faults).0.trace;
    assert t[..|t| - 1] == l.trace;
  }

  lemma {:induction false} DoSafe(l: Log, c: Cmd, faults: Faults, needed: set<Item>)
    ensures AllSafe(Do(l, c, faults).0.trace, needed) <==>
            AllSafe(l.trace, needed) && Safe(Do(l, c, faults).0.world, needed)
  {
    var t := Do(l, c, faults).0.trace;
    assert t[|t| - 1].after == Do(l, c, faults).0.world;
    if AllSafe(t, needed) {
      assert AllSafe(l.trace, needed) by {
        forall i | 0 <= i < |l.trace| ensures Safe(l.trace[i].after, needed) { assert t[i] == l.trace[i]; }
      }
    }
  }

  // The outcomes of the attempts at c made between l and l'.
  function Tried(l: Log, l': Log, c: Cmd): seq<bool> {
    var a, b := Attempts(l.trace, c), Attempts(l'.trace, c);
    if |a| <= |b| then b[|a|..] else []
  }

  lemma {:induction false} TriedIs(l: Log, l': Log, c: Cmd, d: seq<bool>)
    requires Attempts(l'.trace, c) == Attempts(l.trace, c) + d
    ensures Tried(l, l', c) == d
  {
  }

  class Host {
    const faults: Faults
    var log: Log

    constructor (world: World, faults: Faults)
      ensures log == Log(world, []) && this.faults == faults
    {
      this.log, this.faults := Log(world, []), faults;
    }

    method Run(c: Cmd) returns (ok: bool)
      modifies this
      ensures (log, ok) == Do(old(log), c, faults)
    {
      var r := Do(log, c, faults);
      log, ok := r.0, r.1;
    }
  }
}
