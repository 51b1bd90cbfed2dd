// The policy-routing manager (internal/route/route.go): each method computes
// what its specification function says, step by step on the host.

module RouteManagers {
  import opened Families
  import opened Hosts
  import opened RouteSpec

  class RouteManager {
    const host: Host
    const enableIPv6: bool
    var flags: Flags

    constructor (host: Host, enableIPv6: bool)
      ensures this.host == host && this.enableIPv6 == enableIPv6 && flags == NO_FLAGS
    {
      this.host, this.enableIPv6, this.flags := host, enableIPv6, NO_FLAGS;
    }

    method EnableForward(f: Family) returns (ok: bool)
      modifies this, host
      ensures Out(host.log, flags, ok) == RouteSpec.EnableForward(old(host.log), old(flags), f, host.faults)
    {
      ok := host.Run(ReadFwd(f));
      if !ok { return; }
      if Fwd(host.log.world, f) == 1 {
        flags := flags.(wasEnabled := flags.wasEnabled + {f});
        return;
      }
      flags := flags.(wasEnabled := flags.wasEnabled - {f});
      ok := host.Run(WriteFwd(f, 1));
      if !ok { return; }
      flags := flags.(forwarded := flags.forwarded + {f});
    }

    method AddItem(x: Item) returns (ok: bool)
      modifies this, host
      ensures Out(host.log, flags, ok) == RouteSpec.AddItem(old(host.log), old(flags), x, host.faults)
    {
      var _ := host.Run(Delete(x));
      ok := host.Run(Add(x));
      if !ok { return; }
      flags := flags.(applied := flags.applied + {x});
    }

    method Setup() returns (ok: bool)
      modifies this, host
      ensures Out(host.log, flags, ok) == RouteSpec.Setup(old(host.log), old(flags), enableIPv6, host.faults)
    {
      ok := EnableForward(V4);
      if !ok { return; }
      ok := AddItem(Rule(V4));
      if !ok { return; }
      ok := AddItem(Route(V4));
      if !ok { return; }
      if enableIPv6 {
        ok := EnableForward(V6);
        if !ok { return; }
        ok := AddItem(Rule(V6));
        if !ok { return; }
        ok := AddItem(Route(V6));
      }
    }

    method Undo(x: Item) returns (ok: bool)
      modifies host
      ensures (host.log, ok) == RouteSpec.Undo(old(host.log), flags, x, host.faults)
    {
      ok := true;
      if x in flags.applied {
        ok := host.Run(Delete(x));
      }
    }

    method UndoForward(f: Family) returns (ok: bool)
      modifies host
      ensures (host.log, ok) == RouteSpec.UndoForward(old(host.log), flags, f, host.faults)
    {
      ok := true;
      if f in flags.forwarded && f !in flags.wasEnabled {
        ok := host.Run(WriteFwd(f, 0));
      }
    }

    // Collects every error and goes on.
    method Restore() returns (ok: bool)
      modifies host
      ensures (host.log, ok) == RouteSpec.Restore(old(host.log), flags, host.faults)
    {
      var a := Undo(Route(V6));
      var b := Undo(Rule(V6));
      var c := Undo(Route(V4));
      var d := Undo(Rule(V4));
      var e := UndoForward(V6);
      var f := UndoForward(V4);
      ok := a && b && c && d && e && f;
    }

    method ForceClean()
      modifies host
      ensures host.log == RouteSpec.ForceClean(old(host.log), host.faults)
    {
      var _ := host.Run(Delete(Route(V4)));
      var _ := host.Run(Delete(Rule(V4)));
      var _ := host.Run(Delete(Route(V6)));
      var _ := host.Run(Delete(Rule(V6)));
    }
  }
}
