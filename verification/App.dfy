// The nftables manager (internal/netfilter/netfilter.go), the relay's start and
// stop, and the application that orders them (internal/app/app.go), step by
// step on the host; each method computes what its specification function says.

module Apps {
  import opened Hosts
  import opened Retries
  import RouteSpec
  import opened RouteManagers
  import opened Lifecycle

  class NftManager {
    const host: Host
    var applied: bool

    constructor (host: Host)
      ensures this.host == host && !applied
    {
      this.host, this.applied := host, false;
    }

    method Setup() returns (ok: bool)
      modifies this, host
      ensures (host.log, ok) == NftSetup(old(host.log), host.faults)
      ensures applied == (old(applied) || ok)
    {
      ok := host.Run(FindNft);
      if !ok { return; }
      var _ := host.Run(Delete(Table));
      ok := host.Run(Load);
      if !ok { return; }
      applied := true;
    }

    method Restore() returns (ok: bool)
      modifies this, host
      ensures ((host.log, applied), ok) == NftRestore((old(host.log), old(applied)), host.faults)
    {
      if !applied { return true; }
      ok := host.Run(Delete(Table));
      if !ok { return; }
      applied := false;
    }

    method ForceClean() returns (ok: bool)
      modifies host
      ensures (host.log, ok) == NftForceClean(old(host.log), host.faults)
    {
      ok := host.Run(FindNft);
      if !ok { return true; }
      ok := host.Run(ListTable);
      if !ok { return true; }
      ok := host.Run(Delete(Table));
    }
  }

  class App {
    const host: Host
    const route: RouteManager
    const netfilter: NftManager
    var closed: bool    // the relay's closeCh
    var listener: bool  // whether the relay has a listener to close

    constructor (host: Host, enableIPv6: bool)
      ensures this.host == host && fresh(route) && fresh(netfilter)
      ensures Valid() && route.enableIPv6 == enableIPv6
      ensures State() == Gateway(host.log, RouteSpec.NO_FLAGS, false, false, false)
    {
      this.host, this.closed, this.listener := host, false, false;
      this.route := new RouteManager(host, enableIPv6);
      this.netfilter := new NftManager(host);
    }

    ghost predicate Valid() {
      route.host == host && netfilter.host == host
    }

    ghost function State(): Gateway
      reads this, host, route, netfilter
    {
      Gateway(host.log, route.flags, netfilter.applied, closed, listener)
    }

    // Closing a closed channel panics, with nothing changed.
    method StopRelay() returns (panics: bool)
      requires Valid()
      modifies this, host
      ensures (State(), panics) == Lifecycle.StopRelay(old(State()), host.faults)
    {
      if closed { return true; }
      closed := true;
      if listener {
        var _ := host.Run(Unlisten);
      }
      panics := false;
    }

    method Run() returns (res: RunResult)
      requires Valid()
      modifies this, host, route, netfilter
      ensures (State(), res) == Lifecycle.Run(old(State()), route.enableIPv6, host.faults)
    {
      var ok := host.Run(Listen);
      if !ok { return RelayFailed; }
      listener := true;
      ok := route.Setup();
      if !ok {
        var panics := StopRelay();
        return if panics then Panicked else RouteFailed;
      }
      ok := netfilter.Setup();
      if !ok {
        var _ := route.Restore();
        var panics := StopRelay();
        return if panics then Panicked else TableFailed;
      }
      res := Serving;
    }

    // retry over netfilter.Restore.
    method RetryTable(attempts: nat) returns (ok: bool)
      requires Valid() && attempts > 0
      modifies host, netfilter
      ensures ((host.log, netfilter.applied), ok)
           == Retry(NftRestoring(host.faults), (old(host.log), old(netfilter.applied)), attempts)
    {
      var fn := NftRestoring(host.faults);
      var i := 0;
      ok := false;
      while i < attempts
        invariant 0 <= i <= attempts && !ok
        invariant Retry(fn, (old(host.log), old(netfilter.applied)), attempts)
               == if i < attempts then Retry(fn, (host.log, netfilter.applied), attempts - i)
                  else ((host.log, netfilter.applied), false)
      {
        ok := netfilter.Restore();
        if ok { return; }
        i := i + 1;
      }
    }

    // retry over route.Restore.
    method RetryRoutes(attempts: nat) returns (ok: bool)
      requires Valid() && attempts > 0
      modifies host
      ensures (host.log, ok) == Retry(RouteSpec.Restoring(route.flags, host.faults), old(host.log), attempts)
    {
      var fn := RouteSpec.Restoring(route.flags, host.faults);
      var i := 0;
      ok := false;
      while i < attempts
        invariant 0 <= i <= attempts && !ok
        invariant Retry(fn, old(host.log), attempts)
               == if i < attempts then Retry(fn, host.log, attempts - i) else (host.log, false)
      {
        ok := route.Restore();
        if ok { return; }
        i := i + 1;
      }
    }

    method Stop() returns (panics: bool)
      requires Valid()
      modifies this, host, netfilter
      ensures (State(), panics) == Lifecycle.Stop(old(State()), host.faults)
    {
      var ok := RetryTable(ATTEMPTS);
      if !ok {
        var _ := netfilter.ForceClean();
      }
      ok := RetryRoutes(ATTEMPTS);
      if !ok {
        route.ForceClean();
      }
      panics := StopRelay();
    }
  }
}
