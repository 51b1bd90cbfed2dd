// The gateway's life as functions on values: nftables set-up and removal
// (internal/netfilter/netfilter.go) and the order of start-up, rollback and
// teardown (internal/app/app.go), under every pattern of command failures.

module Lifecycle {
  import opened Hosts
  import opened Retries
  import opened RouteSpec

  // ---- netfilter ----

  // The stale table's delete may fail; the load is atomic.
  function NftSetup(l: Log, faults: Faults): (Log, bool) {
    var (l1, found) := Do(l, FindNft, faults);
    if !found then (l1, false) else
    Do(Do(l1, Delete(Table), faults).0, Load, faults)
  }

  // A log and the manager's applied flag.
  type Nft = (Log, bool)

  function NftRestore(s: Nft, faults: Faults): (Nft, bool) {
    if !s.1 then (s, true) else
    var (l1, ok) := Do(s.0, Delete(Table), faults);
    ((l1, !ok), ok)
  }

  function NftRestoring(faults: Faults): Nft -> (Nft, bool) {
    (s: Nft) => NftRestore(s, faults)
  }

  // A table that cannot be listed counts as gone.
  function NftForceClean(l: Log, faults: Faults): (Log, bool) {
    var (l1, found) := Do(l, FindNft, faults);
    if !found then (l1, true) else
    var (l2, listed) := Do(l1, ListTable, faults);
    if !listed then (l2, true) else
    Do(l2, Delete(Table), faults)
  }

  // ---- The application ----

  // closed: Relay.Stop has closed closeCh, and closing it again panics.
  // listener: Relay.Start has stored its listener, which Relay.Stop closes.
  datatype Gateway = Gateway(l: Log, r: Flags, nft: bool, closed: bool, listener: bool)

  // Panicked: the process dies closing a closed channel.
  datatype RunResult = RelayFailed | RouteFailed | TableFailed | Serving | Panicked

  const ATTEMPTS: nat := 3

  function Fresh(w: World): Gateway {
    Gateway(Log(w, []), NO_FLAGS, false, false, false)
  }

  // Relay.Stop on a relay whose channel is open.
  function CloseRelay(g: Gateway, faults: Faults): Gateway {
    g.(l := if g.listener then Do(g.l, Unlisten, faults).0 else g.l, closed := true)
  }

  // Relay.Stop; the flag tells whether it panics.
  function StopRelay(g: Gateway, faults: Faults): (Gateway, bool) {
    if g.closed then (g, true) else (CloseRelay(g, faults), false)
  }

  // A rollback's last act: its error, unless stopping the relay panics.
  function GiveUp(g: Gateway, res: RunResult, faults: Faults): (Gateway, RunResult) {
    var (g', panics) := StopRelay(g, faults);
    (g', if panics then Panicked else res)
  }

  // Run up to its select, or to its error return.
  function Run(g: Gateway, ipv6: bool, faults: Faults): (Gateway, RunResult) {
    var (l1, listening) := Do(g.l, Listen, faults);
    if !listening then (g.(l := l1), RelayFailed) else
    var o := Setup(l1, g.r, ipv6, faults);
    var g2 := g.(l := o.l, r := o.r, listener := true);
    if !o.ok then GiveUp(g2, RouteFailed, faults) else
    var (l3, loaded) := NftSetup(o.l, faults);
    if !loaded then
      var g3 := g2.(l := Restore(l3, o.r, faults).0);
      GiveUp(g3, TableFailed, faults)
    else
      (g2.(l := l3, nft := true), Serving)
  }

  // The nftables phase of Stop.
  function StopTable(g: Gateway, faults: Faults): Gateway {
    var ((l1, nft1), ok) := Retry(NftRestoring(faults), (g.l, g.nft), ATTEMPTS);
    g.(l := if ok then l1 else NftForceClean(l1, faults).0, nft := nft1)
  }

  // The policy-routing phase of Stop.
  function StopRoutes(g: Gateway, faults: Faults): Gateway {
    var (l1, ok) := Retry(Restoring(g.r, faults), g.l, ATTEMPTS);
    g.(l := if ok then l1 else ForceClean(l1, faults))
  }

  // Stop; the flag tells whether closing the relay's channel panics.
  function Stop(g: Gateway, faults: Faults): (Gateway, bool) {
    StopRelay(StopRoutes(StopTable(g, faults), faults), faults)
  }

  // ---- The channel ----

  // Stop panics exactly when Run had already stopped the relay, and only after
  // both cleaning phases.
  lemma {:induction false} PanicsIffRunStoppedRelay(w: World, ipv6: bool, faults: Faults)
    ensures var (g, res) := Run(Fresh(w), ipv6, faults); var (g', panics) := Stop(g, faults);
      && (panics <==> res == RouteFailed || res == TableFailed)
      && (panics ==> g' == StopRoutes(StopTable(g, faults), faults))
  {
  }
}
