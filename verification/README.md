# Verification of the LAN proxy gateway

This project models the gateway's stateful core in Dafny and proves what it
keeps over whole runs, in every interleaving and under every pattern of
failures. `dafny verify dfyconfig.toml` checks all of it.

## What is modelled

**Relay and statistics as one concurrent system** (`Machine`, `Accounting`,
`RelayInvariants`, `Scans`, `Runs`, `Admission`, `ScanResults`, `DeviceRows`,
`TornDevices`, `Shutdown`, `Ledger`). One accept
loop spawns any number of connection handlers; each is a program counter that
goes through counting, opening, dialling, copying, recording and uncounting,
one atomic operation a step. Any number of readers scan the 64 shards, one lock
at a time and one atomic load at a time, while handlers go on; the sampler is
one of them. `Relay.Stop` closes the channel, then the listener, then waits for
the group. A run is any sequence of such steps; there is no bound on handlers,
devices, scans or length. The invariants are proved step by step and then
stated over runs.

**The collector at rest and its rings** (`ShardIndex`, `DeviceTable`, `Rings`).
The classes follow the source's methods: the wrapping hash loop, the sharded
table, the ring of recent records, the ring of traffic samples and the sampler.
The table is proved to stand for one map, the rings for the end of an unbounded
history, the truncated rates to conserve bytes.

**The life of the system state** (`Host`, `Retries`, `RouteSpec`,
`RouteManager`, `Lifecycle`, `Histories`, `Teardown`, `Ordering`, `Steps`,
`Overlap`, `App`). The host is
explicit: the nftables table, the rules and routes of both families, the two
forwarding files and the listening socket, together with the history of every
command tried. An arbitrary function of the position in that history says which
commands fail; a failed command changes nothing, and deleting what is absent or
adding what is present fails by itself. The three managers are classes whose
methods equal specification functions, and the theorems are about those.

**The packet classifier** (`Classifier`). The ruleset is generated from the
options in the source's order and evaluated expression by expression; networks
are compiled to numeric intervals.

**Copying** (`Streams`, `Tunnel`, `Duplex`). The copy loop over an array
buffer, the buffered reader behind an HTTP CONNECT, and both directions with
half-closes and full closes as a step system.

**Logs and remarks** (`Dates`, `Retention`, `LogSpec`, `Logger`, `Remarks`,
`Settling`, `Scanner`). Log rotation and retention for any fixed zone offset, and the
dirty-flag protocol of the remark savers as a step system.

## What turned out to need a condition

- The connection cap holds up to `limit + p - 1` when `p` counts connections
  from the admission check on, the accept loop's own included. Counting only
  handlers already spawned, the bound is `limit + p`. Both bounds are reached
  for every positive limit and every `p >= 1` (`SoftCapIsTight`,
  `SpawnedOnlyExceeds`).
- A row of `Devices` loads the connection total first. It shows more active
  than total connections exactly when the opens of that address counted between
  the two loads, less the closes, exceed the connections not active at the
  first; so never without such an open, and never once `Relay.Stop` has returned
  (`RowTornIff`, `RowSaneWithoutOpens`, `StoppedRowsSane`). `DevicesCanTear` is
  such a run. `Totals` loads in the other order and is always sane
  (`TotalsSane`).
- A forwarding file returns to its original value exactly if this process did
  not write it, or it held 0 and a restoring write succeeded. The kernel also
  accepts other values; the source writes 0 back for them (`ForwardingRestored`).
- From a clean start, with `Stop` only after `Run` has reached its select or
  returned, the gateway is safe throughout exactly if the loaded table is
  deleted in the end (`SafeOnceDeleted`).
- `Stop` may also come while `Run` is under way, in a routine of its own, and the
  process ends when `Stop` has returned. In every interleaving of their steps
  from a clean start, under any failures: when the process is over nothing
  listens, and the table is left exactly if it was loaded and `Stop` looked at
  `applied` before `Run` had set it, or all of `Stop`'s deletes failed
  (`TableLeftIff`). Without faults nothing panics and only the early look can
  leave it (`TableLeftWithoutFaults`); after an early look it always can
  (`EarlyLookCanLeave`).
- In the same system the process only ends after both cleaning phases. Of a
  rollback of `Run` and `Stop`, the one that closes the relay's channel second
  panics (`WhichClosePanics`).
- Without such an overlap `Stop` panics on the closed channel exactly after a
  failed route or netfilter set-up, and only once both cleaning phases are done
  (`PanicsIffRunStoppedRelay`).
- With IPv6 off, a leftover IPv6 rule or route still falls to the forced clean:
  it survives exactly if `route.Restore` succeeded under retry or the forced
  delete of it failed (`LeftoverIPv6`).
- The log file just opened is deleted exactly if the limit is one day and the
  local time of day is past a day plus the (negative) zone offset
  (`TodaySelected`, `RotateKeepsToday`).
- `cleanup` takes only names that `fileNameFor` can produce, exactly if the
  prefix and the extension cannot overlap around a date; a log path whose last
  element is `x..-2020-01-01` makes them overlap (`OnlyOwnNames`,
  `OverlapExists`).
- Remark savers that overlap may or may not leave an older map in the file with
  no call failing. From any state, every order of the remaining work ends with
  the current map exactly if every saver still to write carries it and, where no
  saver is still to write or to copy a change, the content about to be renamed
  (with nothing to rename, the file) is the current map (`SettlesIff`).
  `OverlapLosesChange` is a run that ends with an older one.

Where comments and code disagree the model follows the code: route.Restore is
described as undoing everything but never clears its flags, so a second call
fails on what the first removed; the comment on the connection cap promises
rejection at the limit, which the counting inside the handler only
approximates; and the log options promise removal after the given days, while
the comparison of a UTC midnight with a local clock shifts the bound by up to a
day in either direction.

## Model

| member | source | states |
|---|---|---|
| Runs.StepKeepsSystem | internal/stats/stats.go:109-164 | every step of accept loop, handlers, scans, sampler and Stop keeps the whole system invariant |
| Runs.TotalsBetween | internal/stats/stats.go:216-231 | in every interleaving a scan's bytes, connection total and device count lie between the true values at its start and at any later state where it is finished |
| Runs.TotalsSane | internal/stats/stats.go:222-227 | every Totals result of every run has 0 <= active <= total, even torn inside OpenConn |
| Runs.TotalsNeverTears | internal/stats/stats.go:128-134 | the same for any finished scan that loads the active count before the total |
| ScanResults.RestingScanIsExact | internal/stats/stats.go:216-231 | a scan that begins and ends with the same collector returns the true bytes, connections and device count, and the true active count if nothing changes in between |
| ScanResults.ScansNeverDecrease | internal/stats/stats.go:216-231 | a scan finished when another begins returns no more than it, in bytes, connections and devices |
| ScanResults.SamplesNeverDecrease | internal/stats/stats.go:254-269 | in every run the single sampler's scans follow one another, so its totals never decrease |
| ScanResults.SamplerReadingsRise | internal/stats/stats.go:254-269 | the whole sequence of its readings, skipped calls included, is one RatesConserve applies to |
| ScanResults.SamplerConserves | internal/stats/stats.go:267-300 | so in every run of the concurrent system the sampler's rates conserve bytes over the nanoseconds between its first and its last recorded call |
| ScanResults.SampleSets | internal/stats/stats.go:274-299 | the first sample sets the base whatever the clock says, a later one moves it unless it comes too soon |
| ScanResults.SamplersAgree | internal/stats/stats.go:274-299 | the concurrent sampler and the one on values keep the same base |
| Admission.SamplesNeverUnderflow | internal/stats/stats.go:267-300 | in every run the totals the sampler has just read are at least its last ones, so its subtractions never wrap |
| DeviceRows.RowTornIff | internal/stats/stats.go:172-181 | in every run a Devices row shows active over total iff the opens less the closes of its address between the two loads exceed total less active at the first |
| DeviceRows.RowLoads | internal/stats/stats.go:172-181 | every Devices row has two such loads, the total's before the active count's |
| DeviceRows.RowSaneWithoutOpens | internal/stats/stats.go:172-181 | a row between whose loads no connection of its address is opened shows active <= total |
| DeviceRows.StoppedRowsSane | internal/relay/relay.go:82-89 | once Relay.Stop has returned every row shows no active connection |
| TornDevices.DevicesCanTear | internal/stats/stats.go:173-180 | a run exists in which a Devices row shows active 1 and total 0 |
| Admission.SoftCap | internal/relay/relay.go:105-122 | with at most p admitted connections not yet counted, activeConns never exceeds limit + p - 1 |
| Admission.SoftCapIsTight | internal/relay/relay.go:105-122 | for every positive limit and every p >= 1 some run reaches that bound |
| Admission.SpawnedOnlyCap | internal/relay/relay.go:113-121 | counting only spawned handlers the bound is limit + p |
| Admission.SpawnedOnlyExceeds | internal/relay/relay.go:113-121 | and some run reaches it, for every positive limit and every p >= 1 |
| Admission.AdmittedIff | internal/relay/relay.go:106-111 | a connection is turned away iff there is a positive limit and it is reached |
| Admission.UnlimitedGrows | internal/relay/relay.go:106-111 | without a limit some run has any number of connections counted at once |
| Admission.ActiveAlwaysChained | internal/relay/relay.go:113-122 | at every state of every run 0 <= sum of active counts <= activeConns <= live handlers <= WaitGroup counter, and wg.Add never starts from zero |
| RelayInvariants.NeverAddsFromZero | internal/relay/relay.go:76-113 | whenever wg.Add(1) is next the counter is at least 1 and Stop has not returned |
| Admission.ConnectionsRecordedOnce | internal/relay/relay.go:118-154 | every finished handler that opened a connection has exactly one record, and it carries the handler's ID, address, bytes sent, bytes received and upstream |
| Ledger.CountersAreRecords | internal/stats/stats.go:138-156 | once Relay.Stop has returned, each address's bytes sent, bytes received and connections in the collector are the sums and the number of the records that carry it |
| Ledger.RecordsTellRoutes | internal/relay/relay.go:158-176 | in every run a record of a direct connection means that fallback is on, and one of a failed connection carries no bytes |
| Ledger.DialTries | internal/relay/relay.go:158-176 | a dial takes the proxy if it answers, the destination itself only with fallback on, and otherwise fails with no bytes |
| Ledger.BytesStay | internal/relay/relay.go:149-153 | a handler's bytes are what its copy moved, and no later step changes them |
| Ledger.BadLeavesNothing | internal/relay/relay.go:129-132 | a connection whose address does not parse comes to its end counted and uncounted, with no trace in the collector |
| RelayInvariants.NotRecordedEarly | internal/relay/relay.go:134-154 | until its append no record carries a handler's ID |
| Admission.StoppedForGood | internal/relay/relay.go:82-89 | once Relay.Stop has returned nothing changes in handlers or collector, all active counts are 0 and the connection total is the number of records |
| RelayInvariants.AfterStop | internal/relay/relay.go:82-89 | in such a state no accept, wg.Add, spawn or handler step is enabled |
| Shutdown.StopCanReturn | internal/relay/relay.go:82-89 | from every state of every run in which the listener is closed, with connections open, scans under way and locks held, Stop can return |
| Admission.OneRecordPerAddress | internal/stats/stats.go:109-125 | racing double-checked creations never leave two records for an address |
| Admission.LivesInOwnShard | internal/stats/stats.go:109-125 | in every run an address is found in a shard iff that is its own and it has a record |
| Admission.NoIncrementLost | internal/stats/stats.go:128-142 | in every run each address's counters are exactly the sum of what its handlers have added |
| ShardIndex.ShardFor | internal/stats/stats.go:101-107 | the wrapping 32-bit loop returns the unbounded base-31 polynomial mod 64 |
| ShardIndex.WrapKeepsShard | internal/stats/stats.go:102-106 | reducing mod 2^32 does not change the remainder mod 64 |
| ShardIndex.ShardOfAb | internal/stats/stats.go:101-107 | "ab" is in shard 33 |
| DeviceTable.DeviceTable.Device | internal/stats/stats.go:109-125 | returns the one record of the address, new or old, and keeps every other record and the partition into shards |
| DeviceTable.DeviceTable.OpenConn | internal/stats/stats.go:128-134 | changes only the address's row of the map the shards stand for, by one connection and one active, and returns the next ID |
| DeviceTable.DeviceTable.CountClosed | internal/stats/stats.go:138-142 | changes only that row: one active connection fewer, the bytes sent and received more |
| DeviceTable.DeviceTable.Totals | internal/stats/stats.go:216-231 | returns the number of the map's rows and the sum of each counter over them, in whatever order they are listed |
| DeviceTable.DeviceTable.Devices | internal/stats/stats.go:167-188 | returns a permutation of the map's rows by descending traffic |
| DeviceTable.SumEntriesPermutation | internal/stats/stats.go:218-229 | the sums do not depend on the order a map iteration takes |
| DeviceTable.SortByTrafficSorts | internal/stats/stats.go:184-186 | sorting yields a permutation by descending traffic |
| Rings.RecentLog.Append | internal/stats/stats.go:157-163 | appends to the unbounded history the ring stands for |
| Rings.RecentLog.Recent | internal/stats/stats.go:191-204 | returns the newest min(n, capacity, count) records of that history, newest first |
| Rings.TrafficSampler.Sample | internal/stats/stats.go:267-300 | the new state is the sampling function of the old one, whose meaning SampledPoint states; rates conserve bytes |
| Rings.RatesConserve | internal/stats/stats.go:267-300 | over any run of calls the rates carry the bytes since the first call up to the last recorded one, less under one byte per second of their span, which is the nanoseconds between those two calls |
| Rings.SampledPoint | internal/stats/stats.go:282-299 | a call 500,000,000 ns or more after the last one, and no other, records a point: the milliseconds, and the bytes per second in whole numbers of bytes and nanoseconds |
| Rings.RateBracket | internal/stats/stats.go:287-288 | a truncated rate times its interval is at most the bytes and short by less than one byte per second |
| Rings.TrafficSampler.TrafficSamples | internal/stats/stats.go:234-251 | returns what a reader is shown of the recorded history, across any number of wraparounds |
| Rings.ShownIsWindow | internal/stats/stats.go:237-250 | with non-zero timestamps that is exactly the last min(300, count) points, oldest first |
| RouteManagers.RouteManager.EnableForward | internal/route/route.go:67-97 | host, flags and result equal the specification function |
| RouteManagers.RouteManager.AddItem | internal/route/route.go:99-134 | the same for the four delete-then-add steps |
| RouteManagers.RouteManager.Setup | internal/route/route.go:43-65 | the same for the whole set-up, with its early returns |
| RouteManagers.RouteManager.Restore | internal/route/route.go:137-173 | the same for the undo that collects every error and goes on |
| RouteManagers.RouteManager.ForceClean | internal/route/route.go:178-187 | the same for the unconditional deletes of both families |
| RouteSpec.SetupMarks | internal/route/route.go:43-134 | wherever Setup stops, a flag is set iff that command succeeded in this process |
| Teardown.RunMarks | internal/app/app.go:77-94 | the same wherever Run stops, rollback included |
| RouteSpec.SetupApplies | internal/route/route.go:43-134 | wherever Setup stops flagged items are present, flagged forwarding files changed to 1, all else untouched; success iff everything wanted is flagged, and then the forwarding files hold 1, IPv6's too with IPv6 on |
| RouteSpec.RestoreUndoesSetup | internal/route/route.go:137-173 | one fully successful Restore after any Setup removes exactly the flagged items; a forwarding file returns to its value iff it was not written or held 0 |
| RouteSpec.NoIPv6 | internal/route/route.go:53-63 | with IPv6 off, Setup and Restore leave IPv6 state alone under any failures |
| Teardown.LeftoverIPv6 | internal/route/route.go:178-187 | over Run and Stop with IPv6 off, a leftover IPv6 rule or route survives iff route.Restore succeeded under retry or the forced delete of it failed |
| Ordering.SetupSucceeds | internal/route/route.go:43-134 | without faults Setup succeeds from any leftovers |
| Retries.RetryConverges | internal/app/app.go:155-166 | a retry returning nil removed an item in its last attempt and in no earlier one |
| Retries.PartialAttemptIsFinal | internal/app/app.go:155-166 | an attempt that removes an item and still fails makes every later attempt fail |
| Teardown.RestoreConverges | internal/app/app.go:144-148 | for route.Restore under retry: nil implies every flagged item gone by the last attempt alone; an attempt that removes one and fails is never followed by nil; giving up implies all attempts were made |
| Teardown.RestoreWritesForwarding | internal/route/route.go:159-168 | under retry an owed forwarding file is written once per attempt, holds 0 from the first success on, and nil implies one; another file is left alone |
| Teardown.StopRemovesItem | internal/app/app.go:143-148 | a flagged rule or route survives Stop iff every delete Stop tried failed, and then there were exactly four |
| Teardown.StopRemovesTable | internal/app/app.go:132-141 | the applied table survives Stop iff every delete tried failed, and then there were four, or three where finding nft or listing the table failed |
| Teardown.StopDropsTable | internal/app/app.go:132-141 | by the commands: the table survives Stop iff the three deletes fail and one of finding nft, listing the table and the forced delete does |
| Teardown.ForceDrops | internal/netfilter/netfilter.go:183-193 | ForceClean deletes the table unless one of its three commands fails, and returns an error only for the delete |
| Teardown.ItemSurvivesProcess | internal/app/app.go:77-152 | over Run and Stop: a rule or route this process installed is left iff every delete of it since failed: Stop's four, and before them the rollback's after a failed load |
| Teardown.TableSurvivesProcess | internal/app/app.go:77-141 | the same for the loaded table: four deletes, or three where the forced clean failed to find nft or to list the table |
| Teardown.ForwardingRestored | internal/route/route.go:159-168 | a forwarding file ends with its original value iff it was not written, or held 0 and some restoring write succeeded; otherwise Stop's three were tried, and before them the rollback's after a failed load |
| Ordering.SafeThroughout | internal/app/app.go:77-152 | from a clean start, the table is only ever there while the relay listens and rule and route are present, iff the table is gone in the end; Run alone never breaks it |
| Ordering.SafeOnceDeleted | internal/app/app.go:118-152 | so it is safe throughout iff Run did not load the table or one delete of Stop succeeded |
| Ordering.RunGuarded | internal/app/app.go:77-94 | Run leaves the table iff it serves, and then with the relay listening, everything wanted present and forwarding on |
| Ordering.RunResults | internal/app/app.go:77-94 | Run's result says which of the relay, the routes and the table failed |
| Ordering.RunStopsRelay | internal/app/app.go:84-94 | Run stops the relay again iff the routes or the table failed |
| Ordering.RunLoadsAfresh | internal/netfilter/netfilter.go:140-158 | a Run that serves loads last, from any start, and no stale table is left then unless there was one and its delete failed |
| Steps.StepsAreRun | internal/app/app.go:77-94 | Run in single steps, with nothing in between, under any failures and from any state, is Run |
| Steps.StepsAreStop | internal/app/app.go:124-152 | the same for Stop, retries, forced cleaning and panic included |
| Overlap.TableLeftIff | cmd/gateway/main.go:80-91 | in every interleaving of Run's and Stop's steps, from a clean start under any failures: at the end of the process nothing listens, and the table is left, and the host unsafe, iff it was loaded and Stop looked at applied before Run had set it, or all of Stop's deletes failed: four, or three where nft or the table could not be found |
| Overlap.TableLeftWithoutFaults | cmd/gateway/main.go:80-91 | without faults the process exits without a panic, and the table is left iff the load has run and Stop had looked before |
| Overlap.EarlyLookCanLeave | internal/netfilter/netfilter.go:161-164 | from every state of every faultless schedule in which Stop has looked too early, some continuation leaves the table |
| Overlap.StopCanEnd | internal/relay/relay.go:82-89 | from every such state, failures included, Stop can bring the process to its end |
| Overlap.WhichClosePanics | internal/relay/relay.go:82-83 | in every interleaving under any failures: the process only ends after Stop's cleaning phases; Stop panics iff a rollback closed the channel first, Run iff Stop did; otherwise main returns |
| Lifecycle.PanicsIffRunStoppedRelay | internal/relay/relay.go:82-83 | Stop panics iff Run had already stopped the relay, after both cleaning phases |
| Apps.NftManager.Setup | internal/netfilter/netfilter.go:140-158 | host and applied flag equal the specification function |
| Apps.NftManager.Restore | internal/netfilter/netfilter.go:161-170 | the same, with the flag cleared only on success |
| Apps.NftManager.ForceClean | internal/netfilter/netfilter.go:183-193 | the same, counting a table that cannot be listed as gone |
| Apps.App.Run | internal/app/app.go:77-116 | the whole state and result equal the specification function, with each rollback |
| Apps.App.RetryTable | internal/app/app.go:155-166 | the retry loop over netfilter.Restore equals the recursive retry |
| Apps.App.RetryRoutes | internal/app/app.go:155-166 | the retry loop over route.Restore equals the recursive retry |
| Apps.App.Stop | internal/app/app.go:124-152 | the whole state and the panic equal the specification function |
| Classifier.ChainMeansIntended | internal/netfilter/netfilter.go:70-137 | for all options and packets, first-verdict evaluation of the generated chain equals the closed-form decision |
| Classifier.SetIsNetworks | internal/netfilter/netfilter.go:71-87 | membership in a compiled interval set is a prefix match against some listed network |
| Classifier.PrefixIsInterval | internal/netfilter/netfilter.go:71-77 | the numbers between a prefix filled with zeros and with ones are those of the addresses that start with it |
| Streams.Conn.Read | internal/relay/relay.go:289-289 | fills the buffer with the next piece of the stream |
| Streams.CopyWithTimeout | internal/relay/relay.go:272-301 | total and bytes written equal the copying function of the feed and the write failures |
| Streams.StreamIntegrity | internal/relay/relay.go:283-300 | delivered is a prefix of read, itself a prefix of the stream; delivered <= counted <= delivered + buffer; all equal when the loop ends on a read error |
| Streams.SegmentationIrrelevant | internal/relay/relay.go:283-300 | two segmentations of one stream deliver and count the same |
| Tunnels.HeaderTakenOff | internal/relay/relay.go:210-215 | what follows a complete header does not change where it ends |
| Tunnels.HeaderEnds | internal/relay/relay.go:210-212 | a header is a status line, any lines that are not empty, and an empty one, each closed by CR LF or by LF alone; what follows is the tunnel's |
| Tunnels.BufReader.ReadHeader | internal/relay/relay.go:211-212 | finds the header iff it is complete, returns its bytes, and leaves exactly what follows them still to be read; judging them is DialHTTP |
| Tunnels.BufReader.DialHTTP | internal/relay/relay.go:210-223 | succeeds iff the header is complete and accepted, and then exactly what follows it is still to be read |
| Tunnels.BufReader.Read | internal/relay/relay.go:309-311 | into a buffer of any size nothing is lost or repeated; into one of 4096 bytes or more it reads as from one connection that yields the held bytes, then the rest |
| Tunnels.BufReader.CopyWithTimeout | internal/relay/relay.go:272-301 | the copy loop over the buffered reader writes and counts what copying its held bytes and then the rest does |
| Tunnels.BufReader.Tunnel | internal/relay/relay.go:205-223 | from the upstream's first byte: iff the header is complete and accepted, the client is sent a prefix of exactly what follows it, all of it unless a write fails; otherwise nothing |
| Tunnels.BareConnectionLoses | internal/relay/relay.go:222-223 | reading on from the bare connection would lose exactly the held bytes |
| Duplex.StepKeepsGood | internal/relay/relay.go:242-269 | every step keeps each wire a prefix of its source's bytes, then the half-close, then the close |
| Duplex.ReturnsAfterBoth | internal/relay/relay.go:266-268 | the copy returns, and both full closes follow, only after both copiers ended |
| Duplex.DirectionAlone | internal/relay/relay.go:246-264 | erasing all steps of the other copier and of the waiting routine from any execution leaves a direction as it was, but for the close behind it; it leaves off copying iff its own read ended or its own write failed |
| Duplex.RunGoes | internal/relay/relay.go:242-269 | every run is such an execution |
| Duplex.NeverTruncated | internal/relay/relay.go:246-264 | from every reachable state a direction still copying, whatever the other has come to, can deliver every byte its source still has |
| Duplex.EofFollowsEveryByte | internal/relay/relay.go:247-253 | once a source is exhausted its destination has every byte, then the half-close if it is a plain connection |
| Duplex.HalfCloseExactly | internal/relay/relay.go:250-262 | a half-close is on a wire iff the connection is plain and its copier is past it, behind all bytes read unless a write failed |
| Dates.ParseFormat | internal/logger/logger.go:151-151 | a formatted date is ten characters and is parsed back |
| Dates.FormatParse | internal/logger/logger.go:195-198 | only one text parses to a given date |
| Dates.TomorrowCounts | internal/logger/logger.go:180-180 | day numbers count calendar days |
| Dates.YearsInClosedForm | internal/logger/logger.go:180-180 | the days before a year, in closed form with the Gregorian leap years |
| Dates.MonthsInClosedForm | internal/logger/logger.go:180-180 | the days before a month, in closed form |
| Dates.MonthEnds | internal/logger/logger.go:195-195 | the last day of a month a date may carry is the one before the next month |
| Dates.FormatOf | internal/logger/logger.go:151-151 | the ten characters of a date, digit by digit |
| Retention.RetentionBound | internal/logger/logger.go:176-203 | a file a days behind is selected iff a days + time of day - offset > n days; always from n + 1, never up to n - 2 |
| Retention.ExpiredExactly | internal/logger/logger.go:190-200 | a name is selected iff it carries a date, between prefix and extension or where the two overlap, that is past the bound in nanoseconds |
| Retention.SplitsAtLastDot | internal/logger/logger.go:111-118 | base name and extension are the path's last element cut at its last dot, with .log added if there is none |
| Retention.NamesOfPath | internal/logger/logger.go:143-167 | the dated file and the link that a configured path stands for |
| Retention.TodaySelected | internal/logger/logger.go:180-200 | the current file is selected iff n is 1 and the time of day is past a day plus the offset; never for n >= 2 or offset >= 0 |
| Retention.OnlyOwnNames | internal/logger/logger.go:190-198 | every name cleanup reads a date from is one fileNameFor produces, iff prefix and extension do not overlap |
| Retention.OverlapExists | internal/logger/logger.go:111-118 | a path x..-date is split into names that overlap |
| Retention.LinkIsSpared | internal/logger/logger.go:167-169 | the symbolic link is never taken for a log file |
| LogSpec.RotateKeepsToday | internal/logger/logger.go:150-173 | after a rotation the opened file is there, except in exactly the case above |
| LogSpec.RotateBoundsAge | internal/logger/logger.go:176-203 | with no failing removal a rotation leaves no log file past the bound |
| LogSpec.CleanupExactly | internal/logger/logger.go:176-203 | cleanup removes exactly the files and links whose names carry a date past the bound and whose removal succeeds; every other entry stays as it was |
| LogSpec.CleanupSparesForeign | internal/logger/logger.go:190-198 | a name not of the logger's own form keeps its entry, whatever its date or none |
| LogSpec.CleanupSparesLink | internal/logger/logger.go:166-171 | so does the link |
| LogSpec.ForeignKept | internal/logger/logger.go:150-225 | over any run, whatever fails, such a name keeps its entry and content |
| LogSpec.RotateLinks | internal/logger/logger.go:166-169 | what a rotation leaves under the link's name, by which of the two calls failed |
| LogSpec.RotateFails | internal/logger/logger.go:155-162 | a rotation that fails changes nothing in the directory and leaves no file open |
| LogSpec.OpenIsCurrent | internal/logger/logger.go:150-164 | after any run the open file is that of the last call's date |
| LogSpec.LinesWithoutFailures | internal/logger/logger.go:206-225 | without failures that file holds every line of every call of its date, in order |
| LogSpec.NoLineLost | internal/logger/logger.go:206-225 | over any run the file of a date never expired holds, in order, every line of that date whose file was or could be opened and whose write succeeded |
| Loggers.Logger.Cleanup | internal/logger/logger.go:176-203 | the loop, in any order of entries, removes exactly the selected ones |
| Loggers.Logger.Rotate | internal/logger/logger.go:150-173 | the new state and result equal the rotation function |
| Loggers.Logger.Output | internal/logger/logger.go:206-225 | the same for a line, dropped below the level |
| Remarks.DirtyHasSaver | internal/device/device.go:79-90 | in every run with a remark file, dirty implies a saver that has not entered its critical section |
| Remarks.ChangedTells | internal/device/device.go:72-86 | after SetRemark the address has that remark, every other its own, and an entry only if it is not empty |
| Remarks.LoadedAgrees | internal/device/device.go:231-242 | until the first change the loaded file and the memory agree |
| Remarks.AloneKeepsFile | internal/device/device.go:245-266 | savers that do not overlap: the file is its first content or a past map, and is the map itself when no saver is left and the last save succeeded |
| Remarks.OverlapLosesChange | internal/device/device.go:245-266 | savers that overlap can leave an older map in the file, with no failure |
| Settling.SettlesIff | internal/device/device.go:245-266 | from any state, overlapping or not: every failure-free completion of the savers under way leaves the current map in the file iff a condition on their copies, the temporary file and the file holds |
| Settling.CanComplete | internal/device/device.go:245-266 | there is such a completion from every state |
| Scanners.Scanner.constructor | internal/device/device.go:34-52 | the loaded state is an initial state of the protocol |
| Scanners.Scanner.SetRemark | internal/device/device.go:79-90 | is the protocol's change step |
| Scanners.Scanner.EnterSave | internal/device/device.go:245-256 | is the protocol's critical section and yields a copy of the map |
| Scanners.Scanner.Copy | internal/device/device.go:252-255 | the entry-by-entry copy equals the map |
| Scanners.Scanner.Replace | internal/device/device.go:258-265 | is the protocol's write and rename; the file changes only to the copy |

## Left out

- Sockets, socket options, deadlines, DNS, the running of `nft` and `ip`, and the file system itself: they are abstract state with arbitrary failures.
- 64-bit overflow of the counters, floating-point rounding of the rates (they are real numbers, truncated) and `ConnRecord.StartedAt`.
- The store of `LastSeen` is not a step of the concurrent system; it is in the sequential `DeviceTable`.
- The recent-records ring is an unbounded list of records in the concurrent system; `Rings` proves separately what the ring shows of it.
- `sort.Slice` is stood for by an insertion sort with the same comparison; the order among equals is not promised by either.
- The concurrent system starts after `Relay.Start`, and `Stop` comes after it; the order of the two is in `Lifecycle` and `Overlap`.
- The bytes a connection copies are chosen freely in the concurrent system; `Streams` proves how they are counted.
- Apps.App.Stop: the cancelling of the context, the web server and the scanner are not part of it, and neither are the delays of `retry`, because none of them touches the modelled state.
- Apps.App.StopRelay: waiting for the handlers is in `Machine`, not here.
- Apps.App.RetryTable: `retry` takes a function; methods are not values, so its loop is written once for each of its two uses, for a positive number of attempts.
- Ordering.SafeThroughout: assumes that `Run` has reached its select or returned before `Stop` begins; `Overlap` has the other case.
- Overlap.TableLeftIff: a step's reads and writes are seen by the other routine at once, as under one lock; a command is atomic, so an `nft` that is still running when the process ends counts as not run.
- The kernel's nft load is atomic; a load over a table whose delete failed leaves one table, and what the merge of both rulesets does to packets is not modelled.
- Overlapping networks in one bypass list, which `nft` may refuse; the load then fails, which the failures cover.
- Classifier.ChainMeansIntended: TPROXY diverts to a relay that is listening; the text of the ruleset is a list of rules, not characters.
- Tunnels.BufReader.DialHTTP: which headers are accepted, by status and form, is an arbitrary predicate on their bytes.
- HTTP parsing beyond the end of the header, the SOCKS5 dialogue, and the 100 empty reads after which a buffered reader gives up.
- Streams.CopyWithTimeout: the kernel's splice path and the buffer pool's reuse of buffers.
- Duplex.HalfCloseExactly: pieces and buffers are in `Streams`; here a step moves any number of bytes.
- Log entries that are symbolic links under a log file's name: opening one counts as a failure.
- Daylight-saving changes and offsets that vary with the date; the zone offset is fixed within one reading of the clock.
- Remarks.OverlapLosesChange: the write of the temporary file is one step that may be cut short; two savers writing into the same open file at once are not modelled.
- The DHCP, ARP and reverse-DNS scan of devices, log levels' names, `Tail`, `config`, `auth`, `api`, the web pages and LAN detection: they neither count traffic nor change the host's network state, which is what this model is about.
