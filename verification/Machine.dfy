// The relay and the statistics collector as one step system.
//
// Every atomic operation of internal/relay/relay.go and internal/stats/stats.go
// is one step; steps of the accept loop, of any number of connection handlers,
// of any number of shard-by-shard scans, of the sampler and of Relay.Stop
// interleave freely.  A critical section under a shard's lock is one step,
// except that a scan holds a shard's read lock over many steps.

module Machine {
  import opened ShardIndex
  import opened DeviceCounters

  // ---- The collector ----

  // A heap-allocated per-device record; shards hold indices into the heap.
  datatype Device = Device(ip: Ip, c: Counters)

  datatype Upstream = Proxy | Direct | Failed

  datatype Record = Record(id: nat, ip: Ip, tx: nat, rx: nat, upstream: Upstream)

  type Shards = s: seq<map<Ip, nat>> | |s| == NUM_SHARDS witness EmptyShards(NUM_SHARDS)

  function EmptyShards(n: nat): (s: seq<map<Ip, nat>>)
    ensures |s| == n && forall k :: 0 <= k < n ==> s[k] == map[]
  {
    if n == 0 then [] else EmptyShards(n - 1) + [map[]]
  }

  function EmptyStore(): Store {
    Store(EmptyShards(NUM_SHARDS), [], 0, [])
  }

  datatype Store = Store(shards: Shards, heap: seq<Device>, connSeq: nat, records: seq<Record>)

  predicate Has(st: Store, ip: Ip) {
    ip in st.shards[ShardOf(ip)]
  }

  function RefOf(st: Store, ip: Ip): nat
    requires Has(st, ip)
  {
    st.shards[ShardOf(ip)][ip]
  }

  function Insert(st: Store, ip: Ip): Store {
    var k := ShardOf(ip);
    var shard: map<Ip, nat> := st.shards[k][ip := |st.heap|];
    st.(shards := st.shards[k := shard], heap := st.heap + [Device(ip, ZERO)])
  }

  // One atomic add on the counter record behind reference r.
  function Bump(st: Store, r: nat, f: Field, d: int): Store {
    if r < |st.heap| then
      st.(heap := st.heap[r := st.heap[r].(c := Add(st.heap[r].c, f, d))])
    else
      st
  }

  // The counters the collector holds for an address, zero if it holds none.
  function Lookup(st: Store, ip: Ip): Counters {
    if Has(st, ip) && RefOf(st, ip) < |st.heap| then st.heap[RefOf(st, ip)].c else ZERO
  }

  // ---- Connection handlers ----

  datatype Phase = Opening | Recording

  datatype Pc =
    | Start            // spawned; activeConns.Add(1) comes next
    | Split            // parse the addresses
    | Find(p: Phase)   // device(): read-locked lookup
    | Create(p: Phase) // device(): write-locked second lookup and insertion
    | AddTotal | AddActive | TakeId
    | Dial | Copying
    | SubActive | AddTx | AddRx | Append
    | Uncount          // activeConns.Add(-1)
    | Finish           // wg.Done
    | Finished

  // bad: the address did not parse.  slot: where Append put the record.
  datatype Handler = Handler(pc: Pc, ip: Ip, bad: bool, ref: nat, id: nat, tx: nat, rx: nat,
                             upstream: Upstream, slot: nat)

  // What the environment decides for a handler's step.
  datatype Choice = Choice(parses: bool, proxyOk: bool, directOk: bool, tx: nat, rx: nat)

  function Rank(pc: Pc): nat {
    match pc
    case Start => 0
    case Split => 1
    case Find(p) => if p == Opening then 2 else 9
    case Create(p) => if p == Opening then 3 else 10
    case AddTotal => 4
    case AddActive => 5
    case TakeId => 6
    case Dial => 7
    case Copying => 8
    case SubActive => 11
    case AddTx => 12
    case AddRx => 13
    case Append => 14
    case Uncount => 15
    case Finish => 16
    case Finished => 17
  }

  function DialOutcome(fallback: bool, ch: Choice): Upstream {
    if ch.proxyOk then Proxy else if fallback && ch.directOk then Direct else Failed
  }

  function AfterDevice(p: Phase): Pc {
    if p == Opening then AddTotal else SubActive
  }

  // The handler's own next state.
  function Move(h: Handler, st: Store, fallback: bool, ch: Choice): Handler {
    match h.pc
    case Start => h.(pc := Split)
    case Split => if ch.parses then h.(pc := Find(Opening)) else h.(bad := true, pc := Uncount)
    case Find(p) => if Has(st, h.ip) then h.(ref := RefOf(st, h.ip), pc := AfterDevice(p)) else h.(pc := Create(p))
    case Create(p) => h.(ref := if Has(st, h.ip) then RefOf(st, h.ip) else |st.heap|, pc := AfterDevice(p))
    case AddTotal => h.(pc := AddActive)
    case AddActive => h.(pc := TakeId)
    case TakeId => h.(id := st.connSeq + 1, pc := Dial)
    case Dial =>
      var u := DialOutcome(fallback, ch);
      if u == Failed then h.(upstream := u, tx := 0, rx := 0, pc := Find(Recording))
      else h.(upstream := u, pc := Copying)
    case Copying => h.(tx := ch.tx, rx := ch.rx, pc := Find(Recording))
    case SubActive => h.(pc := AddTx)
    case AddTx => h.(pc := AddRx)
    case AddRx => h.(pc := Append)
    case Append => h.(slot := |st.records|, pc := Uncount)
    case Uncount => h.(pc := Finish)
    case Finish => h.(pc := Finished)
    case Finished => h
  }

  function RecordOf(h: Handler): Record {
    Record(h.id, h.ip, h.tx, h.rx, h.upstream)
  }

  // The effect of the handler's step on the collector.
  function Effect(h: Handler, st: Store): Store {
    match h.pc
    case Create(_) => if Has(st, h.ip) then st else Insert(st, h.ip)
    case AddTotal => Bump(st, h.ref, Total, 1)
    case AddActive => Bump(st, h.ref, Active, 1)
    case TakeId => st.(connSeq := st.connSeq + 1)
    case SubActive => Bump(st, h.ref, Active, -1)
    case AddTx => Bump(st, h.ref, Tx, h.tx)
    case AddRx => Bump(st, h.ref, Rx, h.rx)
    case Append => st.(records := st.records + [RecordOf(h)])
    case _ => st
  }

  // ---- Scans: Totals and Devices ----

  // The order in which a scan loads a record's atomics.
  function TotalsOrder(): seq<Field> { [Tx, Rx, Active, Total] }

  function DevicesOrder(): seq<Field> { [Tx, Rx, Total, Active] }

  datatype Cursor = NoDevice | At(ref: nat, pos: nat)

  // start, seen and counted are history: the heap when the scan began, every
  // value loaded, and the addresses included in count.
  datatype Scan = Scan(order: seq<Field>, shard: nat, locked: bool, pending: set<Ip>, cur: Cursor,
                       acc: Counters, count: nat,
                       start: seq<Device>, seen: map<(Field, nat), int>, counted: set<Ip>)

  function NewScan(order: seq<Field>, st: Store): Scan {
    Scan(order, 0, false, {}, NoDevice, ZERO, 0, st.heap, map[], {})
  }

  predicate Done(sc: Scan) {
    sc.shard == NUM_SHARDS
  }

  predicate Holds(sc: Scan, k: nat) {
    sc.locked && sc.shard == k
  }

  datatype ScanMove = Lock | Pick(ip: Ip) | Load | Unlock

  predicate ScanEnabled(sc: Scan, st: Store, m: ScanMove) {
    match m
    case Lock => !sc.locked && sc.shard < NUM_SHARDS
    case Pick(ip) =>
      sc.locked && sc.shard < NUM_SHARDS && sc.cur == NoDevice && ip in sc.pending && ip in st.shards[sc.shard]
    case Load => sc.cur.At? && sc.cur.pos < |sc.order| && sc.cur.ref < |st.heap|
    case Unlock => sc.locked && sc.cur == NoDevice && sc.pending == {}
  }

  function ScanStep(sc: Scan, st: Store, m: ScanMove): Scan
    requires ScanEnabled(sc, st, m)
  {
    match m
    case Lock =>
      var keys := st.shards[sc.shard].Keys;
      sc.(locked := true, pending := keys, count := sc.count + |st.shards[sc.shard]|, counted := sc.counted + keys)
    case Pick(ip) => sc.(pending := sc.pending - {ip}, cur := At(st.shards[sc.shard][ip], 0))
    case Load =>
      var At(r, pos) := sc.cur;
      var f := sc.order[pos];
      var v := Get(st.heap[r].c, f);
      sc.(acc := Add(sc.acc, f, v), seen := sc.seen[(f, r) := v],
          cur := if pos + 1 < |sc.order| then At(r, pos + 1) else NoDevice)
    case Unlock => sc.(locked := false, shard := sc.shard + 1)
  }

  // ---- The sampler (the only caller of sample) ----

  datatype Sampler = Sampler(busy: bool, scan: nat, hasBase: bool, lastTx: int, lastRx: int)

  // sample() after its Totals call: tooSoon is the branch that keeps the base.
  function SamplerEnd(sm: Sampler, t: Counters, tooSoon: bool): Sampler {
    if sm.hasBase && tooSoon then sm.(busy := false)
    else sm.(busy := false, hasBase := true, lastTx := t.tx, lastRx := t.rx)
  }

  // ---- The relay ----

  datatype AcceptPc =
    | Accepting
    | Erred              // Accept returned an error; look at closeCh
    | Admitting(ip: Ip)  // a connection is accepted; look at activeConns
    | Adding(ip: Ip)     // admitted; wg.Add(1) comes next
    | Spawning(ip: Ip)   // go handleConn comes next
    | Exiting            // deferred wg.Done
    | Exited

  datatype StopPc = Running | ChannelClosed | ListenerClosed | Returned

  datatype State = State(limit: int, fallback: bool,
                         accept: AcceptPc, stop: StopPc, closed: bool, listening: bool,
                         wg: int, activeConns: int, handlers: seq<Handler>, log: seq<nat>,
                         store: Store, scans: seq<Scan>, sampler: Sampler)

  // The state after Relay.Start succeeded.
  predicate Init(s: State) {
    && s.accept == Accepting && s.stop == Running && !s.closed && s.listening
    && s.wg == 1 && s.activeConns == 0 && s.handlers == [] && s.log == []
    && s.store == EmptyStore()
    && s.scans == [] && s.sampler == Sampler(false, 0, false, 0, 0)
  }

  datatype Step =
    | AcceptConn(ip: Ip) | AcceptError | CheckClosed | Admit | WgAdd | Spawn | Exit
    | Handle(i: nat, ch: Choice)
    | BeginScan(order: seq<Field>) | Scanning(j: nat, m: ScanMove)
    | BeginSample | EndSample(tooSoon: bool)
    | CloseChannel | CloseListener | WaitDone

  predicate Full(s: State) {
    s.limit > 0 && s.activeConns >= s.limit
  }

  predicate Enabled(s: State, step: Step) {
    match step
    case AcceptConn(_) => s.accept == Accepting && s.listening
    case AcceptError => s.accept == Accepting
    case CheckClosed => s.accept == Erred
    case Admit => s.accept.Admitting?
    case WgAdd => s.accept.Adding?
    case Spawn => s.accept.Spawning?
    case Exit => s.accept == Exiting
    case Handle(i, _) => i < |s.handlers| && s.handlers[i].pc != Finished &&
      // inserting a device needs the shard's write lock
      (s.handlers[i].pc.Create? ==> forall sc <- s.scans :: !Holds(sc, ShardOf(s.handlers[i].ip)))
    case BeginScan(order) => order == TotalsOrder() || order == DevicesOrder()
    case Scanning(j, m) => j < |s.scans| && ScanEnabled(s.scans[j], s.store, m)
    case BeginSample => !s.sampler.busy
    case EndSample(_) => s.sampler.busy && s.sampler.scan < |s.scans| && Done(s.scans[s.sampler.scan])
    case CloseChannel => s.stop == Running
    case CloseListener => s.stop == ChannelClosed
    case WaitDone => s.stop == ListenerClosed && s.wg == 0
  }

  function ActiveChange(pc: Pc): int {
    if pc == Start then 1 else if pc == Uncount then -1 else 0
  }

  function Spawned(ip: Ip): Handler {
    Handler(Start, ip, false, 0, 0, 0, 0, Proxy, 0)
  }

  function HandleNext(s: State, i: nat, ch: Choice): State
    requires i < |s.handlers|
  {
    var h := s.handlers[i];
    s.(handlers := s.handlers[i := Move(h, s.store, s.fallback, ch)],
       store := Effect(h, s.store),
       activeConns := s.activeConns + ActiveChange(h.pc),
       wg := if h.pc == Finish then s.wg - 1 else s.wg,
       log := if h.pc == Append then s.log + [i] else s.log)
  }

  function Apply(s: State, step: Step): State
    requires Enabled(s, step)
  {
    match step
    case AcceptConn(ip) => s.(accept := Admitting(ip))
    case AcceptError => s.(accept := Erred)
    case CheckClosed => s.(accept := if s.closed then Exiting else Accepting)
    case Admit => s.(accept := if Full(s) then Accepting else Adding(s.accept.ip))
    case WgAdd => s.(wg := s.wg + 1, accept := Spawning(s.accept.ip))
    case Spawn => s.(handlers := s.handlers + [Spawned(s.accept.ip)], accept := Accepting)
    case Exit => s.(wg := s.wg - 1, accept := Exited)
    case Handle(i, ch) => HandleNext(s, i, ch)
    case BeginScan(order) => s.(scans := s.scans + [NewScan(order, s.store)])
    case Scanning(j, m) => s.(scans := s.scans[j := ScanStep(s.scans[j], s.store, m)])
    case BeginSample =>
      s.(scans := s.scans + [NewScan(TotalsOrder(), s.store)],
         sampler := s.sampler.(busy := true, scan := |s.scans|))
    case EndSample(tooSoon) => s.(sampler := SamplerEnd(s.sampler, s.scans[s.sampler.scan].acc, tooSoon))
    case CloseChannel => s.(closed := true, stop := ChannelClosed)
    case CloseListener => s.(listening := false, stop := ListenerClosed)
    case WaitDone => s.(stop := Returned)
  }

  predicate StepTo(s: State, step: Step, t: State) {
    Enabled(s, step) && t == Apply(s, step)
  }

  ghost predicate Next(s: State, t: State) {
    exists step :: StepTo(s, step, t)
  }

  // A finite run: an initial state followed by steps.
  ghost predicate IsRun(run: seq<State>) {
    && run != []
    && if |run| == 1 then Init(run[0])
       else IsRun(run[..|run| - 1]) && Next(run[|run| - 2], run[|run| - 1])
  }
}
