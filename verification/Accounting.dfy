// What every step of the machine keeps: the sharded table is one map, no
// increment is lost, and the relay's counters bracket the collector's.

module Accounting {
  import opened ShardIndex
  import opened Sums
  import opened DeviceCounters
  import opened Machine

  // ---- The sharded table is one map from addresses to records ----

  ghost predicate TableOk(st: Store) {
    && (forall k, ip :: 0 <= k < NUM_SHARDS && ip in st.shards[k] ==>
          && ShardOf(ip) == k
          && st.shards[k][ip] < |st.heap|
          && st.heap[st.shards[k][ip]].ip == ip)
    && (forall r :: 0 <= r < |st.heap| ==> Has(st, st.heap[r].ip) && RefOf(st, st.heap[r].ip) == r)
  }

  lemma {:induction false} TableAt(st: Store, k: nat, ip: Ip)
    requires TableOk(st) && k < NUM_SHARDS && ip in st.shards[k]
    ensures ShardOf(ip) == k && st.shards[k][ip] < |st.heap| && st.heap[st.shards[k][ip]].ip == ip
  {
  }

  lemma {:induction false} InsertKeepsTable(st: Store, ip: Ip)
    requires TableOk(st) && !Has(st, ip)
    ensures TableOk(Insert(st, ip))
    ensures Has(Insert(st, ip), ip) && RefOf(Insert(st, ip), ip) == |st.heap|
    ensures forall a :: Has(st, a) ==> Has(Insert(st, ip), a) && RefOf(Insert(st, ip), a) == RefOf(st, a)
  {
  }

  lemma {:induction false} BumpKeepsTable(st: Store, r: nat, f: Field, d: int)
    requires TableOk(st)
    ensures TableOk(Bump(st, r, f, d))
  {
  }

  // A handler's step on the collector is one atomic add, one insertion, or
  // leaves table and counters alone.
  predicate Holding(pc: Pc) {
    pc.AddTotal? || pc.AddActive? || pc.SubActive? || pc.AddTx? || pc.AddRx?
  }

  predicate Inserting(h: Handler, st: Store) {
    h.pc.Create? && !Has(st, h.ip)
  }

  function BumpField(pc: Pc): Field {
    match pc
    case AddTotal => Total
    case AddTx => Tx
    case AddRx => Rx
    case _ => Active
  }

  function BumpAmount(h: Handler): int {
    match h.pc
    case SubActive => -1
    case AddTx => h.tx
    case AddRx => h.rx
    case _ => 1
  }

  lemma {:induction false} EffectKinds(h: Handler, st: Store)
    ensures Holding(h.pc) ==> Effect(h, st) == Bump(st, h.ref, BumpField(h.pc), BumpAmount(h))
    ensures Inserting(h, st) ==> Effect(h, st) == Insert(st, h.ip)
    ensures !Holding(h.pc) && !Inserting(h, st) ==>
              Effect(h, st).heap == st.heap && Effect(h, st).shards == st.shards
  {
  }

  lemma {:induction false} SameTable(st: Store, st': Store)
    requires TableOk(st) && st'.heap == st.heap && st'.shards == st.shards
    ensures TableOk(st')
  {
    forall r | 0 <= r < |st'.heap| ensures Has(st', st'.heap[r].ip) && RefOf(st', st'.heap[r].ip) == r {
      assert Has(st, st.heap[r].ip) && RefOf(st, st.heap[r].ip) == r;
    }
  }

  lemma {:induction false} EffectKeepsTable(h: Handler, st: Store)
    requires TableOk(st)
    ensures TableOk(Effect(h, st))
  {
    EffectKinds(h, st);
    if Holding(h.pc) {
      BumpKeepsTable(st, h.ref, BumpField(h.pc), BumpAmount(h));
    } else if Inserting(h, st) {
      InsertKeepsTable(st, h.ip);
    } else {
      SameTable(st, Effect(h, st));
    }
  }

  // ---- A handler that is about to count holds the one record of its address ----

  ghost predicate HoldsOwn(h: Handler, st: Store) {
    Holding(h.pc) ==> Has(st, h.ip) && RefOf(st, h.ip) == h.ref
  }

  lemma {:induction false} EffectKeepsRefs(h: Handler, st: Store, ip: Ip)
    requires TableOk(st) && Has(st, ip)
    ensures Has(Effect(h, st), ip) && RefOf(Effect(h, st), ip) == RefOf(st, ip)
  {
    EffectKinds(h, st);
    if Inserting(h, st) {
      InsertKeepsTable(st, h.ip);
    }
  }

  lemma {:induction false} MoveHoldsOwn(h: Handler, st: Store, fallback: bool, ch: Choice)
    requires TableOk(st) && HoldsOwn(h, st)
    ensures HoldsOwn(Move(h, st, fallback, ch), Effect(h, st))
  {
    if Inserting(h, st) {
      InsertKeepsTable(st, h.ip);
    } else if Has(st, h.ip) {
      EffectKeepsRefs(h, st, h.ip);
    }
  }

  // ---- No increment is lost ----

  // What a handler has added to its device's counters so far.
  function Share(h: Handler, f: Field): int {
    if h.bad then 0 else
    match f
    case Total => if Rank(h.pc) > 4 then 1 else 0
    case Active => if 5 < Rank(h.pc) <= 11 then 1 else 0
    case Tx => if Rank(h.pc) > 12 then h.tx else 0
    case Rx => if Rank(h.pc) > 13 then h.rx else 0
  }

  // What the handler's next step adds.
  function Delta(h: Handler, f: Field): int {
    if Holding(h.pc) && f == BumpField(h.pc) then BumpAmount(h) else 0
  }

  predicate BadIsLate(h: Handler) {
    h.bad ==> Rank(h.pc) >= 15
  }

  lemma {:induction false} MoveLate(h: Handler, st: Store, fallback: bool, ch: Choice)
    requires BadIsLate(h)
    ensures BadIsLate(Move(h, st, fallback, ch)) && Move(h, st, fallback, ch).ip == h.ip
  {
  }

  lemma {:induction false} MoveShare(h: Handler, st: Store, fallback: bool, ch: Choice, f: Field)
    requires BadIsLate(h)
    ensures Share(Move(h, st, fallback, ch), f) == Share(h, f) + Delta(h, f)
  {
  }

  function ShareAt(ip: Ip, f: Field): Handler -> int {
    (h: Handler) => if h.ip == ip then Share(h, f) else 0
  }

  function ShareOf(f: Field): Handler -> int {
    (h: Handler) => Share(h, f)
  }

  function HeapField(f: Field): Device -> int {
    (d: Device) => Get(d.c, f)
  }

  // The true value of a total: the sum over all device records.
  function HeapSum(heap: seq<Device>, f: Field): int {
    Sum(heap, HeapField(f))
  }

  lemma {:induction false} BumpLookup(st: Store, r: nat, f: Field, d: int, ip: Ip, g: Field)
    requires TableOk(st) && r < |st.heap|
    ensures Get(Lookup(Bump(st, r, f, d), ip), g)
         == Get(Lookup(st, ip), g) + (if st.heap[r].ip == ip && f == g then d else 0)
  {
  }

  lemma {:induction false} EffectLookup(h: Handler, st: Store, ip: Ip, g: Field)
    requires TableOk(st) && HoldsOwn(h, st)
    ensures Get(Lookup(Effect(h, st), ip), g)
         == Get(Lookup(st, ip), g) + (if h.ip == ip then Delta(h, g) else 0)
  {
    EffectKinds(h, st);
    if Holding(h.pc) {
      BumpLookup(st, h.ref, BumpField(h.pc), BumpAmount(h), ip, g);
    } else if Inserting(h, st) {
      InsertLookup(st, h.ip, ip);
    } else {
      assert Lookup(Effect(h, st), ip) == Lookup(st, ip);
    }
  }

  lemma {:induction false} InsertLookup(st: Store, a: Ip, ip: Ip)
    requires TableOk(st) && !Has(st, a)
    ensures Lookup(Insert(st, a), ip) == Lookup(st, ip)
  {
    InsertKeepsTable(st, a);
  }

  lemma {:induction false} BumpHeapSum(st: Store, r: nat, f: Field, d: int, g: Field)
    requires r < |st.heap|
    ensures HeapSum(Bump(st, r, f, d).heap, g) == HeapSum(st.heap, g) + (if f == g then d else 0)
  {
    SumUpdate(st.heap, r, Bump(st, r, f, d).heap[r], HeapField(g));
  }

  lemma {:induction false} EffectHeapSum(h: Handler, st: Store, g: Field)
    requires Holding(h.pc) ==> h.ref < |st.heap|
    ensures HeapSum(Effect(h, st).heap, g) == HeapSum(st.heap, g) + Delta(h, g)
  {
    EffectKinds(h, st);
    if Holding(h.pc) {
      BumpHeapSum(st, h.ref, BumpField(h.pc), BumpAmount(h), g);
    } else if Inserting(h, st) {
      SumAppend(st.heap, Device(h.ip, ZERO), HeapField(g));
    }
  }

  ghost predicate HandlersOk(s: State) {
    forall i :: 0 <= i < |s.handlers| ==> HoldsOwn(s.handlers[i], s.store) && BadIsLate(s.handlers[i])
  }

  // Every device's counters are exactly what the handlers of its address added,
  // and an address without a record has nothing added.
  ghost predicate Exact(s: State) {
    forall ip: Ip, f: Field :: Get(Lookup(s.store, ip), f) == Sum(s.handlers, ShareAt(ip, f))
  }

  ghost predicate TotalsExact(s: State) {
    forall f: Field :: HeapSum(s.store.heap, f) == Sum(s.handlers, ShareOf(f))
  }

  ghost predicate CollectorOk(s: State) {
    TableOk(s.store) && HandlersOk(s) && Exact(s) && TotalsExact(s)
  }

  lemma {:induction false} HandleKeepsHandlers(s: State, i: nat, ch: Choice)
    requires TableOk(s.store) && HandlersOk(s) && i < |s.handlers|
    ensures TableOk(HandleNext(s, i, ch).store) && HandlersOk(HandleNext(s, i, ch))
  {
    var h := s.handlers[i];
    var t := HandleNext(s, i, ch);
    EffectKeepsTable(h, s.store);
    forall j | 0 <= j < |t.handlers|
      ensures HoldsOwn(t.handlers[j], t.store) && BadIsLate(t.handlers[j])
    {
      if j == i {
        MoveHoldsOwn(h, s.store, s.fallback, ch);
        MoveLate(h, s.store, s.fallback, ch);
      } else if Holding(s.handlers[j].pc) {
        EffectKeepsRefs(h, s.store, s.handlers[j].ip);
      }
    }
  }

  lemma {:induction false} HandleKeepsExact(s: State, i: nat, ch: Choice)
    requires CollectorOk(s) && i < |s.handlers|
    ensures Exact(HandleNext(s, i, ch))
  {
    var h := s.handlers[i];
    var t := HandleNext(s, i, ch);
    forall ip: Ip, f: Field
      ensures Get(Lookup(t.store, ip), f) == Sum(t.handlers, ShareAt(ip, f))
    {
      EffectLookup(h, s.store, ip, f);
      MoveLate(h, s.store, s.fallback, ch);
      MoveShare(h, s.store, s.fallback, ch, f);
      SumUpdate(s.handlers, i, t.handlers[i], ShareAt(ip, f));
    }
  }

  lemma {:induction false} HandleKeepsTotals(s: State, i: nat, ch: Choice)
    requires CollectorOk(s) && i < |s.handlers|
    ensures TotalsExact(HandleNext(s, i, ch))
  {
    var h := s.handlers[i];
    var t := HandleNext(s, i, ch);
    forall f: Field
      ensures HeapSum(t.store.heap, f) == Sum(t.handlers, ShareOf(f))
    {
      EffectHeapSum(h, s.store, f);
      MoveShare(h, s.store, s.fallback, ch, f);
      SumUpdate(s.handlers, i, t.handlers[i], ShareOf(f));
    }
  }

  lemma {:induction false} SpawnKeepsCollector(s: State)
    requires CollectorOk(s) && Enabled(s, Spawn)
    ensures CollectorOk(Apply(s, Spawn))
  {
    var t := Apply(s, Spawn);
    var h := Spawned(s.accept.ip);
    forall ip: Ip, f: Field
      ensures Get(Lookup(t.store, ip), f) == Sum(t.handlers, ShareAt(ip, f))
      ensures HeapSum(t.store.heap, f) == Sum(t.handlers, ShareOf(f))
    {
      SumAppend(s.handlers, h, ShareAt(ip, f));
      SumAppend(s.handlers, h, ShareOf(f));
    }
  }

  lemma {:induction false} StepKeepsCollector(s: State, step: Step)
    requires CollectorOk(s) && Enabled(s, step)
    ensures CollectorOk(Apply(s, step))
  {
    match step
    case Spawn => SpawnKeepsCollector(s);
    case Handle(i, ch) =>
      HandleKeepsHandlers(s, i, ch);
      HandleKeepsExact(s, i, ch);
      HandleKeepsTotals(s, i, ch);
    case _ =>
      assert Apply(s, step).store == s.store && Apply(s, step).handlers == s.handlers;
  }
}
