// The collector's sharded device table at rest: one caller at a time.

module DeviceTable {
  import opened ShardIndex
  import opened Sums
  import opened DeviceCounters

  datatype Row = Row(c: Counters, lastSeen: int)

  // What Totals returns.
  datatype Summary = Summary(c: Counters, devices: nat)

  // What Devices returns for one device.
  datatype Entry = Entry(ip: Ip, row: Row)

  class DeviceStat {
    const ip: Ip
    var c: Counters
    var lastSeen: int

    constructor (ip: Ip)
      ensures this.ip == ip && View() == Row(ZERO, 0)
    {
      this.ip := ip;
      c := ZERO;
      lastSeen := 0;
    }

    function View(): Row
      reads this
    {
      Row(c, lastSeen)
    }

    method CountOpen(now: int)
      modifies this
      ensures View() == Opened(old(View()), now)
    {
      c := Add(c, Total, 1);
      c := Add(c, Active, 1);
      lastSeen := now;
    }

    method CountClose(tx: nat, rx: nat)
      modifies this
      ensures View() == Closed(old(View()), tx, rx)
    {
      c := Add(c, Active, -1);
      c := Add(c, Tx, tx);
      c := Add(c, Rx, rx);
    }
  }

  // One more connection, open now.
  function Opened(r: Row, now: int): Row {
    Row(Counters(r.c.tx, r.c.rx, r.c.total + 1, r.c.active + 1), now)
  }

  // One connection fewer open, with its bytes.
  function Closed(r: Row, tx: nat, rx: nat): Row {
    Row(Counters(r.c.tx + tx, r.c.rx + rx, r.c.total, r.c.active - 1), r.lastSeen)
  }

  // ---- The one map the shards stand for ----

  function Plus(a: Counters, b: Counters): Counters {
    Counters(a.tx + b.tx, a.rx + b.rx, a.total + b.total, a.active + b.active)
  }

  // The sum of the counters of a list of entries.
  function SumEntries(rows: seq<Entry>): Counters {
    if rows == [] then ZERO else Plus(SumEntries(rows[..|rows| - 1]), rows[|rows| - 1].row.c)
  }

  // Each counter by itself.
  lemma {:induction false} SumEntriesFields(rows: seq<Entry>)
    ensures var c := SumEntries(rows);
      && c.tx == Sum(rows, (e: Entry) => e.row.c.tx) && c.rx == Sum(rows, (e: Entry) => e.row.c.rx)
      && c.total == Sum(rows, (e: Entry) => e.row.c.total) && c.active == Sum(rows, (e: Entry) => e.row.c.active)
  {
    if rows != [] { SumEntriesFields(rows[..|rows| - 1]); }
  }

  lemma {:induction false} SumEntriesAppend(rows: seq<Entry>, e: Entry)
    ensures SumEntries(rows + [e]) == Plus(SumEntries(rows), e.row.c)
  {
    assert (rows + [e])[..|rows|] == rows;
  }

  lemma {:induction false} SumEntriesRemove(rows: seq<Entry>, i: nat)
    requires i < |rows|
    ensures SumEntries(rows) == Plus(SumEntries(rows[..i] + rows[i + 1..]), rows[i].row.c)
  {
    SumEntriesMiddle(rows[..i], rows[i], rows[i + 1..]);
    assert rows == rows[..i] + [rows[i]] + rows[i + 1..];
  }

  lemma {:induction false} SumEntriesMiddle(a: seq<Entry>, e: Entry, b: seq<Entry>)
    ensures SumEntries(a + [e] + b) == Plus(SumEntries(a + b), e.row.c)
  {
    if b == [] {
      assert a + [e] + b == a + [e] && a + b == a;
      SumEntriesAppend(a, e);
    } else {
      var m, z := b[..|b| - 1], b[|b| - 1];
      assert a + [e] + b == a + [e] + m + [z] && a + b == a + m + [z];
      SumEntriesMiddle(a, e, m);
      SumEntriesAppend(a + [e] + m, z);
      SumEntriesAppend(a + m, z);
    }
  }

  // The sum does not depend on the order a map iteration happens to take.
  lemma {:induction false} SumEntriesPermutation(a: seq<Entry>, b: seq<Entry>)
    requires multiset(a) == multiset(b)
    ensures SumEntries(a) == SumEntries(b) && |a| == |b|
  {
    assert |a| == |multiset(a)| == |multiset(b)| == |b|;
    if a != [] {
      var e := a[|a| - 1];
      assert e in multiset(b);
      var i :| 0 <= i < |b| && b[i] == e;
      var b' := b[..i] + b[i + 1..];
      assert a == a[..|a| - 1] + [e];
      assert b == b[..i] + [e] + b[i + 1..];
      assert multiset(b') == multiset(b) - multiset{e};
      SumEntriesRemove(b, i);
      SumEntriesPermutation(a[..|a| - 1], b');
    }
  }

  // ---- Sorting by traffic ----

  function Traffic(e: Entry): int {
    e.row.c.tx + e.row.c.rx
  }

  predicate Descending(s: seq<Entry>) {
    forall i, j :: 0 <= i < j < |s| ==> s[i].row.c.tx + s[i].row.c.rx >= s[j].row.c.tx + s[j].row.c.rx
  }

  function InsertByTraffic(s: seq<Entry>, e: Entry): seq<Entry> {
    if s == [] || Traffic(e) > Traffic(s[0]) then [e] + s
    else [s[0]] + InsertByTraffic(s[1..], e)
  }

  lemma {:induction false} InsertByTrafficKeeps(s: seq<Entry>, e: Entry)
    ensures multiset(InsertByTraffic(s, e)) == multiset(s) + multiset{e}
  {
    if s != [] && Traffic(e) <= Traffic(s[0]) {
      InsertByTrafficKeeps(s[1..], e);
      assert s == [s[0]] + s[1..];
    }
  }

  lemma {:induction false} InsertByTrafficSorts(s: seq<Entry>, e: Entry)
    requires Descending(s)
    ensures Descending(InsertByTraffic(s, e))
  {
    if s != [] && Traffic(e) <= Traffic(s[0]) {
      InsertByTrafficSorts(s[1..], e);
      InsertByTrafficKeeps(s[1..], e);
      AllBelow(InsertByTraffic(s[1..], e), s[1..], e, Traffic(s[0]));
    }
  }

  lemma {:induction false} AllBelow(r: seq<Entry>, s: seq<Entry>, e: Entry, top: int)
    requires multiset(r) == multiset(s) + multiset{e} && Traffic(e) <= top
    requires forall i :: 0 <= i < |s| ==> Traffic(s[i]) <= top
    ensures forall i :: 0 <= i < |r| ==> Traffic(r[i]) <= top
  {
    forall i | 0 <= i < |r| ensures Traffic(r[i]) <= top {
      assert r[i] in multiset(r);
      assert r[i] in multiset(s) || r[i] == e;
    }
  }

  // Stands for sort.Slice: any sorted permutation would do.
  function SortByTraffic(s: seq<Entry>): seq<Entry> {
    if s == [] then [] else InsertByTraffic(SortByTraffic(s[1..]), s[0])
  }

  lemma {:induction false} SortByTrafficSorts(s: seq<Entry>)
    ensures Descending(SortByTraffic(s)) && multiset(SortByTraffic(s)) == multiset(s)
  {
    if s != [] {
      SortByTrafficSorts(s[1..]);
      InsertByTrafficSorts(SortByTraffic(s[1..]), s[0]);
      InsertByTrafficKeeps(SortByTraffic(s[1..]), s[0]);
      assert s == [s[0]] + s[1..];
    }
  }

  // ---- The shards, one after another ----

  // The shards hold disjoint parts of m and together all of it.
  ghost predicate Partition(keys: seq<set<Ip>>, m: map<Ip, Row>) {
    && (forall k, ip :: 0 <= k < |keys| && ip in keys[k] ==> ip in m && ShardOf(ip) == k)
    && (forall ip :: ip in m ==> ShardOf(ip) < |keys| && ip in keys[ShardOf(ip)])
  }

  ghost function Seen(keys: seq<set<Ip>>, i: nat): set<Ip>
    requires i <= |keys|
  {
    if i == 0 then {} else Seen(keys, i - 1) + keys[i - 1]
  }

  lemma {:induction false} SeenIs(keys: seq<set<Ip>>, m: map<Ip, Row>, i: nat, ip: Ip)
    requires Partition(keys, m) && i <= |keys|
    ensures ip in Seen(keys, i) <==> ip in m && ShardOf(ip) < i
  {
    if i > 0 {
      SeenIs(keys, m, i - 1, ip);
    }
  }

  lemma {:induction false} SeenSplits(keys: seq<set<Ip>>, m: map<Ip, Row>, i: nat)
    requires Partition(keys, m) && i < |keys|
    ensures Seen(keys, i) !! keys[i] && Seen(keys, i) <= m.Keys && keys[i] <= m.Keys
  {
    forall ip ensures ip in Seen(keys, i) <==> ip in m && ShardOf(ip) < i {
      SeenIs(keys, m, i, ip);
    }
  }

  lemma {:induction false} SeenAll(keys: seq<set<Ip>>, m: map<Ip, Row>)
    requires Partition(keys, m)
    ensures Seen(keys, |keys|) == m.Keys
  {
    forall ip ensures ip in Seen(keys, |keys|) <==> ip in m {
      SeenIs(keys, m, |keys|, ip);
    }
  }

  // rows is a listing of the whole map.
  ghost predicate Lists(rows: seq<Entry>, m: map<Ip, Row>) {
    multiset(rows) == multiset(EntrySet(m, m.Keys))
  }

  // rows lists the rows of the addresses in keys, and t sums them.
  ghost predicate ReadUpto(rows: seq<Entry>, t: Summary, m: map<Ip, Row>, keys: set<Ip>) {
    keys <= m.Keys && multiset(rows) == multiset(EntrySet(m, keys)) && t == Summary(SumEntries(rows), |rows|)
  }

  // Reading one shard: what both Totals and Devices do under its lock.  rows is
  // the list Devices builds and t the sums Totals builds.
  method ReadShard(shard: map<Ip, DeviceStat>, start: seq<Entry>, t: Summary,
                   ghost m: map<Ip, Row>, ghost before: set<Ip>)
    returns (rows: seq<Entry>, t': Summary)
    requires shard.Keys <= m.Keys && before <= m.Keys && before !! shard.Keys
    requires forall ip :: ip in shard ==> shard[ip].View() == m[ip]
    requires ReadUpto(start, t, m, before)
    ensures ReadUpto(rows, t', m, before + shard.Keys)
  {
    rows, t' := start, t.(devices := t.devices + |shard|);
    var keys := shard.Keys;
    ghost var done := before;
    while keys != {}
      invariant keys <= shard.Keys && done <= m.Keys && keys !! done
      invariant done + keys == before + shard.Keys && |rows| + |keys| == |start| + |shard|
      invariant multiset(rows) == multiset(EntrySet(m, done))
      invariant t'.devices == t.devices + |shard| && t'.c == SumEntries(rows)
    {
      var ip :| ip in keys;
      var e := Entry(ip, shard[ip].View());
      EntrySetAdd(m, done, ip);
      SumEntriesAppend(rows, e);
      rows := rows + [e];
      t' := t'.(c := Plus(t'.c, shard[ip].c));
      keys := keys - {ip};
      done := done + {ip};
    }
    assert done == before + shard.Keys;
  }

  // The key sets of the shards.
  ghost function KeysOf(shards: seq<map<Ip, DeviceStat>>): seq<set<Ip>> {
    seq(|shards|, k requires 0 <= k < |shards| => shards[k].Keys)
  }

  class DeviceTable {
    const shards: array<map<Ip, DeviceStat>>
    var connSeq: nat
    // The table as one map.
    ghost var table: map<Ip, DeviceStat>

    ghost predicate Valid()
      reads this`table, shards
    {
      && shards.Length == NUM_SHARDS
      && (forall k, ip :: 0 <= k < NUM_SHARDS && ip in shards[k] ==>
            ip in table && ShardOf(ip) == k && table[ip] == shards[k][ip])
      && (forall ip :: ip in table ==> ip in shards[ShardOf(ip)] && table[ip].ip == ip)
    }

    ghost function Stats(): map<Ip, Row>
      reads this`table, table.Values
    {
      map ip | ip in table :: table[ip].View()
    }

    constructor ()
      ensures Valid() && fresh(shards) && Stats() == map[] && connSeq == 0
    {
      shards := new map<Ip, DeviceStat>[NUM_SHARDS](_ => map[]);
      connSeq := 0;
      table := map[];
    }

    // Returns the device's one record, creating it on first use.
    method Device(ip: Ip) returns (d: DeviceStat)
      requires Valid()
      modifies this`table, shards
      ensures Valid() && ip in table && table[ip] == d
      ensures forall a :: a in old(table) ==> a in table && table[a] == old(table[a])
      ensures table.Keys == old(table.Keys) + {ip}
      ensures forall a :: a in table && table[a] == d ==> a == ip
      ensures d.View() == old(RowOf(ip)) && (d in old(table.Values) || fresh(d))
    {
      var k := ShardFor(ip);
      if ip in shards[k] {
        d := shards[k][ip];
        assert table[ip] == d && d.ip == ip;
        return;
      }
      assert ip !in table;
      d := new DeviceStat(ip);
      assert d !in table.Values;
      shards[k] := shards[k][ip := d];
      table := table[ip := d];
    }

    // The row of an address, zero if the table has none.
    ghost function RowOf(ip: Ip): Row
      reads this`table, table.Values
    {
      if ip in table then table[ip].View() else Row(ZERO, 0)
    }

    // The map is as before except that ip's row is r.
    twostate predicate OnlyRow(ip: Ip, r: Row)
      reads this`table, table.Values
    {
      && table.Keys == old(table.Keys) + {ip}
      && table[ip].View() == r
      && forall a :: a in old(table) && a != ip ==> table[a].View() == old(table[a].View())
    }

    method OpenConn(ip: Ip, now: int) returns (id: nat)
      requires Valid()
      modifies this`table, this`connSeq, shards, table.Values
      ensures Valid() && OnlyRow(ip, Opened(old(RowOf(ip)), now))
      ensures var a := old(RowOf(ip)); var b := RowOf(ip);
        && b.c.total == a.c.total + 1 && b.c.active == a.c.active + 1
        && b.c.tx == a.c.tx && b.c.rx == a.c.rx && b.lastSeen == now
      ensures id == connSeq == old(connSeq) + 1
    {
      var d := Device(ip);
      d.CountOpen(now);
      connSeq := connSeq + 1;
      id := connSeq;
    }

    // RecordConn's effect on the counters; the record itself goes to RecentLog.
    method CountClosed(ip: Ip, tx: nat, rx: nat)
      requires Valid()
      modifies this`table, shards, table.Values
      ensures Valid() && OnlyRow(ip, Closed(old(RowOf(ip)), tx, rx))
      ensures var a := old(RowOf(ip)); var b := RowOf(ip);
        && b.c.tx == a.c.tx + tx && b.c.rx == a.c.rx + rx
        && b.c.active == a.c.active - 1 && b.c.total == a.c.total && b.lastSeen == a.lastSeen
    {
      var d := Device(ip);
      d.CountClose(tx, rx);
    }

    // Shard k holds exactly the rows of keys[k] of m.
    ghost predicate Shows(keys: seq<set<Ip>>, m: map<Ip, Row>)
      reads this`table, shards, table.Values
    {
      && |keys| == NUM_SHARDS == shards.Length
      && (forall k :: 0 <= k < NUM_SHARDS ==> shards[k].Keys == keys[k] <= m.Keys)
      && (forall k, ip :: 0 <= k < NUM_SHARDS && ip in shards[k] ==>
            ip in table && shards[k][ip] == table[ip] && table[ip].View() == m[ip])
    }

    lemma {:induction false} ShardsShow()
      requires Valid()
      ensures Shows(KeysOf(shards[..]), Stats()) && Partition(KeysOf(shards[..]), Stats())
    {
    }

    method ReadNext(i: nat, rows: seq<Entry>, t: Summary, ghost keys: seq<set<Ip>>, ghost m: map<Ip, Row>)
      returns (rows': seq<Entry>, t': Summary)
      requires Shows(keys, m) && Partition(keys, m) && i < NUM_SHARDS
      requires ReadUpto(rows, t, m, Seen(keys, i))
      ensures ReadUpto(rows', t', m, Seen(keys, i + 1))
    {
      SeenSplits(keys, m, i);
      ghost var before := Seen(keys, i);
      var shard := shards[i];
      assert shard.Keys == keys[i] && before !! keys[i];
      assert forall ip :: ip in shard ==> shard[ip].View() == m[ip];
      rows', t' := ReadShard(shard, rows, t, m, before);
      assert Seen(keys, i + 1) == before + keys[i];
    }

    // The outer loop of Totals and Devices.
    method ReadShards(ghost keys: seq<set<Ip>>, ghost m: map<Ip, Row>) returns (rows: seq<Entry>, t: Summary)
      requires Shows(keys, m) && Partition(keys, m)
      ensures ReadUpto(rows, t, m, m.Keys)
    {
      rows, t := [], Summary(ZERO, 0);
      for i := 0 to NUM_SHARDS
        invariant Shows(keys, m)
        invariant ReadUpto(rows, t, m, Seen(keys, i))
      {
        rows, t := ReadNext(i, rows, t, keys, m);
      }
      SeenAll(keys, m);
    }

    // At rest, Totals is the sum over the map, in whatever order its rows are listed.
    method Totals() returns (t: Summary)
      requires Valid()
      ensures exists rows :: Lists(rows, Stats())
      ensures forall rows :: Lists(rows, Stats()) ==>
        && t.devices == |rows|
        && t.c.tx == Sum(rows, (e: Entry) => e.row.c.tx) && t.c.rx == Sum(rows, (e: Entry) => e.row.c.rx)
        && t.c.total == Sum(rows, (e: Entry) => e.row.c.total)
        && t.c.active == Sum(rows, (e: Entry) => e.row.c.active)
    {
      ShardsShow();
      ghost var m := Stats();
      var read;
      read, t := ReadShards(KeysOf(shards[..]), m);
      assert Lists(read, m);
      forall rows | Lists(rows, m)
        ensures t.devices == |rows|
        ensures t.c.tx == Sum(rows, (e: Entry) => e.row.c.tx) && t.c.rx == Sum(rows, (e: Entry) => e.row.c.rx)
        ensures t.c.total == Sum(rows, (e: Entry) => e.row.c.total)
        ensures t.c.active == Sum(rows, (e: Entry) => e.row.c.active)
      {
        SumEntriesPermutation(read, rows);
        SumEntriesFields(rows);
      }
      assert m == Stats();
    }

    // At rest, Devices is a permutation of the map, by descending traffic.
    method Devices() returns (out: seq<Entry>)
      requires Valid()
      ensures forall i, j :: 0 <= i < j < |out| ==>
        out[i].row.c.tx + out[i].row.c.rx >= out[j].row.c.tx + out[j].row.c.rx
      ensures Lists(out, Stats())
    {
      ShardsShow();
      ghost var m := Stats();
      var rows, _ := ReadShards(KeysOf(shards[..]), m);
      assert m == Stats();
      SortByTrafficSorts(rows);
      out := SortByTraffic(rows);
    }
  }

  ghost function EntrySet(m: map<Ip, Row>, keys: set<Ip>): set<Entry>
    requires keys <= m.Keys
  {
    set ip | ip in keys :: Entry(ip, m[ip])
  }

  lemma {:induction false} EntrySetAdd(m: map<Ip, Row>, keys: set<Ip>, ip: Ip)
    requires keys <= m.Keys && ip in m && ip !in keys
    ensures multiset(EntrySet(m, keys + {ip})) == multiset(EntrySet(m, keys)) + multiset{Entry(ip, m[ip])}
  {
    assert EntrySet(m, keys + {ip}) == EntrySet(m, keys) + {Entry(ip, m[ip])};
    assert Entry(ip, m[ip]) !in EntrySet(m, keys);
  }
}
