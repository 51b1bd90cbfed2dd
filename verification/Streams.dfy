// One direction of a relayed connection (internal/relay/relay.go): reading in
// pieces of any size through a buffer of 16384 bytes, and writing them on.

module Streams {
  import opened Optional
  import opened ShardIndex

  const BUFFER: nat := 16384

  // What arrives on a connection, piece by piece, until reading fails; together
  // tells whether the last piece comes with the error.
  datatype Feed = Feed(arrivals: seq<seq<Byte>>, together: bool)

  function Flat(a: seq<seq<Byte>>): seq<Byte> {
    if a == [] then [] else a[0] + Flat(a[1..])
  }

  function Weight(f: Feed): nat {
    |f.arrivals| + |Flat(f.arrivals)|
  }

  // One Read into a buffer of the given size.
  datatype Taken = Taken(chunk: seq<Byte>, err: bool, rest: Feed)

  function Take(f: Feed, size: nat): Taken {
    if f.arrivals == [] then Taken([], true, f) else
    var head, tail := f.arrivals[0], f.arrivals[1..];
    if |head| <= size then Taken(head, f.together && tail == [], Feed(tail, f.together))
    else Taken(head[..size], false, Feed([head[size..]] + tail, f.together))
  }

  lemma {:induction false} TakeKeepsStream(f: Feed, size: nat)
    ensures var t := Take(f, size);
      && t.chunk + Flat(t.rest.arrivals) == Flat(f.arrivals)
      && |t.chunk| <= size
      && (t.err ==> t.rest.arrivals == [])
      && (!t.err && size > 0 ==> Weight(t.rest) < Weight(f))
  {
    if f.arrivals != [] && |f.arrivals[0]| > size {
      var head, tail := f.arrivals[0], f.arrivals[1..];
      assert head == head[..size] + head[size..];
      assert ([head[size..]] + tail)[1..] == tail;
      assert Flat(f.arrivals) == head[..size] + (head[size..] + Flat(tail));
    }
  }

  // The fate of each write, by its number: Some(k) fails after k bytes.
  type Writes = nat -> Option<nat>

  // byRead: the loop ended on a read error.
  datatype Copied = Copied(read: seq<Byte>, delivered: seq<Byte>, counted: nat, byRead: bool)

  function After(chunk: seq<Byte>, c: Copied): Copied {
    Copied(chunk + c.read, chunk + c.delivered, |chunk| + c.counted, c.byRead)
  }

  function Cut(chunk: seq<Byte>, k: nat): (c: seq<Byte>)
    ensures c <= chunk && |c| == if k < |chunk| then k else |chunk|
  {
    if k < |chunk| then chunk[..k] else chunk
  }

  function Copy(f: Feed, size: nat, writes: Writes, i: nat): Copied
    requires size > 0
    decreases Weight(f)
  {
    TakeKeepsStream(f, size);
    var t := Take(f, size);
    if t.chunk != [] && writes(i).Some? then
      Copied(t.chunk, Cut(t.chunk, writes(i).value), |t.chunk|, false)
    else if t.err then Copied(t.chunk, t.chunk, |t.chunk|, true)
    else After(t.chunk, Copy(t.rest, size, writes, if t.chunk != [] then i + 1 else i))
  }

  lemma {:induction false} AfterTwice(a: seq<Byte>, b: seq<Byte>, c: Copied)
    ensures After(a, After(b, c)) == After(a + b, c)
  {
    assert a + (b + c.read) == a + b + c.read;
    assert a + (b + c.delivered) == a + b + c.delivered;
  }

  // Copying from a feed on, with the next write's number.
  type Copying = (Feed, nat) -> Copied

  function CopyBy(size: nat, writes: Writes): Copying
    requires size > 0
  {
    (f: Feed, i: nat) => Copy(f, size, writes, i)
  }

  // One round of the loop.
  ghost predicate RoundBy(copy: Copying, f: Feed, size: nat, writes: Writes, i: nat) {
    var t, c := Take(f, size), copy(f, i);
    if t.chunk != [] && writes(i).Some? then c.counted == |t.chunk| && c.delivered == Cut(t.chunk, writes(i).value)
    else if t.err then c.counted == |t.chunk| && c.delivered == t.chunk
    else c == After(t.chunk, copy(t.rest, if t.chunk != [] then i + 1 else i))
  }

  ghost predicate ByRounds(copy: Copying, size: nat, writes: Writes) {
    forall f: Feed, i: nat :: RoundBy(copy, f, size, writes, i)
  }

  lemma {:induction false} CopyByRounds(size: nat, writes: Writes)
    requires size > 0
    ensures ByRounds(CopyBy(size, writes), size, writes)
  {
    forall f: Feed, i: nat ensures RoundBy(CopyBy(size, writes), f, size, writes, i) {
      TakeKeepsStream(f, size);
    }
  }

  // However the stream arrives in pieces and however writing fails: what is
  // delivered is a prefix of what was read, itself a prefix of the stream, and
  // is the whole stream when the loop ends on a read error; the count is ahead
  // of the delivery by at most one buffer.
  lemma {:induction false} StreamIntegrity(f: Feed, size: nat, writes: Writes, i: nat)
    requires size > 0
    ensures var c := Copy(f, size, writes, i);
      && c.delivered <= c.read <= Flat(f.arrivals)
      && c.counted == |c.read|
      && |c.delivered| <= c.counted <= |c.delivered| + size
      && (c.byRead ==> c.delivered == c.read == Flat(f.arrivals))
      && (c.byRead <== forall k :: i <= k ==> writes(k).None?)
    decreases Weight(f)
  {
    TakeKeepsStream(f, size);
    var t := Take(f, size);
    if !(t.chunk != [] && writes(i).Some?) && !t.err {
      StreamIntegrity(t.rest, size, writes, if t.chunk != [] then i + 1 else i);
    }
  }

  // Two ways of cutting one stream into pieces deliver the same bytes.
  lemma {:induction false} SegmentationIrrelevant(f: Feed, g: Feed, writes: Writes, i: nat, j: nat)
    requires Flat(f.arrivals) == Flat(g.arrivals) && forall k :: writes(k).None?
    ensures Copy(f, BUFFER, writes, i).delivered == Copy(g, BUFFER, writes, j).delivered
    ensures Copy(f, BUFFER, writes, i).counted == Copy(g, BUFFER, writes, j).counted
  {
    StreamIntegrity(f, BUFFER, writes, i);
    StreamIntegrity(g, BUFFER, writes, j);
  }

  class Conn {
    const writes: Writes
    var feed: Feed
    var calls: nat
    var sent: seq<Byte>

    constructor (feed: Feed, writes: Writes)
      ensures this.feed == feed && this.writes == writes && calls == 0 && sent == []
    {
      this.feed, this.writes, this.calls, this.sent := feed, writes, 0, [];
    }

    method Read(buf: array<Byte>) returns (n: nat, err: bool)
      modifies this`feed, buf
      ensures n <= buf.Length
      ensures Taken(buf[..n], err, feed) == Take(old(feed), buf.Length)
    {
      var t := Take(feed, buf.Length);
      TakeKeepsStream(feed, buf.Length);
      n, err, feed := |t.chunk|, t.err, t.rest;
      for i := 0 to n
        invariant buf[..i] == t.chunk[..i]
        invariant feed == t.rest
      {
        buf[i] := t.chunk[i];
        assert buf[..i + 1] == buf[..i] + [t.chunk[i]];
      }
      assert t.chunk[..n] == t.chunk;
    }

    method Write(data: seq<Byte>) returns (err: bool)
      modifies this`calls, this`sent
      ensures calls == old(calls) + 1 && err == writes(old(calls)).Some?
      ensures sent == old(sent) + if err then Cut(data, writes(old(calls)).value) else data
    {
      err := writes(calls).Some?;
      sent := sent + if err then Cut(data, writes(calls).value) else data;
      calls := calls + 1;
    }
  }

  // One read and the write of what it brought; over tells whether either failed.
  method Round(dst: Conn, src: Conn, buf: array<Byte>) returns (n: nat, over: bool)
    requires dst != src && buf.Length > 0
    modifies dst`calls, dst`sent, src`feed, buf
    ensures var t := Take(old(src.feed), buf.Length); var i := old(dst.calls);
      && n == |t.chunk| && src.feed == t.rest
      && dst.calls == (if t.chunk != [] then i + 1 else i)
      && (if t.chunk != [] && dst.writes(i).Some? then
            over && dst.sent == old(dst.sent) + Cut(t.chunk, dst.writes(i).value)
          else
            over == t.err && dst.sent == old(dst.sent) + t.chunk)
  {
    n, over := src.Read(buf);
    if n > 0 {
      var failed := dst.Write(buf[..n]);
      if failed { over := true; }
    }
  }

  lemma {:induction false} Assoc(a: seq<Byte>, b: seq<Byte>, c: seq<Byte>)
    ensures a + b + c == a + (b + c)
  {
  }

  // What a round that ends the loop, and one that does not, leave of it.
  lemma {:induction false} RoundEnds(copy: Copying, sent: seq<Byte>, read: seq<Byte>, f: Feed, size: nat,
                                     writes: Writes, i: nat)
    requires RoundBy(copy, f, size, writes, i)
    ensures var t := Take(f, size); var c := After(read, copy(f, i));
      var failed := t.chunk != [] && writes(i).Some?;
      && (failed ==>
            c.counted == |read| + |t.chunk| && sent + read + Cut(t.chunk, writes(i).value) == sent + c.delivered)
      && (!failed && t.err ==> c.counted == |read| + |t.chunk| && sent + read + t.chunk == sent + c.delivered)
      && (!failed && !t.err ==>
            && sent + read + t.chunk == sent + (read + t.chunk)
            && c == After(read + t.chunk, copy(t.rest, if t.chunk != [] then i + 1 else i)))
  {
    var t := Take(f, size);
    Assoc(sent, read, t.chunk);
    if t.chunk != [] && writes(i).Some? {
      Assoc(sent, read, Cut(t.chunk, writes(i).value));
    } else if !t.err {
      AfterTwice(read, t.chunk, copy(t.rest, if t.chunk != [] then i + 1 else i));
    }
  }

  lemma {:induction false} AfterNothing(c: Copied)
    ensures After([], c) == c
  {
  }

  method CopyLoop(dst: Conn, src: Conn, buf: array<Byte>, ghost copy: Copying) returns (total: nat)
    requires dst != src && buf.Length == BUFFER && ByRounds(copy, BUFFER, dst.writes)
    modifies dst`calls, dst`sent, src`feed, buf
    ensures var c := copy(old(src.feed), old(dst.calls));
      total == c.counted && dst.sent == old(dst.sent) + c.delivered
  {
    total := 0;
    ghost var read: seq<Byte> := [];
    ghost var whole := copy(src.feed, dst.calls);
    AfterNothing(whole);
    while true
      invariant total == |read| && dst.sent == old(dst.sent) + read
      invariant whole == After(read, copy(src.feed, dst.calls))
      decreases Weight(src.feed)
    {
      ghost var t := Take(src.feed, BUFFER);
      assert RoundBy(copy, src.feed, BUFFER, dst.writes, dst.calls);
      RoundEnds(copy, old(dst.sent), read, src.feed, BUFFER, dst.writes, dst.calls);
      TakeKeepsStream(src.feed, BUFFER);
      var n, over := Round(dst, src, buf);
      total := total + n;
      if over { break; }
      read := read + t.chunk;
    }
  }

  // buf comes from the pool.
  method CopyWithTimeout(dst: Conn, src: Conn, buf: array<Byte>) returns (total: nat)
    requires dst != src && buf.Length == BUFFER
    modifies dst`calls, dst`sent, src`feed, buf
    ensures var c := Copy(old(src.feed), BUFFER, dst.writes, old(dst.calls));
      total == c.counted && dst.sent == old(dst.sent) + c.delivered
  {
    CopyByRounds(BUFFER, dst.writes);
    total := CopyLoop(dst, src, buf, CopyBy(BUFFER, dst.writes));
  }
}
