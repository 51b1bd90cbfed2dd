// The HTTP CONNECT upstream (internal/relay/relay.go): the response header is
// read through a buffered reader, and the tunnel goes on reading through it.

module Tunnels {
  import opened Optional
  import opened ShardIndex
  import opened Streams

  // The size of a bufio.Reader's buffer.
  const FILL: nat := 4096

  const CR: Byte := 13
  const LF: Byte := 10

  // ---- Where the header ends ----

  // The length of the first line, its LF included.
  function FirstLine(s: seq<Byte>): (k: Option<nat>)
    ensures k.Some? ==> 0 < k.value <= |s| && s[k.value - 1] == LF
  {
    if s == [] then None else
    if s[0] == LF then Some(1) else
    match FirstLine(s[1..])
    case None => None
    case Some(k) => Some(k + 1)
  }

  predicate Blank(line: seq<Byte>) {
    line == [LF] || line == [CR, LF]
  }

  // What follows the first blank line.
  function AfterBlank(s: seq<Byte>): Option<seq<Byte>>
    decreases |s|
  {
    match FirstLine(s)
    case None => None
    case Some(k) => if Blank(s[..k]) then Some(s[k..]) else AfterBlank(s[k..])
  }

  // What follows the response header: a status line, then lines up to a blank one.
  function Body(s: seq<Byte>): Option<seq<Byte>> {
    match FirstLine(s)
    case None => None
    case Some(k) => AfterBlank(s[k..])
  }

  lemma {:induction false} FirstLineStable(s: seq<Byte>, x: seq<Byte>)
    requires FirstLine(s).Some?
    ensures FirstLine(s + x) == FirstLine(s)
  {
    if s[0] != LF {
      FirstLineStable(s[1..], x);
      assert (s + x)[1..] == s[1..] + x;
    }
  }

  lemma {:induction false} LineSplits(s: seq<Byte>, x: seq<Byte>, k: nat)
    requires FirstLine(s) == Some(k)
    ensures FirstLine(s + x) == Some(k) && (s + x)[..k] == s[..k] && (s + x)[k..] == s[k..] + x
  {
    FirstLineStable(s, x);
  }

  lemma {:induction false} BlankStable(s: seq<Byte>, x: seq<Byte>)
    requires AfterBlank(s).Some?
    ensures AfterBlank(s + x) == Some(AfterBlank(s).value + x)
    decreases |s|
  {
    var k := FirstLine(s).value;
    LineSplits(s, x, k);
    if !Blank(s[..k]) {
      BlankStable(s[k..], x);
    }
  }

  // A complete header is taken off whatever follows it, and nothing more.
  lemma {:induction false} HeaderTakenOff(h: seq<Byte>, x: seq<Byte>)
    requires Body(h) == Some([])
    ensures Body(h + x) == Some(x)
  {
    var k := FirstLine(h).value;
    LineSplits(h, x, k);
    BlankStable(h[k..], x);
    assert [] + x == x;
  }

  // A line of a header as it is sent, closed by CR LF or by a bare LF.
  datatype Line = Line(text: seq<Byte>, bare: bool)

  function End(bare: bool): seq<Byte> {
    if bare then [10] else [13, 10]
  }

  // A line that is not taken for the empty one.
  predicate Filled(line: Line) {
    line.text != [] && 10 !in line.text && (line.bare ==> line.text != [13])
  }

  function Sent(lines: seq<Line>): seq<Byte> {
    if lines == [] then [] else lines[0].text + End(lines[0].bare) + Sent(lines[1..])
  }

  lemma {:induction false} SentLine(text: seq<Byte>, bare: bool, x: seq<Byte>)
    requires 10 !in text
    ensures var e := End(bare); var s := text + e + x;
      FirstLine(s) == Some(|text| + |e|) && s[..|text| + |e|] == text + e && s[|text| + |e|..] == x
  {
    var e := End(bare);
    if text == [] {
      assert [] + e + x == e + x;
      if !bare { assert (e + x)[1..] == [10] + x; }
    } else {
      SentLine(text[1..], bare, x);
      assert (text + e + x)[1..] == text[1..] + e + x;
      assert text[0] in text;
    }
  }

  lemma {:induction false} NotBlank(line: Line)
    requires Filled(line)
    ensures line.text + End(line.bare) != [10] && line.text + End(line.bare) != [13, 10]
  {
    var s := line.text + End(line.bare);
    if |line.text| == 1 && line.bare { assert s[0] == line.text[0]; }
  }

  lemma {:induction false} SentBlank(lines: seq<Line>, bare: bool, x: seq<Byte>)
    requires forall i :: 0 <= i < |lines| ==> Filled(lines[i])
    ensures AfterBlank(Sent(lines) + (End(bare) + x)) == Some(x)
  {
    if lines == [] {
      assert Sent(lines) + (End(bare) + x) == [] + End(bare) + x;
      SentLine([], bare, x);
      assert [] + End(bare) == End(bare);
    } else {
      var rest := Sent(lines[1..]) + (End(bare) + x);
      assert Sent(lines) + (End(bare) + x) == lines[0].text + End(lines[0].bare) + rest;
      SentLine(lines[0].text, lines[0].bare, rest);
      NotBlank(lines[0]);
      SentBlank(lines[1..], bare, x);
    }
  }

  // A status line, any number of header lines and an empty one, each closed by
  // CR LF or by LF alone: what follows is the tunnel's.
  lemma {:induction false} HeaderEnds(status: Line, lines: seq<Line>, bare: bool, x: seq<Byte>)
    requires 10 !in status.text && forall i :: 0 <= i < |lines| ==> Filled(lines[i])
    ensures Body(status.text + End(status.bare) + (Sent(lines) + (End(bare) + x))) == Some(x)
  {
    SentLine(status.text, status.bare, Sent(lines) + (End(bare) + x));
    SentBlank(lines, bare, x);
  }

  // line is the first line of s.
  predicate Splits(s: seq<Byte>, line: seq<Byte>, rest: seq<Byte>) {
    s == line + rest && FirstLine(s) == Some(|line|)
  }

  lemma {:induction false} SplitMeans(s: seq<Byte>, line: seq<Byte>, rest: seq<Byte>)
    requires Splits(s, line, rest)
    ensures |rest| < |s|
    ensures Body(s) == AfterBlank(rest)
    ensures AfterBlank(s) == if Blank(line) then Some(rest) else AfterBlank(rest)
  {
    assert s[..|line|] == line && s[|line|..] == rest;
  }

  // The response header, when it is complete.
  function Header(s: seq<Byte>): seq<Byte>
    requires Body(s).Some?
  {
    BodyIsSuffix(s);
    s[..|s| - |Body(s).value|]
  }

  lemma {:induction false} AfterBlankIsSuffix(s: seq<Byte>)
    requires AfterBlank(s).Some?
    ensures |AfterBlank(s).value| <= |s|
    decreases |s|
  {
    var k := FirstLine(s).value;
    if !Blank(s[..k]) {
      AfterBlankIsSuffix(s[k..]);
    }
  }

  lemma {:induction false} BodyIsSuffix(s: seq<Byte>)
    requires Body(s).Some?
    ensures |Body(s).value| <= |s|
  {
    AfterBlankIsSuffix(s[FirstLine(s).value..]);
  }

  lemma {:induction false} HeaderIs(s: seq<Byte>, header: seq<Byte>, body: seq<Byte>)
    requires s == header + body && Body(s) == Some(body)
    ensures Header(s) == header
  {
  }

  // The response is complete, and its header accepted: well-formed, with status 200.
  predicate Answered(s: seq<Byte>, accepts: seq<Byte> -> bool) {
    Body(s).Some? && accepts(Header(s))
  }

  // ---- The buffered reader ----

  // failed: a read error not yet reported.
  datatype Buffered = Buffered(held: seq<Byte>, feed: Feed, failed: bool)

  predicate Sound(b: Buffered) {
    b.failed ==> b.feed.arrivals == []
  }

  // Every byte still to be read.
  function Ahead(b: Buffered): seq<Byte> {
    b.held + Flat(b.feed.arrivals)
  }

  // The reader seen as a connection of its own.
  function AsFeed(b: Buffered): Feed {
    var arrivals := if b.held == [] then b.feed.arrivals else [b.held] + b.feed.arrivals;
    Feed(arrivals, b.feed.together && b.feed.arrivals != [])
  }

  lemma {:induction false} AsFeedAhead(b: Buffered)
    ensures Flat(AsFeed(b).arrivals) == Ahead(b)
  {
    if b.held != [] {
      assert ([b.held] + b.feed.arrivals)[1..] == b.feed.arrivals;
    }
  }

  class BufReader {
    const conn: Conn
    const scratch: array<Byte>
    var held: seq<Byte>
    var failed: bool

    constructor (conn: Conn)
      ensures this.conn == conn && fresh(scratch) && Valid()
      ensures State() == Buffered([], conn.feed, false)
    {
      this.conn, this.held, this.failed := conn, [], false;
      this.scratch := new Byte[FILL](_ => 0);
    }

    ghost function State(): Buffered
      reads this, conn
    {
      Buffered(held, conn.feed, failed)
    }

    ghost predicate Valid()
      reads this, conn
    {
      scratch.Length == FILL && Sound(State())
    }

    // One read from the connection.
    method Fill()
      requires Valid() && !failed
      modifies this, conn`feed, scratch
      ensures Valid() && Ahead(State()) == old(Ahead(State()))
      ensures failed || Weight(conn.feed) < old(Weight(conn.feed))
    {
      TakeKeepsStream(conn.feed, FILL);
      ghost var t := Take(conn.feed, FILL);
      var n, err := conn.Read(scratch);
      assert scratch[..n] == t.chunk;
      Assoc(held, t.chunk, Flat(conn.feed.arrivals));
      held, failed := held + scratch[..n], err;
    }

    method ReadLine() returns (line: seq<Byte>, ok: bool)
      requires Valid()
      modifies this, conn`feed, scratch
      ensures Valid()
      ensures ok <==> FirstLine(old(Ahead(State()))).Some?
      ensures ok ==> Splits(old(Ahead(State())), line, Ahead(State()))
    {
      ghost var all := Ahead(State());
      while FirstLine(held).None?
        invariant Valid() && Ahead(State()) == all
        decreases Weight(conn.feed), !failed
      {
        if failed {
          assert Ahead(State()) == held;
          return [], false;
        }
        Fill();
      }
      var k := FirstLine(held).value;
      LineSplits(held, Flat(conn.feed.arrivals), k);
      line, ok, held := held[..k], true, held[k..];
    }

    // Reads the status line and the header lines, through the blank one; what
    // they say is for DialHTTP to judge.
    method ReadHeader() returns (header: seq<Byte>, ok: bool)
      requires Valid()
      modifies this, conn`feed, scratch
      ensures Valid()
      ensures match Body(old(Ahead(State())))
              case None => !ok
              case Some(b) => ok && Ahead(State()) == b
      ensures ok ==> old(Ahead(State())) == header + Ahead(State())
    {
      ghost var all := Ahead(State());
      header, ok := ReadLine();
      if !ok { return; }
      SplitMeans(all, header, Ahead(State()));
      while true
        invariant Valid() && Body(all) == AfterBlank(Ahead(State()))
        invariant all == header + Ahead(State())
        decreases |Ahead(State())|
      {
        ghost var rest := Ahead(State());
        var line, more := ReadLine();
        if !more { return header, false; }
        SplitMeans(rest, line, Ahead(State()));
        Assoc(header, line, Ahead(State()));
        header := header + line;
        if Blank(line) { return header, true; }
      }
    }

    // The held bytes first. With none held, a buffer at least as large as the
    // reader's own is read into directly, and another one through the reader's.
    // So a buffer of that size reads as from one connection.
    method Read(p: array<Byte>) returns (n: nat, err: bool)
      requires Valid() && p != scratch
      modifies this, conn`feed, p, scratch
      ensures Valid() && n <= p.Length
      ensures p[..n] + Ahead(State()) == old(Ahead(State()))
      ensures err ==> Ahead(State()) == []
      ensures p.Length >= FILL ==>
        var t := Take(old(AsFeed(State())), p.Length);
        p[..n] == t.chunk && err == t.err && (!err ==> AsFeed(State()) == t.rest)
    {
      if held == [] {
        if failed {
          failed := false;
          return 0, true;
        }
        if p.Length >= FILL {
          TakeKeepsStream(conn.feed, p.Length);
          n, err := conn.Read(p);
          return;
        }
        if p.Length == 0 { return 0, false; }
        Fill();
        if held == [] {
          err := failed;
          failed := false;
          return 0, err;
        }
      }
      n := GiveOut(p);
      err := false;
    }

    // As many of the held bytes as fit.
    method GiveOut(p: array<Byte>) returns (n: nat)
      requires Valid() && held != [] && p != scratch
      modifies this, p
      ensures Valid() && n <= p.Length && failed == old(failed)
      ensures p[..n] + Ahead(State()) == old(Ahead(State()))
      ensures var t := Take(old(AsFeed(State())), p.Length);
        p[..n] == t.chunk && !t.err && AsFeed(State()) == t.rest
    {
      n := if |held| <= p.Length then |held| else p.Length;
      for i := 0 to n
        invariant State() == old(State())
        invariant p[..i] == held[..i]
      {
        p[i] := held[i];
        assert p[..i + 1] == held[..i + 1];
      }
      ghost var arrivals := [held] + conn.feed.arrivals;
      assert arrivals[1..] == conn.feed.arrivals;
      assert held == held[..n] + held[n..];
      Assoc(held[..n], held[n..], Flat(conn.feed.arrivals));
      held := held[n..];
    }

    // One read and the write of what it brought; over tells whether either failed.
    method Round(dst: Conn, p: array<Byte>) returns (n: nat, over: bool)
      requires Valid() && dst != conn && p != scratch && p.Length >= FILL
      modifies this, conn`feed, dst`calls, dst`sent, p, scratch
      ensures Valid()
      ensures var t := Take(old(AsFeed(State())), p.Length); var i := old(dst.calls);
        && n == |t.chunk| && (!over ==> AsFeed(State()) == t.rest)
        && dst.calls == (if t.chunk != [] then i + 1 else i)
        && (if t.chunk != [] && dst.writes(i).Some? then
              over && dst.sent == old(dst.sent) + Cut(t.chunk, dst.writes(i).value)
            else
              over == t.err && dst.sent == old(dst.sent) + t.chunk)
    {
      n, over := Read(p);
      if n > 0 {
        var failed := dst.Write(p[..n]);
        if failed { over := true; }
      }
    }

    method CopyLoop(dst: Conn, buf: array<Byte>, ghost copy: Copying) returns (total: nat)
      requires Valid() && dst != conn && buf != scratch && buf.Length == BUFFER
      requires ByRounds(copy, BUFFER, dst.writes)
      modifies this, conn`feed, dst`calls, dst`sent, buf, scratch
      ensures var c := copy(old(AsFeed(State())), old(dst.calls));
        total == c.counted && dst.sent == old(dst.sent) + c.delivered
    {
      total := 0;
      ghost var read: seq<Byte> := [];
      ghost var whole := copy(AsFeed(State()), dst.calls);
      AfterNothing(whole);
      while true
        invariant Valid()
        invariant total == |read| && dst.sent == old(dst.sent) + read
        invariant whole == After(read, copy(AsFeed(State()), dst.calls))
        decreases Weight(AsFeed(State()))
      {
        ghost var t := Take(AsFeed(State()), BUFFER);
        assert RoundBy(copy, AsFeed(State()), BUFFER, dst.writes, dst.calls);
        RoundEnds(copy, old(dst.sent), read, AsFeed(State()), BUFFER, dst.writes, dst.calls);
        TakeKeepsStream(AsFeed(State()), BUFFER);
        var n, over := Round(dst, buf);
        total := total + n;
        if over { break; }
        read := read + t.chunk;
      }
    }

    // copyWithTimeout with a bufferedConn for its source.
    method CopyWithTimeout(dst: Conn, buf: array<Byte>) returns (total: nat)
      requires Valid() && dst != conn && buf != scratch && buf.Length == BUFFER
      modifies this, conn`feed, dst`calls, dst`sent, buf, scratch
      ensures var c := Copy(old(AsFeed(State())), BUFFER, dst.writes, old(dst.calls));
        total == c.counted && dst.sent == old(dst.sent) + c.delivered
    {
      CopyByRounds(BUFFER, dst.writes);
      total := CopyLoop(dst, buf, CopyBy(BUFFER, dst.writes));
    }

    // dialHTTP once the request is written. What the header says, its status
    // included, is judged by accepts; the connection is given up otherwise.
    method DialHTTP(accepts: seq<Byte> -> bool) returns (ok: bool)
      requires Valid()
      modifies this, conn`feed, scratch
      ensures Valid()
      ensures ok <==> Answered(old(Ahead(State())), accepts)
      ensures ok ==> Ahead(State()) == Body(old(Ahead(State()))).value
    {
      var header, found := ReadHeader();
      if found { HeaderIs(old(Ahead(State())), header, Ahead(State())); }
      ok := found && accepts(header);
    }

    // The upstream's direction of an HTTP CONNECT connection, from its first
    // byte: once the proxy has accepted, what follows its header goes to the
    // client, and otherwise nothing does.
    method Tunnel(accepts: seq<Byte> -> bool, dst: Conn, buf: array<Byte>)
      returns (ok: bool, total: nat, ghost c: Copied)
      requires Valid() && dst != conn && buf != scratch && buf.Length == BUFFER
      modifies this, conn`feed, dst`calls, dst`sent, buf, scratch
      ensures ok <==> Answered(old(Ahead(State())), accepts)
      ensures !ok ==> dst.sent == old(dst.sent) && total == 0
      ensures ok ==> total == c.counted && dst.sent == old(dst.sent) + c.delivered
      ensures ok ==> Delivers(c, Body(old(Ahead(State()))).value)
      ensures ok && (forall k :: dst.writes(k).None?) ==>
        dst.sent == old(dst.sent) + Body(old(Ahead(State()))).value
    {
      ok := DialHTTP(accepts);
      total, c := 0, Copied([], [], 0, true);
      if !ok { return; }
      c := Copy(AsFeed(State()), BUFFER, dst.writes, dst.calls);
      TunnelDeliversBody(State(), dst.writes, dst.calls);
      total := CopyWithTimeout(dst, buf);
    }
  }

  // ---- The tunnel ----

  // A prefix of the body, all of it when the copying ends on a read error, as
  // it does when no write fails; counted ahead by at most one buffer.
  predicate Delivers(c: Copied, body: seq<Byte>) {
    && c.delivered <= body
    && (c.byRead ==> c.delivered == body)
    && |c.delivered| <= c.counted <= |c.delivered| + 16384
  }

  lemma {:induction false} TunnelDeliversBody(b: Buffered, writes: Writes, i: nat)
    ensures var c := Copy(AsFeed(b), BUFFER, writes, i);
      Delivers(c, Ahead(b)) && (c.byRead <== forall k :: i <= k ==> writes(k).None?)
  {
    AsFeedAhead(b);
    StreamIntegrity(AsFeed(b), BUFFER, writes, i);
  }

  // Reading on from the bare connection instead would lose the bytes the reader
  // holds, so it would deliver the body exactly when it holds none.
  lemma {:induction false} BareConnectionLoses(b: Buffered, writes: Writes, i: nat)
    requires forall k :: writes(k).None?
    ensures var c := Copy(b.feed, BUFFER, writes, i);
      && b.held + c.delivered == Ahead(b)
      && (c.delivered == Ahead(b) <==> b.held == [])
  {
    StreamIntegrity(b.feed, BUFFER, writes, i);
  }
}
