// Two-direction copying and the closes around it (internal/relay/relay.go): two
// copiers, the routine that waits for them, and what each connection sees.

module Duplex {
  import opened ShardIndex

  datatype Wire = Data(b: Byte) | Fin | Closed

  // Copying, after the copy loop, after the half-close, after the signal.
  datatype Phase = Copying | Ended | HalfClosed | Signalled

  // One direction. unread: what its source will still send. wire: what its
  // destination has been sent. broken: a write failed, after at most its chunk.
  datatype Dir = Dir(unread: seq<Byte>, read: seq<Byte>, wire: seq<Wire>, phase: Phase, eof: bool, broken: bool)

  // Waiting for n signals; then the deferred closes in their order.
  datatype Main = Waiting(n: nat) | Returned | UpstreamClosed | AllClosed

  // plain: the connection is a bare TCP connection, so CloseWrite is called on
  // it; a bufferedConn is not.
  datatype State = State(up: Dir, down: Dir, signals: nat, main: Main, upstreamPlain: bool, clientPlain: bool)

  datatype Side = Up | Down

  datatype Step =
    | Pass(side: Side, n: nat)               // a read and its whole write
    | Break(side: Side, n: nat, k: nat)      // a read whose write fails after k bytes
    | StopReading(side: Side)                // end of stream, or any other read error
    | HalfClose(side: Side)
    | Signal(side: Side)
    | Receive
    | CloseUpstream
    | CloseClient

  function Get(s: State, side: Side): Dir {
    if side == Up then s.up else s.down
  }

  function Put(s: State, side: Side, d: Dir): State {
    if side == Up then s.(up := d) else s.(down := d)
  }

  // Whether the direction's destination supports a half-close.
  function Plain(s: State, side: Side): bool {
    if side == Up then s.upstreamPlain else s.clientPlain
  }

  function Datas(b: seq<Byte>): seq<Wire> {
    if b == [] then [] else Datas(b[..|b| - 1]) + [Data(b[|b| - 1])]
  }

  function Start(client: seq<Byte>, upstream: seq<Byte>, upstreamPlain: bool, clientPlain: bool): State {
    State(Dir(client, [], [], Copying, false, false), Dir(upstream, [], [], Copying, false, false),
          0, Waiting(2), upstreamPlain, clientPlain)
  }

  predicate Enabled(s: State, step: Step) {
    match step
    case Pass(d, n) => Get(s, d).phase == Copying && n <= |Get(s, d).unread|
    case Break(d, n, k) => Get(s, d).phase == Copying && k <= n <= |Get(s, d).unread|
    case StopReading(d) => Get(s, d).phase == Copying
    case HalfClose(d) => Get(s, d).phase == Ended
    case Signal(d) => Get(s, d).phase == HalfClosed
    case Receive => s.signals > 0 && s.main.Waiting? && s.main.n > 0
    case CloseUpstream => s.main == Returned
    case CloseClient => s.main == UpstreamClosed
  }

  // n bytes read, k of them written.
  function Moved(d: Dir, n: nat, k: nat): Dir
    requires k <= n <= |d.unread|
  {
    d.(unread := d.unread[n..], read := d.read + d.unread[..n], wire := d.wire + Datas(d.unread[..k]))
  }

  function DirStep(d: Dir, step: Step, plain: bool): Dir
    requires step.Pass? ==> step.n <= |d.unread|
    requires step.Break? ==> step.k <= step.n <= |d.unread|
  {
    match step
    case Pass(_, n) => Moved(d, n, n)
    case Break(_, n, k) => Moved(d, n, k).(phase := Ended, broken := true)
    case StopReading(_) => d.(phase := Ended, eof := d.unread == [])
    case HalfClose(_) => d.(phase := HalfClosed, wire := if plain then d.wire + [Fin] else d.wire)
    case Signal(_) => d.(phase := Signalled)
    case _ => d
  }

  // Closing a connection ends the wire of the direction that writes to it.
  function Shut(d: Dir): Dir {
    d.(wire := d.wire + [Closed])
  }

  function Apply(s: State, step: Step): State
    requires Enabled(s, step)
  {
    match step
    case Receive => s.(signals := s.signals - 1, main := if s.main.n == 1 then Returned else Waiting(s.main.n - 1))
    case CloseUpstream => s.(up := Shut(s.up), main := UpstreamClosed)
    case CloseClient => s.(down := Shut(s.down), main := AllClosed)
    case Signal(side) => Put(s, side, DirStep(Get(s, side), step, false)).(signals := s.signals + 1)
    case _ => Put(s, step.side, DirStep(Get(s, step.side), step, Plain(s, step.side)))
  }

  predicate StepTo(s: State, step: Step, t: State) {
    Enabled(s, step) && t == Apply(s, step)
  }

  ghost predicate Next(s: State, t: State) {
    exists step :: StepTo(s, step, t)
  }

  ghost predicate IsRun(run: seq<State>, client: seq<Byte>, upstream: seq<Byte>) {
    && run != []
    && if |run| == 1 then run[0] == Start(client, upstream, run[0].upstreamPlain, run[0].clientPlain)
       else IsRun(run[..|run| - 1], client, upstream) && Next(run[|run| - 2], run[|run| - 1])
  }

  // ---- Invariants ----

  function Shutting(s: State, side: Side): bool {
    if side == Up then s.main.UpstreamClosed? || s.main.AllClosed? else s.main.AllClosed?
  }

  // What one destination has seen: a prefix of the source's bytes, in order,
  // then the half-close, then the close.
  predicate Tells(d: Dir, source: seq<Byte>, plain: bool, shut: bool) {
    && d.read + d.unread == source
    && (exists k :: 0 <= k <= |d.read| && Sent(d, k, plain, shut))
    && (d.broken || d.eof ==> d.phase != Copying)
    && !(d.broken && d.eof)
    && (d.eof ==> d.unread == [])
  }

  predicate Sent(d: Dir, k: nat, plain: bool, shut: bool)
    requires k <= |d.read|
  {
    && d.wire == Datas(d.read[..k]) + Fins(d, plain) + Closes(shut)
    && (!d.broken ==> k == |d.read|)
  }

  function Fins(d: Dir, plain: bool): seq<Wire> {
    if plain && (d.phase == HalfClosed || d.phase == Signalled) then [Fin] else []
  }

  function Closes(shut: bool): seq<Wire> {
    if shut then [Closed] else []
  }

  function Count(d: Dir): nat {
    if d.phase == Signalled then 1 else 0
  }

  // Signals sent are those waiting and those received.
  predicate Counts(s: State) {
    Count(s.up) + Count(s.down) == s.signals + if s.main.Waiting? then 2 - s.main.n else 2
  }

  predicate MainOk(s: State) {
    s.main.Waiting? ==> 1 <= s.main.n <= 2
  }

  predicate Good(s: State, client: seq<Byte>, upstream: seq<Byte>) {
    && MainOk(s) && Counts(s)
    && Tells(s.up, client, s.upstreamPlain, Shutting(s, Up))
    && Tells(s.down, upstream, s.clientPlain, Shutting(s, Down))
  }

  lemma {:induction false} DatasAdd(a: seq<Byte>, b: seq<Byte>)
    ensures Datas(a + b) == Datas(a) + Datas(b)
  {
    if b == [] {
      assert a + b == a;
    } else {
      var n := |b| - 1;
      DatasAdd(a, b[..n]);
      assert (a + b)[..|a| + n] == a + b[..n];
    }
  }

  lemma {:induction false} MovedTells(d: Dir, source: seq<Byte>, n: nat, k: nat)
    requires d.read + d.unread == source && k <= n <= |d.unread| && d.wire == Datas(d.read)
    ensures var m := Moved(d, n, k);
      && m.read + m.unread == source
      && |d.read| + k <= |m.read| && m.wire == Datas(m.read[..|d.read| + k])
  {
    var m := Moved(d, n, k);
    assert d.unread == d.unread[..n] + d.unread[n..];
    assert m.read[..|d.read| + k] == d.read + d.unread[..k];
    DatasAdd(d.read, d.unread[..k]);
  }

  lemma {:induction false} CopyingWire(d: Dir, source: seq<Byte>, plain: bool)
    requires Tells(d, source, plain, false) && d.phase == Copying
    ensures d.wire == Datas(d.read)
  {
    assert d.read[..|d.read|] == d.read;
    assert Datas(d.read) + [] + [] == Datas(d.read);
  }

  lemma {:induction false} MoveTells(d: Dir, source: seq<Byte>, plain: bool, n: nat, k: nat, broken: bool)
    requires Tells(d, source, plain, false) && d.phase == Copying
    requires k <= n <= |d.unread| && (!broken ==> k == n)
    ensures var m := Moved(d, n, k);
      Tells(if broken then m.(phase := Ended, broken := true) else m, source, plain, false)
  {
    var m := Moved(d, n, k);
    CopyingWire(d, source, plain);
    MovedTells(d, source, n, k);
    assert Datas(m.read[..|d.read| + k]) + [] + [] == m.wire;
    assert Sent(if broken then m.(phase := Ended, broken := true) else m, |d.read| + k, plain, false);
  }

  lemma {:induction false} PhaseTells(d: Dir, source: seq<Byte>, plain: bool, step: Step)
    requires Tells(d, source, plain, false)
    requires (step.StopReading? && d.phase == Copying) || (step.HalfClose? && d.phase == Ended)
      || (step.Signal? && d.phase == HalfClosed)
    ensures Tells(DirStep(d, step, plain), source, plain, false)
  {
    var k :| 0 <= k <= |d.read| && Sent(d, k, plain, false);
    var b := Datas(d.read[..k]);
    assert b + [] == b && b + [] + [] == b && b + [Fin] + [] == b + [Fin];
    assert Sent(DirStep(d, step, plain), k, plain, false);
  }

  lemma {:induction false} DirStepTells(d: Dir, source: seq<Byte>, plain: bool, step: Step)
    requires Tells(d, source, plain, false)
    requires step.Pass? ==> d.phase == Copying && step.n <= |d.unread|
    requires step.Break? ==> d.phase == Copying && step.k <= step.n <= |d.unread|
    requires step.StopReading? ==> d.phase == Copying
    requires step.HalfClose? ==> d.phase == Ended
    requires step.Signal? ==> d.phase == HalfClosed
    ensures Tells(DirStep(d, step, plain), source, plain, false)
  {
    if step.Pass? {
      MoveTells(d, source, plain, step.n, step.n, false);
    } else if step.Break? {
      MoveTells(d, source, plain, step.n, step.k, true);
    } else if step.StopReading? || step.HalfClose? || step.Signal? {
      PhaseTells(d, source, plain, step);
    }
  }

  lemma {:induction false} ShutTells(d: Dir, source: seq<Byte>, plain: bool)
    requires Tells(d, source, plain, false)
    ensures Tells(Shut(d), source, plain, true)
  {
    var k :| 0 <= k <= |d.read| && Sent(d, k, plain, false);
    assert Sent(Shut(d), k, plain, true);
  }

  lemma {:induction false} StepKeepsCounts(s: State, step: Step)
    requires MainOk(s) && Counts(s) && Enabled(s, step)
    ensures MainOk(Apply(s, step)) && Counts(Apply(s, step))
  {
  }

  // A copier still at work keeps both closes away.
  lemma {:induction false} NotShutting(s: State, side: Side)
    requires MainOk(s) && Counts(s) && Get(s, side).phase != Signalled
    ensures s.main.Waiting?
  {
  }

  lemma {:induction false} StepKeepsGood(s: State, step: Step, client: seq<Byte>, upstream: seq<Byte>)
    requires Good(s, client, upstream) && Enabled(s, step)
    ensures Good(Apply(s, step), client, upstream)
  {
    StepKeepsCounts(s, step);
    if step.Receive? {
    } else if step.CloseUpstream? {
      ShutTells(s.up, client, s.upstreamPlain);
    } else if step.CloseClient? {
      ShutTells(s.down, upstream, s.clientPlain);
    } else {
      NotShutting(s, step.side);
      if step.side == Up {
        DirStepTells(s.up, client, s.upstreamPlain, step);
      } else {
        DirStepTells(s.down, upstream, s.clientPlain, step);
      }
    }
  }

  lemma {:induction false} RunGood(run: seq<State>, client: seq<Byte>, upstream: seq<Byte>)
    requires IsRun(run, client, upstream)
    ensures Good(run[|run| - 1], client, upstream)
  {
    var n := |run| - 1;
    if n == 0 {
      var s := run[0];
      assert Sent(s.up, 0, s.upstreamPlain, false) && Sent(s.down, 0, s.clientPlain, false);
    } else {
      RunGood(run[..n], client, upstream);
      assert run[..n][n - 1] == run[n - 1];
      var step :| StepTo(run[n - 1], step, run[n]);
      StepKeepsGood(run[n - 1], step, client, upstream);
    }
  }

  // ---- What it comes to ----

  // The copy returns, and the full closes happen, only after both copiers ended;
  // the client's connection is closed after the upstream's.
  lemma {:induction false} ReturnsAfterBoth(run: seq<State>, client: seq<Byte>, upstream: seq<Byte>)
    requires IsRun(run, client, upstream)
    ensures var s := run[|run| - 1];
      && (!s.main.Waiting? ==> s.up.phase == Signalled && s.down.phase == Signalled)
      && (Closed in s.up.wire ==> s.main == UpstreamClosed || s.main == AllClosed)
      && (Closed in s.down.wire ==> s.main == AllClosed)
  {
    RunGood(run, client, upstream);
    var s := run[|run| - 1];
    ClosedWhen(s.up, client, s.upstreamPlain, Shutting(s, Up));
    ClosedWhen(s.down, upstream, s.clientPlain, Shutting(s, Down));
  }

  lemma {:induction false} OnlyData(b: seq<Byte>)
    ensures Fin !in Datas(b) && Closed !in Datas(b) && |Datas(b)| == |b|
  {
    if b != [] { OnlyData(b[..|b| - 1]); }
  }

  lemma {:induction false} ClosedWhen(d: Dir, source: seq<Byte>, plain: bool, shut: bool)
    requires Tells(d, source, plain, shut)
    ensures Closed in d.wire <==> shut
    ensures Fin in d.wire <==> plain && (d.phase == HalfClosed || d.phase == Signalled)
  {
    var k :| 0 <= k <= |d.read| && Sent(d, k, plain, shut);
    OnlyData(d.read[..k]);
    var w := Datas(d.read[..k]) + Fins(d, plain);
    assert d.wire == w + Closes(shut);
    assert shut ==> d.wire[|w|] == Closed;
    assert Fins(d, plain) == [Fin] ==> d.wire[k] == Fin;
  }

  lemma {:induction false} Extend(run: seq<State>, step: Step, client: seq<Byte>, upstream: seq<Byte>)
    returns (longer: seq<State>)
    requires IsRun(run, client, upstream) && Enabled(run[|run| - 1], step)
    ensures longer == run + [Apply(run[|run| - 1], step)] && IsRun(longer, client, upstream)
  {
    longer := run + [Apply(run[|run| - 1], step)];
    assert longer[..|longer| - 1] == run;
    assert StepTo(run[|run| - 1], step, longer[|run|]);
  }

  lemma {:induction false} PutGet(s: State, side: Side, d: Dir)
    ensures Get(Put(s, side, d), side) == d
  {
  }

  // From every state of every run in which a direction is still copying,
  // whatever the other one and the waiting routine have come to: it can go on
  // alone and deliver every byte its source still has.
  lemma {:induction false} NeverTruncated(run: seq<State>, client: seq<Byte>, upstream: seq<Byte>, side: Side)
    returns (longer: seq<State>)
    requires IsRun(run, client, upstream) && Get(run[|run| - 1], side).phase == Copying
    ensures IsRun(longer, client, upstream) && run <= longer
    ensures var d := Get(longer[|longer| - 1], side);
      && d.eof && !d.broken
      && d.wire == Datas(if side == Up then client else upstream)
  {
    var s := run[|run| - 1];
    var d := Get(s, side);
    var r1 := Extend(run, Pass(side, |d.unread|), client, upstream);
    var d1 := Moved(d, |d.unread|, |d.unread|);
    PutGet(s, side, d1);
    longer := Extend(r1, StopReading(side), client, upstream);
    PutGet(r1[|r1| - 1], side, d1.(phase := Ended, eof := true));
    RunGood(longer, client, upstream);
    var t := longer[|longer| - 1];
    NotShutting(t, side);
    EofFollowsEveryByte(longer, client, upstream, side);
    assert d1.unread == [];
    var source := if side == Up then client else upstream;
    assert Datas(source) + [] + [] == Datas(source);
  }

  lemma {:induction false} EofTells(d: Dir, source: seq<Byte>, plain: bool, shut: bool)
    requires Tells(d, source, plain, shut)
    ensures d.eof ==> d.wire == Datas(source) + Fins(d, plain) + Closes(shut)
  {
    if d.eof {
      var k :| 0 <= k <= |d.read| && Sent(d, k, plain, shut);
      assert k == |d.read| && d.read[..k] == d.read;
      assert d.unread == [] && d.read + [] == d.read;
      assert d.read == source;
    }
  }

  // A direction whose source ended its stream and whose writes succeeded: the
  // destination has seen every byte, and after the copy either a half-close
  // behind the last one, on a plain connection, or nothing until the full close.
  lemma {:induction false} EofFollowsEveryByte(run: seq<State>, client: seq<Byte>, upstream: seq<Byte>, side: Side)
    requires IsRun(run, client, upstream)
    ensures var s := run[|run| - 1]; var d := Get(s, side); var source := if side == Up then client else upstream;
      d.eof ==> d.wire == Datas(source) + Fins(d, Plain(s, side)) + Closes(Shutting(s, side))
  {
    RunGood(run, client, upstream);
    var s := run[|run| - 1];
    EofTells(Get(s, side), if side == Up then client else upstream, Plain(s, side), Shutting(s, side));
  }

  // At any moment, and whatever failed: a half-close is on a wire exactly when
  // its connection is plain and the copier is past it, behind a prefix of the
  // bytes read that is all of them unless a write failed.
  lemma {:induction false} HalfCloseExactly(run: seq<State>, client: seq<Byte>, upstream: seq<Byte>, side: Side)
    returns (k: nat)
    requires IsRun(run, client, upstream)
    ensures var s := run[|run| - 1]; var d := Get(s, side); var plain := Plain(s, side);
      && (Fin in d.wire <==> plain && (d.phase == HalfClosed || d.phase == Signalled))
      && k <= |d.read| && d.wire == Datas(d.read[..k]) + Fins(d, plain) + Closes(Shutting(s, side))
      && (!d.broken ==> k == |d.read|)
      && d.read <= (if side == Up then client else upstream)
  {
    RunGood(run, client, upstream);
    var s := run[|run| - 1];
    var d := Get(s, side);
    ClosedWhen(d, if side == Up then client else upstream, Plain(s, side), Shutting(s, side));
    var j :| 0 <= j <= |d.read| && Sent(d, j, Plain(s, side), Shutting(s, side));
    k := j;
  }

  // ---- One direction without the other ----

  predicate Goes(s: State, steps: seq<Step>)
    decreases |steps|
  {
    steps == [] || (Enabled(s, steps[0]) && Goes(Apply(s, steps[0]), steps[1..]))
  }

  function After(s: State, steps: seq<Step>): State
    requires Goes(s, steps)
    decreases |steps|
  {
    if steps == [] then s else After(Apply(s, steps[0]), steps[1..])
  }

  predicate Owns(step: Step, side: Side) {
    (step.Pass? || step.Break? || step.StopReading? || step.HalfClose? || step.Signal?) && step.side == side
  }

  // The steps of one direction's copier.
  function Own(steps: seq<Step>, side: Side): seq<Step> {
    if steps == [] then [] else (if Owns(steps[0], side) then [steps[0]] else []) + Own(steps[1..], side)
  }

  // s and t agree on one direction, but for the close that follows it in s.
  predicate Agree(s: State, t: State, side: Side) {
    && MainOk(s) && Counts(s)
    && Plain(s, side) == Plain(t, side)
    && Get(s, side) == (if Shutting(s, side) then Shut(Get(t, side)) else Get(t, side))
  }

  lemma {:induction false} OwnStepAgrees(s: State, t: State, step: Step, side: Side)
    requires Agree(s, t, side) && Enabled(s, step) && Owns(step, side)
    ensures Enabled(t, step) && Agree(Apply(s, step), Apply(t, step), side)
  {
    NotShutting(s, side);
    StepKeepsCounts(s, step);
  }

  lemma {:induction false} OtherStepAgrees(s: State, t: State, step: Step, side: Side)
    requires Agree(s, t, side) && Enabled(s, step) && !Owns(step, side)
    ensures Agree(Apply(s, step), t, side)
  {
    StepKeepsCounts(s, step);
  }

  lemma {:induction false} Erased(s: State, t: State, steps: seq<Step>, side: Side)
    requires Agree(s, t, side) && Goes(s, steps)
    ensures Goes(t, Own(steps, side)) && Agree(After(s, steps), After(t, Own(steps, side)), side)
    decreases |steps|
  {
    if steps != [] {
      var step := steps[0];
      if Owns(step, side) {
        OwnStepAgrees(s, t, step, side);
        Erased(Apply(s, step), Apply(t, step), steps[1..], side);
        assert Own(steps, side)[1..] == Own(steps[1..], side);
      } else {
        OtherStepAgrees(s, t, step, side);
        Erased(Apply(s, step), t, steps[1..], side);
        assert Own(steps, side) == Own(steps[1..], side);
      }
    }
  }

  predicate EndsCopying(step: Step) {
    step.StopReading? || step.Break?
  }

  lemma {:induction false} CopyingWhile(s: State, steps: seq<Step>, side: Side)
    requires Goes(s, steps) && forall i :: 0 <= i < |steps| ==> Owns(steps[i], side)
    ensures Get(After(s, steps), side).phase == Copying
      <==> Get(s, side).phase == Copying && forall i :: 0 <= i < |steps| ==> !EndsCopying(steps[i])
    decreases |steps|
  {
    if steps != [] {
      CopyingWhile(Apply(s, steps[0]), steps[1..], side);
      assert forall i :: 1 <= i < |steps| ==> steps[i] == steps[1..][i - 1];
      assert (forall i :: 0 <= i < |steps| ==> !EndsCopying(steps[i]))
        <==> !EndsCopying(steps[0]) && forall i :: 0 <= i < |steps| - 1 ==> !EndsCopying(steps[1..][i]);
    }
  }

  lemma {:induction false} OwnOwns(steps: seq<Step>, side: Side)
    ensures forall i :: 0 <= i < |Own(steps, side)| ==> Owns(Own(steps, side)[i], side)
    ensures (exists i :: 0 <= i < |Own(steps, side)| && EndsCopying(Own(steps, side)[i]))
      <==> (exists i :: 0 <= i < |steps| && Owns(steps[i], side) && EndsCopying(steps[i]))
  {
    if steps != [] {
      var rest := Own(steps[1..], side);
      OwnOwns(steps[1..], side);
      var first := if Owns(steps[0], side) then [steps[0]] else [];
      assert Own(steps, side) == first + rest;
      if i :| 0 <= i < |steps| && Owns(steps[i], side) && EndsCopying(steps[i]) {
        if i > 0 {
          assert steps[1..][i - 1] == steps[i];
          var k :| 0 <= k < |rest| && EndsCopying(rest[k]);
          assert (first + rest)[|first| + k] == rest[k];
        } else {
          assert (first + rest)[0] == steps[0];
        }
      }
      if k :| 0 <= k < |first + rest| && EndsCopying((first + rest)[k]) {
        if k >= |first| {
          assert rest[k - |first|] == (first + rest)[k];
          var i :| 0 <= i < |steps[1..]| && Owns(steps[1..][i], side) && EndsCopying(steps[1..][i]);
          assert steps[i + 1] == steps[1..][i];
        }
      }
    }
  }

  // One direction never affects the other: erasing all steps of the other copier
  // and of the waiting routine from any execution leaves this direction as it
  // was, but for the close behind it. It leaves off copying only by its own read
  // error or end of stream or its own failing write.
  lemma {:induction false} DirectionAlone(client: seq<Byte>, upstream: seq<Byte>,
                                          upstreamPlain: bool, clientPlain: bool, steps: seq<Step>, side: Side)
    requires Goes(Start(client, upstream, upstreamPlain, clientPlain), steps)
    ensures var s := Start(client, upstream, upstreamPlain, clientPlain);
      && Goes(s, Own(steps, side))
      && var t, alone := After(s, steps), After(s, Own(steps, side));
      && Get(t, side) == (if Shutting(t, side) then Shut(Get(alone, side)) else Get(alone, side))
      && (Get(t, side).phase == Copying
          <==> !exists i :: 0 <= i < |steps| && Owns(steps[i], side) && EndsCopying(steps[i]))
  {
    var s := Start(client, upstream, upstreamPlain, clientPlain);
    Erased(s, s, steps, side);
    OwnOwns(steps, side);
    CopyingWhile(s, Own(steps, side), side);
  }

  // Every run is such an execution.
  lemma {:induction false} RunGoes(run: seq<State>, client: seq<Byte>, upstream: seq<Byte>) returns (steps: seq<Step>)
    requires IsRun(run, client, upstream)
    ensures run[0] == Start(client, upstream, run[0].upstreamPlain, run[0].clientPlain)
    ensures Goes(run[0], steps) && After(run[0], steps) == run[|run| - 1]
  {
    var n := |run| - 1;
    if n == 0 {
      steps := [];
    } else {
      var prior := RunGoes(run[..n], client, upstream);
      assert run[..n][n - 1] == run[n - 1] && run[..n][0] == run[0];
      var step :| StepTo(run[n - 1], step, run[n]);
      GoesOn(run[0], prior, step);
      steps := prior + [step];
    }
  }

  lemma {:induction false} GoesOn(s: State, steps: seq<Step>, step: Step)
    requires Goes(s, steps) && Enabled(After(s, steps), step)
    ensures Goes(s, steps + [step]) && After(s, steps + [step]) == Apply(After(s, steps), step)
    decreases |steps|
  {
    if steps == [] {
      assert [] + [step] == [step] && [step][1..] == [];
    } else {
      assert (steps + [step])[1..] == steps[1..] + [step];
      GoesOn(Apply(s, steps[0]), steps[1..], step);
    }
  }
}
