// Saving the device remarks (internal/device/device.go): every change marks the
// remarks dirty and starts a saver, and any number of savers interleave.

module Remarks {
  type Book = map<string, string>

  datatype Content = Absent | Garbled | Whole(book: Book)

  // Saving: past its critical section, with its copy. Written: the temporary
  // file is written, the rename is next.
  datatype Saver = Waiting | Saving(copy: Book) | Written(copy: Book) | Finished

  // kept: whether the last save to end was a success.
  datatype State = State(
    configured: bool, remarks: Book, dirty: bool, savers: seq<Saver>,
    file: Content, tmp: Content, kept: bool)

  datatype WriteResult = WriteOk | OpenFailed | CutShort

  datatype Step =
    | SetRemark(ip: string, remark: string)
    | Enter(i: nat)
    | WriteTmp(i: nat, result: WriteResult)
    | Rename(i: nat, ok: bool)

  // What loadRemarks leaves: the file's content, or whatever could be decoded.
  predicate Init(s: State) {
    && !s.dirty && s.savers == [] && !s.kept
    && (s.configured && s.file.Whole? ==> s.remarks == s.file.book)
    && (!s.configured || s.file.Absent? ==> s.remarks == map[])
  }

  predicate Enabled(s: State, step: Step) {
    match step
    case SetRemark(_, _) => true
    case Enter(i) => i < |s.savers| && s.savers[i].Waiting?
    case WriteTmp(i, _) => i < |s.savers| && s.savers[i].Saving?
    case Rename(i, _) => i < |s.savers| && s.savers[i].Written?
  }

  // An empty remark removes the entry.
  function Changed(b: Book, ip: string, remark: string): Book {
    if remark == "" then b - {ip} else b[ip := remark]
  }

  // What Remark answers: the empty string where there is none.
  function RemarkOf(b: Book, ip: string): string {
    if ip in b then b[ip] else ""
  }

  // After SetRemark the address has that remark and every other its own, and an
  // entry is there for it only if the remark is not empty.
  lemma {:induction false} ChangedTells(b: Book, ip: string, remark: string, other: string)
    ensures var c := Changed(b, ip, remark);
      && RemarkOf(c, ip) == remark
      && (ip in c <==> remark != "")
      && (other != ip ==> (other in c <==> other in b) && RemarkOf(c, other) == RemarkOf(b, other))
  {
  }

  function Entered(s: State, i: nat): State
    requires i < |s.savers|
  {
    if !s.dirty || !s.configured then s.(savers := s.savers[i := Finished])
    else s.(dirty := false, savers := s.savers[i := Saving(s.remarks)])
  }

  function Wrote(s: State, i: nat, result: WriteResult): State
    requires Enabled(s, WriteTmp(i, result))
  {
    match result
    case WriteOk => s.(tmp := Whole(s.savers[i].copy), savers := s.savers[i := Written(s.savers[i].copy)])
    case OpenFailed => s.(savers := s.savers[i := Finished], kept := false)
    case CutShort => s.(tmp := Garbled, savers := s.savers[i := Finished], kept := false)
  }

  // Renaming a file that is gone fails.
  function Renamed(s: State, i: nat, ok: bool): State
    requires i < |s.savers|
  {
    var done := s.savers[i := Finished];
    if ok && s.tmp != Absent then s.(file := s.tmp, tmp := Absent, savers := done, kept := true)
    else s.(savers := done, kept := false)
  }

  function Apply(s: State, step: Step): State
    requires Enabled(s, step)
  {
    match step
    case SetRemark(ip, remark) =>
      s.(remarks := Changed(s.remarks, ip, remark), dirty := true, savers := s.savers + [Waiting])
    case Enter(i) => Entered(s, i)
    case WriteTmp(i, result) => Wrote(s, i, result)
    case Rename(i, ok) => Renamed(s, i, ok)
  }

  predicate StepTo(s: State, step: Step, t: State) {
    Enabled(s, step) && t == Apply(s, step)
  }

  ghost predicate Next(s: State, t: State) {
    exists step :: StepTo(s, step, t)
  }

  ghost predicate IsRun(run: seq<State>) {
    && run != []
    && if |run| == 1 then Init(run[0])
       else IsRun(run[..|run| - 1]) && Next(run[|run| - 2], run[|run| - 1])
  }

  predicate Active(v: Saver) {
    v.Saving? || v.Written?
  }

  // At most one saver is between its critical section and its rename.
  predicate Alone(s: State) {
    forall i, j :: 0 <= i < |s.savers| && 0 <= j < |s.savers| && Active(s.savers[i]) && Active(s.savers[j]) ==> i == j
  }

  predicate Left(s: State) {
    exists i :: 0 <= i < |s.savers| && s.savers[i] != Finished
  }

  // ---- A change is never forgotten ----

  predicate Remembered(s: State) {
    s.configured && s.dirty ==> exists i :: 0 <= i < |s.savers| && s.savers[i].Waiting?
  }

  lemma {:induction false} StepRemembers(s: State, step: Step)
    requires Remembered(s) && Enabled(s, step)
    ensures Remembered(Apply(s, step))
  {
    var t := Apply(s, step);
    if step.SetRemark? {
      assert t.savers[|s.savers|].Waiting?;
    } else if t.configured && t.dirty {
      var i :| 0 <= i < |s.savers| && s.savers[i].Waiting?;
      assert t.savers[i].Waiting?;
    }
  }

  // In every run, remarks that still have to be saved have a saver that has not
  // yet entered its critical section.
  lemma {:induction false} DirtyHasSaver(run: seq<State>)
    requires IsRun(run)
    ensures Remembered(run[|run| - 1])
  {
    if |run| > 1 {
      var n := |run| - 1;
      DirtyHasSaver(run[..n]);
      assert run[..n][n - 1] == run[n - 1];
      var step :| StepTo(run[n - 1], step, run[n]);
      StepRemembers(run[n - 1], step);
    }
  }

  // Until the first change, the file loaded at the start and the memory agree.
  lemma {:induction false} LoadedAgrees(run: seq<State>)
    requires IsRun(run) && run[|run| - 1].savers == []
    ensures var s := run[|run| - 1];
      && s == run[0]
      && (s.configured && s.file.Whole? ==> s.remarks == s.file.book)
      && (s.configured && s.file.Absent? ==> s.remarks == map[])
  {
    var n := |run| - 1;
    if n > 0 {
      var step :| StepTo(run[n - 1], step, run[n]);
      SaversStay(run[n - 1], step);
      assert false;
    }
  }

  lemma {:induction false} SaversStay(s: State, step: Step)
    requires Enabled(s, step)
    ensures Apply(s, step).savers != []
  {
  }

  // ---- Savers that do not overlap ----

  // The file holds its first content or a past value of the whole map, and so
  // will it after the save in progress.
  ghost predicate FromPast(run: seq<State>, c: Content)
    requires run != []
  {
    c == run[0].file || exists j :: 0 <= j < |run| && c == Whole(run[j].remarks)
  }

  ghost predicate Past(run: seq<State>, s: State)
    requires run != []
  {
    && FromPast(run, s.file)
    && (forall i :: 0 <= i < |s.savers| && Active(s.savers[i]) ==> FromPast(run, Whole(s.savers[i].copy)))
    && (forall i :: 0 <= i < |s.savers| && s.savers[i].Written? ==> s.tmp == Whole(s.savers[i].copy))
  }

  // A copy taken is out of date only if the remarks are dirty again.
  predicate Upheld(s: State) {
    && (forall i :: 0 <= i < |s.savers| && Active(s.savers[i]) ==> s.dirty || s.savers[i].copy == s.remarks)
    && (s.configured && s.kept ==>
          s.dirty || (exists i :: 0 <= i < |s.savers| && Active(s.savers[i])) || s.file == Whole(s.remarks))
  }

  lemma {:induction false} LongerPast(run: seq<State>, t: State, c: Content)
    requires run != [] && FromPast(run, c)
    ensures FromPast(run + [t], c)
  {
    if c != run[0].file {
      var j :| 0 <= j < |run| && c == Whole(run[j].remarks);
      assert (run + [t])[j] == run[j];
    }
  }

  lemma {:induction false} CopyFromPast(run: seq<State>, s: State, step: Step, i: nat)
    requires run != [] && s == run[|run| - 1] && Past(run, s) && Enabled(s, step)
    requires i < |Apply(s, step).savers| && Active(Apply(s, step).savers[i])
    ensures var t := Apply(s, step); FromPast(run + [t], Whole(t.savers[i].copy))
  {
    var t := Apply(s, step);
    if i < |s.savers| && Active(s.savers[i]) {
      LongerPast(run, t, Whole(s.savers[i].copy));
    } else {
      assert (run + [t])[|run| - 1] == s;
    }
  }

  lemma {:induction false} FileFromPast(run: seq<State>, s: State, step: Step)
    requires run != [] && s == run[|run| - 1] && Past(run, s) && Enabled(s, step)
    ensures var t := Apply(s, step); FromPast(run + [t], t.file)
  {
    var t := Apply(s, step);
    LongerPast(run, t, s.file);
    if step.Rename? {
      LongerPast(run, t, Whole(s.savers[step.i].copy));
    }
  }

  lemma {:induction false} StepKeepsTmp(s: State, step: Step, i: nat)
    requires Alone(s) && Enabled(s, step)
    requires forall k :: 0 <= k < |s.savers| && s.savers[k].Written? ==> s.tmp == Whole(s.savers[k].copy)
    requires i < |Apply(s, step).savers| && Apply(s, step).savers[i].Written?
    ensures Apply(s, step).tmp == Whole(Apply(s, step).savers[i].copy)
  {
  }

  lemma {:induction false} StepKeepsPast(run: seq<State>, s: State, step: Step)
    requires run != [] && s == run[|run| - 1] && Past(run, s) && Alone(s) && Enabled(s, step)
    ensures var t := Apply(s, step); Past(run + [t], t)
  {
    var t := Apply(s, step);
    FileFromPast(run, s, step);
    forall i | 0 <= i < |t.savers| && Active(t.savers[i])
      ensures FromPast(run + [t], Whole(t.savers[i].copy))
    {
      CopyFromPast(run, s, step, i);
    }
    forall i | 0 <= i < |t.savers| && t.savers[i].Written? ensures t.tmp == Whole(t.savers[i].copy) {
      StepKeepsTmp(s, step, i);
    }
  }

  lemma {:induction false} StepUpholds(s: State, step: Step)
    requires Upheld(s) && Alone(s) && Enabled(s, step) && Alone(Apply(s, step))
    requires forall i :: 0 <= i < |s.savers| && s.savers[i].Written? ==> s.tmp == Whole(s.savers[i].copy)
    ensures Upheld(Apply(s, step))
  {
    var t := Apply(s, step);
    match step
    case SetRemark(_, _) =>
    case Enter(i) =>
      if !s.dirty && s.configured && s.kept && exists k :: 0 <= k < |s.savers| && Active(s.savers[k]) {
        var k :| 0 <= k < |s.savers| && Active(s.savers[k]);
        assert Active(t.savers[k]);
      }
      if s.dirty && s.configured {
        assert Active(t.savers[i]);
      }
    case WriteTmp(i, result) =>
      if result.WriteOk? { assert Active(t.savers[i]); }
    case Rename(i, ok) =>
  }

  // Savers that do not overlap, whatever fails: the file always holds its first
  // content or some past value of the whole map, never a mixture; and when no
  // saver is left and the last save succeeded, it holds the map itself.
  lemma {:induction false} AloneKeepsFile(run: seq<State>)
    requires IsRun(run) && forall i :: 0 <= i < |run| ==> Alone(run[i])
    ensures var s := run[|run| - 1];
      && Past(run, s) && Upheld(s)
      && FromPast(run, s.file)
      && (s.configured && !Left(s) && s.kept ==> s.file == Whole(s.remarks))
  {
    var n := |run| - 1;
    if n > 0 {
      var prior := run[..n];
      forall i | 0 <= i < n ensures Alone(prior[i]) { assert prior[i] == run[i]; }
      AloneKeepsFile(prior);
      assert prior[n - 1] == run[n - 1] && prior + [run[n]] == run;
      var step :| StepTo(run[n - 1], step, run[n]);
      StepKeepsPast(prior, prior[n - 1], step);
      StepUpholds(prior[n - 1], step);
    }
    DirtyHasSaver(run);
  }

  // ---- Savers that do overlap ----

  lemma {:induction false} Extend(run: seq<State>, step: Step) returns (longer: seq<State>)
    requires IsRun(run) && Enabled(run[|run| - 1], step)
    ensures longer == run + [Apply(run[|run| - 1], step)] && IsRun(longer)
  {
    longer := run + [Apply(run[|run| - 1], step)];
    assert longer[..|longer| - 1] == run;
    assert StepTo(run[|run| - 1], step, longer[|run|]);
  }

  lemma {:induction false} TwoCopies() returns (run: seq<State>)
    ensures IsRun(run)
    ensures run[|run| - 1] == State(true, map["a" := "1", "b" := "2"], false,
                                    [Saving(map["a" := "1"]), Saving(map["a" := "1", "b" := "2"])],
                                    Absent, Absent, false)
  {
    run := [State(true, map[], false, [], Absent, Absent, false)];
    run := Extend(run, SetRemark("a", "1"));
    run := Extend(run, Enter(0));
    run := Extend(run, SetRemark("b", "2"));
    run := Extend(run, Enter(1));
  }

  // Two changes, the second one's saver overtaking the first one's: no call
  // fails, no saver is left, and the file holds the older map.
  lemma {:induction false} OverlapLosesChange() returns (run: seq<State>)
    ensures IsRun(run)
    ensures var s := run[|run| - 1];
      && s.configured && s.kept && !s.dirty && !Left(s)
      && s.remarks == map["a" := "1", "b" := "2"] && s.file == Whole(map["a" := "1"])
  {
    run := TwoCopies();
    run := Extend(run, WriteTmp(1, WriteOk));
    run := Extend(run, Rename(1, true));
    run := Extend(run, WriteTmp(0, WriteOk));
    run := Extend(run, Rename(0, true));
  }
}
