// The rotating log as functions on values (internal/logger/logger.go): what a
// rotation and a written line do to the log directory under any failures.

module LogSpec {
  import opened Dates
  import opened Retention

  datatype Entry = File(lines: seq<string>) | Directory | Link

  // What happens to the system calls of one output.
  datatype Faults = Faults(open: bool, unlink: bool, symlink: bool, readDir: bool, stuck: set<string>, write: bool)

  // open: file is not nil; it is then the one named after curDate.
  datatype Log = Log(disk: map<string, Entry>, open: bool, curDate: string)

  function CurrentName(n: Names, l: Log): string {
    Prefix(n) + l.curDate + n.ext
  }

  // ---- cleanup ----

  predicate Removes(n: Names, maxAgeDays: int, now: Clock, f: Faults, name: string, e: Entry) {
    e != Directory && Expired(n, name, maxAgeDays, now) && name !in f.stuck
  }

  // The entries of done have been looked at.
  function Swept(n: Names, maxAgeDays: int, now: Clock, f: Faults, disk: map<string, Entry>, done: set<string>)
    : map<string, Entry>
  {
    map x | x in disk && !(x in done && Removes(n, maxAgeDays, now, f, x, disk[x])) :: disk[x]
  }

  function Cleanup(n: Names, maxAgeDays: int, now: Clock, f: Faults, disk: map<string, Entry>): map<string, Entry> {
    if maxAgeDays <= 0 || f.readDir then disk else Swept(n, maxAgeDays, now, f, disk, disk.Keys)
  }

  // ---- rotate ----

  // The link is replaced as far as the calls succeed.
  function Relink(n: Names, f: Faults, disk: map<string, Entry>): map<string, Entry> {
    var gone := if f.unlink then disk else disk - {LinkName(n)};
    if f.symlink || LinkName(n) in gone then gone else gone[LinkName(n) := Link]
  }

  predicate Opens(n: Names, now: Clock, f: Faults, disk: map<string, Entry>) {
    var name := FileName(n, now.today);
    !f.open && (name in disk ==> disk[name].File?)
  }

  function Opened(n: Names, now: Clock, disk: map<string, Entry>): map<string, Entry> {
    var name := FileName(n, now.today);
    if name in disk then disk else disk[name := File([])]
  }

  function Rotate(n: Names, maxAgeDays: int, l: Log, now: Clock, f: Faults): (Log, bool) {
    if l.open && l.curDate == Format(now.today) then (l, true) else
    if !Opens(n, now, f, l.disk) then (l.(open := false), false) else
    (Log(Cleanup(n, maxAgeDays, now, f, Relink(n, f, Opened(n, now, l.disk))), true, Format(now.today)), true)
  }

  // ---- output ----

  // A line written to a file no longer listed is lost.
  function Write(n: Names, l: Log, line: string): Log {
    var name := CurrentName(n, l);
    if name in l.disk && l.disk[name].File? then
      l.(disk := l.disk[name := File(l.disk[name].lines + [line])])
    else l
  }

  // The flag tells whether the line was written.
  function Output(n: Names, maxAgeDays: int, l: Log, now: Clock, line: string, f: Faults): (Log, bool) {
    var (l1, ok) := Rotate(n, maxAgeDays, l, now, f);
    if ok && !f.write then (Write(n, l1, line), true) else (l1, false)
  }

  // ---- What cleanup removes ----

  // Of the entries, exactly the files and links whose names carry a date past
  // the bound and whose removal succeeds; nothing else changes.
  lemma {:induction false} CleanupExactly(n: Names, maxAgeDays: int, now: Clock, f: Faults,
                                          disk: map<string, Entry>, name: string)
    requires IsClock(now)
    ensures var after := Cleanup(n, maxAgeDays, now, f, disk);
      && (name in after ==> name in disk && after[name] == disk[name])
      && (name in disk && name !in after
          <==> name in disk && !disk[name].Directory? && name !in f.stuck && maxAgeDays > 0 && !f.readDir
               && exists d :: IsDate(d) && Carries(n, name, d) && Outdated(d, maxAgeDays, now))
  {
    ExpiredExactly(n, name, maxAgeDays, now);
  }

  // A name that is not of this logger's own form keeps its entry, the link among
  // them, whatever else is in the directory.
  lemma {:induction false} CleanupSparesForeign(n: Names, maxAgeDays: int, now: Clock, f: Faults,
                                                disk: map<string, Entry>, name: string)
    requires IsClock(now) && !Overlaps(n) && !Own(n, name)
    ensures var after := Cleanup(n, maxAgeDays, now, f, disk);
      (name in after <==> name in disk) && (name in after ==> after[name] == disk[name])
  {
    if Expired(n, name, maxAgeDays, now) {
      OwnOrOverlapping(n, name);
    }
  }

  lemma {:induction false} CleanupSparesLink(n: Names, maxAgeDays: int, now: Clock, f: Faults, disk: map<string, Entry>)
    requires n.ext != "" && n.ext[0] == '.'
    ensures var after := Cleanup(n, maxAgeDays, now, f, disk); var name := n.base + n.ext;
      (name in after <==> name in disk) && (name in after ==> after[name] == disk[name])
  {
    LinkIsSpared(n);
  }

  // ---- One output ----

  function Content(disk: map<string, Entry>, name: string): seq<string> {
    if name in disk && disk[name].File? then disk[name].lines else []
  }

  lemma {:induction false} NotTheLink(n: Names, d: Date)
    requires IsDate(d)
    ensures FileName(n, d) != LinkName(n)
  {
    ParseFormat(d);
  }

  lemma {:induction false} SameDate(n: Names, d: Date, e: Date)
    requires IsDate(d) && IsDate(e)
    ensures FileName(n, d) == FileName(n, e) <==> d == e
  {
    ReadsOwnName(n, d);
    ReadsOwnName(n, e);
  }

  // Right after a rotation the file just opened is there, except in the one
  // case of TodaySelected when its removal succeeds too.
  lemma {:induction false} RotateKeepsToday(n: Names, maxAgeDays: int, l: Log, now: Clock, f: Faults)
    requires IsClock(now) && (l.open ==> l.curDate != Format(now.today))
    ensures var (l', ok) := Rotate(n, maxAgeDays, l, now, f); var name := FileName(n, now.today);
      ok ==>
        && l'.open && CurrentName(n, l') == name
        && (name in l'.disk <==>
              !(maxAgeDays == 1 && now.since > DAY + now.offset && !f.readDir && name !in f.stuck))
        && (name in l'.disk ==> l'.disk[name].File?)
  {
    NotTheLink(n, now.today);
    if maxAgeDays >= 1 { TodaySelected(n, maxAgeDays, now); }
  }

  // With a readable directory and no failing removal, a rotation leaves no log
  // file older than the limit, whatever the zone, and never deletes a
  // directory or any name cleanup cannot read a date from.
  lemma {:induction false} RotateBoundsAge(n: Names, maxAgeDays: int, l: Log, now: Clock, f: Faults, d: Date)
    requires IsClock(now) && IsDate(d) && maxAgeDays >= 1 && !f.readDir && f.stuck == {}
    requires l.open ==> l.curDate != Format(now.today)
    ensures var (l', ok) := Rotate(n, maxAgeDays, l, now, f); var name := FileName(n, d);
      ok && name in l'.disk && l'.disk[name] != Directory ==>
        DaysBehind(d, now) * DAY + now.since - now.offset <= maxAgeDays * DAY && DaysBehind(d, now) <= maxAgeDays
  {
    RetentionBound(n, d, maxAgeDays, now);
  }

  // A rotation that fails changes nothing in the directory and leaves no file open.
  lemma {:induction false} RotateFails(n: Names, maxAgeDays: int, l: Log, now: Clock, f: Faults)
    ensures var (l', ok) := Rotate(n, maxAgeDays, l, now, f);
      && l'.open == ok
      && (if ok then l'.curDate == Format(now.today) else l'.disk == l.disk)
  {
  }

  // What a rotation leaves under the link's name.
  lemma {:induction false} RotateLinks(n: Names, maxAgeDays: int, l: Log, now: Clock, f: Faults)
    requires IsClock(now) && n.ext != "" && n.ext[0] == '.' && (l.open ==> l.curDate != Format(now.today))
    ensures var (l', ok) := Rotate(n, maxAgeDays, l, now, f); var link := n.base + n.ext;
      ok ==>
        if f.unlink && link in l.disk then link in l'.disk && l'.disk[link] == l.disk[link]
        else (link in l'.disk <==> !f.symlink) && (link in l'.disk ==> l'.disk[link].Link?)
  {
    NotTheLink(n, now.today);
    CleanupSparesLink(n, maxAgeDays, now, f, Relink(n, f, Opened(n, now, l.disk)));
  }

  // For a date whose file is not expired: while it is the open one it is listed.
  ghost predicate Listed(n: Names, l: Log, d: Date) {
    var name := FileName(n, d);
    && (l.open && l.curDate == Format(d) ==> name in l.disk && l.disk[name].File?)
    && (l.open ==> exists e :: IsDate(e) && l.curDate == Format(e))
  }

  lemma {:induction false} SameFormat(d: Date, e: Date)
    requires IsDate(d) && IsDate(e)
    ensures Format(d) == Format(e) <==> d == e
  {
    ParseFormat(d);
    ParseFormat(e);
  }

  // What linking and sweeping do to an unexpired name.
  lemma {:induction false} SweepSpares(n: Names, maxAgeDays: int, now: Clock, f: Faults,
                                       disk: map<string, Entry>, name: string)
    requires name != LinkName(n) && !Expired(n, name, maxAgeDays, now)
    ensures var d := Cleanup(n, maxAgeDays, now, f, Relink(n, f, disk));
      (name in d <==> name in disk) && (name in d ==> d[name] == disk[name])
  {
  }

  lemma {:induction false} RotateEntry(n: Names, maxAgeDays: int, l: Log, now: Clock, f: Faults, d: Date)
    requires IsDate(now.today) && IsDate(d) && !Expired(n, FileName(n, d), maxAgeDays, now)
    ensures var l' := Rotate(n, maxAgeDays, l, now, f).0; var name := FileName(n, d);
      && Content(l'.disk, name) == Content(l.disk, name)
      && (name in l.disk && l.disk[name].File? ==> name in l'.disk && l'.disk[name].File?)
  {
    NotTheLink(n, d);
    SameDate(n, d, now.today);
    SweepSpares(n, maxAgeDays, now, f, Opened(n, now, l.disk), FileName(n, d));
  }

  lemma {:induction false} RotateOpens(n: Names, maxAgeDays: int, l: Log, now: Clock, f: Faults)
    requires IsDate(now.today) && !Expired(n, FileName(n, now.today), maxAgeDays, now)
    requires !(l.open && l.curDate == Format(now.today)) && Opens(n, now, f, l.disk)
    ensures var l' := Rotate(n, maxAgeDays, l, now, f).0; var name := FileName(n, now.today);
      name in l'.disk && l'.disk[name].File?
  {
    NotTheLink(n, now.today);
    SweepSpares(n, maxAgeDays, now, f, Opened(n, now, l.disk), FileName(n, now.today));
  }

  lemma {:induction false} RotateLists(n: Names, maxAgeDays: int, l: Log, now: Clock, f: Faults, d: Date)
    requires IsClock(now) && IsDate(d) && Listed(n, l, d) && !Expired(n, FileName(n, d), maxAgeDays, now)
    ensures var l' := Rotate(n, maxAgeDays, l, now, f).0; var name := FileName(n, d);
      && Listed(n, l', d)
      && Content(l'.disk, name) == Content(l.disk, name)
  {
    RotateEntry(n, maxAgeDays, l, now, f, d);
    SameFormat(d, now.today);
    if !(l.open && l.curDate == Format(now.today)) && Opens(n, now, f, l.disk) && d == now.today {
      RotateOpens(n, maxAgeDays, l, now, f);
    }
  }

  lemma {:induction false} WriteAppends(n: Names, l: Log, line: string, d: Date)
    requires IsDate(d) && l.open && Listed(n, l, d)
    ensures var l' := Write(n, l, line); var name := FileName(n, d);
      && Listed(n, l', d)
      && Content(l'.disk, name) == Content(l.disk, name) + if l.curDate == Format(d) then [line] else []
  {
    var e :| IsDate(e) && l.curDate == Format(e);
    SameDate(n, d, e);
    SameFormat(d, e);
  }

  // ---- Whole runs ----

  datatype Call = Call(now: Clock, line: string, f: Faults)

  function Logged(n: Names, maxAgeDays: int, l: Log, calls: seq<Call>): Log {
    if calls == [] then l else
    var m := |calls| - 1;
    Output(n, maxAgeDays, Logged(n, maxAgeDays, l, calls[..m]), calls[m].now, calls[m].line, calls[m].f).0
  }

  // Whether a call's line gets written: today's file is the open one, or it can
  // be opened, and the write itself succeeds.
  predicate Accepts(n: Names, l: Log, c: Call) {
    && !c.f.write
    && var name := n.base + "-" + Format(c.now.today) + n.ext;
       (l.open && l.curDate == Format(c.now.today)) || (!c.f.open && (name in l.disk ==> l.disk[name].File?))
  }

  // The lines written on date d.
  function LinesOf(n: Names, maxAgeDays: int, l: Log, calls: seq<Call>, d: Date): seq<string> {
    if calls == [] then [] else
    var m := |calls| - 1;
    var c := calls[m];
    var ok := Accepts(n, Logged(n, maxAgeDays, l, calls[..m]), c);
    LinesOf(n, maxAgeDays, l, calls[..m], d) + if ok && c.now.today == d then [c.line] else []
  }

  lemma {:induction false} OutputAppends(n: Names, maxAgeDays: int, l: Log, c: Call, d: Date)
    requires IsClock(c.now) && IsDate(d) && Listed(n, l, d) && !Expired(n, FileName(n, d), maxAgeDays, c.now)
    ensures var (l', ok) := Output(n, maxAgeDays, l, c.now, c.line, c.f); var name := FileName(n, d);
      && ok == Accepts(n, l, c)
      && Listed(n, l', d)
      && Content(l'.disk, name) == Content(l.disk, name) + if ok && c.now.today == d then [c.line] else []
  {
    RotateLists(n, maxAgeDays, l, c.now, c.f, d);
    var (l1, ok) := Rotate(n, maxAgeDays, l, c.now, c.f);
    if ok {
      SameFormat(d, c.now.today);
      WriteAppends(n, l1, c.line, d);
    }
  }

  // Over any run from a closed log, through any rotations and failures: the file
  // of a date that never came to be expired holds what it held before and, in
  // order, every line written on that date.
  lemma {:induction false} NoLineLost(n: Names, maxAgeDays: int, l: Log, calls: seq<Call>, d: Date)
    requires IsDate(d) && !l.open
    requires forall i :: 0 <= i < |calls| ==>
      IsClock(calls[i].now) && !Expired(n, FileName(n, d), maxAgeDays, calls[i].now)
    ensures var l' := Logged(n, maxAgeDays, l, calls); var name := FileName(n, d);
      && Listed(n, l', d)
      && Content(l'.disk, name) == Content(l.disk, name) + LinesOf(n, maxAgeDays, l, calls, d)
  {
    if calls != [] {
      var m := |calls| - 1;
      forall i | 0 <= i < m
        ensures IsClock(calls[..m][i].now) && !Expired(n, FileName(n, d), maxAgeDays, calls[..m][i].now)
      {
        assert calls[..m][i] == calls[i];
      }
      NoLineLost(n, maxAgeDays, l, calls[..m], d);
      OutputAppends(n, maxAgeDays, Logged(n, maxAgeDays, l, calls[..m]), calls[m], d);
    }
  }

  // Without failures every line of every call is accepted, as long as nothing
  // but files stands under the logger's own names.
  lemma {:induction false} LinesWithoutFailures(n: Names, maxAgeDays: int, l: Log, calls: seq<Call>, d: Date)
    requires IsDate(d) && !l.open && forall i :: 0 <= i < |calls| ==> !calls[i].f.open && !calls[i].f.write
    requires forall i :: 0 <= i < |calls| ==>
      IsClock(calls[i].now) && !Expired(n, FileName(n, d), maxAgeDays, calls[i].now)
    requires FileName(n, d) in l.disk ==> l.disk[FileName(n, d)].File?
    ensures var name := FileName(n, d);
      && (name in Logged(n, maxAgeDays, l, calls).disk ==> Logged(n, maxAgeDays, l, calls).disk[name].File?)
      && Content(Logged(n, maxAgeDays, l, calls).disk, name) == Content(l.disk, name) + LinesAt(calls, d)
  {
    if calls != [] {
      var m := |calls| - 1;
      forall i | 0 <= i < m
        ensures !calls[..m][i].f.open && !calls[..m][i].f.write && IsClock(calls[..m][i].now)
        ensures !Expired(n, FileName(n, d), maxAgeDays, calls[..m][i].now)
      {
        assert calls[..m][i] == calls[i];
      }
      LinesWithoutFailures(n, maxAgeDays, l, calls[..m], d);
      NoLineLost(n, maxAgeDays, l, calls[..m], d);
      var before := Logged(n, maxAgeDays, l, calls[..m]);
      OutputKeepsFile(n, maxAgeDays, before, calls[m], d);
      OutputAppends(n, maxAgeDays, before, calls[m], d);
      if calls[m].now.today == d { assert Accepts(n, before, calls[m]); }
    }
  }

  // The lines of the calls made on date d.
  function LinesAt(calls: seq<Call>, d: Date): seq<string> {
    if calls == [] then [] else
    var m := |calls| - 1;
    LinesAt(calls[..m], d) + if calls[m].now.today == d then [calls[m].line] else []
  }

  lemma {:induction false} OutputKeepsFile(n: Names, maxAgeDays: int, l: Log, c: Call, d: Date)
    requires IsClock(c.now) && IsDate(d) && !Expired(n, FileName(n, d), maxAgeDays, c.now)
    requires FileName(n, d) in l.disk ==> l.disk[FileName(n, d)].File?
    ensures var l' := Output(n, maxAgeDays, l, c.now, c.line, c.f).0;
      FileName(n, d) in l'.disk ==> l'.disk[FileName(n, d)].File?
  {
    NotTheLink(n, d);
    SweepSpares(n, maxAgeDays, c.now, c.f, Opened(n, c.now, l.disk), FileName(n, d));
  }

  // After any run the open file, if any, is that of the last call's date.
  lemma {:induction false} OpenIsCurrent(n: Names, maxAgeDays: int, l: Log, calls: seq<Call>)
    requires calls != []
    ensures var l' := Logged(n, maxAgeDays, l, calls);
      l'.open ==> l'.curDate == Format(calls[|calls| - 1].now.today)
  {
    var m := |calls| - 1;
    RotateFails(n, maxAgeDays, Logged(n, maxAgeDays, l, calls[..m]), calls[m].now, calls[m].f);
  }

  // ---- Foreign names over whole runs ----

  // The open file is one of the logger's own.
  ghost predicate OpenOwn(n: Names, l: Log) {
    l.open ==> exists e :: IsDate(e) && l.curDate == Format(e)
  }

  lemma {:induction false} RotateSparesForeign(n: Names, maxAgeDays: int, l: Log, now: Clock, f: Faults, name: string)
    requires IsClock(now) && !Overlaps(n) && !Own(n, name) && name != n.base + n.ext
    ensures var l' := Rotate(n, maxAgeDays, l, now, f).0;
      && (name in l'.disk <==> name in l.disk) && (name in l'.disk ==> l'.disk[name] == l.disk[name])
  {
    assert name != FileName(n, now.today);
    CleanupSparesForeign(n, maxAgeDays, now, f, Relink(n, f, Opened(n, now, l.disk)), name);
  }

  lemma {:induction false} OutputSparesForeign(n: Names, maxAgeDays: int, l: Log, c: Call, name: string)
    requires IsClock(c.now) && !Overlaps(n) && !Own(n, name) && name != n.base + n.ext && OpenOwn(n, l)
    ensures var l' := Output(n, maxAgeDays, l, c.now, c.line, c.f).0;
      && OpenOwn(n, l')
      && (name in l'.disk <==> name in l.disk) && (name in l'.disk ==> l'.disk[name] == l.disk[name])
  {
    RotateSparesForeign(n, maxAgeDays, l, c.now, c.f, name);
    var l1 := Rotate(n, maxAgeDays, l, c.now, c.f).0;
    if l1.open {
      var e :| IsDate(e) && l1.curDate == Format(e);
      assert CurrentName(n, l1) == FileName(n, e);
    }
  }

  // Over any run, whatever fails, a name that is neither the link nor of the
  // logger's own form keeps its entry and its content.
  lemma {:induction false} ForeignKept(n: Names, maxAgeDays: int, l: Log, calls: seq<Call>, name: string)
    requires !l.open && !Overlaps(n) && !Own(n, name) && name != n.base + n.ext
    requires forall i :: 0 <= i < |calls| ==> IsClock(calls[i].now)
    ensures var l' := Logged(n, maxAgeDays, l, calls);
      && OpenOwn(n, l')
      && (name in l'.disk <==> name in l.disk) && (name in l'.disk ==> l'.disk[name] == l.disk[name])
  {
    if calls != [] {
      var m := |calls| - 1;
      forall i | 0 <= i < m ensures IsClock(calls[..m][i].now) { assert calls[..m][i] == calls[i]; }
      ForeignKept(n, maxAgeDays, l, calls[..m], name);
      OutputSparesForeign(n, maxAgeDays, Logged(n, maxAgeDays, l, calls[..m]), calls[m], name);
    }
  }
}
