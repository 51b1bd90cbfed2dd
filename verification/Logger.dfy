// The logger (internal/logger/logger.go), step by step on the log directory.

module Loggers {
  import opened Dates
  import opened Retention
  import opened LogSpec

  class Logger {
    const names: Names
    const maxAgeDays: int
    const level: int
    var file: bool
    var curDate: string
    var disk: map<string, Entry>

    constructor (names: Names, maxAgeDays: int, level: int, disk: map<string, Entry>)
      ensures this.names == names && this.maxAgeDays == maxAgeDays && this.level == level
      ensures State() == Log(disk, false, "")
    {
      this.names, this.maxAgeDays, this.level := names, maxAgeDays, level;
      this.disk, this.file, this.curDate := disk, false, "";
    }

    ghost function State(): Log
      reads this
    {
      Log(disk, file, curDate)
    }

    // Looks at the entries in any order.
    method Cleanup(now: Clock, f: Faults)
      modifies this`disk
      ensures disk == LogSpec.Cleanup(names, maxAgeDays, now, f, old(disk))
    {
      if maxAgeDays <= 0 || f.readDir { return; }
      var before := disk;
      var todo := disk.Keys;
      while todo != {}
        invariant todo <= before.Keys
        invariant disk == Swept(names, maxAgeDays, now, f, before, before.Keys - todo)
        decreases todo
      {
        var name :| name in todo;
        Looked(now, f, before, before.Keys - todo, name);
        if Removes(names, maxAgeDays, now, f, name, before[name]) {
          disk := disk - {name};
        }
        assert before.Keys - (todo - {name}) == (before.Keys - todo) + {name};
        todo := todo - {name};
      }
      assert before.Keys - {} == before.Keys;
    }

    lemma {:induction false} Looked(now: Clock, f: Faults, d: map<string, Entry>, done: set<string>, name: string)
      requires name in d && name !in done
      ensures Swept(names, maxAgeDays, now, f, d, done + {name})
           == (if Removes(names, maxAgeDays, now, f, name, d[name])
               then Swept(names, maxAgeDays, now, f, d, done) - {name}
               else Swept(names, maxAgeDays, now, f, d, done))
    {
    }

    method Rotate(now: Clock, f: Faults) returns (ok: bool)
      modifies this
      ensures (State(), ok) == LogSpec.Rotate(names, maxAgeDays, old(State()), now, f)
    {
      var date := Format(now.today);
      if file && curDate == date { return true; }
      file := false;
      var name := FileName(names, now.today);
      if f.open || (name in disk && !disk[name].File?) { return false; }
      if name !in disk {
        disk := disk[name := File([])];
      }
      file, curDate := true, date;
      var link := LinkName(names);
      if !f.unlink {
        disk := disk - {link};
      }
      if !f.symlink && link !in disk {
        disk := disk[link := Link];
      }
      Cleanup(now, f);
      ok := true;
    }

    // Lines below the level are dropped.
    method Output(lv: int, line: string, now: Clock, f: Faults) returns (written: bool)
      modifies this
      ensures if lv < level then State() == old(State()) && !written
              else (State(), written) == LogSpec.Output(names, maxAgeDays, old(State()), now, line, f)
    {
      if lv < level { return false; }
      var ok := Rotate(now, f);
      if !ok || f.write { return false; }
      var name := CurrentName(names, Log(disk, file, curDate));
      if name in disk && disk[name].File? {
        disk := disk[name := File(disk[name].lines + [line])];
      }
      written := true;
    }
  }
}
