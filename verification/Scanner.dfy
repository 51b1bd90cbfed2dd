// The scanner's remarks (internal/device/device.go): its methods are the steps
// of the remark protocol.

module Scanners {
  import opened Remarks

  class Scanner {
    const configured: bool
    var remarks: Book
    var remarkDirty: bool
    var file: Content
    var tmp: Content
    var kept: bool
    ghost var savers: seq<Saver>

    // loadRemarks: decoded is what decoding a damaged file leaves.
    constructor (configured: bool, file: Content, tmp: Content, decoded: Book)
      ensures Init(State()) && this.configured == configured && this.file == file
    {
      this.configured, this.file, this.tmp := configured, file, tmp;
      this.remarkDirty, this.kept, this.savers := false, false, [];
      this.remarks := if !configured || file.Absent? then map[] else if file.Whole? then file.book else decoded;
    }

    ghost function State(): State
      reads this
    {
      Remarks.State(configured, remarks, remarkDirty, savers, file, tmp, kept)
    }

    method SetRemark(ip: string, remark: string)
      modifies this
      ensures StepTo(old(State()), Step.SetRemark(ip, remark), State())
    {
      if remark == "" {
        remarks := remarks - {ip};
      } else {
        remarks := remarks[ip := remark];
      }
      remarkDirty := true;
      savers := savers + [Waiting];
    }

    // The copy saveRemarks makes entry by entry under the lock.
    method Copy(from: Book) returns (to: Book)
      ensures to == from
    {
      to := map[];
      var todo := from.Keys;
      while todo != {}
        invariant todo <= from.Keys && to.Keys == from.Keys - todo
        invariant forall k :: k in to ==> to[k] == from[k]
        decreases todo
      {
        var k :| k in todo;
        to := to[k := from[k]];
        todo := todo - {k};
      }
    }

    // saveRemarks up to its unlock, by saver i.
    method EnterSave(ghost i: nat) returns (save: bool, copy: Book)
      requires Enabled(State(), Enter(i))
      modifies this
      ensures StepTo(old(State()), Enter(i), State())
      ensures save <==> old(remarkDirty) && configured
      ensures save ==> savers[i] == Saving(copy)
    {
      copy := map[];
      if !remarkDirty || !configured {
        savers := savers[i := Finished];
        return false, copy;
      }
      remarkDirty := false;
      copy := Copy(remarks);
      savers := savers[i := Saving(copy)];
      save := true;
    }

    // The rest of saveRemarks: the temporary file, then the rename.
    method Replace(ghost i: nat, copy: Book, result: WriteResult, renameOk: bool)
      requires i < |savers| && savers[i] == Saving(copy)
      modifies this
      ensures result.WriteOk? ==>
        State() == Renamed(Wrote(old(State()), i, result), i, renameOk)
        && file == (if renameOk then Whole(copy) else old(file))
      ensures !result.WriteOk? ==> State() == Wrote(old(State()), i, result) && file == old(file)
    {
      match result
      case OpenFailed =>
        savers, kept := savers[i := Finished], false;
      case CutShort =>
        tmp, savers, kept := Garbled, savers[i := Finished], false;
      case WriteOk =>
        tmp := Whole(copy);
        if renameOk {
          file, tmp, kept := tmp, Absent, true;
        } else {
          kept := false;
        }
        savers := savers[i := Finished];
    }
  }
}
