/** The spool object, whose methods run under its lock. The disk's answer to each write is a parameter. */
module AuditWriter {
  import opened Common
  import S = AuditSpool

  class Spool {
    const c: S.Scheme
    const cp: Option<S.Checkpoints>
    var file: S.File
    var num: nat
    var prev: string
    var newline: bool
    var lost: Option<S.SeqRange>
    var since: nat
    var written: nat
    var closed: bool

    ghost function View(): (s: S.Spool)
      reads this
    {
      S.Spool(file, num, prev, newline, lost, since, written, closed)
    }

    /** A spool that continues where the scan of the file ends. */
    constructor Resume(c: S.Scheme, cp: Option<S.Checkpoints>, f: S.File)
      ensures View() == S.Opened(f) && this.c == c && this.cp == cp
    {
      var last, hash, torn := S.ScanSpool(f.lines);
      this.c, this.cp, file := c, cp, f;
      num, prev := last, hash;
      newline := !(f.terminated || f.lines == []);
      lost, since, written, closed := None, 0, 0, false;
    }

    /** Number, chain and write one record; on failure its number joins the lost range. */
    method Write(body: S.Body, o: S.Outcome) returns (ok: bool)
      modifies this
      ensures View() == S.Write(c, old(View()), body, o) && ok == o.Done?
    {
      var b := body.(num := num + 1, prevHash := prev);
      var rec := S.Record(b, c.hash(b));
      num := num + 1;
      file := S.WriteText(file, newline, rec, o);
      if !o.Done? {
        newline := true;
        if lost.None? {
          lost := Some(S.SeqRange(num, num));
        }
        lost := Some(lost.value.(last := num));
        return false;
      }
      newline := false;
      prev := rec.hash;
      since, written := since + 1, written + 1;
      ok := true;
    }

    method WriteGap(o: S.Outcome)
      modifies this
      ensures View() == S.WriteGap(c, old(View()), o)
    {
      if lost.None? {
        return;
      }
      var was := lost;
      lost := None;
      var ok := Write(S.GapBody(was, ""), o);
      if !ok {
        lost := Some(lost.value.(first := was.value.first));
      }
    }

    method Checkpoint(o: S.Outcome)
      requires cp.Some?
      modifies this
      ensures View() == S.WriteCheckpoint(c, cp.value, old(View()), o)
    {
      var sig := c.sign(cp.value.keyID, num, prev);
      var ok := Write(S.Body(0, S.Checkpoint, "", None, cp.value.keyID, sig, ""), o);
      if ok {
        since := 0;
      }
    }

    /** Returns the watermark a Sync caller then waits for, or None when the record was not written. */
    method Append(body: S.Body, o: S.Outcomes) returns (mark: Option<nat>)
      modifies this
      ensures View() == S.Append(c, cp, old(View()), body, o)
      ensures mark == if !old(closed) && o.rec.Done? then Some(written) else None
    {
      if closed {
        return None;
      }
      WriteGap(o.gap);
      var ok := Write(body, o.rec);
      if !ok {
        return None;
      }
      if cp.Some? && since >= cp.value.every {
        Checkpoint(o.cp);
      }
      mark := Some(written);
    }

    /** Returns the watermark that is then synced before the file closes, or None when Close already ran. */
    method Close(o: S.Outcomes) returns (mark: Option<nat>)
      modifies this
      ensures View() == S.Close(c, cp, old(View()), o)
      ensures mark == if old(closed) then None else Some(written)
    {
      if closed {
        return None;
      }
      closed := true;
      WriteGap(o.gap);
      if cp.Some? && since > 0 {
        Checkpoint(o.cp);
      }
      mark := Some(written);
    }
  }

  /**
   `OpenSpool`: a torn last line is followed by a gap before anything else. When that write fails
   there is no spool, and `left` is the file it leaves.
   */
  method OpenSpool(c: S.Scheme, cp: Option<S.Checkpoints>, f: S.File, o: S.Outcome) returns (s: Spool?, left: S.File)
    ensures s == null <==> S.OpenFails(f, o)
    ensures left == S.Open(c, f, o).file
    ensures s != null ==> fresh(s) && s.View() == S.Open(c, f, o) && s.c == c && s.cp == cp
  {
    var spool := new Spool.Resume(c, cp, f);
    var num, hash, torn := S.ScanSpool(f.lines);
    if torn {
      var ok := spool.Write(S.GapBody(None, "unreadable line"), o);
      if !ok {
        return null, spool.file;
      }
    }
    return spool, spool.file;
  }
}
