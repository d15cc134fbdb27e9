/**
 The audit spool: a hash-chained, sequence-numbered log whose writer records the numbers it
 lost, and the verifier that reads it back. A file is its non-blank lines and whether the last
 one ends in a newline.
 */
module AuditSpool {
  import opened Common

  datatype SeqRange = SeqRange(first: nat, last: nat)

  datatype Event = Gap | Checkpoint | Other(name: string)

  /** A record without its hash. `data` stands for the time, fence, session and detail fields. */
  datatype Body = Body(num: nat, event: Event, data: string, lost: Option<SeqRange>,
                       signer: string, signature: string, prevHash: string)

  /** `hash` is "" in a record from before the chain started. */
  datatype Record = Record(body: Body, hash: string)

  datatype Line = Parsed(rec: Record) | Torn

  datatype File = File(lines: seq<Line>, terminated: bool)

  /** The hash of a record, the signature of a checkpoint, and its check against the trusted keys. */
  datatype Scheme = Scheme(hash: Body -> string, sign: (string, nat, string) -> string,
                           verify: (string, nat, string, string) -> bool)

  datatype Checkpoints = Checkpoints(keyID: string, every: nat)

  /** Hashes are never empty, and signatures made with the checkpoint key are accepted. */
  ghost predicate Sound(c: Scheme, cp: Option<Checkpoints>) {
    (forall b :: c.hash(b) != "") &&
    (cp.Some? ==> forall n, h :: c.verify(cp.value.keyID, n, h, c.sign(cp.value.keyID, n, h)))
  }

  // ------------------------------------------------------------ the disk

  /**
   How a write ends: done; failed with nothing, or only the newline it starts with, on disk;
   failed with a fragment of the line; or reported as failed although the whole record landed.
   */
  datatype Outcome = Done | Nothing | NewlineOnly | Fragment | Whole

  /** A write that does not start on a fresh line runs into the last one, and neither parses. */
  function AddLine(f: File, leading: bool, line: Line, terminated: bool): (r: File) {
    if leading || f.terminated || f.lines == [] then File(f.lines + [line], terminated)
    else File(f.lines[..|f.lines| - 1] + [Torn], terminated)
  }

  function WriteText(f: File, leading: bool, rec: Record, o: Outcome): (r: File) {
    match o
    case Done => AddLine(f, leading, Parsed(rec), true)
    case Nothing => f
    case NewlineOnly => if leading then f.(terminated := true) else f
    case Fragment => AddLine(f, leading, Torn, false)
    case Whole => AddLine(f, leading, Parsed(rec), false)
  }

  // ------------------------------------------------------------ the writer

  datatype Spool = Spool(file: File, num: nat, prev: string, newline: bool, lost: Option<SeqRange>,
                         since: nat, written: nat, closed: bool)

  function Chained(c: Scheme, s: Spool, body: Body): (r: Record) {
    var b := body.(num := s.num + 1, prevHash := s.prev);
    Record(b, c.hash(b))
  }

  function Write(c: Scheme, s: Spool, body: Body, o: Outcome): (r: Spool) {
    var rec := Chained(c, s, body);
    var file := WriteText(s.file, s.newline, rec, o);
    if o.Done? then
      s.(file := file, num := s.num + 1, newline := false, prev := rec.hash, since := s.since + 1,
         written := s.written + 1)
    else
      s.(file := file, num := s.num + 1, newline := true,
         lost := Some(SeqRange(if s.lost.Some? then s.lost.value.first else s.num + 1, s.num + 1)))
  }

  function GapBody(lost: Option<SeqRange>, detail: string): (b: Body) {
    Body(0, Gap, detail, lost, "", "", "")
  }

  /** Name the lost range in a record of its own; if that fails too, its number joins the range. */
  function WriteGap(c: Scheme, s: Spool, o: Outcome): (r: Spool) {
    if s.lost.None? then s else
    var r := Write(c, s.(lost := None), GapBody(s.lost, ""), o);
    if o.Done? then r else r.(lost := Some(SeqRange(s.lost.value.first, s.num + 1)))
  }

  /** Sign the last record written. */
  function WriteCheckpoint(c: Scheme, cp: Checkpoints, s: Spool, o: Outcome): (r: Spool) {
    var r := Write(c, s, Body(0, Checkpoint, "", None, cp.keyID, c.sign(cp.keyID, s.num, s.prev), ""), o);
    if o.Done? then r.(since := 0) else r
  }

  /** Three writes at most, each with its own outcome: the gap, the record, the checkpoint. */
  datatype Outcomes = Outcomes(gap: Outcome, rec: Outcome, cp: Outcome)

  function Append(c: Scheme, cp: Option<Checkpoints>, s: Spool, body: Body, o: Outcomes): (r: Spool) {
    if s.closed then s else
    var s1 := Write(c, WriteGap(c, s, o.gap), body, o.rec);
    if o.rec.Done? && cp.Some? && s1.since >= cp.value.every then WriteCheckpoint(c, cp.value, s1, o.cp) else s1
  }

  function Close(c: Scheme, cp: Option<Checkpoints>, s: Spool, o: Outcomes): (r: Spool) {
    if s.closed then s else
    var s1 := WriteGap(c, s.(closed := true), o.gap);
    if cp.Some? && s1.since > 0 then WriteCheckpoint(c, cp.value, s1, o.cp) else s1
  }

  // ------------------------------------------------------------ opening

  datatype End = End(num: nat, hash: string, torn: bool)

  function ScanLine(e: End, line: Line): (r: End) {
    match line
    case Torn => e.(torn := true)
    case Parsed(rec) => End(if rec.body.num > e.num then rec.body.num else e.num, rec.hash, false)
  }

  function Scan(lines: seq<Line>): (e: End) {
    if lines == [] then End(0, "", false) else ScanLine(Scan(lines[..|lines| - 1]), lines[|lines| - 1])
  }

  function Opened(f: File): (s: Spool) {
    var e := Scan(f.lines);
    Spool(f, e.num, e.hash, !(f.terminated || f.lines == []), None, 0, 0, false)
  }

  /** The spool after OpenSpool: a torn last line gets its gap first. `o` is that write's outcome. */
  function Open(c: Scheme, f: File, o: Outcome): (s: Spool) {
    if Scan(f.lines).torn then Write(c, Opened(f), GapBody(None, "unreadable line"), o) else Opened(f)
  }

  predicate OpenFails(f: File, o: Outcome) {
    Scan(f.lines).torn && !o.Done?
  }

  // ------------------------------------------------------------ the verifier

  datatype Report = Report(records: nat, unchained: nat, gaps: nat, checkpoints: nat, signedSeq: nat, unsigned: nat)

  /** `torn`: an unreadable line has not been followed by a gap yet. */
  datatype Check = Check(prev: Option<Record>, torn: bool, report: Report)

  const START: Check := Check(None, false, Report(0, 0, 0, 0, 0, 0))

  /** The sequence number the next record must carry, or None if its gap names the wrong numbers. */
  function Expected(prev: Record, body: Body): (r: Option<nat>) {
    var want := prev.body.num + 1;
    if body.event.Gap? && body.lost.Some? then
      if body.lost.value.first != want || body.lost.value.last < body.lost.value.first then None
      else Some(body.lost.value.last + 1)
    else Some(want)
  }

  predicate ChainHolds(c: Scheme, prev: Option<Record>, rec: Record) {
    rec.hash == c.hash(rec.body) &&
    (if prev.None? then rec.body.prevHash == "" && !rec.body.event.Checkpoint?
     else rec.body.prevHash == prev.value.hash && Expected(prev.value, rec.body) == Some(rec.body.num) &&
          (rec.body.event.Checkpoint? ==>
             c.verify(rec.body.signer, prev.value.body.num, prev.value.hash, rec.body.signature)))
  }

  function Counted(r: Report, b: Body): (r': Report) {
    match b.event
    case Gap => r.(records := r.records + 1, gaps := r.gaps + 1, unsigned := r.unsigned + 1)
    case Checkpoint => r.(records := r.records + 1, checkpoints := r.checkpoints + 1, signedSeq := b.num, unsigned := 0)
    case Other(_) => r.(records := r.records + 1, unsigned := r.unsigned + 1)
  }

  function CheckLine(c: Scheme, v: Check, line: Line): (r: Option<Check>) {
    var unchained := v.(report := v.report.(unchained := v.report.unchained + 1));
    match line
    case Torn => Some(if v.prev.None? then unchained else v.(torn := true))
    case Parsed(rec) =>
      if rec.hash == "" then (if v.prev.Some? then None else Some(unchained))
      else if !ChainHolds(c, v.prev, rec) || (v.torn && !rec.body.event.Gap?) then None
      else Some(Check(Some(rec), false, Counted(v.report, rec.body)))
  }

  function Verify(c: Scheme, lines: seq<Line>): (r: Option<Check>) {
    if lines == [] then Some(START) else
    var v := Verify(c, lines[..|lines| - 1]);
    if v.None? then None else CheckLine(c, v.value, lines[|lines| - 1])
  }

  // ------------------------------------------------------------ the loops

  method ScanSpool(lines: seq<Line>) returns (num: nat, hash: string, torn: bool)
    ensures End(num, hash, torn) == Scan(lines)
  {
    num, hash, torn := 0, "", false;
    for i := 0 to |lines|
      invariant End(num, hash, torn) == Scan(lines[..i])
    {
      assert lines[..i + 1][..i] == lines[..i];
      match lines[i] {
        case Torn => torn := true;
        case Parsed(rec) =>
          torn := false;
          if rec.body.num > num { num := rec.body.num; }
          hash := rec.hash;
      }
    }
    assert lines[..|lines|] == lines;
  }

  method VerifySpool(c: Scheme, lines: seq<Line>) returns (ok: bool, report: Report, tornTail: bool)
    ensures ok == Verify(c, lines).Some?
    ensures ok ==> report == Verify(c, lines).value.report && tornTail == Verify(c, lines).value.torn
  {
    var prev: Option<Record> := None;
    tornTail, report, ok := false, START.report, true;
    var i := 0;
    while i < |lines|
      invariant 0 <= i <= |lines|
      invariant Verify(c, lines[..i]) == Some(Check(prev, tornTail, report))
    {
      assert lines[..i + 1][..i] == lines[..i];
      match lines[i] {
        case Torn =>
          if prev.None? {
            report := report.(unchained := report.unchained + 1);
          } else {
            tornTail := true;
          }
        case Parsed(rec) =>
          if rec.hash == "" {
            if prev.Some? {
              RejectionLasts(c, lines, i + 1);
              return false, report, tornTail;
            }
            report := report.(unchained := report.unchained + 1);
          } else {
            if !ChainHolds(c, prev, rec) || (tornTail && !rec.body.event.Gap?) {
              RejectionLasts(c, lines, i + 1);
              return false, report, tornTail;
            }
            report := Counted(report, rec.body);
            prev, tornTail := Some(rec), false;
          }
      }
      i := i + 1;
    }
    assert lines[..|lines|] == lines;
  }

  /** Once a line is refused no later line makes the file acceptable. */
  lemma {:induction false} RejectionLasts(c: Scheme, lines: seq<Line>, k: nat)
    requires k <= |lines| && Verify(c, lines[..k]).None?
    ensures Verify(c, lines).None?
    decreases |lines|
  {
    if k == |lines| {
      assert lines[..k] == lines;
    } else {
      assert lines[..|lines| - 1][..k] == lines[..k];
      RejectionLasts(c, lines[..|lines| - 1], k);
    }
  }

  lemma VerifyOneMore(c: Scheme, lines: seq<Line>, line: Line)
    ensures Verify(c, lines + [line]) ==
      (var v := Verify(c, lines); if v.None? then None else CheckLine(c, v.value, line))
  {
    assert (lines + [line])[..|lines|] == lines;
  }

  lemma ScanOneMore(lines: seq<Line>, line: Line)
    ensures Scan(lines + [line]) == ScanLine(Scan(lines), line)
  {
    assert (lines + [line])[..|lines|] == lines;
  }
}
