/**
 Writer and verifier agree: over any run of openings, appends, closes, failed writes and crashes
 the file verifies, and the two places where the writer goes on after a failure it should not
 ignore are exactly where that ends.
 */
module AuditAgreement {
  import opened Common
  import opened AuditSpool

  /** Chained records carry larger numbers than everything before them. */
  ghost predicate Ascending(lines: seq<Line>) {
    lines == [] ||
    (var front, line := lines[..|lines| - 1], lines[|lines| - 1];
     Ascending(front) && (line.Parsed? && line.rec.hash != "" ==> line.rec.body.num > Scan(front).num))
  }

  /** The writer's memory matches what the verifier has read. */
  ghost predicate Linked(v: Check, s: Spool) {
    s.prev == (if v.prev.None? then "" else v.prev.value.hash) &&
    (match s.lost
     case None => !v.torn && (v.prev.Some? ==> s.num == v.prev.value.body.num)
     case Some(r) => r.last == s.num && r.first <= r.last && (v.prev.Some? ==> r.first == v.prev.value.body.num + 1))
  }

  ghost predicate Agree(c: Scheme, s: Spool) {
    var v := Verify(c, s.file.lines);
    v.Some? && Linked(v.value, s) && Ascending(s.file.lines) && Scan(s.file.lines).num <= s.num &&
    (!s.newline ==> s.file.terminated || s.file.lines == [])
  }

  predicate Landed(o: Outcome) { o.Done? || o.Whole? }

  // ------------------------------------------------------------ one write

  lemma AscendingOneMore(lines: seq<Line>, line: Line)
    ensures Ascending(lines + [line]) <==>
      Ascending(lines) && (line.Parsed? && line.rec.hash != "" ==> line.rec.body.num > Scan(lines).num)
  {
    assert (lines + [line])[..|lines|] == lines;
  }

  /** A write starts on a fresh line, so the file grows by at most the line it writes. */
  lemma WriteGrowsFile(c: Scheme, s: Spool, body: Body, o: Outcome)
    requires !s.newline ==> s.file.terminated || s.file.lines == []
    ensures
      var lines := Write(c, s, body, o).file.lines;
      lines == match o
               case Fragment => s.file.lines + [Torn]
               case Nothing => s.file.lines
               case NewlineOnly => s.file.lines
               case _ => s.file.lines + [Parsed(Chained(c, s, body))]
  {
  }

  /** A failed write that leaves nothing or a fragment joins the lost range. */
  lemma FailedWriteAgrees(c: Scheme, s: Spool, body: Body, o: Outcome)
    requires Agree(c, s) && !Landed(o)
    ensures Agree(c, Write(c, s, body, o))
  {
    WriteGrowsFile(c, s, body, o);
    VerifyOneMore(c, s.file.lines, Torn);
    ScanOneMore(s.file.lines, Torn);
    AscendingOneMore(s.file.lines, Torn);
  }

  /** What the verifier accepts next, the writer has in memory afterwards. */
  lemma AcceptedWriteAgrees(c: Scheme, s: Spool, body: Body)
    requires Verify(c, s.file.lines).Some? && Ascending(s.file.lines) && Scan(s.file.lines).num <= s.num && s.lost.None?
    requires !s.newline ==> s.file.terminated || s.file.lines == []
    requires CheckLine(c, Verify(c, s.file.lines).value, Parsed(Chained(c, s, body))).Some?
    requires Chained(c, s, body).hash != ""
    ensures Agree(c, Write(c, s, body, Done))
  {
    var line := Parsed(Chained(c, s, body));
    WriteGrowsFile(c, s, body, Done);
    VerifyOneMore(c, s.file.lines, line);
    ScanOneMore(s.file.lines, line);
    AscendingOneMore(s.file.lines, line);
  }

  /** A record that is no gap naming numbers may follow when nothing is lost. */
  lemma RecordAgrees(c: Scheme, s: Spool, body: Body)
    requires Sound(c, None) && Agree(c, s) && s.lost.None? && body.event.Other?
    ensures Agree(c, Write(c, s, body, Done))
  {
    AcceptedWriteAgrees(c, s, body);
  }

  lemma CheckpointAgrees(c: Scheme, cp: Checkpoints, s: Spool, o: Outcome)
    requires Sound(c, Some(cp)) && Agree(c, s) && s.lost.None? && Verify(c, s.file.lines).value.prev.Some? && !o.Whole?
    ensures Agree(c, WriteCheckpoint(c, cp, s, o))
  {
    var body := Body(0, Checkpoint, "", None, cp.keyID, c.sign(cp.keyID, s.num, s.prev), "");
    if o.Done? {
      AcceptedWriteAgrees(c, s, body);
    } else {
      FailedWriteAgrees(c, s, body, o);
    }
  }

  /** The gap is recorded, or its own number joins the range it would have named. */
  lemma GapAgrees(c: Scheme, s: Spool, o: Outcome)
    requires Sound(c, None) && Agree(c, s) && !o.Whole?
    ensures Agree(c, WriteGap(c, s, o))
    ensures WriteGap(c, s, o).lost.Some? <==> s.lost.Some? && !o.Done?
    ensures s.lost.Some? && o.Done? ==> Verify(c, WriteGap(c, s, o).file.lines).value.prev.Some?
  {
    if s.lost.Some? {
      var s0 := s.(lost := None);
      var body := GapBody(s.lost, "");
      if o.Done? {
        AcceptedWriteAgrees(c, s0, body);
        WriteGrowsFile(c, s0, body, o);
        VerifyOneMore(c, s.file.lines, Parsed(Chained(c, s0, body)));
      } else {
        FailedGapAgrees(c, s, body, o);
      }
    }
  }

  lemma FailedGapAgrees(c: Scheme, s: Spool, body: Body, o: Outcome)
    requires Agree(c, s) && s.lost.Some? && !Landed(o)
    ensures Agree(c, Write(c, s.(lost := None), body, o).(lost := Some(SeqRange(s.lost.value.first, s.num + 1))))
  {
    FailedWriteAgrees(c, s, body, o);
  }

  // ------------------------------------------------------------ one append, one close

  /** The gap write failed and the record after it was written all the same. */
  predicate SkipsGap(s: Spool, o: Outcomes) {
    !s.closed && s.lost.Some? && !o.gap.Done? && o.rec.Done?
  }

  predicate NoWhole(o: Outcomes) {
    !o.gap.Whole? && !o.rec.Whole? && !o.cp.Whole?
  }

  lemma RecordIsLast(c: Scheme, s: Spool, body: Body)
    requires Agree(c, s) && Agree(c, Write(c, s, body, Done)) && Sound(c, None)
    ensures Verify(c, Write(c, s, body, Done).file.lines).value.prev.Some?
  {
    WriteGrowsFile(c, s, body, Done);
    VerifyOneMore(c, s.file.lines, Parsed(Chained(c, s, body)));
  }

  lemma AppendAgrees(c: Scheme, cp: Option<Checkpoints>, s: Spool, body: Body, o: Outcomes)
    requires Sound(c, cp) && Agree(c, s) && body.event.Other? && NoWhole(o) && !SkipsGap(s, o)
    ensures Agree(c, Append(c, cp, s, body, o))
  {
    if !s.closed {
      GapAgrees(c, s, o.gap);
      var s1 := WriteGap(c, s, o.gap);
      if o.rec.Done? {
        RecordAgrees(c, s1, body);
        var s2 := Write(c, s1, body, Done);
        RecordIsLast(c, s1, body);
        if cp.Some? && s2.since >= cp.value.every {
          CheckpointAgrees(c, cp.value, s2, o.cp);
        }
      } else {
        FailedWriteAgrees(c, s1, body, o.rec);
      }
    }
  }

  /** Only records with a hash are chained. */
  lemma {:induction false} ChainedHaveHashes(c: Scheme, lines: seq<Line>)
    requires Verify(c, lines).Some? && Verify(c, lines).value.prev.Some?
    ensures Verify(c, lines).value.prev.value.hash != ""
  {
    var front := lines[..|lines| - 1];
    if Verify(c, front).value.prev.Some? {
      ChainedHaveHashes(c, front);
    }
  }

  /** A spool has a chain exactly when it remembers a hash. */
  lemma ChainIsRemembered(c: Scheme, s: Spool)
    requires Agree(c, s)
    ensures s.prev != "" <==> Verify(c, s.file.lines).value.prev.Some?
  {
    if Verify(c, s.file.lines).value.prev.Some? {
      ChainedHaveHashes(c, s.file.lines);
    }
  }

  /** A record written over numbers nothing names is refused outright once there is a chain. */
  lemma SkippedGapIsRefused(c: Scheme, s: Spool, body: Body)
    requires Sound(c, None) && Agree(c, s) && s.lost.Some? && s.prev != ""
    requires body.event.Other? || body.event.Checkpoint?
    ensures Verify(c, Write(c, s, body, Done).file.lines).None?
  {
    ChainIsRemembered(c, s);
    WriteGrowsFile(c, s, body, Done);
    VerifyOneMore(c, s.file.lines, Parsed(Chained(c, s, body)));
  }

  lemma FileOnlyGrows(c: Scheme, cp: Checkpoints, s: Spool, o: Outcome)
    requires Verify(c, s.file.lines).None? && (!s.newline ==> s.file.terminated || s.file.lines == [])
    ensures Verify(c, WriteCheckpoint(c, cp, s, o).file.lines).None?
  {
    var body := Body(0, Checkpoint, "", None, cp.keyID, c.sign(cp.keyID, s.num, s.prev), "");
    WriteGrowsFile(c, s, body, o);
    VerifyOneMore(c, s.file.lines, Torn);
    VerifyOneMore(c, s.file.lines, Parsed(Chained(c, s, body)));
  }

  /**
   The file verifies, but the writer still has to name numbers from before the first chained
   record, which no gap may do.
   */
  ghost predicate Doomed(c: Scheme, s: Spool) {
    var v := Verify(c, s.file.lines);
    v.Some? && v.value.prev.Some? && s.lost.Some? &&
    s.lost.value.first <= v.value.prev.value.body.num <= s.num && s.prev == v.value.prev.value.hash &&
    (!s.newline ==> s.file.terminated || s.file.lines == [])
  }

  lemma DoomedWrite(c: Scheme, s: Spool, body: Body, o: Outcome)
    requires Sound(c, None) && Doomed(c, s) && !Landed(o)
    ensures Doomed(c, Write(c, s, body, o))
  {
    WriteGrowsFile(c, s, body, o);
    VerifyOneMore(c, s.file.lines, Torn);
  }

  /** On a spool without a chain the skipped record is accepted as the chain's first. */
  lemma SkippedFirstRecord(c: Scheme, s: Spool, body: Body)
    requires Sound(c, None) && Agree(c, s) && s.lost.Some? && s.prev == "" && body.event.Other?
    ensures
      var t := Write(c, s, body, Done);
      Doomed(c, t) &&
      Verify(c, t.file.lines).value == Check(Some(Chained(c, s, body)), false, Verify(c, t.file.lines).value.report)
  {
    ChainIsRemembered(c, s);
    NoChainNotTorn(c, s.file.lines);
    WriteGrowsFile(c, s, body, Done);
    VerifyOneMore(c, s.file.lines, Parsed(Chained(c, s, body)));
  }

  lemma {:induction false} NoChainNotTorn(c: Scheme, lines: seq<Line>)
    requires Verify(c, lines).Some? && Verify(c, lines).value.prev.None?
    ensures !Verify(c, lines).value.torn
  {
    if lines != [] {
      NoChainNotTorn(c, lines[..|lines| - 1]);
    }
  }

  lemma DoomedCheckpoint(c: Scheme, cp: Checkpoints, s: Spool, o: Outcome)
    requires Sound(c, Some(cp)) && Doomed(c, s) && !o.Whole?
    requires var v := Verify(c, s.file.lines).value; !v.torn && s.num == v.prev.value.body.num
    ensures Doomed(c, WriteCheckpoint(c, cp, s, o))
  {
    var body := Body(0, Checkpoint, "", None, cp.keyID, c.sign(cp.keyID, s.num, s.prev), "");
    if o.Done? {
      WriteGrowsFile(c, s, body, o);
      VerifyOneMore(c, s.file.lines, Parsed(Chained(c, s, body)));
    } else {
      DoomedWrite(c, s, body, o);
    }
  }

  /** The gap that failed, and where it leaves the spool. */
  lemma FailedGap(c: Scheme, s: Spool, o: Outcome)
    requires Agree(c, s) && s.lost.Some? && !Landed(o)
    ensures Agree(c, WriteGap(c, s, o)) && WriteGap(c, s, o).lost.Some? && WriteGap(c, s, o).prev == s.prev
  {
    FailedGapAgrees(c, s, GapBody(s.lost, ""), o);
  }

  /** A skipped gap: refused at once behind a chain, otherwise accepted for now. */
  lemma SkipDecides(c: Scheme, cp: Option<Checkpoints>, s: Spool, body: Body, o: Outcomes)
    requires Sound(c, cp) && Agree(c, s) && body.event.Other? && NoWhole(o) && SkipsGap(s, o)
    ensures
      if s.prev != "" then Verify(c, Append(c, cp, s, body, o).file.lines).None?
      else Doomed(c, Append(c, cp, s, body, o))
  {
    FailedGap(c, s, o.gap);
    var s1 := WriteGap(c, s, o.gap);
    var s2 := Write(c, s1, body, Done);
    if s.prev != "" {
      SkippedGapIsRefused(c, s1, body);
      if cp.Some? && s2.since >= cp.value.every {
        FileOnlyGrows(c, cp.value, s2, o.cp);
      }
    } else {
      SkippedFirstRecord(c, s1, body);
      if cp.Some? && s2.since >= cp.value.every {
        DoomedCheckpoint(c, cp.value, s2, o.cp);
      }
    }
  }

  /**
   An append leaves a file that verifies if and only if it did not write its record right after
   its gap record failed, on a spool that has a chain. Append ignores that failure.
   */
  lemma AppendVerifiesExactly(c: Scheme, cp: Option<Checkpoints>, s: Spool, body: Body, o: Outcomes)
    requires Sound(c, cp) && Agree(c, s) && body.event.Other? && NoWhole(o)
    ensures Verify(c, Append(c, cp, s, body, o).file.lines).Some? <==> !(SkipsGap(s, o) && s.prev != "")
    ensures SkipsGap(s, o) && s.prev == "" ==> Doomed(c, Append(c, cp, s, body, o))
  {
    if !SkipsGap(s, o) {
      AppendAgrees(c, cp, s, body, o);
    } else {
      SkipDecides(c, cp, s, body, o);
    }
  }

  /** Behind a gap that was skipped before the chain began, the first append that writes anything is refused. */
  lemma SkippedGapIsCaught(c: Scheme, cp: Option<Checkpoints>, s: Spool, body: Body, o: Outcomes)
    requires Sound(c, cp) && Doomed(c, s) && !s.closed && body.event.Other? && NoWhole(o)
    ensures Verify(c, Append(c, cp, s, body, o).file.lines).Some? <==> !o.gap.Done? && !o.rec.Done?
    ensures !o.gap.Done? && !o.rec.Done? ==> Doomed(c, Append(c, cp, s, body, o))
  {
    var s1 := WriteGap(c, s, o.gap);
    DoomedGap(c, s, o.gap);
    if o.gap.Done? {
      RefusedStaysRefused(c, cp, s1, body, o);
    } else if o.rec.Done? {
      DoomedRecord(c, s1, body, Verify(c, s.file.lines).value.prev.value.body.num);
      var s2 := Write(c, s1, body, Done);
      if cp.Some? && s2.since >= cp.value.every {
        FileOnlyGrows(c, cp.value, s2, o.cp);
      }
    } else {
      DoomedWrite(c, s1, body, o.rec);
    }
  }

  lemma DoomedGap(c: Scheme, s: Spool, o: Outcome)
    requires Sound(c, None) && Doomed(c, s) && !o.Whole?
    ensures
      var r := WriteGap(c, s, o);
      (!r.newline ==> r.file.terminated || r.file.lines == []) &&
      if o.Done? then Verify(c, r.file.lines).None?
      else
        Doomed(c, r) && Verify(c, r.file.lines).value.prev == Verify(c, s.file.lines).value.prev && r.num == s.num + 1
  {
    var s0, body := s.(lost := None), GapBody(s.lost, "");
    WriteGrowsFile(c, s0, body, o);
    VerifyOneMore(c, s.file.lines, Torn);
    VerifyOneMore(c, s.file.lines, Parsed(Chained(c, s0, body)));
  }

  lemma DoomedRecord(c: Scheme, s: Spool, body: Body, last: nat)
    requires Sound(c, None) && Doomed(c, s) && body.event.Other?
    requires Verify(c, s.file.lines).value.prev.value.body.num == last < s.num
    ensures Verify(c, Write(c, s, body, Done).file.lines).None?
  {
    WriteGrowsFile(c, s, body, Done);
    VerifyOneMore(c, s.file.lines, Parsed(Chained(c, s, body)));
  }

  lemma RefusedWrite(c: Scheme, s: Spool, body: Body, o: Outcome)
    requires Verify(c, s.file.lines).None? && (!s.newline ==> s.file.terminated || s.file.lines == [])
    ensures
      var t := Write(c, s, body, o);
      Verify(c, t.file.lines).None? && (!t.newline ==> t.file.terminated || t.file.lines == [])
  {
    WriteGrowsFile(c, s, body, o);
    VerifyOneMore(c, s.file.lines, Torn);
    VerifyOneMore(c, s.file.lines, Parsed(Chained(c, s, body)));
  }

  /** The rest of an append whose gap was refused. */
  lemma RefusedStaysRefused(c: Scheme, cp: Option<Checkpoints>, s1: Spool, body: Body, o: Outcomes)
    requires Verify(c, s1.file.lines).None? && (!s1.newline ==> s1.file.terminated || s1.file.lines == [])
    ensures
      var s2 := Write(c, s1, body, o.rec);
      Verify(c, s2.file.lines).None? &&
      (cp.Some? ==> Verify(c, WriteCheckpoint(c, cp.value, s2, o.cp).file.lines).None?)
  {
    RefusedWrite(c, s1, body, o.rec);
    if cp.Some? {
      FileOnlyGrows(c, cp.value, Write(c, s1, body, o.rec), o.cp);
    }
  }

  /** Close writes its checkpoint after its own gap record failed. */
  predicate CloseSkipsGap(cp: Option<Checkpoints>, s: Spool, o: Outcomes) {
    !s.closed && s.lost.Some? && !o.gap.Done? && cp.Some? && s.since > 0 && o.cp.Done?
  }

  lemma ClosedAgrees(c: Scheme, s: Spool)
    requires Agree(c, s)
    ensures Agree(c, s.(closed := true))
  {
  }

  /** A spool that has written since its last checkpoint has a chain. */
  ghost predicate SinceCounts(s: Spool) {
    s.since > 0 ==> s.prev != ""
  }

  lemma CloseAgrees(c: Scheme, cp: Option<Checkpoints>, s: Spool, o: Outcomes)
    requires Sound(c, cp) && Agree(c, s) && SinceCounts(s) && NoWhole(o) && !CloseSkipsGap(cp, s, o)
    ensures Agree(c, Close(c, cp, s, o))
  {
    if !s.closed {
      var s0 := s.(closed := true);
      ClosedAgrees(c, s);
      GapAgrees(c, s0, o.gap);
      var s1 := WriteGap(c, s0, o.gap);
      if cp.Some? && s1.since > 0 {
        if s1.lost.None? {
          CheckpointAgrees(c, cp.value, s1, o.cp);
        } else {
          FailedWriteAgrees(c, s1,
              Body(0, Checkpoint, "", None, cp.value.keyID, c.sign(cp.value.keyID, s1.num, s1.prev), ""), o.cp);
        }
      }
    }
  }

  /**
   Closing leaves a file that verifies if and only if it did not write its checkpoint right after
   its gap record failed. Close ignores that failure too.
   */
  lemma CloseVerifiesExactly(c: Scheme, cp: Option<Checkpoints>, s: Spool, o: Outcomes)
    requires Sound(c, cp) && Agree(c, s) && SinceCounts(s) && NoWhole(o)
    ensures Verify(c, Close(c, cp, s, o).file.lines).Some? <==> !CloseSkipsGap(cp, s, o)
  {
    if !CloseSkipsGap(cp, s, o) {
      CloseAgrees(c, cp, s, o);
    } else {
      var s0 := s.(closed := true);
      ClosedAgrees(c, s);
      FailedGap(c, s0, o.gap);
      var s1 := WriteGap(c, s0, o.gap);
      SkippedGapIsRefused(c, s1,
                          Body(0, Checkpoint, "", None, cp.value.keyID, c.sign(cp.value.keyID, s1.num, s1.prev), ""));
    }
  }

  // ------------------------------------------------------------ crashes and openings

  /** What a crash may leave: some whole lines, perhaps part of the next, perhaps no final newline. */
  function Cut(f: File, k: nat, torn: bool, terminated: bool): (r: File)
    requires k <= |f.lines|
  {
    if torn then File(f.lines[..k] + [Torn], false) else File(f.lines[..k], terminated)
  }

  lemma {:induction false} PrefixVerifies(c: Scheme, lines: seq<Line>, k: nat)
    requires k <= |lines| && Verify(c, lines).Some? && Ascending(lines)
    ensures Verify(c, lines[..k]).Some? && Ascending(lines[..k])
    decreases |lines|
  {
    if k == |lines| {
      assert lines[..k] == lines;
    } else {
      assert lines[..|lines| - 1][..k] == lines[..k];
      PrefixVerifies(c, lines[..|lines| - 1], k);
    }
  }

  lemma CutVerifies(c: Scheme, f: File, k: nat, torn: bool, terminated: bool)
    requires k <= |f.lines| && Verify(c, f.lines).Some? && Ascending(f.lines)
    ensures Verify(c, Cut(f, k, torn, terminated).lines).Some? && Ascending(Cut(f, k, torn, terminated).lines)
  {
    PrefixVerifies(c, f.lines, k);
    VerifyOneMore(c, f.lines[..k], Torn);
    AscendingOneMore(f.lines[..k], Torn);
  }

  /** The scan finds the chain's end where the verifier does. */
  lemma {:induction false} ScanFindsTheEnd(c: Scheme, lines: seq<Line>)
    requires Verify(c, lines).Some? && Ascending(lines)
    ensures
      var v, e := Verify(c, lines).value, Scan(lines);
      (v.prev.None? ==> e.hash == "") &&
      (v.prev.Some? ==> e.hash == v.prev.value.hash && e.num == v.prev.value.body.num) &&
      (v.torn ==> v.prev.Some? && e.torn)
  {
    if lines != [] {
      ScanFindsTheEnd(c, lines[..|lines| - 1]);
    }
  }

  /** A file that verifies opens into a spool that agrees with it, with a gap after a torn last line. */
  lemma OpenAgrees(c: Scheme, f: File, o: Outcome)
    requires Sound(c, None) && Verify(c, f.lines).Some? && Ascending(f.lines) && !o.Whole?
    ensures Verify(c, Open(c, f, o).file.lines).Some? && Ascending(Open(c, f, o).file.lines)
    ensures !OpenFails(f, o) ==> Agree(c, Open(c, f, o)) && SinceCounts(Open(c, f, o))
  {
    ScanFindsTheEnd(c, f.lines);
    var s := Opened(f);
    if Scan(f.lines).torn {
      var body := GapBody(None, "unreadable line");
      if o.Done? {
        AcceptedWriteAgrees(c, s, body);
        WriteGrowsFile(c, s, body, o);
        VerifyOneMore(c, f.lines, Parsed(Chained(c, s, body)));
      } else {
        WriteGrowsFile(c, s, body, o);
        VerifyOneMore(c, f.lines, Torn);
        AscendingOneMore(f.lines, Torn);
      }
    }
  }

  // ------------------------------------------------------------ every run

  datatype Home = Up(s: Spool) | Down(f: File)

  datatype Op =
    | DoAppend(body: Body, o: Outcomes)
    | DoClose(o: Outcomes)
    | Crash(k: nat, torn: bool, terminated: bool)
    | Restart(gap: Outcome)

  function FileOf(h: Home): (f: File) {
    match h case Up(s) => s.file case Down(f) => f
  }

  predicate Possible(h: Home, a: Op) {
    match a
    case DoAppend(body, _) => h.Up? && body.event.Other?
    case DoClose(_) => h.Up?
    case Crash(k, _, _) => k <= |FileOf(h).lines|
    case Restart(_) => h.Down?
  }

  function Perform(c: Scheme, cp: Option<Checkpoints>, h: Home, a: Op): (r: Home)
    requires Possible(h, a)
  {
    match a
    case DoAppend(body, o) => Up(Append(c, cp, h.s, body, o))
    case DoClose(o) => Up(Close(c, cp, h.s, o))
    case Crash(k, torn, terminated) => Down(Cut(FileOf(h), k, torn, terminated))
    case Restart(o) => if OpenFails(h.f, o) then Down(Open(c, h.f, o).file) else Up(Open(c, h.f, o))
  }

  /** No write lands whole while reported failed, and none follows its own failed gap record. */
  predicate Honest(cp: Option<Checkpoints>, h: Home, a: Op)
    requires Possible(h, a)
  {
    match a
    case DoAppend(_, o) => NoWhole(o) && !SkipsGap(h.s, o)
    case DoClose(o) => NoWhole(o) && !CloseSkipsGap(cp, h.s, o)
    case Crash(_, _, _) => true
    case Restart(o) => !o.Whole?
  }

  ghost predicate Good(c: Scheme, h: Home) {
    match h
    case Up(s) => Agree(c, s) && SinceCounts(s)
    case Down(f) => Verify(c, f.lines).Some? && Ascending(f.lines)
  }

  lemma OpKeepsGood(c: Scheme, cp: Option<Checkpoints>, h: Home, a: Op)
    requires Sound(c, cp) && Good(c, h) && Possible(h, a) && Honest(cp, h, a)
    ensures Good(c, Perform(c, cp, h, a))
  {
    match a
    case DoAppend(body, o) => AppendAgrees(c, cp, h.s, body, o);
    case DoClose(o) => CloseAgrees(c, cp, h.s, o);
    case Crash(k, torn, terminated) => CutVerifies(c, FileOf(h), k, torn, terminated);
    case Restart(o) => OpenAgrees(c, h.f, o);
  }

  ghost predicate IsRun(c: Scheme, cp: Option<Checkpoints>, run: seq<Home>, ops: seq<Op>) {
    |run| == |ops| + 1 &&
    forall i :: 0 <= i < |ops| ==>
      Possible(run[i], ops[i]) && Honest(cp, run[i], ops[i]) && run[i + 1] == Perform(c, cp, run[i], ops[i])
  }

  /** A file from before the chain: unreadable lines and records without a hash. */
  ghost predicate Legacy(f: File) {
    forall i :: 0 <= i < |f.lines| ==> f.lines[i].Torn? || f.lines[i].rec.hash == ""
  }

  lemma {:induction false} LegacyVerifies(c: Scheme, f: File)
    requires Legacy(f)
    ensures Verify(c, f.lines).Some? && Verify(c, f.lines).value.prev.None? && Ascending(f.lines)
    decreases |f.lines|
  {
    if f.lines != [] {
      LegacyVerifies(c, f.(lines := f.lines[..|f.lines| - 1]));
    }
  }

  /**
   From an empty or pre-chain file, after any number of openings, appends, closes, failed writes
   and crashes to any prefix, VerifySpool accepts the file at every point.
   */
  lemma {:induction false} SpoolAlwaysVerifies(c: Scheme, cp: Option<Checkpoints>, run: seq<Home>, ops: seq<Op>, i: nat)
    requires Sound(c, cp) && IsRun(c, cp, run, ops) && run[0].Down? && Legacy(run[0].f) && i < |run|
    ensures Good(c, run[i]) && Verify(c, FileOf(run[i]).lines).Some?
  {
    if i == 0 {
      LegacyVerifies(c, run[0].f);
    } else {
      SpoolAlwaysVerifies(c, cp, run, ops, i - 1);
      OpKeepsGood(c, cp, run[i - 1], ops[i - 1]);
    }
  }

  /**
   Both conditions are needed: from an empty file, three appends of which the second loses its
   record, and the third loses its gap but not its record, leave a file VerifySpool refuses.
   */
  lemma IgnoredGapFailureIsRefused(c: Scheme, body: Body)
    requires Sound(c, None) && body.event.Other?
    ensures
      var s0 := Opened(File([], true));
      var s1 := Append(c, None, s0, body, Outcomes(Done, Done, Done));
      var s2 := Append(c, None, s1, body, Outcomes(Done, Nothing, Done));
      var s3 := Append(c, None, s2, body, Outcomes(Nothing, Done, Done));
      Verify(c, s2.file.lines).Some? && Verify(c, s3.file.lines).None?
  {
    var s0 := Opened(File([], true));
    OpenAgrees(c, File([], true), Done);
    var o1, o2, o3 := Outcomes(Done, Done, Done), Outcomes(Done, Nothing, Done), Outcomes(Nothing, Done, Done);
    AppendAgrees(c, None, s0, body, o1);
    var s1 := Append(c, None, s0, body, o1);
    RecordIsLast(c, s0, body);
    AppendAgrees(c, None, s1, body, o2);
    var s2 := Append(c, None, s1, body, o2);
    assert s2.prev == s1.prev != "";
    AppendVerifiesExactly(c, None, s2, body, o3);
  }

  /** The verifier takes the record the writer would write next. */
  lemma NextIsAccepted(c: Scheme, v: Check, s: Spool, body: Body)
    requires Sound(c, None) && Linked(v, s) && s.lost.None? && body.event.Other?
    ensures var r := CheckLine(c, v, Parsed(Chained(c, s, body))); r.Some? && r.value.prev == Some(Chained(c, s, body))
  {
  }

  /** A record that landed whole is accepted, though the writer believes its number lost. */
  lemma WholeRecordAccepted(c: Scheme, s: Spool, body: Body)
    requires Sound(c, None) && Agree(c, s) && s.lost.None? && body.event.Other?
    ensures
      var v := Verify(c, Write(c, s, body, Whole).file.lines);
      v.Some? && v.value.prev == Some(Chained(c, s, body))
  {
    var v := Verify(c, s.file.lines).value;
    NextIsAccepted(c, v, s, body);
    WriteGrowsFile(c, s, body, Whole);
    VerifyOneMore(c, s.file.lines, Parsed(Chained(c, s, body)));
  }

  /** A gap that names the last chained record's own number is refused. */
  lemma LateGapIsRefused(c: Scheme, t: Spool)
    requires Sound(c, None) && t.newline && t.lost.Some? && Verify(c, t.file.lines).Some?
    requires var v := Verify(c, t.file.lines).value; v.prev.Some? && t.lost.value.first == v.prev.value.body.num
    ensures var g := WriteGap(c, t, Done); Verify(c, g.file.lines).None? && g.file.terminated
  {
    var t0, gap := t.(lost := None), GapBody(t.lost, "");
    WriteGrowsFile(c, t0, gap, Done);
    VerifyOneMore(c, t.file.lines, Parsed(Chained(c, t0, gap)));
  }

  /** And a record that landed whole although its write was reported failed is refused with the gap that follows. */
  lemma WholeRecordIsRefused(c: Scheme, s: Spool, body: Body)
    requires Sound(c, None) && Agree(c, s) && s.lost.None? && body.event.Other? && !s.closed
    ensures
      var s1 := Append(c, None, s, body, Outcomes(Done, Whole, Done));
      var s2 := Append(c, None, s1, body, Outcomes(Done, Done, Done));
      Verify(c, s1.file.lines).Some? && Verify(c, s2.file.lines).None?
  {
    var s1 := Write(c, s, body, Whole);
    WholeRecordAccepted(c, s, body);
    LateGapIsRefused(c, s1);
    RefusedWrite(c, WriteGap(c, s1, Done), body, Done);
  }
}
