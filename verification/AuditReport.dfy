/** What the verifier reports, read off the chain itself, and how many records a checkpoint may leave unsigned. */
module AuditReport {
  import opened Common
  import opened AuditSpool
  import A = AuditAgreement
  import T = AuditTamper

  // ------------------------------------------------------------ the report

  predicate IsGap(r: Record) { r.body.event.Gap? }

  predicate IsCheckpoint(r: Record) { r.body.event.Checkpoint? }

  function Where(rs: seq<Record>, p: Record -> bool): (r: set<nat>) { set i: nat | i < |rs| && p(rs[i]) }

  predicate LastCheckpoint(rs: seq<Record>, i: nat) {
    i < |rs| && IsCheckpoint(rs[i]) && forall j :: i < j < |rs| ==> !IsCheckpoint(rs[j])
  }

  /** The counts, the last signed number, and what no checkpoint covers. */
  ghost predicate Counts(r: Report, rs: seq<Record>) {
    r.records == |rs| && r.gaps == |Where(rs, IsGap)| && r.checkpoints == |Where(rs, IsCheckpoint)| &&
    (r.checkpoints == 0 ==> r.signedSeq == 0 && r.unsigned == |rs|) &&
    forall i: nat :: LastCheckpoint(rs, i) ==> r.signedSeq == rs[i].body.num && r.unsigned == |rs| - 1 - i
  }

  /** The lines before the chain, and only those, are not part of it. */
  ghost predicate StartsAt(lines: seq<Line>, n: nat) {
    n <= |lines| && T.Chain(lines[..n]) == [] && (n < |lines| ==> T.Chain(lines[..n + 1]) != [])
  }

  lemma OneMoreRecord(rs: seq<Record>, r: Record, p: Record -> bool)
    ensures |Where(rs + [r], p)| == |Where(rs, p)| + if p(r) then 1 else 0
  {
    assert Where(rs + [r], p) == Where(rs, p) + if p(r) then {|rs|} else {};
  }

  lemma NoneOrLast(rs: seq<Record>)
    ensures |Where(rs, IsCheckpoint)| == 0 ==> forall i :: 0 <= i < |rs| ==> !IsCheckpoint(rs[i])
  {
    if |Where(rs, IsCheckpoint)| == 0 {
      assert forall i: nat :: i < |rs| && IsCheckpoint(rs[i]) ==> i in Where(rs, IsCheckpoint);
    }
  }

  lemma LastOfMore(rs: seq<Record>, r: Record, i: nat)
    requires LastCheckpoint(rs + [r], i)
    ensures if IsCheckpoint(r) then i == |rs| else i < |rs| && LastCheckpoint(rs, i)
  {
    var now := rs + [r];
    assert now[|rs|] == r;
    assert forall j :: 0 <= j < |rs| ==> now[j] == rs[j];
  }

  lemma CountsOneMore(v: Report, rs: seq<Record>, r: Record)
    requires Counts(v, rs)
    ensures Counts(Counted(v, r.body), rs + [r])
  {
    var w := Counted(v, r.body);
    OneMoreRecord(rs, r, IsGap);
    OneMoreRecord(rs, r, IsCheckpoint);
    forall i: nat | LastCheckpoint(rs + [r], i)
      ensures w.signedSeq == (rs + [r])[i].body.num && w.unsigned == |rs| - i
    {
      LastOfMore(rs, r, i);
    }
  }

  /** An accepted file's report says of its chain what it claims to say. */
  lemma {:induction false} ReportIsTrue(c: Scheme, lines: seq<Line>)
    requires Verify(c, lines).Some?
    ensures Counts(Verify(c, lines).value.report, T.Chain(lines))
    ensures StartsAt(lines, Verify(c, lines).value.report.unchained)
    decreases |lines|
  {
    if lines == [] {
      assert Where([], IsGap) == {} && Where([], IsCheckpoint) == {};
    } else {
      var front, line := lines[..|lines| - 1], lines[|lines| - 1];
      ReportIsTrue(c, front);
      T.AcceptedChainIsLinked(c, front);
      if line.Parsed? && line.rec.hash != "" {
        CountsOneMore(Verify(c, front).value.report, T.Chain(front), line.rec);
      }
      StartKept(c, lines);
    }
  }

  lemma StartKept(c: Scheme, lines: seq<Line>)
    requires lines != [] && Verify(c, lines).Some?
    requires StartsAt(lines[..|lines| - 1], Verify(c, lines[..|lines| - 1]).value.report.unchained)
    requires Verify(c, lines[..|lines| - 1]).value.prev.None? <==> T.Chain(lines[..|lines| - 1]) == []
    ensures StartsAt(lines, Verify(c, lines).value.report.unchained)
  {
    var front := lines[..|lines| - 1];
    var n := Verify(c, front).value.report.unchained;
    assert lines[..n] == front[..n] && front[..|front|] == front && lines[..|lines|] == lines;
    if n < |front| {
      assert lines[..n + 1] == front[..n + 1];
      T.ChainExtends(front, n + 1);
    }
  }

  // ------------------------------------------------------------ checkpoints come in time

  /** How many records follow the last checkpoint. */
  function Tail(rs: seq<Record>): (n: nat) {
    if rs == [] || IsCheckpoint(rs[|rs| - 1]) then 0 else Tail(rs[..|rs| - 1]) + 1
  }

  lemma {:induction false} TailIsUnsigned(c: Scheme, lines: seq<Line>)
    requires Verify(c, lines).Some?
    ensures Verify(c, lines).value.report.unsigned == Tail(T.Chain(lines))
    decreases |lines|
  {
    if lines != [] {
      var front, line := lines[..|lines| - 1], lines[|lines| - 1];
      TailIsUnsigned(c, front);
      if line.Parsed? && line.rec.hash != "" {
        var rs := T.Chain(front) + [line.rec];
        assert rs[..|rs| - 1] == T.Chain(front);
      }
    }
  }

  /** A checkpoint was written since the chain had n records. */
  predicate SignedSince(rs: seq<Record>, n: nat) { exists i :: n <= i < |rs| && IsCheckpoint(rs[i]) }

  /**
   What the spool counts as written since its last checkpoint is what the chain has behind it, but
   for the `base` unsigned records the file had when the spool was opened, n records long.
   */
  ghost predicate Owes(s: Spool, n: nat, base: nat) {
    var rs := T.Chain(s.file.lines);
    n <= |rs| && Tail(rs) == s.since + if SignedSince(rs, n) then 0 else base
  }

  lemma ChainGrows(c: Scheme, s: Spool, body: Body, o: Outcome)
    requires Sound(c, None) && !o.Whole? && (!s.newline ==> s.file.terminated || s.file.lines == [])
    ensures
      T.Chain(Write(c, s, body, o).file.lines) ==
      T.Chain(s.file.lines) + if o.Done? then [Chained(c, s, body)] else []
  {
    A.WriteGrowsFile(c, s, body, o);
    var t := Write(c, s, body, o);
    if t.file.lines != s.file.lines {
      assert t.file.lines[..|t.file.lines| - 1] == s.file.lines;
    }
  }

  lemma OwesOneMore(rs: seq<Record>, r: Record, n: nat)
    requires n <= |rs|
    ensures Tail(rs + [r]) == if IsCheckpoint(r) then 0 else Tail(rs) + 1
    ensures SignedSince(rs + [r], n) <==> SignedSince(rs, n) || IsCheckpoint(r)
  {
    var now := rs + [r];
    assert now[..|now| - 1] == rs && now[|rs|] == r;
    assert forall i :: 0 <= i < |rs| ==> now[i] == rs[i];
  }

  lemma WriteOwes(c: Scheme, s: Spool, body: Body, o: Outcome, n: nat, base: nat)
    requires Sound(c, None) && !o.Whole? && (!s.newline ==> s.file.terminated || s.file.lines == []) && Owes(s, n, base)
    requires !body.event.Checkpoint?
    ensures Owes(Write(c, s, body, o), n, base)
  {
    ChainGrows(c, s, body, o);
    OwesOneMore(T.Chain(s.file.lines), Chained(c, s, body), n);
  }

  lemma GapOwes(c: Scheme, s: Spool, o: Outcome, n: nat, base: nat)
    requires Sound(c, None) && !o.Whole? && (!s.newline ==> s.file.terminated || s.file.lines == []) && Owes(s, n, base)
    ensures var t := WriteGap(c, s, o); Owes(t, n, base) && (!t.newline ==> t.file.terminated || t.file.lines == [])
  {
    if s.lost.Some? {
      WriteOwes(c, s.(lost := None), GapBody(s.lost, ""), o, n, base);
      A.WriteGrowsFile(c, s.(lost := None), GapBody(s.lost, ""), o);
    }
  }

  lemma CheckpointOwes(c: Scheme, cp: Checkpoints, s: Spool, o: Outcome, n: nat, base: nat)
    requires Sound(c, None) && !o.Whole? && (!s.newline ==> s.file.terminated || s.file.lines == []) && Owes(s, n, base)
    ensures Owes(WriteCheckpoint(c, cp, s, o), n, base)
  {
    var body := Body(0, Checkpoint, "", None, cp.keyID, c.sign(cp.keyID, s.num, s.prev), "");
    ChainGrows(c, s, body, o);
    OwesOneMore(T.Chain(s.file.lines), Chained(c, s, body), n);
  }

  lemma AppendOwes(c: Scheme, cp: Option<Checkpoints>, s: Spool, body: Body, o: Outcomes, n: nat, base: nat)
    requires Sound(c, None) && A.NoWhole(o) && (!s.newline ==> s.file.terminated || s.file.lines == [])
    requires Owes(s, n, base) && body.event.Other?
    ensures Owes(Append(c, cp, s, body, o), n, base)
  {
    if !s.closed {
      GapOwes(c, s, o.gap, n, base);
      var s1 := WriteGap(c, s, o.gap);
      WriteOwes(c, s1, body, o.rec, n, base);
      A.WriteGrowsFile(c, s1, body, o.rec);
      var s2 := Write(c, s1, body, o.rec);
      if o.rec.Done? && cp.Some? && s2.since >= cp.value.every {
        CheckpointOwes(c, cp.value, s2, o.cp, n, base);
      }
    }
  }

  lemma CloseOwes(c: Scheme, cp: Option<Checkpoints>, s: Spool, o: Outcomes, n: nat, base: nat)
    requires Sound(c, None) && A.NoWhole(o) && (!s.newline ==> s.file.terminated || s.file.lines == [])
    requires Owes(s, n, base)
    ensures Owes(Close(c, cp, s, o), n, base)
  {
    if !s.closed {
      var s0 := s.(closed := true);
      GapOwes(c, s0, o.gap, n, base);
      var s1 := WriteGap(c, s0, o.gap);
      if cp.Some? && s1.since > 0 {
        CheckpointOwes(c, cp.value, s1, o.cp, n, base);
      }
    }
  }

  lemma OpenOwes(c: Scheme, f: File, o: Outcome)
    requires Sound(c, None) && !OpenFails(f, o) && !o.Whole?
    ensures Owes(Open(c, f, o), |T.Chain(f.lines)|, Tail(T.Chain(f.lines)))
  {
    var s := Opened(f);
    if Scan(f.lines).torn {
      WriteOwes(c, s, GapBody(None, "unreadable line"), o, |T.Chain(f.lines)|, Tail(T.Chain(f.lines)));
    }
  }

  /** The spool was opened at step j and has not gone down by step i. */
  ghost predicate SameOpening(run: seq<A.Home>, ops: seq<A.Op>, j: nat, i: nat) {
    j < i < |run| && |run| == |ops| + 1 && ops[j].Restart? && run[j].Down? && run[j + 1].Up? &&
    forall k :: j < k < i ==> ops[k].DoAppend? || ops[k].DoClose?
  }

  lemma StartsOnFreshLine(c: Scheme, cp: Option<Checkpoints>, run: seq<A.Home>, ops: seq<A.Op>, i: nat)
    requires Sound(c, cp) && A.IsRun(c, cp, run, ops) && run[0].Down? && A.Legacy(run[0].f) && i < |run| && run[i].Up?
    ensures var s := run[i].s; !s.newline ==> s.file.terminated || s.file.lines == []
  {
    A.SpoolAlwaysVerifies(c, cp, run, ops, i);
  }

  lemma OpOwes(c: Scheme, cp: Option<Checkpoints>, s: Spool, a: A.Op, n: nat, base: nat)
    requires Sound(c, cp) && A.Possible(A.Up(s), a) && A.Honest(cp, A.Up(s), a) && (a.DoAppend? || a.DoClose?)
    requires (!s.newline ==> s.file.terminated || s.file.lines == []) && Owes(s, n, base)
    ensures A.Perform(c, cp, A.Up(s), a).Up? && Owes(A.Perform(c, cp, A.Up(s), a).s, n, base)
  {
    match a
    case DoAppend(body, o) => AppendOwes(c, cp, s, body, o, n, base);
    case DoClose(o) => CloseOwes(c, cp, s, o, n, base);
  }

  lemma {:induction false} OpeningOwes(c: Scheme, cp: Option<Checkpoints>, run: seq<A.Home>, ops: seq<A.Op>, j: nat,
                                       i: nat)
    requires Sound(c, cp) && A.IsRun(c, cp, run, ops) && run[0].Down? && A.Legacy(run[0].f)
    requires SameOpening(run, ops, j, i)
    ensures run[i].Up? && Owes(run[i].s, |T.Chain(run[j].f.lines)|, Tail(T.Chain(run[j].f.lines)))
    decreases i
  {
    if i == j + 1 {
      OpenOwes(c, run[j].f, ops[j].gap);
    } else {
      OpeningOwes(c, cp, run, ops, j, i - 1);
      StartsOnFreshLine(c, cp, run, ops, i - 1);
      OpOwes(c, cp, run[i - 1].s, ops[i - 1], |T.Chain(run[j].f.lines)|, Tail(T.Chain(run[j].f.lines)));
    }
  }

  lemma AppendIsSigned(c: Scheme, cp: Checkpoints, s: Spool, body: Body, o: Outcomes)
    requires !s.closed && o.rec.Done? && o.cp.Done?
    ensures Append(c, Some(cp), s, body, o).since < if cp.every > 1 then cp.every else 1
  {
  }

  lemma OwesLittle(s: Spool, n: nat, base: nat, bound: nat)
    requires Owes(s, n, base) && s.since < bound
    ensures var rs := T.Chain(s.file.lines); Tail(rs) < bound + if SignedSince(rs, n) then 0 else base
  {
  }

  lemma Appended(c: Scheme, cp: Option<Checkpoints>, run: seq<A.Home>, ops: seq<A.Op>, i: nat)
    requires A.IsRun(c, cp, run, ops) && i < |ops| && ops[i].DoAppend?
    ensures run[i].Up? && run[i + 1] == A.Up(Append(c, cp, run[i].s, ops[i].body, ops[i].o))
  {
  }

  /**
   Checkpoints come in time: right after an append that wrote its record, and its checkpoint if one
   was due, fewer than `every` records of this opening are unsigned. Once the opening has a
   checkpoint these are all the unsigned records of the file; before, those it was opened with add.
   */
  lemma CheckpointsComeInTime(c: Scheme, cp: Checkpoints, run: seq<A.Home>, ops: seq<A.Op>, j: nat, i: nat)
    requires Sound(c, Some(cp)) && A.IsRun(c, Some(cp), run, ops) && run[0].Down? && A.Legacy(run[0].f)
    requires j < i < |ops| && SameOpening(run, ops, j, i + 1) && ops[i].DoAppend?
    requires run[i].Up? && !run[i].s.closed && ops[i].o.rec.Done? && ops[i].o.cp.Done?
    ensures
      var before, now := T.Chain(run[j].f.lines), T.Chain(A.FileOf(run[i + 1]).lines);
      Tail(now) < (if cp.every > 1 then cp.every else 1) + (if SignedSince(now, |before|) then 0 else Tail(before))
  {
    var before := T.Chain(run[j].f.lines);
    var bound := if cp.every > 1 then cp.every else 1;
    OpeningOwes(c, Some(cp), run, ops, j, i + 1);
    Appended(c, Some(cp), run, ops, i);
    AppendIsSigned(c, cp, run[i].s, ops[i].body, ops[i].o);
    OwesLittle(run[i + 1].s, |before|, Tail(before), bound);
  }

  lemma Closed(c: Scheme, cp: Option<Checkpoints>, run: seq<A.Home>, ops: seq<A.Op>, i: nat)
    requires A.IsRun(c, cp, run, ops) && i < |ops| && ops[i].DoClose?
    ensures run[i].Up? && run[i + 1] == A.Up(Close(c, cp, run[i].s, ops[i].o))
  {
  }

  /**
   A close catches up on signatures: when its checkpoint is written, no record of this opening is
   left unsigned.
   */
  lemma ClosedIsSigned(c: Scheme, cp: Checkpoints, run: seq<A.Home>, ops: seq<A.Op>, j: nat, i: nat)
    requires Sound(c, Some(cp)) && A.IsRun(c, Some(cp), run, ops) && run[0].Down? && A.Legacy(run[0].f)
    requires j < i < |ops| && SameOpening(run, ops, j, i + 1) && ops[i].DoClose?
    requires run[i].Up? && !run[i].s.closed && ops[i].o.cp.Done?
    ensures
      var before, now := T.Chain(run[j].f.lines), T.Chain(A.FileOf(run[i + 1]).lines);
      Tail(now) == if SignedSince(now, |before|) then 0 else Tail(before)
  {
    OpeningOwes(c, Some(cp), run, ops, j, i + 1);
    Closed(c, Some(cp), run, ops, i);
    CloseSettles(c, cp, run[i].s, ops[i].o);
  }

  lemma CloseSettles(c: Scheme, cp: Checkpoints, s: Spool, o: Outcomes)
    requires !s.closed && o.cp.Done?
    ensures Close(c, Some(cp), s, o).since == 0
  {
  }
}
