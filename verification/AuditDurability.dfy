/**
 What a Sync append promises. The spool's file, the group commit that fsyncs it, and crashes that
 may cut everything no fsync has covered, as one machine: a record whose Sync append returned nil
 is in the chain after any later crash and reopening.
 */
module AuditDurability {
  import opened Common
  import opened AuditSpool
  import A = AuditAgreement
  import G = GroupCommit
  import T = AuditTamper

  /**
   `safe` lines survive every crash. `covers` is how many lines there were when the fsync in flight
   began, and `marks[m]` how many there were once m + 1 records of this opening had been written.
   */
  datatype Disk = Disk(h: A.Home, g: G.State, opens: nat, safe: nat, covers: nat, marks: seq<nat>)

  datatype Act = Op(a: A.Op) | Sync(l: G.Label)

  function Lines(d: Disk): (r: seq<Line>) { A.FileOf(d.h).lines }

  predicate Possible(d: Disk, x: Act) {
    match x
    case Op(a) => A.Possible(d.h, a) && (a.Crash? ==> a.k >= d.safe)
    case Sync(l) => d.h.Up? && !l.WriteRecord? && G.Enabled(d.g, l)
  }

  function Repeat(n: nat, v: nat): (r: seq<nat>)
    ensures |r| == n && forall i :: 0 <= i < n ==> r[i] == v
  {
    seq(n, i => v)
  }

  /** An append or a close under the spool's lock: what it wrote joins the marks. */
  function Written(d: Disk, h: A.Home): (r: Disk)
    requires h.Up? && |d.marks| <= h.s.written
  {
    d.(h := h, g := d.g.(written := h.s.written), marks := d.marks + Repeat(h.s.written - |d.marks|, |h.s.file.lines|))
  }

  /** A crash, or an opening that failed: nobody is waiting any more. */
  function Fallen(d: Disk, h: A.Home): (r: Disk) {
    d.(h := h, g := G.START, covers := 0, marks := [])
  }

  function Reopened(d: Disk, h: A.Home): (r: Disk)
    requires h.Up?
  {
    Disk(h, G.START.(written := h.s.written), d.opens + 1, d.safe, 0, Repeat(h.s.written, |h.s.file.lines|))
  }

  function Synced(d: Disk, l: G.Label): (r: Disk)
    requires G.Enabled(d.g, l)
  {
    var g := G.Apply(d.g, l);
    var safe := if l.FsyncEnds? && l.ok && d.covers > d.safe then d.covers else d.safe;
    var covers := if g.syncing && !d.g.syncing then |Lines(d)| else d.covers;
    d.(g := g, safe := safe, covers := covers)
  }

  function Perform(c: Scheme, cp: Option<Checkpoints>, d: Disk, x: Act): (r: Disk)
    requires Possible(d, x)
  {
    match x
    case Sync(l) => Synced(d, l)
    case Op(a) =>
      var h := A.Perform(c, cp, d.h, a);
      if h.Down? then Fallen(d, h)
      else if a.Restart? then Reopened(d, h)
      else if |d.marks| <= h.s.written then Written(d, h) else d
  }

  predicate Honest(cp: Option<Checkpoints>, d: Disk, x: Act)
    requires Possible(d, x)
  {
    x.Op? ==> A.Honest(cp, d.h, x.a)
  }

  ghost predicate StepAt(c: Scheme, cp: Option<Checkpoints>, run: seq<Disk>, acts: seq<Act>, i: nat)
    requires i < |acts| < |run|
  {
    Possible(run[i], acts[i]) && Honest(cp, run[i], acts[i]) && run[i + 1] == Perform(c, cp, run[i], acts[i])
  }

  /** From an empty or pre-chain file, any appends, closes, crashes, openings and syncs. */
  ghost predicate IsRun(c: Scheme, cp: Option<Checkpoints>, run: seq<Disk>, acts: seq<Act>) {
    |run| == |acts| + 1 && (exists f :: A.Legacy(f) && run[0] == Disk(A.Down(f), G.START, 0, 0, 0, [])) &&
    forall i :: 0 <= i < |acts| ==> StepAt(c, cp, run, acts, i)
  }

  // ------------------------------------------------------------ the invariant

  ghost predicate MarksBelow(marks: seq<nat>, n: nat, bound: nat) {
    n <= |marks| && forall m :: 0 <= m < n ==> marks[m] <= bound
  }

  ghost predicate SyncInv(g: G.State, lines: nat, safe: nat, covers: nat, marks: seq<nat>) {
    G.Inv(g) && safe <= lines && g.written == |marks| && MarksBelow(marks, |marks|, lines) &&
    MarksBelow(marks, g.synced, safe) &&
    (g.syncing ==> covers <= lines && MarksBelow(marks, g.upto, covers)) &&
    (forall i :: 0 <= i < |g.ended| && g.ended[i].ok ==> g.ended[i].upto <= g.synced)
  }

  ghost predicate Inv(c: Scheme, d: Disk) {
    A.Good(c, d.h) && SyncInv(d.g, |Lines(d)|, d.safe, d.covers, d.marks) && (d.h.Up? ==> d.h.s.written == |d.marks|)
  }

  lemma {:induction false} WritesKeepGroup(g: G.State, n: nat)
    requires G.Inv(g) && g.written <= n
    ensures G.Inv(g.(written := n))
    decreases n - g.written
  {
    if g.written < n {
      G.StepKeepsInv(g, G.WriteRecord);
      WritesKeepGroup(G.Apply(g, G.WriteRecord), n);
    }
  }

  lemma StartKeepsGroup(n: nat)
    ensures G.Inv(G.START.(written := n))
  {
    WritesKeepGroup(G.START, n);
  }

  lemma SyncKeepsInv(d: Disk, l: G.Label)
    requires SyncInv(d.g, |Lines(d)|, d.safe, d.covers, d.marks) && !l.WriteRecord? && G.Enabled(d.g, l)
    ensures var e := Synced(d, l); SyncInv(e.g, |Lines(d)|, e.safe, e.covers, e.marks)
  {
    G.StepKeepsInv(d.g, l);
    match l
    case Arrive(_, _) =>
    case Look(_) =>
    case FsyncEnds(o, ok) => assert d.g.syncing;
  }

  // ------------------------------------------------------------ the file between crashes

  lemma WriteCounts(c: Scheme, s: Spool, body: Body, o: Outcome)
    requires !s.newline ==> s.file.terminated || s.file.lines == []
    ensures
      var t := Write(c, s, body, o);
      s.file.lines <= t.file.lines && s.written <= t.written && (!t.newline ==> t.file.terminated || t.file.lines == [])
  {
    A.WriteGrowsFile(c, s, body, o);
  }

  lemma GapCounts(c: Scheme, s: Spool, o: Outcome)
    requires !s.newline ==> s.file.terminated || s.file.lines == []
    ensures
      var t := WriteGap(c, s, o);
      s.file.lines <= t.file.lines && s.written <= t.written && (!t.newline ==> t.file.terminated || t.file.lines == [])
  {
    if s.lost.Some? {
      WriteCounts(c, s.(lost := None), GapBody(s.lost, ""), o);
    }
  }

  lemma CheckpointCounts(c: Scheme, cp: Checkpoints, s: Spool, o: Outcome)
    requires !s.newline ==> s.file.terminated || s.file.lines == []
    ensures var t := WriteCheckpoint(c, cp, s, o); s.file.lines <= t.file.lines && s.written <= t.written
  {
    WriteCounts(c, s, Body(0, Checkpoint, "", None, cp.keyID, c.sign(cp.keyID, s.num, s.prev), ""), o);
  }

  /**
   A line with a chained record of these contents: what the caller gave, but for the number, which
   is above n, and its link to the chain.
   */
  ghost predicate Holds(line: Line, body: Body, n: nat) {
    line.Parsed? && line.rec.hash != "" && line.rec.body.num > n &&
    line.rec.body == body.(num := line.rec.body.num, prevHash := line.rec.body.prevHash)
  }

  /** An append keeps every line and every count, and one of the lines it adds holds its record. */
  lemma AppendCounts(c: Scheme, cp: Option<Checkpoints>, s: Spool, body: Body, o: Outcomes)
    requires !s.newline ==> s.file.terminated || s.file.lines == []
    ensures
      var t := Append(c, cp, s, body, o);
      s.file.lines <= t.file.lines && s.written <= t.written &&
      (!s.closed && o.rec.Done? ==> t.written > s.written) &&
      (!s.closed && o.rec.Done? && Sound(c, cp) ==>
         exists p :: |s.file.lines| <= p < |t.file.lines| && Holds(t.file.lines[p], body, s.num))
  {
    if !s.closed {
      GapCounts(c, s, o.gap);
      var s1 := WriteGap(c, s, o.gap);
      WriteCounts(c, s1, body, o.rec);
      A.WriteGrowsFile(c, s1, body, o.rec);
      var s2 := Write(c, s1, body, o.rec);
      if o.rec.Done? {
        var p := |s1.file.lines|;
        assert Sound(c, cp) ==> Holds(s2.file.lines[p], body, s.num);
        if cp.Some? && s2.since >= cp.value.every {
          CheckpointCounts(c, cp.value, s2, o.cp);
          assert WriteCheckpoint(c, cp.value, s2, o.cp).file.lines[p] == s2.file.lines[p];
        }
        assert Sound(c, cp) ==> Holds(Append(c, cp, s, body, o).file.lines[p], body, s.num);
      }
    }
  }

  lemma CloseCounts(c: Scheme, cp: Option<Checkpoints>, s: Spool, o: Outcomes)
    requires !s.newline ==> s.file.terminated || s.file.lines == []
    ensures var t := Close(c, cp, s, o); s.file.lines <= t.file.lines && s.written <= t.written
  {
    if !s.closed {
      var s0 := s.(closed := true);
      GapCounts(c, s0, o.gap);
      var s1 := WriteGap(c, s0, o.gap);
      if cp.Some? && s1.since > 0 {
        CheckpointCounts(c, cp.value, s1, o.cp);
      }
    }
  }

  lemma OpenCounts(c: Scheme, f: File, o: Outcome)
    ensures f.lines <= Open(c, f, o).file.lines
  {
    if Scan(f.lines).torn {
      WriteCounts(c, Opened(f), GapBody(None, "unreadable line"), o);
    }
  }

  /** An operation keeps the safe lines; one that is no crash keeps them all. */
  lemma OpKeepsLines(c: Scheme, cp: Option<Checkpoints>, h: A.Home, a: A.Op, safe: nat)
    requires A.Good(c, h) && A.Possible(h, a) && safe <= |A.FileOf(h).lines| && (a.Crash? ==> a.k >= safe)
    ensures
      var before, after := A.FileOf(h).lines, A.FileOf(A.Perform(c, cp, h, a)).lines;
      safe <= |after| && after[..safe] == before[..safe] && (!a.Crash? ==> before <= after)
    ensures a.DoAppend? || a.DoClose? ==> A.Perform(c, cp, h, a).Up? && h.s.written <= A.Perform(c, cp, h, a).s.written
  {
    match a
    case DoAppend(body, o) => AppendCounts(c, cp, h.s, body, o);
    case DoClose(o) => CloseCounts(c, cp, h.s, o);
    case Crash(k, torn, terminated) =>
    case Restart(o) => OpenCounts(c, h.f, o);
  }

  // ------------------------------------------------------------ every step

  lemma WrittenKeepsSync(d: Disk, h: A.Home)
    requires SyncInv(d.g, |Lines(d)|, d.safe, d.covers, d.marks) && h.Up? && |d.marks| <= h.s.written
    requires |Lines(d)| <= |h.s.file.lines|
    ensures var e := Written(d, h); SyncInv(e.g, |Lines(e)|, e.safe, e.covers, e.marks)
  {
    WritesKeepGroup(d.g, h.s.written);
    var e := Written(d, h);
    assert forall m :: 0 <= m < |d.marks| ==> e.marks[m] == d.marks[m];
  }

  lemma FallenKeepsSync(d: Disk, h: A.Home)
    requires d.safe <= |A.FileOf(h).lines|
    ensures var e := Fallen(d, h); SyncInv(e.g, |Lines(e)|, e.safe, e.covers, e.marks)
  {
    StartKeepsGroup(0);
    assert G.START.(written := 0) == G.START;
  }

  lemma ReopenedKeepsSync(d: Disk, h: A.Home)
    requires h.Up? && d.safe <= |h.s.file.lines|
    ensures var e := Reopened(d, h); SyncInv(e.g, |Lines(e)|, e.safe, e.covers, e.marks)
  {
    StartKeepsGroup(h.s.written);
  }

  lemma StepKeepsInv(c: Scheme, cp: Option<Checkpoints>, d: Disk, x: Act)
    requires Sound(c, cp) && Inv(c, d) && Possible(d, x) && Honest(cp, d, x)
    ensures Inv(c, Perform(c, cp, d, x))
  {
    match x
    case Sync(l) => SyncKeepsInv(d, l);
    case Op(a) =>
      A.OpKeepsGood(c, cp, d.h, a);
      OpKeepsLines(c, cp, d.h, a, d.safe);
      var h := A.Perform(c, cp, d.h, a);
      if h.Down? {
        FallenKeepsSync(d, h);
      } else if a.Restart? {
        ReopenedKeepsSync(d, h);
      } else {
        WrittenKeepsSync(d, h);
      }
  }

  lemma {:induction false} RunKeepsInv(c: Scheme, cp: Option<Checkpoints>, run: seq<Disk>, acts: seq<Act>, i: nat)
    requires Sound(c, cp) && IsRun(c, cp, run, acts) && i < |run|
    ensures Inv(c, run[i])
  {
    if i == 0 {
      A.LegacyVerifies(c, run[0].h.f);
      FallenKeepsSync(run[0], run[0].h);
    } else {
      RunKeepsInv(c, cp, run, acts, i - 1);
      assert StepAt(c, cp, run, acts, i - 1);
      StepKeepsInv(c, cp, run[i - 1], acts[i - 1]);
    }
  }

  // ------------------------------------------------------------ what a crash may not take

  lemma StepKeepsSafe(c: Scheme, cp: Option<Checkpoints>, d: Disk, x: Act)
    requires Inv(c, d) && Possible(d, x)
    ensures
      var e := Perform(c, cp, d, x);
      d.safe <= e.safe && d.safe <= |Lines(e)| && Lines(e)[..d.safe] == Lines(d)[..d.safe]
  {
    if x.Op? {
      OpKeepsLines(c, cp, d.h, x.a, d.safe);
    }
  }

  lemma {:induction false} SafeLinesStay(c: Scheme, cp: Option<Checkpoints>, run: seq<Disk>, acts: seq<Act>, j: nat,
                                         k: nat)
    requires Sound(c, cp) && IsRun(c, cp, run, acts) && j <= k < |run|
    ensures run[j].safe <= run[k].safe && run[j].safe <= |Lines(run[j])| && run[j].safe <= |Lines(run[k])|
    ensures Lines(run[k])[..run[j].safe] == Lines(run[j])[..run[j].safe]
    decreases k
  {
    RunKeepsInv(c, cp, run, acts, j);
    if j < k {
      SafeLinesStay(c, cp, run, acts, j, k - 1);
      RunKeepsInv(c, cp, run, acts, k - 1);
      assert StepAt(c, cp, run, acts, k - 1);
      StepKeepsSafe(c, cp, run[k - 1], acts[k - 1]);
      var n := run[j].safe;
      assert Lines(run[k])[..n] == Lines(run[k])[..run[k - 1].safe][..n];
      assert Lines(run[k - 1])[..n] == Lines(run[k - 1])[..run[k - 1].safe][..n];
    }
  }

  /** e comes after d in the same opening, or that opening is over. */
  ghost predicate Since(d: Disk, e: Disk) {
    d.opens <= e.opens &&
    (d.opens == e.opens ==> (e.h.Up? && Lines(d) <= Lines(e) && d.marks <= e.marks) || (e.h.Down? && e.marks == []))
  }

  lemma StepSince(c: Scheme, cp: Option<Checkpoints>, d: Disk, e: Disk, x: Act)
    requires Inv(c, e) && Since(d, e) && Possible(e, x)
    ensures Since(d, Perform(c, cp, e, x))
  {
    if x.Op? {
      OpKeepsLines(c, cp, e.h, x.a, e.safe);
    }
  }

  lemma {:induction false} RunSince(c: Scheme, cp: Option<Checkpoints>, run: seq<Disk>, acts: seq<Act>, i: nat, j: nat)
    requires Sound(c, cp) && IsRun(c, cp, run, acts) && i <= j < |run| && run[i].h.Up?
    ensures Since(run[i], run[j])
    decreases j
  {
    if i < j {
      RunSince(c, cp, run, acts, i, j - 1);
      RunKeepsInv(c, cp, run, acts, j - 1);
      assert StepAt(c, cp, run, acts, j - 1);
      StepSince(c, cp, run[i], run[j - 1], acts[j - 1]);
    }
  }

  /** A caller that returned nil is covered by the synced mark. */
  lemma NilIsSynced(d: Disk, o: nat)
    requires SyncInv(d.g, |Lines(d)|, d.safe, d.covers, d.marks) && o in d.g.callers && d.g.callers[o].Returned?
    requires d.g.callers[o].ok
    ensures d.g.callers[o].n <= d.g.synced
  {
    var n := d.g.callers[o].n;
    if n > 0 {
      var i :| 0 <= i < |d.g.ended| && d.g.ended[i].ok && d.g.ended[i].upto >= n;
    }
  }

  /** All lines the append left are safe once a caller waiting for its mark has returned nil. */
  lemma NilIsSafe(c: Scheme, d: Disk, e: Disk, o: nat)
    requires Inv(c, d) && Inv(c, e) && Since(d, e) && d.opens == e.opens && d.h.Up? && d.marks != []
    requires d.marks[|d.marks| - 1] == |Lines(d)|
    requires o in e.g.callers && e.g.callers[o].Returned? && e.g.callers[o].ok && e.g.callers[o].n >= |d.marks|
    ensures |Lines(d)| <= e.safe && Lines(d) <= Lines(e)
  {
    NilIsSynced(e, o);
    assert e.marks[|d.marks| - 1] == d.marks[|d.marks| - 1];
  }

  lemma {:induction false} LineIsChained(lines: seq<Line>, rec: Record)
    requires Parsed(rec) in lines && rec.hash != ""
    ensures rec in T.Chain(lines)
    decreases |lines|
  {
    var n := |lines| - 1;
    if lines[n] != Parsed(rec) {
      assert lines == lines[..n] + [lines[n]];
      LineIsChained(lines[..n], rec);
    }
  }

  /** The state right after an append whose record was written. */
  lemma AppendMarks(c: Scheme, cp: Option<Checkpoints>, d: Disk, body: Body, os: Outcomes) returns (p: nat)
    requires Sound(c, cp) && Inv(c, d) && Possible(d, Op(A.DoAppend(body, os))) && !d.h.s.closed && os.rec.Done?
    ensures
      var e := Perform(c, cp, d, Op(A.DoAppend(body, os)));
      e.h.Up? && e.marks != [] && e.marks[|e.marks| - 1] == |Lines(e)| && e.h.s.written == |e.marks| &&
      |Lines(d)| <= p < |Lines(e)| && Holds(Lines(e)[p], body, d.h.s.num)
  {
    AppendCounts(c, cp, d.h.s, body, os);
    var e := Perform(c, cp, d, Op(A.DoAppend(body, os)));
    p :| |Lines(d)| <= p < |Lines(e)| && Holds(Lines(e)[p], body, d.h.s.num);
  }

  lemma {:induction false} ScanCoversChain(lines: seq<Line>, r: Record)
    requires r in T.Chain(lines)
    ensures r.body.num <= Scan(lines).num
    decreases |lines|
  {
    var n := |lines| - 1;
    if r in T.Chain(lines[..n]) {
      ScanCoversChain(lines[..n], r);
    }
  }

  /** The spool's number is not below any number of its chain. */
  lemma NumbersBelow(c: Scheme, d: Disk, r: Record)
    requires Inv(c, d) && d.h.Up? && r in T.Chain(Lines(d))
    ensures r.body.num <= d.h.s.num
  {
    ScanCoversChain(Lines(d), r);
  }

  /**
   A Sync append that returned nil is kept: at every later moment of every run, whatever crashes
   and reopenings follow, the chain the verifier accepts has a record with the contents the caller
   gave, numbered above every record that was there before the append.
   */
  lemma AcknowledgedRecordSurvives(c: Scheme, cp: Option<Checkpoints>, run: seq<Disk>, acts: seq<Act>, i: nat, j: nat,
                                   k: nat, o: nat) returns (rec: Record)
    requires Sound(c, cp) && IsRun(c, cp, run, acts) && i < j <= k < |run|
    // The append at i wrote its record.
    requires acts[i].Op? && acts[i].a.DoAppend? && acts[i].a.o.rec.Done? && run[i].h.Up? && !run[i].h.s.closed
    // By j, in the same opening, a caller waiting for the mark it returned has been told nil.
    requires run[i + 1].h.Up? && run[j].opens == run[i + 1].opens
    requires o in run[j].g.callers && run[j].g.callers[o].Returned? && run[j].g.callers[o].ok
    requires run[j].g.callers[o].n >= run[i + 1].h.s.written
    ensures Verify(c, Lines(run[k])).Some? && rec in T.Chain(Lines(run[k]))
    ensures rec.body == acts[i].a.body.(num := rec.body.num, prevHash := rec.body.prevHash)
    ensures forall r :: r in T.Chain(Lines(run[i])) ==> r.body.num < rec.body.num
  {
    var p := AppendedInRun(c, cp, run, acts, i);
    MarkIsSafe(c, cp, run, acts, i + 1, j, o);
    SafeLinesStay(c, cp, run, acts, j, k);
    var line := Lines(run[i + 1])[p];
    SafeRecordStays(run[i + 1], run[j], run[k], line);
    rec := line.rec;
    LineIsChained(Lines(run[k]), rec);
    RunVerifies(c, cp, run, acts, k);
    RunKeepsInv(c, cp, run, acts, i);
    forall r | r in T.Chain(Lines(run[i]))
      ensures r.body.num < rec.body.num
    {
      NumbersBelow(c, run[i], r);
    }
  }

  lemma AppendedInRun(c: Scheme, cp: Option<Checkpoints>, run: seq<Disk>, acts: seq<Act>, i: nat) returns (p: nat)
    requires Sound(c, cp) && IsRun(c, cp, run, acts) && i < |acts|
    requires acts[i].Op? && acts[i].a.DoAppend? && acts[i].a.o.rec.Done? && run[i].h.Up? && !run[i].h.s.closed
    ensures
      var d := run[i + 1];
      d.h.Up? && d.marks != [] && d.marks[|d.marks| - 1] == |Lines(d)| && d.h.s.written == |d.marks| &&
      p < |Lines(d)| && Holds(Lines(d)[p], acts[i].a.body, run[i].h.s.num)
  {
    RunKeepsInv(c, cp, run, acts, i);
    assert StepAt(c, cp, run, acts, i);
    p := AppendMarks(c, cp, run[i], acts[i].a.body, acts[i].a.o);
  }

  lemma MarkIsSafe(c: Scheme, cp: Option<Checkpoints>, run: seq<Disk>, acts: seq<Act>, i: nat, j: nat, o: nat)
    requires Sound(c, cp) && IsRun(c, cp, run, acts) && i <= j < |run|
    requires run[i].h.Up? && run[i].marks != [] && run[i].marks[|run[i].marks| - 1] == |Lines(run[i])|
    requires run[j].opens == run[i].opens
    requires o in run[j].g.callers && run[j].g.callers[o].Returned? && run[j].g.callers[o].ok
    requires run[j].g.callers[o].n >= |run[i].marks|
    ensures |Lines(run[i])| <= run[j].safe <= |Lines(run[j])| && Lines(run[i]) <= Lines(run[j])
  {
    RunKeepsInv(c, cp, run, acts, i);
    RunKeepsInv(c, cp, run, acts, j);
    RunSince(c, cp, run, acts, i, j);
    NilIsSafe(c, run[i], run[j], o);
  }

  lemma RunVerifies(c: Scheme, cp: Option<Checkpoints>, run: seq<Disk>, acts: seq<Act>, k: nat)
    requires Sound(c, cp) && IsRun(c, cp, run, acts) && k < |run|
    ensures Verify(c, Lines(run[k])).Some?
  {
    RunKeepsInv(c, cp, run, acts, k);
  }

  lemma SafeRecordStays(d: Disk, e: Disk, f: Disk, line: Line)
    requires line in Lines(d) && |Lines(d)| <= e.safe <= |Lines(e)| && Lines(d) <= Lines(e)
    requires e.safe <= |Lines(f)| && Lines(f)[..e.safe] == Lines(e)[..e.safe]
    ensures line in Lines(f)
  {
    var p :| 0 <= p < |Lines(d)| && Lines(d)[p] == line;
    assert Lines(f)[..e.safe][p] == Lines(e)[..e.safe][p];
    assert Lines(f)[p] == line;
  }
}
