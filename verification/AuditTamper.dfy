/** Tamper evidence: with an injective record hash, one record's hash fixes everything before it. */
module AuditTamper {
  import opened Common
  import opened Decimal
  import opened AuditSpool
  import A = AuditAgreement

  /** The chained records of a file, in order. */
  function Chain(lines: seq<Line>): (r: seq<Record>) {
    if lines == [] then [] else
    var front, line := Chain(lines[..|lines| - 1]), lines[|lines| - 1];
    if line.Parsed? && line.rec.hash != "" then front + [line.rec] else front
  }

  /** The chain rule itself, on records alone: each names the hash of the one before it, the first names none. */
  ghost predicate Linked(c: Scheme, rs: seq<Record>) {
    forall i :: 0 <= i < |rs| ==> LinkedAt(c, rs, i)
  }

  ghost predicate LinkedAt(c: Scheme, rs: seq<Record>, i: nat)
    requires i < |rs|
  {
    rs[i].hash != "" && rs[i].hash == c.hash(rs[i].body) &&
    (if i == 0 then rs[i].body.prevHash == "" else rs[i].body.prevHash == rs[i - 1].hash)
  }

  lemma {:induction false} AcceptedChainIsLinked(c: Scheme, lines: seq<Line>)
    requires Verify(c, lines).Some?
    ensures Linked(c, Chain(lines))
    ensures Verify(c, lines).value.prev == if Chain(lines) == [] then None else Some(Chain(lines)[|Chain(lines)| - 1])
    ensures Verify(c, lines).value.report.records == |Chain(lines)|
  {
    if lines != [] {
      var front := lines[..|lines| - 1];
      AcceptedChainIsLinked(c, front);
      var before, now := Chain(front), Chain(lines);
      forall i | 0 <= i < |now|
        ensures LinkedAt(c, now, i)
      {
        assert i > 0 ==> now[i - 1] == before[i - 1];
        if i < |before| { assert LinkedAt(c, before, i) && now[i] == before[i]; }
      }
    }
  }

  ghost predicate Injective(c: Scheme) {
    forall a, b :: c.hash(a) == c.hash(b) ==> a == b
  }

  lemma {:induction false} EqualHashFixesPrefix(c: Scheme, a: seq<Record>, b: seq<Record>, i: nat, j: nat)
    requires Injective(c) && Linked(c, a) && Linked(c, b) && i < |a| && j < |b| && a[i].hash == b[j].hash
    ensures i == j && a[..i + 1] == b[..j + 1]
    decreases i
  {
    assert LinkedAt(c, a, i) && LinkedAt(c, b, j);
    assert a[i] == b[j];
    assert i > 0 ==> LinkedAt(c, a, i - 1);
    assert j > 0 ==> LinkedAt(c, b, j - 1);
    if i > 0 && j > 0 {
      EqualHashFixesPrefix(c, a, b, i - 1, j - 1);
      assert a[..i + 1] == a[..i] + [a[i]] && b[..j + 1] == b[..j] + [b[j]];
    }
  }

  /**
   Two files VerifySpool accepts in which some chained record has the same hash hold the same
   records up to there: no edit, removal, insertion or reordering before it goes unnoticed.
   */
  lemma TamperEvident(c: Scheme, la: seq<Line>, lb: seq<Line>, i: nat, j: nat)
    requires Injective(c) && Verify(c, la).Some? && Verify(c, lb).Some?
    requires i < |Chain(la)| && j < |Chain(lb)| && Chain(la)[i].hash == Chain(lb)[j].hash
    ensures i == j && Chain(la)[..i + 1] == Chain(lb)[..j + 1]
  {
    AcceptedChainIsLinked(c, la);
    AcceptedChainIsLinked(c, lb);
    EqualHashFixesPrefix(c, Chain(la), Chain(lb), i, j);
  }

  const CHECKPOINT_CONTEXT := "fiberd-audit-v1\n"

  /** What a checkpoint signs. */
  function CheckpointPayload(n: nat, hash: string): (r: string) {
    CHECKPOINT_CONTEXT + Digits(n) + " " + hash
  }

  /** A signature over the payload is a signature over the number and the hash. */
  lemma CheckpointPayloadInjective(n: nat, h: string, n': nat, h': string)
    requires CheckpointPayload(n, h) == CheckpointPayload(n', h')
    ensures n == n' && h == h'
  {
    var k := |CHECKPOINT_CONTEXT|;
    var a, b := CheckpointPayload(n, h)[k..], CheckpointPayload(n', h')[k..];
    assert a == Digits(n) + " " + h && b == Digits(n') + " " + h';
    assert forall i :: 0 <= i < |Digits(n)| ==> IsDigit(a[i]);
    assert forall i :: 0 <= i < |Digits(n')| ==> IsDigit(b[i]);
    assert a[|Digits(n)|] == ' ' && b[|Digits(n')|] == ' ';
    assert Digits(n) == a[..|Digits(n)|] && Digits(n') == b[..|Digits(n')|];
    DigitsInjective(n, n');
    assert h == a[|Digits(n)| + 1..] && h' == b[|Digits(n')| + 1..];
  }

  /** The signatures these records carry verify over nothing the home did not sign. */
  ghost predicate Unforgeable(c: Scheme, rs: seq<Record>, signed: set<(nat, string)>) {
    forall i, n: nat, h ::
      0 <= i < |rs| && rs[i].body.event.Checkpoint? && c.verify(rs[i].body.signer, n, h, rs[i].body.signature) ==>
      (n, h) in signed
  }

  /** An accepted checkpoint verifies over the record right before it. */
  lemma {:induction false} CheckpointSignsItsPredecessor(c: Scheme, lines: seq<Line>, i: nat)
    requires Verify(c, lines).Some? && i < |Chain(lines)| && Chain(lines)[i].body.event.Checkpoint?
    ensures i > 0
    ensures c.verify(Chain(lines)[i].body.signer, Chain(lines)[i - 1].body.num, Chain(lines)[i - 1].hash,
                     Chain(lines)[i].body.signature)
  {
    AcceptedChainIsLinked(c, lines[..|lines| - 1]);
    var front := Chain(lines[..|lines| - 1]);
    if i < |front| {
      CheckpointSignsItsPredecessor(c, lines[..|lines| - 1], i);
    }
  }

  /** An accepted file that shares a record's hash with the true chain is the true chain up to there. */
  lemma HashFixesPrefix(c: Scheme, truth: seq<Record>, lines: seq<Line>, i: nat, k: nat)
    requires Injective(c) && Linked(c, truth) && k < |truth|
    requires Verify(c, lines).Some? && 0 < i < |Chain(lines)| && Chain(lines)[i - 1].hash == truth[k].hash
    ensures i == k + 1 && Chain(lines)[..i] == truth[..i]
  {
    AcceptedChainIsLinked(c, lines);
    EqualHashFixesPrefix(c, Chain(lines), truth, i - 1, k);
  }

  /** The home signed only records of this chain. */
  ghost predicate SignedOf(truth: seq<Record>, signed: set<(nat, string)>) {
    forall n: nat, h :: (n, h) in signed ==>
      exists k :: 0 <= k < |truth| && truth[k].body.num == n && truth[k].hash == h
  }

  /**
   A checkpoint fixes its whole prefix: when the home signed only records of the true chain, an
   accepted file whose signatures are the home's agrees with the true chain up to each checkpoint.
   */
  lemma CheckpointFixesPrefix(c: Scheme, truth: seq<Record>, signed: set<(nat, string)>, lines: seq<Line>, i: nat)
    requires Injective(c) && Linked(c, truth) && SignedOf(truth, signed)
    requires Verify(c, lines).Some? && Unforgeable(c, Chain(lines), signed) && i < |Chain(lines)|
    requires Chain(lines)[i].body.event.Checkpoint?
    ensures 0 < i <= |truth| && Chain(lines)[..i] == truth[..i]
  {
    var rs := Chain(lines);
    CheckpointSignsItsPredecessor(c, lines, i);
    assert (rs[i - 1].body.num, rs[i - 1].hash) in signed;
    var k :| 0 <= k < |truth| && truth[k].body.num == rs[i - 1].body.num && truth[k].hash == rs[i - 1].hash;
    HashFixesPrefix(c, truth, lines, i, k);
  }

  // ------------------------------------------------------------ what the writer signed

  /** The number and hash an operation signs, whether or not the checkpoint reaches the disk. */
  function SignedBy(c: Scheme, cp: Checkpoints, h: A.Home, a: A.Op): (r: Option<(nat, string)>)
    requires A.Possible(h, a)
  {
    match a
    case DoAppend(body, o) =>
      if h.s.closed then None else
      var s := Write(c, WriteGap(c, h.s, o.gap), body, o.rec);
      if o.rec.Done? && s.since >= cp.every then Some((s.num, s.prev)) else None
    case DoClose(o) =>
      if h.s.closed then None else
      var s := WriteGap(c, h.s.(closed := true), o.gap);
      if s.since > 0 then Some((s.num, s.prev)) else None
    case _ => None
  }

  ghost predicate SignedAt(c: Scheme, cp: Checkpoints, run: seq<A.Home>, ops: seq<A.Op>, k: nat, n: nat, h: string) {
    k < |ops| < |run| && A.Possible(run[k], ops[k]) && SignedBy(c, cp, run[k], ops[k]) == Some((n, h))
  }

  /** `signed` has exactly what the run signed. */
  ghost predicate SignedIn(c: Scheme, cp: Checkpoints, run: seq<A.Home>, ops: seq<A.Op>, signed: set<(nat, string)>) {
    forall n: nat, h :: (n, h) in signed <==> exists k: nat :: SignedAt(c, cp, run, ops, k, n, h)
  }

  lemma {:induction false} ChainExtends(lines: seq<Line>, m: nat)
    requires m <= |lines|
    ensures Chain(lines[..m]) <= Chain(lines)
    decreases |lines|
  {
    if m == |lines| {
      assert lines[..m] == lines;
    } else {
      ChainExtends(lines[..|lines| - 1], m);
      assert lines[..|lines| - 1][..m] == lines[..m];
    }
  }

  /** A spool with a chain remembers the hash of its last record. */
  lemma PrevIsLast(c: Scheme, s: Spool)
    requires A.Agree(c, s) && s.prev != ""
    ensures var rs := Chain(s.file.lines); rs != [] && rs[|rs| - 1].hash == s.prev
  {
    AcceptedChainIsLinked(c, s.file.lines);
  }

  lemma CheckpointExtends(c: Scheme, cp: Checkpoints, s: Spool, o: Outcome)
    requires A.Agree(c, s)
    ensures s.file.lines <= WriteCheckpoint(c, cp, s, o).file.lines
  {
    A.WriteGrowsFile(c, s, Body(0, Checkpoint, "", None, cp.keyID, c.sign(cp.keyID, s.num, s.prev), ""), o);
  }

  /** What an append or a close signs is the hash of the record it signs behind, which is in the file. */
  lemma SignedIsWritten(c: Scheme, cp: Checkpoints, h: A.Home, a: A.Op)
    requires Sound(c, Some(cp)) && A.Good(c, h) && A.Possible(h, a) && A.Honest(Some(cp), h, a)
    requires SignedBy(c, cp, h, a).Some?
    ensures
      var rs := Chain(A.FileOf(A.Perform(c, Some(cp), h, a)).lines);
      exists j :: 0 <= j < |rs| && rs[j].hash == SignedBy(c, cp, h, a).value.1
  {
    var s1 := SpoolSigned(c, cp, h, a);
    var lines := A.FileOf(A.Perform(c, Some(cp), h, a)).lines;
    PrevIsLast(c, s1);
    CheckpointExtends(c, cp, s1, a.o.cp);
    ChainExtends(lines, |s1.file.lines|);
    assert lines[..|s1.file.lines|] == s1.file.lines;
    var rs := Chain(s1.file.lines);
    assert Chain(lines)[|rs| - 1] == rs[|rs| - 1];
  }

  /** The spool at the moment of signing. */
  lemma SpoolSigned(c: Scheme, cp: Checkpoints, h: A.Home, a: A.Op) returns (s: Spool)
    requires Sound(c, Some(cp)) && A.Good(c, h) && A.Possible(h, a) && A.Honest(Some(cp), h, a)
    requires SignedBy(c, cp, h, a).Some?
    ensures A.Agree(c, s) && s.prev != "" && SignedBy(c, cp, h, a) == Some((s.num, s.prev))
    ensures a.DoAppend? || a.DoClose?
    ensures A.FileOf(A.Perform(c, Some(cp), h, a)) == WriteCheckpoint(c, cp, s, a.o.cp).file
  {
    if a.DoAppend? {
      var s0 := WriteGap(c, h.s, a.o.gap);
      A.GapAgrees(c, h.s, a.o.gap);
      A.RecordAgrees(c, s0, a.body);
      s := Write(c, s0, a.body, Done);
    } else {
      var s0 := h.s.(closed := true);
      A.ClosedAgrees(c, h.s);
      A.GapAgrees(c, s0, a.o.gap);
      s := WriteGap(c, s0, a.o.gap);
    }
  }

  /**
   On the scheme the writer signs under: an accepted file that carries a checkpoint, whatever
   else was done to it, agrees up to that checkpoint with a file the writer had on disk.
   */
  lemma CheckpointFixesWhatWasWritten(c: Scheme, cp: Checkpoints, run: seq<A.Home>, ops: seq<A.Op>,
                                      signed: set<(nat, string)>, lines: seq<Line>, i: nat)
    returns (k: nat)
    requires Sound(c, Some(cp)) && Injective(c)
    requires A.IsRun(c, Some(cp), run, ops) && run[0].Down? && A.Legacy(run[0].f) && SignedIn(c, cp, run, ops, signed)
    requires Verify(c, lines).Some? && Unforgeable(c, Chain(lines), signed)
    requires i < |Chain(lines)| && Chain(lines)[i].body.event.Checkpoint?
    ensures k < |run| && 0 < i <= |Chain(A.FileOf(run[k]).lines)|
    ensures Chain(lines)[..i] == Chain(A.FileOf(run[k]).lines)[..i]
  {
    CheckpointSignsItsPredecessor(c, lines, i);
    var before := Chain(lines)[i - 1];
    assert (before.body.num, before.hash) in signed;
    var op: nat :| SignedAt(c, cp, run, ops, op, before.body.num, before.hash);
    k := op + 1;
    A.SpoolAlwaysVerifies(c, Some(cp), run, ops, op);
    A.SpoolAlwaysVerifies(c, Some(cp), run, ops, k);
    SignedIsWritten(c, cp, run[op], ops[op]);
    var truth := Chain(A.FileOf(run[k]).lines);
    var j :| 0 <= j < |truth| && truth[j].hash == before.hash;
    AcceptedChainIsLinked(c, A.FileOf(run[k]).lines);
    HashFixesPrefix(c, truth, lines, i, j);
  }

  // ------------------------------------------------------------ the writer's own files meet the hypothesis

  /** Only the signature made over a number and hash verifies over them, and it names them. */
  ghost predicate IdealSignatures(c: Scheme, keyID: string) {
    (forall k, n: nat, h, sig :: c.verify(k, n, h, sig) <==> k == keyID && sig == c.sign(keyID, n, h)) &&
    (forall n: nat, h, n': nat, h' :: c.sign(keyID, n, h) == c.sign(keyID, n', h') ==> n == n' && h == h')
  }

  /** A line that is no chained checkpoint, or one that carries a signature the run made. */
  ghost predicate OwnLine(c: Scheme, cp: Checkpoints, run: seq<A.Home>, ops: seq<A.Op>, line: Line) {
    line.Parsed? && line.rec.hash != "" && line.rec.body.event.Checkpoint? ==>
      exists k: nat, n: nat, h ::
        SignedAt(c, cp, run, ops, k, n, h) && line.rec.body.signature == c.sign(cp.keyID, n, h)
  }

  ghost predicate OwnLines(c: Scheme, cp: Checkpoints, run: seq<A.Home>, ops: seq<A.Op>, lines: seq<Line>) {
    forall i :: 0 <= i < |lines| ==> OwnLine(c, cp, run, ops, lines[i])
  }

  lemma OwnWrite(c: Scheme, cp: Checkpoints, run: seq<A.Home>, ops: seq<A.Op>, s: Spool, body: Body, o: Outcome)
    requires OwnLines(c, cp, run, ops, s.file.lines) && (!s.newline ==> s.file.terminated || s.file.lines == [])
    requires !body.event.Checkpoint?
    ensures OwnLines(c, cp, run, ops, Write(c, s, body, o).file.lines)
  {
    A.WriteGrowsFile(c, s, body, o);
  }

  lemma OwnGap(c: Scheme, cp: Checkpoints, run: seq<A.Home>, ops: seq<A.Op>, s: Spool, o: Outcome)
    requires OwnLines(c, cp, run, ops, s.file.lines) && (!s.newline ==> s.file.terminated || s.file.lines == [])
    ensures
      var r := WriteGap(c, s, o);
      OwnLines(c, cp, run, ops, r.file.lines) && (!r.newline ==> r.file.terminated || r.file.lines == [])
  {
    if s.lost.Some? {
      OwnWrite(c, cp, run, ops, s.(lost := None), GapBody(s.lost, ""), o);
    }
  }

  lemma OwnCheckpoint(c: Scheme, cp: Checkpoints, run: seq<A.Home>, ops: seq<A.Op>, s: Spool, o: Outcome, k: nat)
    requires OwnLines(c, cp, run, ops, s.file.lines) && (!s.newline ==> s.file.terminated || s.file.lines == [])
    requires SignedAt(c, cp, run, ops, k, s.num, s.prev)
    ensures OwnLines(c, cp, run, ops, WriteCheckpoint(c, cp, s, o).file.lines)
  {
    A.WriteGrowsFile(c, s, Body(0, Checkpoint, "", None, cp.keyID, c.sign(cp.keyID, s.num, s.prev), ""), o);
  }

  lemma OwnOp(c: Scheme, cp: Checkpoints, run: seq<A.Home>, ops: seq<A.Op>, k: nat)
    requires |run| == |ops| + 1 && k < |ops| && A.Possible(run[k], ops[k])
    requires run[k + 1] == A.Perform(c, Some(cp), run[k], ops[k])
    requires A.Good(c, run[k]) && OwnLines(c, cp, run, ops, A.FileOf(run[k]).lines)
    ensures OwnLines(c, cp, run, ops, A.FileOf(run[k + 1]).lines)
  {
    match ops[k]
    case DoAppend(body, o) => OwnAppend(c, cp, run, ops, k);
    case DoClose(o) =>
      if !run[k].s.closed {
        var s0 := run[k].s.(closed := true);
        OwnGap(c, cp, run, ops, s0, o.gap);
        var s1 := WriteGap(c, s0, o.gap);
        if s1.since > 0 {
          assert SignedAt(c, cp, run, ops, k, s1.num, s1.prev);
          OwnCheckpoint(c, cp, run, ops, s1, o.cp, k);
        }
      }
    case Crash(m, torn, terminated) =>
    case Restart(o) =>
      if Scan(run[k].f.lines).torn {
        OwnWrite(c, cp, run, ops, Opened(run[k].f), GapBody(None, "unreadable line"), o);
      }
  }

  lemma OwnAppend(c: Scheme, cp: Checkpoints, run: seq<A.Home>, ops: seq<A.Op>, k: nat)
    requires |run| == |ops| + 1 && k < |ops| && A.Possible(run[k], ops[k]) && ops[k].DoAppend?
    requires A.Good(c, run[k]) && OwnLines(c, cp, run, ops, A.FileOf(run[k]).lines)
    ensures OwnLines(c, cp, run, ops, A.FileOf(A.Perform(c, Some(cp), run[k], ops[k])).lines)
  {
    var s, body, o := run[k].s, ops[k].body, ops[k].o;
    if !s.closed {
      OwnGap(c, cp, run, ops, s, o.gap);
      var s0 := WriteGap(c, s, o.gap);
      OwnWrite(c, cp, run, ops, s0, body, o.rec);
      var s1 := Write(c, s0, body, o.rec);
      if o.rec.Done? && s1.since >= cp.every {
        assert SignedAt(c, cp, run, ops, k, s1.num, s1.prev);
        OwnCheckpoint(c, cp, run, ops, s1, o.cp, k);
      }
    }
  }

  lemma {:induction false} OwnRun(c: Scheme, cp: Checkpoints, run: seq<A.Home>, ops: seq<A.Op>, i: nat)
    requires Sound(c, Some(cp)) && A.IsRun(c, Some(cp), run, ops) && run[0].Down? && A.Legacy(run[0].f) && i < |run|
    ensures OwnLines(c, cp, run, ops, A.FileOf(run[i]).lines)
  {
    if i > 0 {
      OwnRun(c, cp, run, ops, i - 1);
      A.SpoolAlwaysVerifies(c, Some(cp), run, ops, i - 1);
      OwnOp(c, cp, run, ops, i - 1);
    }
  }

  lemma {:induction false} ChainIsOfLines(lines: seq<Line>, i: nat) returns (k: nat)
    requires i < |Chain(lines)|
    ensures k < |lines| && lines[k] == Parsed(Chain(lines)[i]) && Chain(lines)[i].hash != ""
    decreases |lines|
  {
    var n := |lines| - 1;
    if i < |Chain(lines[..n])| {
      k := ChainIsOfLines(lines[..n], i);
    } else {
      k := n;
    }
  }

  /** With ideal signatures every file the writer ever has on disk meets the hypothesis above. */
  lemma OwnFileIsUnforged(c: Scheme, cp: Checkpoints, run: seq<A.Home>, ops: seq<A.Op>, signed: set<(nat, string)>,
                          i: nat)
    requires Sound(c, Some(cp)) && IdealSignatures(c, cp.keyID)
    requires A.IsRun(c, Some(cp), run, ops) && run[0].Down? && A.Legacy(run[0].f)
    requires SignedIn(c, cp, run, ops, signed) && i < |run|
    ensures Verify(c, A.FileOf(run[i]).lines).Some? && Unforgeable(c, Chain(A.FileOf(run[i]).lines), signed)
  {
    A.SpoolAlwaysVerifies(c, Some(cp), run, ops, i);
    OwnRun(c, cp, run, ops, i);
    var lines := A.FileOf(run[i]).lines;
    var rs := Chain(lines);
    forall j, n: nat, h | 0 <= j < |rs| && rs[j].body.event.Checkpoint? &&
                          c.verify(rs[j].body.signer, n, h, rs[j].body.signature)
      ensures (n, h) in signed
    {
      var k := ChainIsOfLines(lines, j);
      assert OwnLine(c, cp, run, ops, lines[k]);
    }
  }
}
