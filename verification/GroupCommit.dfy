/**
 How callers that need durability share fsyncs. Whoever finds none running leads one for all that
 is written so far, the rest sleep until it ends, and the first failure is the last fsync ever
 tried. A step of the machine is a write or one hold of the sync lock. An fsync lies between the
 step that starts it and the step that ends it.
 */
module GroupCommit {
  import opened Common

  /** `n` is the watermark a caller waits for; `waits` counts the fsyncs it has waited for. */
  datatype Caller =
    | Looking(n: nat, waits: nat)
    | Sleeping(n: nat, waits: nat)
    | Leading(n: nat, waits: nat)
    | Returned(n: nat, waits: nat, ok: bool)

  /** An fsync that ended: how many records were written when it began, and whether it succeeded. */
  datatype Fsync = Fsync(upto: nat, ok: bool)

  /** `leader` and `ended` are history: who runs the fsync in flight, and the fsyncs that ended. */
  datatype State = State(written: nat, synced: nat, syncing: bool, poisoned: bool, upto: nat,
                         callers: map<nat, Caller>, leader: Option<nat>, ended: seq<Fsync>)

  datatype Label = WriteRecord | Arrive(c: nat, n: nat) | Look(c: nat) | FsyncEnds(c: nat, ok: bool)

  const START: State := State(0, 0, false, false, 0, map[], None, [])

  predicate Enabled(s: State, a: Label) {
    match a
    case WriteRecord => true
    case Arrive(c, n) => c !in s.callers && n <= s.written
    case Look(c) => c in s.callers && s.callers[c].Looking?
    case FsyncEnds(c, _) => c in s.callers && s.callers[c].Leading?
  }

  /** One turn of syncThrough's loop, up to the wait, the start of an fsync or the return. */
  function LookStep(s: State, c: nat): (r: State)
    requires Enabled(s, Look(c))
  {
    var n, w := s.callers[c].n, s.callers[c].waits;
    if s.synced >= n then s.(callers := s.callers[c := Returned(n, w, true)])
    else if s.poisoned then s.(callers := s.callers[c := Returned(n, w, false)])
    else if s.syncing then s.(callers := s.callers[c := Sleeping(n, w)])
    else s.(callers := s.callers[c := Leading(n, w)], syncing := true, leader := Some(c), upto := s.written)
  }

  /** The broadcast wakes every sleeper; the leader loops too. */
  function Awake(w: Caller): (r: Caller) {
    match w
    case Sleeping(n, k) => Looking(n, k + 1)
    case Leading(n, k) => Looking(n, k + 1)
    case _ => w
  }

  function EndStep(s: State, ok: bool): (r: State) {
    s.(syncing := false, leader := None, poisoned := s.poisoned || !ok,
       synced := if ok && s.upto > s.synced then s.upto else s.synced,
       callers := map c | c in s.callers :: Awake(s.callers[c]),
       ended := s.ended + [Fsync(s.upto, ok)])
  }

  function Apply(s: State, a: Label): (r: State)
    requires Enabled(s, a)
  {
    match a
    case WriteRecord => s.(written := s.written + 1)
    case Arrive(c, n) => s.(callers := s.callers[c := Looking(n, 0)])
    case Look(c) => LookStep(s, c)
    case FsyncEnds(_, ok) => EndStep(s, ok)
  }

  /** Record n is on disk: a successful fsync started with at least n records written. */
  ghost predicate Durable(s: State, n: nat) {
    exists i :: 0 <= i < |s.ended| && s.ended[i].ok && s.ended[i].upto >= n
  }

  ghost predicate Marks(s: State) {
    s.synced <= s.written && s.upto <= s.written && (s.synced > 0 ==> Durable(s, s.synced))
  }

  /** One leader exactly while an fsync is in flight, and sleepers only then. */
  ghost predicate OneLeader(s: State) {
    (s.syncing <==> s.leader.Some?) &&
    (s.leader.Some? ==> s.leader.value in s.callers && s.callers[s.leader.value].Leading?) &&
    (forall c :: c in s.callers && s.callers[c].Leading? ==> s.leader == Some(c)) &&
    (forall c :: c in s.callers && s.callers[c].Sleeping? ==> s.syncing)
  }

  /** A failure is the last fsync there is. */
  ghost predicate Poison(s: State) {
    (s.poisoned ==> !s.syncing) &&
    (s.poisoned <==> s.ended != [] && !s.ended[|s.ended| - 1].ok) &&
    (forall i :: 0 <= i < |s.ended| - 1 ==> s.ended[i].ok)
  }

  /**
   A caller waits for at most two fsyncs: one already in flight when it came, and the next, which
   began after its write. After that the mark covers it, or the spool is poisoned.
   */
  ghost predicate WaitBounded(s: State, w: Caller) {
    w.n <= s.written && w.waits <= 2 &&
    (s.syncing && w.waits >= 1 && !w.Returned? ==> s.upto >= w.n) &&
    (w.Leading? ==> s.upto >= w.n) &&
    (w.waits == 2 && !w.Returned? ==> s.synced >= w.n || s.poisoned) &&
    (w.Sleeping? || w.Leading? ==> w.waits <= 1)
  }

  ghost predicate WaitsBounded(s: State) {
    forall c :: c in s.callers ==> WaitBounded(s, s.callers[c])
  }

  /** Nil only for a record some successful fsync covered; an error only after a failure. */
  ghost predicate Answers(s: State) {
    forall c :: c in s.callers && s.callers[c].Returned? ==>
      if s.callers[c].ok then s.callers[c].n == 0 || Durable(s, s.callers[c].n) else s.poisoned
  }

  ghost predicate Inv(s: State) {
    Marks(s) && OneLeader(s) && Poison(s) && WaitsBounded(s) && Answers(s)
  }

  lemma DurableStays(s: State, t: State, n: nat)
    requires Durable(s, n) && s.ended <= t.ended
    ensures Durable(t, n)
  {
    var i :| 0 <= i < |s.ended| && s.ended[i].ok && s.ended[i].upto >= n;
    assert t.ended[i] == s.ended[i];
  }

  lemma DurableBelow(s: State, m: nat, n: nat)
    requires Durable(s, m) && n <= m
    ensures Durable(s, n)
  {
    var i :| 0 <= i < |s.ended| && s.ended[i].ok && s.ended[i].upto >= m;
    assert s.ended[i].upto >= n;
  }

  lemma EndKeepsMarks(s: State, ok: bool)
    requires Marks(s) && Answers(s)
    ensures Marks(EndStep(s, ok)) && Answers(EndStep(s, ok))
  {
    var t := EndStep(s, ok);
    if t.synced > 0 {
      if t.synced == s.synced {
        DurableStays(s, t, s.synced);
      } else {
        assert t.ended[|s.ended|] == Fsync(s.upto, ok);
      }
    }
    forall c | c in t.callers && t.callers[c].Returned?
      ensures if t.callers[c].ok then t.callers[c].n == 0 || Durable(t, t.callers[c].n) else t.poisoned
    {
      if s.callers[c].ok && s.callers[c].n != 0 { DurableStays(s, t, s.callers[c].n); }
    }
  }

  lemma EndKeepsRest(s: State, c: nat, ok: bool)
    requires OneLeader(s) && Poison(s) && WaitsBounded(s) && Enabled(s, FsyncEnds(c, ok))
    ensures var t := EndStep(s, ok); OneLeader(t) && Poison(t) && WaitsBounded(t)
  {
    var t := EndStep(s, ok);
    forall o | o in t.callers
      ensures WaitBounded(t, t.callers[o]) && !t.callers[o].Leading? && !t.callers[o].Sleeping?
    {
      assert WaitBounded(s, s.callers[o]);
    }
  }

  lemma LookKeepsInv(s: State, c: nat)
    requires Inv(s) && Enabled(s, Look(c))
    ensures Inv(LookStep(s, c))
  {
    var t := LookStep(s, c);
    var n := s.callers[c].n;
    assert WaitBounded(s, s.callers[c]);
    if s.synced >= n > 0 {
      DurableBelow(s, s.synced, n);
    }
    LookKeepsDurable(s, t);
    forall o | o in t.callers
      ensures WaitBounded(t, t.callers[o])
    {
      assert o != c ==> WaitBounded(s, s.callers[o]);
    }
  }

  lemma LookKeepsDurable(s: State, t: State)
    requires t.ended == s.ended
    ensures forall n :: Durable(t, n) <==> Durable(s, n)
  {
  }

  lemma StepKeepsInv(s: State, a: Label)
    requires Inv(s) && Enabled(s, a)
    ensures Inv(Apply(s, a))
  {
    match a
    case WriteRecord =>
      LookKeepsDurable(s, Apply(s, a));
      assert forall c :: c in s.callers ==> WaitBounded(s, s.callers[c]);
    case Arrive(_, _) =>
      LookKeepsDurable(s, Apply(s, a));
      assert forall c :: c in s.callers ==> WaitBounded(s, s.callers[c]);
    case Look(c) => LookKeepsInv(s, c);
    case FsyncEnds(c, ok) =>
      EndKeepsMarks(s, ok);
      EndKeepsRest(s, c, ok);
  }

  /** Poison is final: no fsync starts or ends after it, and the synced mark stays. */
  lemma PoisonIsFinal(s: State, a: Label)
    requires Inv(s) && Enabled(s, a) && s.poisoned
    ensures var t := Apply(s, a); t.poisoned && !t.syncing && t.synced == s.synced && t.ended == s.ended
  {
  }

  ghost predicate IsRun(run: seq<State>, labels: seq<Label>) {
    |run| == |labels| + 1 && run[0] == START &&
    forall i :: 0 <= i < |labels| ==> Enabled(run[i], labels[i]) && run[i + 1] == Apply(run[i], labels[i])
  }

  lemma {:induction false} RunKeepsInv(run: seq<State>, labels: seq<Label>, i: nat)
    requires IsRun(run, labels) && i < |run|
    ensures Inv(run[i])
  {
    if i > 0 {
      RunKeepsInv(run, labels, i - 1);
      StepKeepsInv(run[i - 1], labels[i - 1]);
    }
  }

  /**
   In every state of every interleaving: a Sync append that returned nil is covered by a
   successful fsync that began after its write, and one that returned an error came after a
   failed one; at most one fsync is in flight; nobody sleeps while no fsync is; nobody has waited
   for more than two.
   */
  lemma GroupCommitIsSound(run: seq<State>, labels: seq<Label>, i: nat, c: nat)
    requires IsRun(run, labels) && i < |run| && c in run[i].callers
    ensures var s, w := run[i], run[i].callers[c];
      (w.Returned? && w.ok && w.n > 0 ==> Durable(s, w.n)) && (w.Returned? && !w.ok ==> s.poisoned) &&
      (w.Leading? ==> forall o :: o in s.callers && s.callers[o].Leading? ==> o == c) &&
      (w.Sleeping? ==> s.syncing && exists o :: o in s.callers && s.callers[o].Leading?) &&
      w.waits <= 2
  {
    RunKeepsInv(run, labels, i);
    assert WaitBounded(run[i], run[i].callers[c]);
  }

  /** After the first failed fsync of a run no other is started and the synced mark never grows. */
  lemma {:induction false} NothingAfterPoison(run: seq<State>, labels: seq<Label>, i: nat, j: nat)
    requires IsRun(run, labels) && i <= j < |run| && run[i].poisoned
    ensures run[j].poisoned && !run[j].syncing && run[j].synced == run[i].synced && run[j].ended == run[i].ended
  {
    RunKeepsInv(run, labels, i);
    if i < j {
      NothingAfterPoison(run, labels, i, j - 1);
      RunKeepsInv(run, labels, j - 1);
      PoisonIsFinal(run[j - 1], labels[j - 1]);
    }
  }
}
