/**
 What becomes of a parked session that is put back into the ledger while clones run. The restore
 takes no session gate, so a clone that found no session may still be building one.
 */
module RestoredSessions {
  import opened Common
  import opened Fences
  import opened LedgerState
  import opened CloneProtocol
  import opened CloneInvariant
  import opened CloneTheorems

  /** The ledger knows the session with this delta: parked at it, or running from it. */
  ghost predicate Carries(s: State, k: string, ref: string) {
    k in s.l.sessions && s.l.sessions[k].deltaRef == ref
  }

  /** A clone of the session that started from another delta, or from none. */
  ghost predicate BuildsOver(c: CloneOp, k: string, ref: string) {
    c.name != "" && Building(c) && Key(c) == k && c.phase.ref != ref
  }

  /** The step parks, releases or ends the fiber of session k, or forgets the parked session. */
  ghost predicate Ending(s: State, a: Label, k: string) {
    match a
    case ParkFiber(id, _) => RunsAs(s.l, id, k)
    case Release(id) => RunsAs(s.l, id, k)
    case Exit(f) => RunsAs(s.l, FenceString(f), k)
    case Replay(op) => op in s.clones && s.clones[op].phase.Landed? && RunsAs(s.l, s.clones[op].phase.id, k)
    case Forget(uid, name) => SessionKey(uid, name) == k && k in s.l.sessions && s.l.sessions[k].state == Parked
    case _ => false
  }

  /** The clone may still commit what it builds. */
  ghost predicate MayStillCommit(s: State, c: CloneOp)
    requires Building(c)
  {
    MayCommit(s.l, c.uid, c.phase.entry, c.phase.fence, s.draining)
  }

  /** Clone o builds over the session in s as it did in s0. */
  ghost predicate SameBuilder(s0: State, s: State, o: nat, k: string, ref: string) {
    o in s0.clones && o in s.clones && BuildsOver(s0.clones[o], k, ref) && BuildsOver(s.clones[o], k, ref) &&
    s.clones[o].phase.fence == s0.clones[o].phase.fence
  }

  /** The step commits a clone that was building over the session in s0 already. */
  ghost predicate Overwrites(s0: State, s: State, a: Label, k: string, ref: string) {
    a.Commit? && SameBuilder(s0, s, a.op, k, ref) && s.clones[a.op].phase.Built? && MayStillCommit(s, s.clones[a.op])
  }

  /** The session carries its delta, and nobody builds over it but those who did in s0. */
  ghost predicate NoNewBuilder(s0: State, s: State, k: string, ref: string) {
    Carries(s, k, ref) && forall o :: o in s.clones && BuildsOver(s.clones[o], k, ref) ==> SameBuilder(s0, s, o, k, ref)
  }

  // ------------------------------------------------------------ one step

  lemma LedgerStepKeeps(s0: State, s: State, a: Label, k: string, ref: string)
    requires Enabled(s, a) && NoNewBuilder(s0, s, k, ref) && !Ending(s, a, k)
    requires
      a.Admit? || a.Revoke? || a.MoveEpoch? || a.StartDrain? || a.Forget? || a.Restore? ||
      a.ParkFiber? || a.Release? || a.Exit?
    ensures NoNewBuilder(s0, Apply(s, a), k, ref)
  {
    assert Apply(s, a).clones == s.clones;
  }

  lemma ResolveKeeps(s0: State, s: State, op: nat, tier: nat, now: int, k: string, ref: string)
    requires Enabled(s, Resolve(op, tier, now)) && NoNewBuilder(s0, s, k, ref)
    ensures NoNewBuilder(s0, Apply(s, Resolve(op, tier, now)), k, ref)
  {
    var t := Apply(s, Resolve(op, tier, now));
    assert forall o :: o in t.clones && o != op ==> t.clones[o] == s.clones[o];
    assert t.l.sessions == s.l.sessions;
  }

  lemma CommitKeeps(s0: State, s: State, op: nat, k: string, ref: string)
    requires Enabled(s, Commit(op)) && NoNewBuilder(s0, s, k, ref) && !Overwrites(s0, s, Commit(op), k, ref)
    ensures NoNewBuilder(s0, Apply(s, Commit(op)), k, ref)
  {
    var t := Apply(s, Commit(op));
    assert forall o :: o in t.clones && o != op ==> t.clones[o] == s.clones[o];
  }

  lemma CloneStepKeeps(s0: State, s: State, a: Label, k: string, ref: string)
    requires Enabled(s, a) && NoNewBuilder(s0, s, k, ref) && !Ending(s, a, k)
    requires a.Begin? || a.RuntimeReturns? || a.RuntimeFails? || a.RollBack? || a.Replay? || a.Finish?
    ensures NoNewBuilder(s0, Apply(s, a), k, ref)
  {
    var t := Apply(s, a);
    assert forall o :: o in t.clones && o != a.op ==> t.clones[o] == s.clones[o];
  }

  lemma StepKeepsDelta(s0: State, s: State, a: Label, k: string, ref: string)
    requires Enabled(s, a) && NoNewBuilder(s0, s, k, ref) && !Ending(s, a, k) && !Overwrites(s0, s, a, k, ref)
    ensures NoNewBuilder(s0, Apply(s, a), k, ref)
  {
    match a
    case Resolve(op, tier, now) => ResolveKeeps(s0, s, op, tier, now, k, ref);
    case Commit(op) => CommitKeeps(s0, s, op, k, ref);
    case Begin(_, _, _) => CloneStepKeeps(s0, s, a, k, ref);
    case RuntimeReturns(_, _) => CloneStepKeeps(s0, s, a, k, ref);
    case RuntimeFails(_) => CloneStepKeeps(s0, s, a, k, ref);
    case RollBack(_) => CloneStepKeeps(s0, s, a, k, ref);
    case Replay(_) => CloneStepKeeps(s0, s, a, k, ref);
    case Finish(_) => CloneStepKeeps(s0, s, a, k, ref);
    case _ => LedgerStepKeeps(s0, s, a, k, ref);
  }

  /** The session carries its delta and nobody builds over it. */
  ghost predicate Settled(s: State, k: string, ref: string) {
    Carries(s, k, ref) && forall o :: o in s.clones ==> !BuildsOver(s.clones[o], k, ref)
  }

  lemma StepKeepsSettled(s: State, a: Label, k: string, ref: string)
    requires Enabled(s, a) && Settled(s, k, ref) && !Ending(s, a, k)
    ensures Settled(Apply(s, a), k, ref)
  {
    StepKeepsDelta(s, s, a, k, ref);
  }

  lemma GateKeepsOthersOut(clones: map<nat, CloneOp>, op: nat, o: nat, k: string, ref: string)
    requires GatesExclusive(clones) && op in clones && o in clones && o != op && clones[op].name != ""
    requires Key(clones[op]) == k
    ensures !BuildsOver(clones[o], k, ref)
  {
  }

  /** After the commit the session carries the clone's delta, and by the gate no other clone builds it. */
  lemma OverwriteReplaces(s0: State, s: State, a: Label, k: string, ref: string)
    requires GatesExclusive(s.clones) && Enabled(s, a) && Overwrites(s0, s, a, k, ref)
    ensures s.clones[a.op].phase.ref != ref && Settled(Apply(s, a), k, s.clones[a.op].phase.ref)
  {
    var t := Apply(s, a);
    forall o | o in t.clones && o != a.op
      ensures !BuildsOver(t.clones[o], k, s.clones[a.op].phase.ref)
    {
      assert t.clones[o] == s.clones[o];
      GateKeepsOthersOut(s.clones, a.op, o, k, s.clones[a.op].phase.ref);
    }
  }

  // ------------------------------------------------------------ whole runs

  ghost predicate EndsNothing(run: seq<State>, labels: seq<Label>, k: string)
    requires |labels| < |run|
  {
    forall i :: 0 <= i < |labels| ==> !Ending(run[i], labels[i], k)
  }

  ghost predicate OverwrittenAt(run: seq<State>, labels: seq<Label>, i: nat, k: string, ref: string) {
    i < |labels| < |run| && Overwrites(run[0], run[i], labels[i], k, ref)
  }

  ghost predicate OverwrittenBy(run: seq<State>, labels: seq<Label>, n: nat, k: string, ref: string) {
    exists i: nat :: i < n && OverwrittenAt(run, labels, i, k, ref)
  }

  lemma {:induction false} KeptUntilOverwritten(run: seq<State>, labels: seq<Label>, k: string, ref: string, n: nat)
    requires IsRun(run, labels) && EndsNothing(run, labels, k) && n < |run|
    requires Carries(run[0], k, ref) && !OverwrittenBy(run, labels, n, k, ref)
    ensures NoNewBuilder(run[0], run[n], k, ref)
  {
    if n > 0 {
      KeptUntilOverwritten(run, labels, k, ref, n - 1);
      assert StepAt(run, labels, n - 1);
      assert !OverwrittenAt(run, labels, n - 1, k, ref);
      StepKeepsDelta(run[0], run[n - 1], labels[n - 1], k, ref);
    }
  }

  lemma {:induction false} SettledStays(run: seq<State>, labels: seq<Label>, k: string, ref: string, i: nat, n: nat)
    requires IsRun(run, labels) && EndsNothing(run, labels, k) && i <= n < |run| && Settled(run[i], k, ref)
    ensures Settled(run[n], k, ref)
    decreases n
  {
    if i < n {
      SettledStays(run, labels, k, ref, i, n - 1);
      assert StepAt(run, labels, n - 1);
      StepKeepsSettled(run[n - 1], labels[n - 1], k, ref);
    }
  }

  lemma GatesHold(run: seq<State>, labels: seq<Label>, i: nat)
    requires IsRun(run, labels) && Inv(run[0]) && i < |run|
    ensures GatesExclusive(run[i].clones)
  {
    RunKeepsInv(run, labels, i);
  }

  lemma OverwriteSettles(run: seq<State>, labels: seq<Label>, k: string, ref: string, i: nat) returns (r: string)
    requires i < |labels| < |run| && StepAt(run, labels, i) && GatesExclusive(run[i].clones)
    requires OverwrittenAt(run, labels, i, k, ref)
    ensures r != ref && Settled(run[i + 1], k, r)
  {
    OverwriteReplaces(run[0], run[i], labels[i], k, ref);
    r := run[i].clones[labels[i].op].phase.ref;
  }

  /** Once overwritten the session carries the other delta for good. */
  lemma OverwrittenStays(run: seq<State>, labels: seq<Label>, k: string, ref: string, i: nat, n: nat)
    requires IsRun(run, labels) && Inv(run[0]) && EndsNothing(run, labels, k)
    requires i < n < |run| && OverwrittenAt(run, labels, i, k, ref)
    ensures !Carries(run[n], k, ref)
  {
    GatesHold(run, labels, i);
    assert StepAt(run, labels, i);
    var r := OverwriteSettles(run, labels, k, ref, i);
    SettledStays(run, labels, k, r, i + 1, n);
  }

  /**
   In a run that does not end the session, it still carries its delta in a state if and only if no
   clone that was building over it at the start has committed by then. A clone begun later resumes
   from the delta, so only those in flight at the start matter.
   */
  lemma DeltaStaysExactly(run: seq<State>, labels: seq<Label>, k: string, ref: string, n: nat)
    requires IsRun(run, labels) && Inv(run[0]) && Carries(run[0], k, ref) && EndsNothing(run, labels, k) && n < |run|
    ensures Carries(run[n], k, ref) <==> !OverwrittenBy(run, labels, n, k, ref)
  {
    if i: nat :| i < n && OverwrittenAt(run, labels, i, k, ref) {
      OverwrittenStays(run, labels, k, ref, i, n);
    } else {
      KeptUntilOverwritten(run, labels, k, ref, n);
    }
  }

  // ------------------------------------------------------------ when it can be lost

  ghost predicate LosesDelta(run: seq<State>, labels: seq<Label>, s: State, k: string, ref: string) {
    IsRun(run, labels) && run[0] == s && EndsNothing(run, labels, k) && !Carries(run[|labels|], k, ref)
  }

  /** Some interleaving that does not end the session takes its delta from it. */
  ghost predicate CanLoseDelta(s: State, k: string, ref: string) {
    exists run, labels :: LosesDelta(run, labels, s, k, ref)
  }

  /** A clone is building over the session, and nothing bars its commit. */
  ghost predicate BuiltOver(s: State, k: string, ref: string) {
    exists o :: o in s.clones && BuildsOver(s.clones[o], k, ref) && MayStillCommit(s, s.clones[o])
  }

  lemma LosesLater(s: State, a: Label, k: string, ref: string)
    requires Enabled(s, a) && !Ending(s, a, k) && CanLoseDelta(Apply(s, a), k, ref)
    ensures CanLoseDelta(s, k, ref)
  {
    var t := Apply(s, a);
    var run, labels :| LosesDelta(run, labels, t, k, ref);
    var run', labels' := [s] + run, [a] + labels;
    forall i | 0 <= i < |labels'|
      ensures StepAt(run', labels', i) && !Ending(run'[i], labels'[i], k)
    {
      if i > 0 {
        assert StepAt(run, labels, i - 1) && !Ending(run[i - 1], labels[i - 1], k);
      }
    }
    assert LosesDelta(run', labels', s, k, ref);
  }

  lemma AlreadyLost(s: State, k: string, ref: string)
    requires !Carries(s, k, ref)
    ensures CanLoseDelta(s, k, ref)
  {
    assert LosesDelta([s], [], s, k, ref);
  }

  lemma BuiltCloneLoses(s: State, o: nat, k: string, ref: string)
    requires Inv(s) && o in s.clones && BuildsOver(s.clones[o], k, ref) && s.clones[o].phase.Built?
    requires MayStillCommit(s, s.clones[o])
    ensures CanLoseDelta(s, k, ref)
  {
    OverwriteReplaces(s, s, Commit(o), k, ref);
    AlreadyLost(Apply(s, Commit(o)), k, ref);
    LosesLater(s, Commit(o), k, ref);
  }

  lemma CommitLoses(s: State, o: nat, k: string, ref: string)
    requires Inv(s) && o in s.clones && BuildsOver(s.clones[o], k, ref) && MayStillCommit(s, s.clones[o])
    ensures CanLoseDelta(s, k, ref)
  {
    if s.clones[o].phase.Built? {
      BuiltCloneLoses(s, o, k, ref);
    } else {
      var a := RuntimeReturns(o, "");
      StepKeepsInv(s, a);
      BuiltCloneLoses(Apply(s, a), o, k, ref);
      LosesLater(s, a, k, ref);
    }
  }

  lemma MayCommitUnlessBarred(s: State, o: nat)
    requires LedgerInv(s.l, s.minted) && ClonesMinted(s.clones, s.minted, s.l.fibers) && o in s.clones
    requires Building(s.clones[o])
    ensures MayStillCommit(s, s.clones[o]) <==> !Barred(s, s.clones[o].phase.fence)
  {
  }

  /** A clone that commits was never barred before. */
  lemma CommitWasPossible(run: seq<State>, labels: seq<Label>, k: string, ref: string, i: nat)
    requires IsRun(run, labels) && Inv(run[0]) && OverwrittenAt(run, labels, i, k, ref)
    ensures BuiltOver(run[0], k, ref)
  {
    var o := labels[i].op;
    RunEvolves(run, labels, 0, i);
    MayCommitUnlessBarred(run[i], o);
    MayCommitUnlessBarred(run[0], o);
  }

  /**
   The delta of a session can be lost, other than by ending the session, if and only if some clone
   is building over it right now and its grant entry, its epoch and the drain still allow it to
   commit.
   */
  lemma DeltaIsSafeExactly(s: State, k: string, ref: string)
    requires Inv(s) && Carries(s, k, ref)
    ensures CanLoseDelta(s, k, ref) <==> BuiltOver(s, k, ref)
  {
    if BuiltOver(s, k, ref) {
      var o :| o in s.clones && BuildsOver(s.clones[o], k, ref) && MayStillCommit(s, s.clones[o]);
      CommitLoses(s, o, k, ref);
    }
    if CanLoseDelta(s, k, ref) {
      var run, labels :| LosesDelta(run, labels, s, k, ref);
      DeltaStaysExactly(run, labels, k, ref, |labels|);
      var i: nat :| i < |labels| && OverwrittenAt(run, labels, i, k, ref);
      CommitWasPossible(run, labels, k, ref, i);
    }
  }

  // ------------------------------------------------------------ the restore

  /**
   A restore leaves the session with this delta if and only if the ledger had it with that delta,
   or had no such session and its grant is admitted. What clones build is as it was.
   */
  lemma RestoreTakes(s: State, uid: string, name: string, fence: Fence, ref: string)
    requires WellFormed(s.l)
    ensures
      var t, k := Apply(s, Restore(uid, name, fence, ref)), SessionKey(uid, name);
      (Carries(t, k, ref) <==> if k in s.l.sessions then s.l.sessions[k].deltaRef == ref else uid in s.l.grants) &&
      (BuiltOver(t, k, ref) <==> BuiltOver(s, k, ref))
  {
    var t := Apply(s, Restore(uid, name, fence, ref));
    assert t.clones == s.clones && t.draining == s.draining && t.l.grants == s.l.grants && t.l.epoch == s.l.epoch;
    if o :| o in s.clones && BuildsOver(s.clones[o], SessionKey(uid, name), ref) && MayStillCommit(s, s.clones[o]) {
      assert MayStillCommit(t, t.clones[o]);
    }
    if o :| o in t.clones && BuildsOver(t.clones[o], SessionKey(uid, name), ref) && MayStillCommit(t, t.clones[o]) {
      assert MayStillCommit(s, s.clones[o]);
    }
  }

  /**
   A held session put back under its admitted grant can lose its delta, other than by ending, if
   and only if a clone that started without it is in flight and may still commit.
   */
  lemma RestoredIsSafeExactly(s: State, uid: string, name: string, fence: Fence, ref: string)
    requires Inv(s) && RestoreRefusal(s.l, uid, name).None?
    ensures
      var t, k := Apply(s, Restore(uid, name, fence, ref)), SessionKey(uid, name);
      Inv(t) && Carries(t, k, ref) && (CanLoseDelta(t, k, ref) <==> BuiltOver(s, k, ref))
  {
    var a := Restore(uid, name, fence, ref);
    StepKeepsInv(s, a);
    RestoreTakes(s, uid, name, fence, ref);
    DeltaIsSafeExactly(Apply(s, a), SessionKey(uid, name), ref);
  }

  const open: Grant := Grant("g", 0, 0, 0, None, "", "", "")

  lemma GrantAdmittedReached() returns (s: State)
    ensures Reaches(Initial(0), s) && Inv(s) && !s.draining && s.clones == map[]
    ensures s.l == View(0, map["g" := 0], [GrantEntry(open, 0, 0, 0)], map[], map[], map[])
  {
    InitialInv(0);
    s := Apply(Initial(0), Admit(open));
    StepTaken(Initial(0), Admit(open), s);
  }

  lemma CloneBegunReached() returns (s: State)
    ensures Reaches(Initial(0), s) && Inv(s) && !s.draining && s.clones == map[0 := CloneOp("g", "s", Gated)]
    ensures s.l == View(0, map["g" := 0], [GrantEntry(open, 0, 0, 0)], map[], map[], map[])
  {
    var s1 := GrantAdmittedReached();
    s := Apply(s1, Begin(0, "g", "s"));
    StepTaken(s1, Begin(0, "g", "s"), s);
    ReachesTransitive(Initial(0), s1, s);
  }

  lemma ResolvesToCreate(s: State)
    requires s.clones == map[0 := CloneOp("g", "s", Gated)]
    requires s.l == View(0, map["g" := 0], [GrantEntry(open, 0, 0, 0)], map[], map[], map[])
    ensures
      var t := ResolveStep(s, 0, 0, 0);
      t.draining == s.draining && t.l == s.l.(entries := t.l.entries) &&
      t.clones == map[0 := CloneOp("g", "s", Reserved(0, Fence("g", 0, 1), Create, ""))]
  {
  }

  /** The grant is admitted, and a clone that found no session builds one. */
  lemma CloneInFlightReached() returns (s: State)
    ensures Reaches(Initial(0), s) && Inv(s) && !s.draining && s.l.grants == map["g" := 0] && s.l.epoch == 0
    ensures s.l.sessions == map[]
    ensures s.clones == map[0 := CloneOp("g", "s", Reserved(0, Fence("g", 0, 1), Create, ""))]
  {
    var s1 := CloneBegunReached();
    ResolvesToCreate(s1);
    s := Apply(s1, Resolve(0, 0, 0));
    StepTaken(s1, Resolve(0, 0, 0), s);
    ReachesTransitive(Initial(0), s1, s);
  }

  /**
   So a restored session can be lost: the grant is admitted, a clone finds no session and starts a
   new one, the held session is restored, and the clone commits over it.
   */
  lemma FreshCloneOverwritesRestored(f: Fence) returns (s: State)
    ensures Reaches(Initial(0), s) && Inv(s) && RestoreRefusal(s.l, "g", "s").None?
    ensures
      var t := Apply(s, Restore("g", "s", f, "delta"));
      Carries(t, "g/s", "delta") && CanLoseDelta(t, "g/s", "delta")
  {
    s := CloneInFlightReached();
    assert SessionKey("g", "s") == "g/s";
    assert BuildsOver(s.clones[0], "g/s", "delta") && MayStillCommit(s, s.clones[0]);
    RestoredIsSafeExactly(s, "g", "s", f, "delta");
  }
}
