/** What the invariant buys, over every run of the clone protocol. */
module CloneTheorems {
  import opened Common
  import opened Fences
  import opened LedgerState
  import opened CloneProtocol
  import opened CloneInvariant

  ghost predicate StepAt(run: seq<State>, labels: seq<Label>, i: nat)
    requires i < |labels| < |run|
  {
    Enabled(run[i], labels[i]) && run[i + 1] == Apply(run[i], labels[i])
  }

  ghost predicate IsRun(run: seq<State>, labels: seq<Label>) {
    |run| == |labels| + 1 && forall i :: 0 <= i < |labels| ==> StepAt(run, labels, i)
  }

  /** Every state of every run from a fresh ledger satisfies the invariant. */
  lemma {:induction false} RunKeepsInv(run: seq<State>, labels: seq<Label>, i: nat)
    requires IsRun(run, labels) && Inv(run[0]) && i < |run|
    ensures Inv(run[i])
  {
    if i > 0 {
      RunKeepsInv(run, labels, i - 1);
      var s, l := run[i - 1], labels[i - 1];
      assert Enabled(s, l) && run[i] == Apply(s, l) by {
        assert StepAt(run, labels, i - 1);
      }
      StepKeepsInv(s, l);
    }
  }

  /** The step of a run that starts soundly, from a sound state. */
  lemma SoundStep(run: seq<State>, labels: seq<Label>, i: nat)
    requires IsRun(run, labels) && Inv(run[0]) && i < |labels|
    ensures Inv(run[i]) && Enabled(run[i], labels[i]) && run[i + 1] == Apply(run[i], labels[i])
  {
    RunKeepsInv(run, labels, i);
    assert StepAt(run, labels, i);
  }

  lemma InitialInv(epoch: nat)
    ensures Inv(Initial(epoch))
  {
  }

  // ------------------------------------------------------------ one session never runs twice

  /** A fiber of the session. */
  ghost predicate RunsAs(l: View, id: string, k: string) { id in l.fibers && l.fibers[id].sessionKey == k }

  /** A clone of the session in flight. */
  ghost predicate ClonesAs(clones: map<nat, CloneOp>, o: nat, k: string) {
    o in clones && clones[o].name != "" && Key(clones[o]) == k
  }

  /** At most one incarnation of the session: one fiber, or one clone building one, never both. */
  ghost predicate RunsAtMostOnce(s: State, k: string) {
    (forall id, id' :: RunsAs(s.l, id, k) && RunsAs(s.l, id', k) ==> id == id') &&
    (forall o, o' :: ClonesAs(s.clones, o, k) && ClonesAs(s.clones, o', k) ==> o == o') &&
    (forall o, id :: ClonesAs(s.clones, o, k) && Building(s.clones[o]) ==> !RunsAs(s.l, id, k))
  }

  /**
   In every state of every run from a fresh ledger, running named sessions and the fibers that
   carry a session key are in one-to-one correspondence, and no session has two incarnations.
   */
  lemma SessionNeverRunsTwice(run: seq<State>, labels: seq<Label>, epoch: nat, i: nat, k: string)
    requires IsRun(run, labels) && run[0] == Initial(epoch) && i < |run| && k != ""
    ensures SessionsMatchFibers(run[i].l.sessions, run[i].l.fibers) && RunsAtMostOnce(run[i], k)
  {
    InitialInv(epoch);
    RunKeepsInv(run, labels, i);
    OneIncarnation(run[i], k);
  }

  lemma OneIncarnation(s: State, k: string)
    requires Inv(s) && k != ""
    ensures RunsAtMostOnce(s, k)
  {
  }

  /** A clone that attaches gets the fence and endpoint of the fiber its session runs as, and mints nothing. */
  lemma AttachFindsTheRunningFiber(s: State, op: nat, tier: nat, now: int)
    requires Inv(s) && Enabled(s, Resolve(op, tier, now))
    requires Decide(s.l, s.clones[op].uid, s.clones[op].name, tier, now).Attach?
    ensures
      var d := Decide(s.l, s.clones[op].uid, s.clones[op].name, tier, now);
      FenceString(d.fence) in s.l.fibers &&
      s.l.fibers[FenceString(d.fence)] == FiberRef(d.fence.grantUID, Key(s.clones[op]), d.fence) &&
      d.fence in s.minted && ResolveStep(s, op, tier, now).l == s.l &&
      ResolveStep(s, op, tier, now).minted == s.minted &&
      SessionIn(s.l, s.clones[op].uid, s.clones[op].name, Running) &&
      d.endpoint == s.l.sessions[Key(s.clones[op])].endpoint
  {
    var k := Key(s.clones[op]);
    assert k == s.clones[op].uid + "/" + s.clones[op].name;
    var id := s.l.sessions[k].handle;
    assert id in s.l.fibers;
  }

  // ------------------------------------------------------------ who is let in

  /** Resuming a parked session takes a runtime that can restore a checkpoint. */
  predicate MayBeBorn(l: View, uid: string, name: string, tier: nat, now: int)
    requires WellFormed(l)
  {
    Serves(l, uid, tier, now) && HasRoom(l, uid) && !SessionIn(l, uid, name, Running) &&
    (SessionIn(l, uid, name, Parked) ==> tier >= 3)
  }

  /** Where the resolve leaves a clone that is let in: at its session's fiber, or building the next one. */
  ghost predicate LetIn(s: State, t: State, op: nat, tier: nat, now: int)
    requires WellFormed(s.l) && op in s.clones && op in t.clones
  {
    var c, p := s.clones[op], t.clones[op].phase;
    (p.Attached? ==> SessionIn(s.l, c.uid, c.name, Running) && p.at == s.l.sessions[Key(c)].fence && t.l == s.l) &&
    (p.Reserved? ==>
       c.uid in s.l.grants && p.entry == s.l.grants[c.uid] && |t.l.entries| == |s.l.entries| &&
       p.fence.grantUID == c.uid && p.fence.epoch == s.l.epoch && p.fence !in s.minted &&
       t.minted == s.minted[p.fence := p.entry] &&
       (if SessionIn(s.l, c.uid, c.name, Parked) then p.action == Resume && p.ref == s.l.sessions[Key(c)].deltaRef
        else p.action == Create && p.ref == "") &&
       t.l.entries[p.entry].live == s.l.entries[p.entry].live + 1)
  }

  /** The decision, without the order in which the reasons are asked. */
  lemma DecidesExactly(l: View, uid: string, name: string, tier: nat, now: int)
    requires WellFormed(l)
    ensures
      var d := Decide(l, uid, name, tier, now);
      (d.Attach? <==> Serves(l, uid, tier, now) && SessionIn(l, uid, name, Running)) &&
      (d.Birth? <==> MayBeBorn(l, uid, name, tier, now)) &&
      (d == Refused(GrantUnknown) <==> uid !in l.grants) &&
      (d == Refused(GrantExpired) <==>
         uid in l.grants && l.entries[l.grants[uid]].grant.lease.Some? &&
         l.entries[l.grants[uid]].grant.lease.value <= now) &&
      (d == Refused(GrantFull) ==> Serves(l, uid, tier, now) && !HasRoom(l, uid))
  {
    assert SessionKey(uid, name) == uid + "/" + name;
  }

  /**
   A resolve lets a clone in if and only if its grant is admitted and serves it, and its session
   runs or there is room and, for a parked one, the tier. It attaches to a running session and
   mints a fence for any other; a clone that is refused changes nothing.
   */
  lemma ResolvesExactly(s: State, op: nat, tier: nat, now: int)
    requires Inv(s) && Enabled(s, Resolve(op, tier, now))
    ensures
      var t, c := Apply(s, Resolve(op, tier, now)), s.clones[op];
      op in t.clones && LetIn(s, t, op, tier, now) &&
      (t.clones[op].phase.Attached? <==> Serves(s.l, c.uid, tier, now) && SessionIn(s.l, c.uid, c.name, Running)) &&
      (t.clones[op].phase.Reserved? <==> MayBeBorn(s.l, c.uid, c.name, tier, now)) &&
      (t.clones[op].phase.Reserved? <==> t.minted != s.minted) &&
      (t.clones[op].phase.Attached? || t.clones[op].phase.Reserved? || t == s)
  {
    var c := s.clones[op];
    DecidesExactly(s.l, c.uid, c.name, tier, now);
    var d := Decide(s.l, c.uid, c.name, tier, now);
    if d.Birth? {
      MintedFenceIsNew(s, d.entry);
    }
  }

  lemma OnlyResolveAttaches(s: State, a: Label, o: nat)
    requires Enabled(s, a) && !a.Resolve? && o in Apply(s, a).clones && Apply(s, a).clones[o].phase.Attached?
    ensures o in s.clones && s.clones[o].phase == Apply(s, a).clones[o].phase
  {
    match a
    case Begin(_, _, _) =>
    case Commit(_) =>
    case Replay(_) =>
    case Finish(_) =>
    case _ =>
  }

  /** The step lets clone o in under its grant. */
  ghost predicate Granted(s: State, a: Label, o: nat) {
    a.Resolve? && a.op == o && WellFormed(s.l) && o in s.clones && Serves(s.l, s.clones[o].uid, a.tier, a.now)
  }

  lemma ResolveIsGranted(s: State, a: Label, o: nat)
    requires Enabled(s, a) && a.Resolve?
    ensures var t := Apply(s, a); t.minted != s.minted ==> Granted(s, a, a.op)
    ensures var t := Apply(s, a); o in t.clones && t.clones[o].phase.Attached? ==>
      (o in s.clones && s.clones[o].phase.Attached?) || Granted(s, a, o)
  {
    DecidesExactly(s.l, s.clones[a.op].uid, s.clones[a.op].name, a.tier, a.now);
  }

  /**
   In every run: a clone attaches to a fiber, and a fence is minted, only in a step that lets a
   clone in under an admitted grant whose lease runs at that moment.
   */
  lemma NobodyGetsInUnderADeadGrant(run: seq<State>, labels: seq<Label>, i: nat, o: nat)
    requires IsRun(run, labels) && Inv(run[0]) && i < |labels|
    ensures run[i + 1].minted != run[i].minted ==> labels[i].Resolve? && Granted(run[i], labels[i], labels[i].op)
    ensures o in run[i + 1].clones && run[i + 1].clones[o].phase.Attached? ==>
      (o in run[i].clones && run[i].clones[o].phase.Attached?) || Granted(run[i], labels[i], o)
  {
    SoundStep(run, labels, i);
    var s, a := run[i], labels[i];
    if a.Resolve? {
      ResolveIsGranted(s, a, o);
    } else {
      OnlyResolveMints(s, a);
      if o in run[i + 1].clones && run[i + 1].clones[o].phase.Attached? {
        OnlyResolveAttaches(s, a, o);
      }
    }
  }

  /** A delivery takes effect at once: the grant serves clones by the lease and tier just delivered. */
  lemma DeliveryTakesEffect(s: State, g: Grant, tier: nat, now: int)
    requires Enabled(s, Admit(g))
    ensures
      var t := Apply(s, Admit(g));
      WellFormed(t.l) && g.uid in t.l.grants && t.l.entries[t.l.grants[g.uid]].grant == g &&
      (Serves(t.l, g.uid, tier, now) <==> (g.lease.Some? ==> now < g.lease.value) && g.minTier <= tier) &&
      (if g.uid in s.l.grants
       then t.l.grants == s.l.grants && t.l.entries[t.l.grants[g.uid]] == s.l.entries[s.l.grants[g.uid]].(grant := g)
       else t.l.entries[t.l.grants[g.uid]].live == t.l.entries[t.l.grants[g.uid]].pooled == 0) &&
      forall u :: u != g.uid && u in s.l.grants ==>
        u in t.l.grants && t.l.entries[t.l.grants[u]] == s.l.entries[s.l.grants[u]]
  {
  }

  // ------------------------------------------------------------ fences

  lemma OnlyResolveMints(s: State, a: Label)
    requires Enabled(s, a) && !a.Resolve?
    ensures Apply(s, a).minted == s.minted
  {
    match a
    case Admit(_) =>
    case Commit(_) =>
    case Replay(_) =>
    case Exit(_) =>
    case Finish(_) =>
    case _ =>
  }

  /** A step mints nothing, or one fence newer than all its grant had. */
  lemma StepGrowsMinted(s: State, a: Label)
    requires Inv(s) && Enabled(s, a)
    ensures forall f :: f in s.minted ==> f in Apply(s, a).minted && Apply(s, a).minted[f] == s.minted[f]
    ensures forall f, g :: f in Apply(s, a).minted && f !in s.minted && g in s.minted && g.grantUID == f.grantUID ==>
      Newer(f, g)
    ensures forall f :: f in Apply(s, a).minted && f !in s.minted ==> f.epoch == s.l.epoch
  {
    if a.Resolve? {
      var d := Decide(s.l, s.clones[a.op].uid, s.clones[a.op].name, a.tier, a.now);
      if d.Birth? {
        MintedFenceIsNew(s, d.entry);
        assert Apply(s, a).minted == s.minted[d.fence := d.entry];
      } else {
        assert Apply(s, a).minted == s.minted;
      }
    } else {
      OnlyResolveMints(s, a);
    }
  }

  // ------------------------------------------------------------ what can no longer commit

  /** The fence's grant entry was revoked, or its epoch has passed, or the home drains. */
  ghost predicate Barred(s: State, f: Fence) {
    s.draining ||
    (f in s.minted && (f.epoch < s.l.epoch || f.grantUID !in s.l.grants || s.l.grants[f.grantUID] != s.minted[f]))
  }

  /** The epoch never goes back and entries are never reused. */
  ghost predicate Onward(s: State, t: State) {
    t.l.epoch >= s.l.epoch && (s.draining ==> t.draining) && |t.l.entries| >= |s.l.entries| &&
    (forall uid :: uid in t.l.grants ==>
       (uid in s.l.grants && t.l.grants[uid] == s.l.grants[uid]) || t.l.grants[uid] == |s.l.entries|)
  }

  lemma CloneStepFrame(s: State, a: Label)
    requires Enabled(s, a)
    requires
      a.Begin? || a.Resolve? || a.RuntimeReturns? || a.RuntimeFails? ||
      a.RollBack? || a.Commit? || a.Replay? || a.Finish?
    ensures Onward(s, Apply(s, a)) && Apply(s, a).l.grants == s.l.grants
  {
    match a
    case Resolve(_, _, _) =>
    case Commit(_) =>
    case Replay(_) =>
    case Finish(_) =>
    case _ =>
  }

  lemma StepFrame(s: State, a: Label)
    requires Enabled(s, a)
    ensures Onward(s, Apply(s, a))
  {
    match a
    case Admit(_) =>
    case Revoke(_) =>
    case MoveEpoch(_) =>
    case ParkFiber(_, _) =>
    case Release(_) =>
    case Exit(_) =>
    case Forget(_, _) =>
    case Restore(_, _, _, _) =>
    case StartDrain =>
    case _ => CloneStepFrame(s, a);
  }

  lemma OnlyCommitAddsFibers(s: State, a: Label, id: string)
    requires Enabled(s, a) && !a.Commit? && id in Apply(s, a).l.fibers
    ensures id in s.l.fibers && s.l.fibers[id] == Apply(s, a).l.fibers[id]
  {
  }

  lemma StepKeepsBarred(s: State, a: Label, f: Fence)
    requires Inv(s) && Enabled(s, a) && Barred(s, f)
    ensures Barred(Apply(s, a), f)
  {
    StepFrame(s, a);
    StepGrowsMinted(s, a);
    if !s.draining {
      assert s.minted[f] < |s.l.entries|;
    }
  }

  /** No step puts a fiber with a barred fence into the ledger. */
  lemma BarredFibersOnlyLeave(s: State, a: Label, id: string)
    requires Inv(s) && Enabled(s, a) && id in Apply(s, a).l.fibers && Barred(s, Apply(s, a).l.fibers[id].fence)
    ensures id in s.l.fibers && s.l.fibers[id] == Apply(s, a).l.fibers[id]
  {
    if a.Commit? {
      var c := s.clones[a.op];
      if MayCommit(s.l, c.uid, c.phase.entry, c.phase.fence, s.draining) {
        assert Apply(s, a).l == Committed(s.l, Offer(c));
        assert !Barred(s, c.phase.fence);
      } else {
        assert Apply(s, a).l == s.l;
      }
    } else {
      OnlyCommitAddsFibers(s, a, id);
    }
  }

  // ------------------------------------------------------------ what can no longer run

  /** The fence was minted, no clone still builds its fiber, and the ledger does not hold it. */
  ghost predicate Retired(s: State, f: Fence) {
    f in s.minted && FenceString(f) !in s.l.fibers &&
    forall o :: o in s.clones && Building(s.clones[o]) ==> s.clones[o].phase.fence != f
  }

  lemma OnlyResolveBuilds(s: State, a: Label, o: nat)
    requires Enabled(s, a) && !a.Resolve? && o in Apply(s, a).clones && Building(Apply(s, a).clones[o])
    ensures o in s.clones && Building(s.clones[o]) && s.clones[o].phase.fence == Apply(s, a).clones[o].phase.fence
  {
    match a
    case Begin(_, _, _) =>
    case RuntimeReturns(_, _) =>
    case RuntimeFails(_) =>
    case RollBack(_) =>
    case Commit(_) =>
    case Replay(_) =>
    case Finish(_) =>
    case _ =>
  }

  /** Only a resolve starts a building, and it builds a fence nobody had. */
  lemma StepBuildsNewFences(s: State, a: Label, o: nat)
    requires Inv(s) && Enabled(s, a) && o in Apply(s, a).clones && Building(Apply(s, a).clones[o])
    ensures var f := Apply(s, a).clones[o].phase.fence;
      (o in s.clones && Building(s.clones[o]) && s.clones[o].phase.fence == f) || f !in s.minted
  {
    if a.Resolve? {
      var d := Decide(s.l, s.clones[a.op].uid, s.clones[a.op].name, a.tier, a.now);
      if d.Birth? {
        MintedFenceIsNew(s, d.entry);
      }
    } else {
      OnlyResolveBuilds(s, a, o);
    }
  }

  lemma StepKeepsRetired(s: State, a: Label, f: Fence)
    requires Inv(s) && Enabled(s, a) && Retired(s, f)
    ensures Retired(Apply(s, a), f)
  {
    var s' := Apply(s, a);
    StepGrowsMinted(s, a);
    forall o | o in s'.clones && Building(s'.clones[o])
      ensures s'.clones[o].phase.fence != f
    {
      StepBuildsNewFences(s, a, o);
    }
    RetiredNotCommitted(s, a, f);
  }

  lemma RetiredNotCommitted(s: State, a: Label, f: Fence)
    requires Inv(s) && Enabled(s, a) && Retired(s, f)
    ensures FenceString(f) !in Apply(s, a).l.fibers
  {
    var id := FenceString(f);
    if a.Commit? {
      var c := s.clones[a.op];
      if MayCommit(s.l, c.uid, c.phase.entry, c.phase.fence, s.draining) {
        assert Apply(s, a).l == Committed(s.l, Offer(c));
        if FenceString(c.phase.fence) == id { FenceStringInjective(c.phase.fence, f); }
      }
    } else if id in Apply(s, a).l.fibers {
      OnlyCommitAddsFibers(s, a, id);
    }
  }

  /** The fence was minted and no clone builds its fiber. */
  ghost predicate Unbuilt(s: State, f: Fence) {
    f in s.minted && forall o :: o in s.clones && Building(s.clones[o]) ==> s.clones[o].phase.fence != f
  }

  lemma StepKeepsUnbuilt(s: State, a: Label, f: Fence)
    requires Inv(s) && Enabled(s, a) && Unbuilt(s, f)
    ensures Unbuilt(Apply(s, a), f)
  {
    var s' := Apply(s, a);
    StepGrowsMinted(s, a);
    forall o | o in s'.clones && Building(s'.clones[o])
      ensures s'.clones[o].phase.fence != f
    {
      StepBuildsNewFences(s, a, o);
    }
  }

  lemma {:induction false} UnbuiltStays(run: seq<State>, labels: seq<Label>, i: nat, j: nat, f: Fence)
    requires IsRun(run, labels) && Inv(run[0]) && i <= j < |run| && Unbuilt(run[i], f)
    ensures Unbuilt(run[j], f)
    decreases j
  {
    if i < j {
      UnbuiltStays(run, labels, i, j - 1, f);
      SoundStep(run, labels, j - 1);
      StepKeepsUnbuilt(run[j - 1], labels[j - 1], f);
    }
  }

  /** A fiber that a clone is still building was in the ledger at no earlier moment of the run. */
  lemma BuildingNeverRan(run: seq<State>, labels: seq<Label>, i: nat, j: nat, o: nat)
    requires IsRun(run, labels) && Inv(run[0]) && i <= j < |run| && o in run[j].clones && Building(run[j].clones[o])
    ensures FenceString(run[j].clones[o].phase.fence) !in run[i].l.fibers
  {
    var f := run[j].clones[o].phase.fence;
    if FenceString(f) in run[i].l.fibers {
      RunKeepsInv(run, labels, i);
      FiberIsUnbuilt(run[i], f);
      UnbuiltStays(run, labels, i, j, f);
    }
  }

  lemma FiberIsUnbuilt(s: State, f: Fence)
    requires Inv(s) && FenceString(f) in s.l.fibers
    ensures Unbuilt(s, f)
  {
    FenceStringInjective(s.l.fibers[FenceString(f)].fence, f);
  }

  // ------------------------------------------------------------ over any stretch of a run

  /** What holds between a state and any state after it, whatever ran in between. */
  ghost predicate Evolves(s: State, t: State) {
    Inv(t) &&
    (forall f :: f in s.minted ==> f in t.minted && t.minted[f] == s.minted[f]) &&
    (forall f, g :: f in t.minted && f !in s.minted && g in s.minted && g.grantUID == f.grantUID ==> Newer(f, g)) &&
    (forall f :: f in t.minted && f !in s.minted ==> f.epoch >= s.l.epoch) &&
    (forall f :: Barred(s, f) ==> Barred(t, f)) &&
    (forall f :: Retired(s, f) ==> Retired(t, f)) &&
    (forall id :: id in t.l.fibers && Barred(s, t.l.fibers[id].fence) ==>
       id in s.l.fibers && s.l.fibers[id] == t.l.fibers[id]) &&
    (s.draining ==> t.draining) && s.exited <= t.exited && s.inherited <= t.inherited && s.l.epoch <= t.l.epoch
  }

  lemma StepGrowsHistory(s: State, a: Label)
    requires Enabled(s, a)
    ensures s.exited <= Apply(s, a).exited && s.inherited <= Apply(s, a).inherited
  {
  }

  lemma StepEvolves(s: State, a: Label)
    requires Inv(s) && Enabled(s, a)
    ensures Evolves(s, Apply(s, a))
  {
    var t := Apply(s, a);
    StepKeepsInv(s, a);
    StepGrowsMinted(s, a);
    StepFrame(s, a);
    StepGrowsHistory(s, a);
    forall f | Barred(s, f) ensures Barred(t, f) { StepKeepsBarred(s, a, f); }
    forall f | Retired(s, f) ensures Retired(t, f) { StepKeepsRetired(s, a, f); }
    forall id | id in t.l.fibers && Barred(s, t.l.fibers[id].fence)
      ensures id in s.l.fibers && s.l.fibers[id] == t.l.fibers[id]
    {
      BarredFibersOnlyLeave(s, a, id);
    }
  }

  lemma EvolvesTransitive(s: State, t: State, u: State)
    requires Evolves(s, t) && Evolves(t, u)
    ensures Evolves(s, u)
  {
    forall f, g | f in u.minted && f !in s.minted && g in s.minted && g.grantUID == f.grantUID
      ensures Newer(f, g)
    {
      assert g in t.minted;
    }
    forall id | id in u.l.fibers && Barred(s, u.l.fibers[id].fence)
      ensures id in s.l.fibers && s.l.fibers[id] == u.l.fibers[id]
    {
      assert Barred(t, u.l.fibers[id].fence);
    }
  }

  lemma EvolvesOneMore(s: State, t: State, a: Label)
    requires Evolves(s, t) && Enabled(t, a)
    ensures Evolves(s, Apply(t, a))
  {
    StepEvolves(t, a);
    EvolvesTransitive(s, t, Apply(t, a));
  }

  lemma EvolvesItself(s: State)
    requires Inv(s)
    ensures Evolves(s, s)
  {
  }

  lemma {:induction false} RunEvolves(run: seq<State>, labels: seq<Label>, i: nat, j: nat)
    requires IsRun(run, labels) && Inv(run[0]) && i <= j < |run|
    ensures Evolves(run[i], run[j])
    decreases j
  {
    if i == j {
      RunKeepsInv(run, labels, i);
      EvolvesItself(run[i]);
    } else {
      RunEvolves(run, labels, i, j - 1);
      assert StepAt(run, labels, j - 1);
      EvolvesOneMore(run[i], run[j - 1], labels[j - 1]);
    }
  }

  // ------------------------------------------------------------ reachability

  ghost predicate RunsTo(run: seq<State>, labels: seq<Label>, s: State, t: State) {
    IsRun(run, labels) && run[0] == s && run[|labels|] == t
  }

  /** Some interleaving leads from s to t. */
  ghost predicate Reaches(s: State, t: State) {
    exists run, labels :: RunsTo(run, labels, s, t)
  }

  lemma ReachesItself(s: State)
    ensures Reaches(s, s)
  {
    assert RunsTo([s], [], s, s);
  }

  lemma StepReaches(s: State, a: Label, t: State)
    requires Enabled(s, a) && t == Apply(s, a)
    ensures Reaches(s, t)
  {
    assert RunsTo([s, t], [a], s, t);
  }

  lemma JoinRuns(r1: seq<State>, l1: seq<Label>, r2: seq<State>, l2: seq<Label>)
    requires IsRun(r1, l1) && IsRun(r2, l2) && r1[|l1|] == r2[0]
    ensures IsRun(r1 + r2[1..], l1 + l2) && (r1 + r2[1..])[|l1| + |l2|] == r2[|l2|]
  {
    var run, labels := r1 + r2[1..], l1 + l2;
    forall i | 0 <= i < |labels|
      ensures StepAt(run, labels, i)
    {
      if i >= |l1| {
        assert StepAt(r2, l2, i - |l1|);
        assert labels[i] == l2[i - |l1|] && run[i] == r2[i - |l1|] && run[i + 1] == r2[i + 1 - |l1|];
      } else {
        assert StepAt(r1, l1, i);
        assert labels[i] == l1[i] && run[i] == r1[i] && run[i + 1] == r1[i + 1];
      }
    }
  }

  lemma ReachesTransitive(s: State, t: State, u: State)
    requires Reaches(s, t) && Reaches(t, u)
    ensures Reaches(s, u)
  {
    var r1, l1 :| RunsTo(r1, l1, s, t);
    var r2, l2 :| RunsTo(r2, l2, t, u);
    JoinRuns(r1, l1, r2, l2);
    assert RunsTo(r1 + r2[1..], l1 + l2, s, u);
  }

  lemma ReachesEvolves(s: State, t: State)
    requires Inv(s) && Reaches(s, t)
    ensures Evolves(s, t)
  {
    var run, labels :| RunsTo(run, labels, s, t);
    RunEvolves(run, labels, 0, |labels|);
  }

  // ------------------------------------------------------------ the theorems, over every interleaving

  /** A fence minted later is newer, across revocations, re-admissions and epoch moves of its grant. */
  lemma MintedFencesIncrease(run: seq<State>, labels: seq<Label>, i: nat, j: nat, f: Fence, g: Fence)
    requires IsRun(run, labels) && Inv(run[0]) && i < j < |labels|
    requires f !in run[i].minted && f in run[i + 1].minted && g !in run[j].minted && g in run[j + 1].minted
    requires f.grantUID == g.grantUID
    ensures Newer(g, f) && FenceString(f) != FenceString(g)
  {
    HistoryStays(run, labels, i + 1, j, f);
    NewMintIsNewer(run, labels, j, f, g);
    if FenceString(f) == FenceString(g) {
      FenceStringInjective(f, g);
    }
  }

  lemma HistoryStays(run: seq<State>, labels: seq<Label>, i: nat, j: nat, f: Fence)
    requires IsRun(run, labels) && Inv(run[0]) && i <= j < |run|
    ensures f in run[i].minted ==> f in run[j].minted
    ensures run[i].inherited <= run[j].inherited
  {
    RunEvolves(run, labels, i, j);
  }

  lemma NewMintIsNewer(run: seq<State>, labels: seq<Label>, j: nat, f: Fence, g: Fence)
    requires IsRun(run, labels) && Inv(run[0]) && j < |labels|
    requires f in run[j].minted && g !in run[j].minted && g in run[j + 1].minted && f.grantUID == g.grantUID
    ensures Newer(g, f) && f != g
  {
    RunKeepsInv(run, labels, j);
    assert StepAt(run, labels, j);
    StepGrowsMinted(run[j], labels[j]);
  }

  /**
   Yield: revoke at step a, list the grant's fibers at b, and by e have seen each listed fiber
   out of the ledger. From e on the ledger holds no fiber of the grant minted before the revoke.
   */
  lemma YieldSweepsEveryFiber(run: seq<State>, labels: seq<Label>, a: nat, b: nat, e: nat, uid: string)
    requires IsRun(run, labels) && Inv(run[0]) && a < b <= e < |run| && labels[a] == Revoke(uid)
    requires forall id :: id in FibersOf(run[b].l, uid) ==> LeftBetween(run, b, e, id)
    ensures forall j, f :: e <= j < |run| && f in run[a].minted && f.grantUID == uid ==>
      FenceString(f) !in run[j].l.fibers
  {
    forall j, f | e <= j < |run| && f in run[a].minted && f.grantUID == uid
      ensures FenceString(f) !in run[j].l.fibers
    {
      assert StepAt(run, labels, a);
      RevokeBars(run[a], uid, f);
      FiberKnowsItsFence(run, labels, b, f);
      SweptFiberIsGone(run, labels, a + 1, b, e, j, f);
    }
  }

  lemma RevokeBars(s: State, uid: string, f: Fence)
    requires WellFormed(s.l) && f in s.minted && f.grantUID == uid
    ensures Barred(Apply(s, Revoke(uid)), f)
  {
  }

  /** The fiber was seen out of the ledger at some state from b to e. */
  ghost predicate LeftBetween(run: seq<State>, b: nat, e: nat, id: string)
    requires b <= e < |run|
  {
    exists c :: b <= c <= e && id !in run[c].l.fibers
  }

  lemma FiberKnowsItsFence(run: seq<State>, labels: seq<Label>, i: nat, f: Fence)
    requires IsRun(run, labels) && Inv(run[0]) && i < |run|
    ensures FenceString(f) in run[i].l.fibers ==>
              run[i].l.fibers[FenceString(f)].fence == f && run[i].l.fibers[FenceString(f)].grantUID == f.grantUID
  {
    RunKeepsInv(run, labels, i);
    FenceOfFiber(run[i], f);
  }

  lemma FenceOfFiber(s: State, f: Fence)
    requires Inv(s)
    ensures FenceString(f) in s.l.fibers ==>
      s.l.fibers[FenceString(f)].fence == f && s.l.fibers[FenceString(f)].grantUID == f.grantUID
  {
    if FenceString(f) in s.l.fibers {
      FenceStringInjective(s.l.fibers[FenceString(f)].fence, f);
    }
  }

  /** A fence barred at a, whose fiber if listed at b left the ledger by e, has no fiber after e. */
  lemma SweptFiberIsGone(run: seq<State>, labels: seq<Label>, a: nat, b: nat, e: nat, j: nat, f: Fence)
    requires IsRun(run, labels) && Inv(run[0]) && a <= b <= e <= j < |run| && Barred(run[a], f)
    requires FenceString(f) in run[b].l.fibers ==> LeftBetween(run, b, e, FenceString(f))
    ensures FenceString(f) !in run[j].l.fibers
  {
    var id := FenceString(f);
    FiberKnowsItsFence(run, labels, j, f);
    RunEvolves(run, labels, a, b);
    RunEvolves(run, labels, b, j);
    if id in run[b].l.fibers {
      var c :| b <= c <= e && id !in run[c].l.fibers;
      RunEvolves(run, labels, a, c);
      RunEvolves(run, labels, c, j);
    }
  }

  /** BumpEpoch: after its sweep no fiber minted before the epoch moved is in the ledger, nor ever will be. */
  lemma EpochBumpSweepsEveryFiber(run: seq<State>, labels: seq<Label>, a: nat, b: nat, e: nat, n: nat)
    requires IsRun(run, labels) && Inv(run[0]) && a < b <= e < |run| && labels[a] == MoveEpoch(n)
    requires forall id :: id in run[b].l.fibers && run[b].l.fibers[id].fence.epoch < n ==> LeftBetween(run, b, e, id)
    ensures forall j, id :: e <= j < |run| && id in run[j].l.fibers ==> run[j].l.fibers[id].fence.epoch >= n
  {
    forall j, id | e <= j < |run| && id in run[j].l.fibers
      ensures run[j].l.fibers[id].fence.epoch >= n
    {
      var f := run[j].l.fibers[id].fence;
      RunKeepsInv(run, labels, j);
      if f.epoch < n {
        OldEpochIsBarred(run, labels, a, j, n, f);
        FiberKnowsItsFence(run, labels, b, f);
        SweptFiberIsGone(run, labels, a + 1, b, e, j, f);
      }
    }
  }

  lemma OldEpochIsBarred(run: seq<State>, labels: seq<Label>, a: nat, j: nat, n: nat, f: Fence)
    requires IsRun(run, labels) && Inv(run[0]) && a < j < |run| && labels[a] == MoveEpoch(n)
    requires f in run[j].minted && f.epoch < n
    ensures Barred(run[a + 1], f)
  {
    RunEvolves(run, labels, a + 1, j);
    assert StepAt(run, labels, a);
    EpochAfterMove(run[a], n);
    OldFenceWasMinted(run[a + 1], run[j], n, f);
  }

  lemma OldFenceWasMinted(s: State, t: State, n: nat, f: Fence)
    requires Evolves(s, t) && s.l.epoch >= n && f in t.minted && f.epoch < n
    ensures Barred(s, f)
  {
  }

  lemma EpochAfterMove(s: State, n: nat)
    requires WellFormed(s.l)
    ensures Apply(s, MoveEpoch(n)).l.epoch >= n
  {
  }

  /** Once a drain has begun no commit succeeds: the ledger's fibers only leave. */
  lemma DrainAdmitsNoFiber(run: seq<State>, labels: seq<Label>, i: nat, j: nat, id: string)
    requires IsRun(run, labels) && Inv(run[0]) && i <= j < |run| && run[i].draining && id in run[j].l.fibers
    ensures id in run[i].l.fibers && run[i].l.fibers[id] == run[j].l.fibers[id]
  {
    RunEvolves(run, labels, i, j);
    assert Barred(run[i], run[j].l.fibers[id].fence);
  }

  /**
   No exit is lost: once a fiber's exit was reported and no clone in flight carries the fiber,
   the ledger does not hold it, now or later, and no clone will bring it back. Its slot was freed
   exactly once: every entry's account is exact without it.
   */
  lemma NoExitIsLost(run: seq<State>, labels: seq<Label>, i: nat, j: nat, id: string)
    requires IsRun(run, labels) && Inv(run[0]) && i <= j < |run| && id in run[i].exited
    requires forall o :: o in run[i].clones ==>
      (Building(run[i].clones[o]) ==> FenceString(run[i].clones[o].phase.fence) != id) &&
      (run[i].clones[o].phase.Landed? ==> run[i].clones[o].phase.id != id)
    ensures id !in run[j].l.fibers
    ensures forall o :: o in run[j].clones && Building(run[j].clones[o]) ==>
      FenceString(run[j].clones[o].phase.fence) != id
    ensures WellFormed(run[j].l) && SlotsConserved(run[j].l, run[j].clones, run[j].inherited)
  {
    RunKeepsInv(run, labels, i);
    ExitedIsRetired(run[i], id);
    RunEvolves(run, labels, i, j);
    RetiredStaysOut(run[i], run[j], id);
    RunKeepsInv(run, labels, j);
  }

  lemma ExitedIsRetired(s: State, id: string)
    requires Inv(s) && id in s.exited
    requires forall o :: o in s.clones ==>
      (Building(s.clones[o]) ==> FenceString(s.clones[o].phase.fence) != id) &&
      (s.clones[o].phase.Landed? ==> s.clones[o].phase.id != id)
    ensures exists f :: FenceString(f) == id && Retired(s, f)
  {
    var f :| f in s.minted && FenceString(f) == id;
    assert Retired(s, f);
  }

  lemma RetiredStaysOut(s: State, t: State, id: string)
    requires Evolves(s, t) && exists f :: FenceString(f) == id && Retired(s, f)
    ensures id !in t.l.fibers
    ensures forall o :: o in t.clones && Building(t.clones[o]) ==> FenceString(t.clones[o].phase.fence) != id
  {
    var f :| FenceString(f) == id && Retired(s, f);
    assert Retired(t, f);
    forall o | o in t.clones && Building(t.clones[o])
      ensures FenceString(t.clones[o].phase.fence) != id
    {
      if FenceString(t.clones[o].phase.fence) == id {
        FenceStringInjective(t.clones[o].phase.fence, f);
      }
    }
  }

  // ------------------------------------------------------------ no held exit is left behind

  /** A landed clone's fiber is built by no clone any more. */
  ghost predicate LandedDone(s: State) {
    forall o :: o in s.clones && s.clones[o].phase.Landed? ==> IsUnbuilt(s, s.clones[o].phase.id)
  }

  ghost predicate IsUnbuilt(s: State, id: string) {
    exists f :: FenceString(f) == id && Unbuilt(s, f)
  }

  lemma StillUnbuilt(s: State, a: Label, id: string)
    requires Inv(s) && Enabled(s, a) && IsUnbuilt(s, id)
    ensures IsUnbuilt(Apply(s, a), id)
  {
    var f :| FenceString(f) == id && Unbuilt(s, f);
    StepKeepsUnbuilt(s, a, f);
  }

  /** Only a commit lands a clone. */
  lemma OnlyCommitLands(s: State, a: Label, o: nat)
    requires Enabled(s, a) && o in Apply(s, a).clones && Apply(s, a).clones[o].phase.Landed?
    ensures
      (o in s.clones && s.clones[o].phase.Landed? && s.clones[o].phase.id == Apply(s, a).clones[o].phase.id &&
       (Apply(s, a).clones[o].phase.died ==> s.clones[o].phase.died)) ||
      (a == Commit(o) && Apply(s, a).clones[o].phase.id == FenceString(s.clones[o].phase.fence))
  {
    match a
    case Begin(_, _, _) =>
    case Resolve(_, _, _) =>
    case RuntimeReturns(_, _) =>
    case RuntimeFails(_) =>
    case RollBack(_) =>
    case Commit(_) =>
    case Replay(_) =>
    case Finish(_) =>
    case _ =>
  }

  lemma EndsBuilding(s: State, a: Label, o: nat)
    requires ClonesMinted(s.clones, s.minted, s.l.fibers) && FencesDistinct(s.clones) && Enabled(s, a)
    requires o in s.clones && s.clones[o].phase.Built? && (a == Commit(o) || a == RollBack(o))
    ensures Unbuilt(Apply(s, a), s.clones[o].phase.fence)
  {
    var t := Apply(s, a);
    assert t.minted == s.minted;
    assert forall x :: x in t.clones && x != o ==> t.clones[x] == s.clones[x];
  }

  lemma StepKeepsLanded(s: State, a: Label)
    requires Inv(s) && LandedDone(s) && Enabled(s, a)
    ensures LandedDone(Apply(s, a))
  {
    var t := Apply(s, a);
    forall o | o in t.clones && t.clones[o].phase.Landed?
      ensures IsUnbuilt(t, t.clones[o].phase.id)
    {
      OnlyCommitLands(s, a, o);
      if o in s.clones && s.clones[o].phase.Landed? {
        StillUnbuilt(s, a, s.clones[o].phase.id);
      } else {
        EndsBuilding(s, a, o);
      }
    }
  }

  /** The fiber's exit was reported, is held for nobody, and no clone will bring it up again. */
  ghost predicate Dropped(s: State, f: Fence) {
    FenceString(f) in s.exited && FenceString(f) !in s.pending && Unbuilt(s, f) &&
    forall o :: o in s.clones && Replays(s.clones[o]) ==> s.clones[o].phase.id != FenceString(f)
  }

  /** The clone committed a fiber whose exit was held, and has yet to replay it. */
  ghost predicate Replays(c: CloneOp) { c.phase.Landed? && c.phase.died }

  lemma OnlyExitsAreHeld(s: State, a: Label, id: string)
    requires Enabled(s, a) && id in Apply(s, a).pending && id !in s.pending
    ensures
      (a.Exit? && FenceString(a.f) == id && id !in s.exited) ||
      (a.Replay? && Replays(s.clones[a.op]) && s.clones[a.op].phase.id == id)
  {
  }

  lemma StepKeepsDropped(s: State, a: Label, f: Fence)
    requires Inv(s) && Enabled(s, a) && Dropped(s, f)
    ensures Dropped(Apply(s, a), f)
  {
    var t := Apply(s, a);
    StepGrowsHistory(s, a);
    StepKeepsUnbuilt(s, a, f);
    if FenceString(f) in t.pending {
      OnlyExitsAreHeld(s, a, FenceString(f));
    }
    forall o | o in t.clones && Replays(t.clones[o])
      ensures t.clones[o].phase.id != FenceString(f)
    {
      OnlyCommitLands(s, a, o);
    }
  }

  /** The step gives up the fiber clone o was building. */
  ghost predicate GivesUpFiber(s: State, a: Label, o: nat) {
    Enabled(s, a) && o in s.clones && s.clones[o].phase.Built? && (a == RollBack(o) || a == Commit(o)) &&
    o in Apply(s, a).clones && Apply(s, a).clones[o].phase.Failed?
  }

  lemma NoneLanded(s: State, f: Fence, x: nat)
    requires LandedDone(s) && !Unbuilt(s, f) && x in s.clones && s.clones[x].phase.Landed?
    ensures s.clones[x].phase.id != FenceString(f)
  {
    if s.clones[x].phase.id == FenceString(f) {
      var g :| FenceString(g) == FenceString(f) && Unbuilt(s, g);
      FenceStringInjective(g, f);
    }
  }

  lemma GivenUpIsDropped(s: State, a: Label, o: nat)
    requires Inv(s) && LandedDone(s) && GivesUpFiber(s, a, o) && FenceString(s.clones[o].phase.fence) in s.exited
    ensures Dropped(Apply(s, a), s.clones[o].phase.fence)
  {
    var t, f := Apply(s, a), s.clones[o].phase.fence;
    EndsBuilding(s, a, o);
    assert !Unbuilt(s, f);
    assert t.exited == s.exited && FenceString(f) !in t.pending;
    forall x | x in t.clones && Replays(t.clones[x])
      ensures t.clones[x].phase.id != FenceString(f)
    {
      assert x != o && t.clones[x] == s.clones[x];
      NoneLanded(s, f, x);
    }
  }

  lemma {:induction false} RunKeepsLanded(run: seq<State>, labels: seq<Label>, i: nat)
    requires IsRun(run, labels) && Inv(run[0]) && LandedDone(run[0]) && i < |run|
    ensures LandedDone(run[i])
  {
    if i > 0 {
      RunKeepsLanded(run, labels, i - 1);
      SoundStep(run, labels, i - 1);
      StepKeepsLanded(run[i - 1], labels[i - 1]);
    }
  }

  lemma {:induction false} DroppedStays(run: seq<State>, labels: seq<Label>, i: nat, j: nat, f: Fence)
    requires IsRun(run, labels) && Inv(run[0]) && i <= j < |run| && Dropped(run[i], f)
    ensures Dropped(run[j], f)
    decreases j
  {
    if i < j {
      DroppedStays(run, labels, i, j - 1, f);
      SoundStep(run, labels, j - 1);
      StepKeepsDropped(run[j - 1], labels[j - 1], f);
    }
  }

  /**
   An exit reported while a clone was still building its fiber goes with the clone: once the birth
   is rolled back or its commit refused, nothing is held for that fiber at any later moment.
   */
  lemma HeldExitGoesWithItsClone(run: seq<State>, labels: seq<Label>, i: nat, j: nat, o: nat)
    requires IsRun(run, labels) && Inv(run[0]) && LandedDone(run[0]) && i < j < |run|
    requires GivesUpFiber(run[i], labels[i], o) && FenceString(run[i].clones[o].phase.fence) in run[i].exited
    ensures FenceString(run[i].clones[o].phase.fence) !in run[j].pending
  {
    var f := run[i].clones[o].phase.fence;
    DroppedInRun(run, labels, i, o);
    DroppedStays(run, labels, i + 1, j, f);
  }

  lemma FreedIsDropped(s: State, f: Fence)
    requires Inv(s) && Enabled(s, Exit(f)) && FenceString(f) in s.l.fibers
    ensures var t := Apply(s, Exit(f)); Dropped(t, f) && Retired(t, f)
  {
    FiberIsUnbuilt(s, f);
  }

  lemma FreedInRun(run: seq<State>, labels: seq<Label>, i: nat, f: Fence)
    requires IsRun(run, labels) && Inv(run[0]) && i < |labels| && labels[i] == Exit(f)
    requires FenceString(f) in run[i].l.fibers
    ensures Dropped(run[i + 1], f) && Retired(run[i + 1], f)
  {
    SoundStep(run, labels, i);
    FreedIsDropped(run[i], f);
  }

  lemma RetiredInRun(run: seq<State>, labels: seq<Label>, i: nat, j: nat, f: Fence)
    requires IsRun(run, labels) && Inv(run[0]) && i <= j < |run| && Retired(run[i], f)
    ensures Retired(run[j], f)
  {
    RunEvolves(run, labels, i, j);
  }

  /** An exit the ledger knew the fiber of frees it at once: at no later moment is it held, or the fiber back. */
  lemma FreedExitIsNotHeld(run: seq<State>, labels: seq<Label>, i: nat, j: nat, f: Fence)
    requires IsRun(run, labels) && Inv(run[0]) && i < j < |run| && labels[i] == Exit(f)
    requires FenceString(f) in run[i].l.fibers
    ensures FenceString(f) !in run[j].pending && FenceString(f) !in run[j].l.fibers
  {
    FreedInRun(run, labels, i, f);
    DroppedStays(run, labels, i + 1, j, f);
    RetiredInRun(run, labels, i + 1, j, f);
  }

  lemma DroppedInRun(run: seq<State>, labels: seq<Label>, i: nat, o: nat)
    requires IsRun(run, labels) && Inv(run[0]) && LandedDone(run[0]) && i < |labels|
    requires GivesUpFiber(run[i], labels[i], o) && FenceString(run[i].clones[o].phase.fence) in run[i].exited
    ensures Dropped(run[i + 1], run[i].clones[o].phase.fence)
  {
    RunKeepsLanded(run, labels, i);
    SoundStep(run, labels, i);
    GivenUpIsDropped(run[i], labels[i], o);
  }

  /**
   Capacity: for the entry admitted at step i and still the grant's at j, the slots it counts are
   exactly the grant's fibers and its reservations if and only if the ledger held no fiber of the
   uid when it was admitted; then the grant never exceeds fibers.max. In any case what it exceeds
   fibers.max by is at most the fibers it inherited.
   */
  lemma CapacityConserved(run: seq<State>, labels: seq<Label>, i: nat, j: nat, g: Grant)
    requires IsRun(run, labels) && Inv(run[0]) && i < j < |run|
    requires labels[i] == Admit(g) && g.uid !in run[i].l.grants
    requires g.uid in run[j].l.grants && run[j].l.grants[g.uid] == |run[i].l.entries| < |run[j].l.entries|
    ensures
      var e := run[j].l.entries[run[j].l.grants[g.uid]];
      var used := |FibersOf(run[j].l, g.uid)| + |Reservations(run[j].clones, run[j].l.grants[g.uid])|;
      var left := |FibersOf(run[i].l, g.uid)|;
      (e.live == used <==> FibersOf(run[i].l, g.uid) == {}) &&
      (left == 0 ==> e.live >= 0) &&
      (e.grant.fiberMax > 0 ==> used <= e.grant.fiberMax + left)
  {
    EntryInherited(run, labels, i, j, g);
    RunKeepsInv(run, labels, j);
    AccountOf(run[j], g.uid, |FibersOf(run[i].l, g.uid)|);
  }

  lemma EntryInherited(run: seq<State>, labels: seq<Label>, i: nat, j: nat, g: Grant)
    requires IsRun(run, labels) && Inv(run[0]) && i < j < |run|
    requires labels[i] == Admit(g) && g.uid !in run[i].l.grants
    ensures |run[i].l.entries| < |run[j].inherited|
    ensures run[j].inherited[|run[i].l.entries|] == |FibersOf(run[i].l, g.uid)|
  {
    RunKeepsInv(run, labels, i);
    HistoryStays(run, labels, i + 1, j, first);
    assert StepAt(run, labels, i);
    FreshEntryInherits(run[i], g);
  }

  /** The slot account of an entry that inherited `left` fibers. */
  lemma AccountOf(s: State, uid: string, left: nat)
    requires WellFormed(s.l) && SlotsConserved(s.l, s.clones, s.inherited) && uid in s.l.grants
    requires s.inherited[s.l.grants[uid]] == left
    ensures
      var e := s.l.entries[s.l.grants[uid]];
      var used := |FibersOf(s.l, uid)| + |Reservations(s.clones, s.l.grants[uid])|;
      (e.live == used <==> left == 0) && (left == 0 ==> e.live >= 0) &&
      (e.grant.fiberMax > 0 ==> used <= e.grant.fiberMax + left)
  {
    assert EntryAccount(s.l, s.clones, s.inherited, uid);
  }

  lemma FreshEntryInherits(s: State, g: Grant)
    requires Inv(s) && g.uid !in s.l.grants
    ensures Apply(s, Admit(g)).inherited == s.inherited + [|FibersOf(s.l, g.uid)|] && |s.inherited| == |s.l.entries|
  {
  }

  // ------------------------------------------------------------ the capacity condition is needed

  /** A grant that any anonymous clone may use, with room for one more fiber. */
  predicate Open(s: State, uid: string) {
    WellFormed(s.l) && uid in s.l.grants && !s.draining && s.pending == {} &&
    var x := s.l.entries[s.l.grants[uid]];
    x.grant.lease.None? && x.grant.minTier == 0 && !Full(x)
  }

  /** The state after one anonymous clone that commits. */
  function AfterClone(s: State, op: nat, uid: string): (r: State)
    requires WellFormed(s.l) && uid in s.l.grants
  {
    var e := s.l.grants[uid];
    var f := MintFence(s.l, e);
    s.(l := ReserveAndMint(s.l, e).(fibers := s.l.fibers[FenceString(f) := FiberRef(uid, "", f)]),
       clones := s.clones[op := CloneOp(uid, "", Landed(FenceString(f), false))], minted := s.minted[f := e])
  }

  lemma BeginAndResolve(s: State, op: nat, uid: string)
    requires Open(s, uid) && op !in s.clones
    ensures
      var e := s.l.grants[uid];
      var f := MintFence(s.l, e);
      Reaches(s, s.(l := ReserveAndMint(s.l, e), minted := s.minted[f := e],
                    clones := s.clones[op := CloneOp(uid, "", Reserved(e, f, Create, ""))]))
  {
    var e := s.l.grants[uid];
    var f := MintFence(s.l, e);
    var s1 := s.(clones := s.clones[op := CloneOp(uid, "", Gated)]);
    var s2 := s.(l := ReserveAndMint(s.l, e), minted := s.minted[f := e],
                 clones := s.clones[op := CloneOp(uid, "", Reserved(e, f, Create, ""))]);
    StepReaches(s, Begin(op, uid, ""), s1);
    assert s1.clones[op := s2.clones[op]] == s2.clones;
    StepReaches(s1, Resolve(op, 0, 0), s2);
    ReachesTransitive(s, s1, s2);
  }

  lemma ReturnAndCommit(s: State, op: nat, c: CloneOp)
    requires WellFormed(s.l) && op in s.clones && s.clones[op] == c && c.phase.Reserved? && c.name == ""
    requires !s.draining && s.pending == {}
    requires c.uid in s.l.grants && s.l.grants[c.uid] == c.phase.entry && c.phase.fence.epoch == s.l.epoch
    ensures
      var id := FenceString(c.phase.fence);
      Reaches(s, s.(l := s.l.(fibers := s.l.fibers[id := FiberRef(c.uid, "", c.phase.fence)]),
                    clones := s.clones[op := c.(phase := Landed(id, false))]))
  {
    var p := c.phase;
    var id := FenceString(p.fence);
    var s1 := s.(clones := s.clones[op := c.(phase := Built(p.entry, p.fence, p.action, p.ref, ""))]);
    var s2 := s.(l := s.l.(fibers := s.l.fibers[id := FiberRef(c.uid, "", p.fence)]),
                 clones := s.clones[op := c.(phase := Landed(id, false))]);
    FenceStringNonEmpty(p.fence);
    StepReaches(s, RuntimeReturns(op, ""), s1);
    assert s.pending - {id} == s.pending;
    assert s1.clones[op := s2.clones[op]] == s2.clones;
    StepReaches(s1, Commit(op), s2);
    ReachesTransitive(s, s1, s2);
  }

  lemma CloneReaches(s: State, op: nat, uid: string)
    requires Open(s, uid) && op !in s.clones
    ensures Reaches(s, AfterClone(s, op, uid))
  {
    var e := s.l.grants[uid];
    var f := MintFence(s.l, e);
    var c := CloneOp(uid, "", Reserved(e, f, Create, ""));
    var s2 := s.(l := ReserveAndMint(s.l, e), minted := s.minted[f := e], clones := s.clones[op := c]);
    BeginAndResolve(s, op, uid);
    ReturnAndCommit(s2, op, c);
    assert s2.clones[op := AfterClone(s, op, uid).clones[op]] == AfterClone(s, op, uid).clones;
    ReachesTransitive(s, s2, AfterClone(s, op, uid));
  }

  lemma RevokeAndReadmit(s: State, g: Grant)
    requires WellFormed(s.l)
    ensures Reaches(s, AdmitStep(s.(l := RevokeGrant(s.l, g.uid)), g))
  {
    var s1 := s.(l := RevokeGrant(s.l, g.uid));
    StepReaches(s, Revoke(g.uid), s1);
    StepReaches(s1, Admit(g), AdmitStep(s1, g));
    ReachesTransitive(s, s1, AdmitStep(s1, g));
  }

  const tight: Grant := Grant("g", 1, 0, 0, None, "", "", "")
  const first: Fence := Fence("g", 0, 1)
  const second: Fence := Fence("g", 0, 2)

  lemma FirstCloneReached() returns (s: State)
    ensures Reaches(Initial(0), s) && !s.draining && s.pending == {} && 1 !in s.clones
    ensures s.l == View(0, map["g" := 0], [GrantEntry(tight, 1, 1, 0)], map[],
                        map[FenceString(first) := FiberRef("g", "", first)], map[])
  {
    var s0 := Initial(0);
    var s1 := AdmitStep(s0, tight);
    assert s1.l == View(0, map["g" := 0], [GrantEntry(tight, 0, 0, 0)], map[], map[], map[]);
    StepReaches(s0, Admit(tight), s1);
    CloneReaches(s1, 0, "g");
    s := AfterClone(s1, 0, "g");
    ReachesTransitive(s0, s1, s);
  }

  /**
   Without the condition the ceiling is passed: a grant with fibers.max 1, revoked and admitted
   again while its fiber is still in the ledger, runs two fibers.
   */
  lemma ReadmissionOverLiveFiberOvercommits() returns (s: State)
    ensures Reaches(Initial(0), s) && WellFormed(s.l)
    ensures "g" in s.l.grants && s.l.entries[s.l.grants["g"]].grant.fiberMax == 1 && |FibersOf(s.l, "g")| == 2
  {
    var s2 := FirstCloneReached();
    RevokeAndReadmit(s2, tight);
    var s3 := AdmitStep(s2.(l := RevokeGrant(s2.l, "g")), tight);
    assert s3.l.grants == map["g" := 1] && s3.l.entries == [GrantEntry(tight, 1, 1, 0), GrantEntry(tight, 1, 0, 0)] &&
           s3.l.epoch == 0;
    CloneReaches(s3, 1, "g");
    s := AfterClone(s3, 1, "g");
    ReachesTransitive(Initial(0), s2, s3);
    ReachesTransitive(Initial(0), s3, s);
    assert s.l.fibers ==
      map[FenceString(first) := FiberRef("g", "", first), FenceString(second) := FiberRef("g", "", second)];
    TwoFibers(s.l);
  }

  lemma TwoFibers(l: View)
    requires l.fibers ==
      map[FenceString(first) := FiberRef("g", "", first), FenceString(second) := FiberRef("g", "", second)]
    ensures |FibersOf(l, "g")| == 2
  {
    assert FibersOf(l, "g") == {FenceString(first), FenceString(second)};
    if FenceString(first) == FenceString(second) {
      FenceStringInjective(first, second);
    }
  }

  /** A step taken from a sound state leads to a sound, reachable one. */
  lemma StepTaken(s: State, a: Label, t: State)
    requires Inv(s) && Enabled(s, a) && t == Apply(s, a)
    ensures Inv(t) && Reaches(s, t)
  {
    StepKeepsInv(s, a);
    StepReaches(s, a, t);
  }
}
