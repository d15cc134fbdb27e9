/**
 The home's verbs over the shared ledger, with every other caller free to run between any two
 of their lock holds: Interference stands for an arbitrary stretch of the step machine.
 */
module Cores {
  import opened Common
  import opened Fences
  import opened LedgerState
  import opened CloneProtocol
  import opened CloneInvariant
  import opened CloneTheorems
  import opened Ledgers

  // ------------------------------------------------------------ what a sweep relies on

  /** No fence in `stale` can get a fiber into the ledger any more, and those in it are in `left`. */
  ghost predicate Cornered(s: State, stale: set<Fence>, left: set<string>) {
    forall f :: f in stale ==> Barred(s, f) && (FenceString(f) in s.l.fibers ==> FenceString(f) in left)
  }

  ghost function MintedFor(s: State, uid: string): (r: set<Fence>) {
    set f | f in s.minted && f.grantUID == uid
  }

  lemma CorneredStays(s: State, t: State, stale: set<Fence>, left: set<string>)
    requires Inv(s) && Reaches(s, t) && Cornered(s, stale, left)
    ensures Inv(t) && Cornered(t, stale, left)
  {
    ReachesEvolves(s, t);
    forall f | f in stale
      ensures Barred(t, f) && (FenceString(f) in t.l.fibers ==> FenceString(f) in left)
    {
      assert Barred(s, f);
      FenceOfFiber(t, f);
    }
  }

  lemma ReleaseCorners(s: State, stale: set<Fence>, left: set<string>, id: string)
    requires Inv(s) && Cornered(s, stale, left)
    ensures Cornered(Apply(s, Release(id)), stale, left - {id})
  {
    var t := Apply(s, Release(id));
    StepReaches(s, Release(id), t);
    CorneredStays(s, t, stale, left);
    assert id !in t.l.fibers;
  }

  lemma RevokeCorners(s: State, uid: string, t: State)
    requires Inv(s) && Reaches(Apply(s, Revoke(uid)), t)
    ensures Inv(t) && Cornered(t, MintedFor(s, uid), FibersOf(t.l, uid))
  {
    var s1 := Apply(s, Revoke(uid));
    StepKeepsInv(s, Revoke(uid));
    ReachesEvolves(s1, t);
    forall f | f in s.minted && f.grantUID == uid
      ensures Barred(t, f) && (FenceString(f) in t.l.fibers ==> FenceString(f) in FibersOf(t.l, uid))
    {
      RevokeBars(s, uid, f);
      FenceOfFiber(t, f);
    }
  }

  ghost function MintedBefore(s: State, n: nat): (r: set<Fence>) {
    set f | f in s.minted && f.epoch < n
  }

  lemma EpochCorners(s: State, n: nat, t: State)
    requires Inv(s) && s.l.epoch >= n && Reaches(s, t)
    ensures Inv(t) && Cornered(t, MintedBefore(s, n), set id | id in t.l.fibers && t.l.fibers[id].fence.epoch < n)
  {
    ReachesEvolves(s, t);
    forall f | f in MintedBefore(s, n)
      ensures Barred(t, f) && (FenceString(f) in t.l.fibers ==> t.l.fibers[FenceString(f)].fence.epoch < n)
    {
      assert Barred(s, f);
      FenceOfFiber(t, f);
    }
  }

  lemma EpochSwept(s: State, n: nat, t: State)
    requires Inv(s) && s.l.epoch >= n && Reaches(s, t) && Cornered(t, MintedBefore(s, n), {})
    ensures t.l.epoch >= n && forall id :: id in t.l.fibers ==> t.l.fibers[id].fence.epoch >= n
  {
    ReachesEvolves(s, t);
    forall id | id in t.l.fibers
      ensures t.l.fibers[id].fence.epoch >= n
    {
      var f := t.l.fibers[id].fence;
      assert f in t.minted && id == FenceString(f);
      assert f.epoch < n ==> f in MintedBefore(s, n);
    }
  }

  /** After a drain has begun, every fiber of the uids in `done` was tried, and stays so. */
  ghost predicate Tried(s: State, done: set<string>, tried: set<string>) {
    forall id :: id in s.l.fibers && s.l.fibers[id].grantUID in done ==> id in tried
  }

  lemma TriedStays(s: State, t: State, done: set<string>, tried: set<string>)
    requires Inv(s) && s.draining && Reaches(s, t)
    ensures Inv(t) && t.draining
    ensures forall id :: id in t.l.fibers ==> id in s.l.fibers && s.l.fibers[id] == t.l.fibers[id]
    ensures Tried(s, done, tried) ==> Tried(t, done, tried)
  {
    ReachesEvolves(s, t);
    forall id | id in t.l.fibers
      ensures id in s.l.fibers && s.l.fibers[id] == t.l.fibers[id]
    {
      assert Barred(s, t.l.fibers[id].fence);
    }
  }

  /** How the drain's call for one fiber ended: it was gone already, it runs on, it was released, it was parked. */
  datatype Ended = Gone | RanOn | Shed | ParkedAs(ref: string)

  /** Between s and t somebody took this step. */
  ghost predicate StepBetween(s: State, at: State, a: Label, t: State) {
    Reaches(s, at) && Enabled(at, a) && Reaches(Apply(at, a), t)
  }

  ghost predicate ShedAt(s: State, at: State, t: State, id: string) {
    StepBetween(s, at, Release(id), t) && id in at.l.fibers && at.l.fibers[id].sessionKey == ""
  }

  /** The session the fiber ran was parked at `ref` in that step. */
  ghost predicate ParkedAt(s: State, at: State, t: State, id: string, ref: string) {
    StepBetween(s, at, ParkFiber(id, ref), t) && id in at.l.fibers && ref != "" &&
    var k, l := at.l.fibers[id].sessionKey, Apply(at, ParkFiber(id, ref)).l;
    k != "" && k in l.sessions && l.sessions[k].state == Parked && l.sessions[k].deltaRef == ref
  }

  /** What the outcome means: only a failed fiber is still there, a named one was parked and never shed. */
  ghost predicate Ends(s: State, t: State, id: string, e: Ended) {
    (e.RanOn? || id !in t.l.fibers) &&
    (e.Shed? ==> exists at :: ShedAt(s, at, t, id)) &&
    (e.ParkedAs? ==> exists at :: ParkedAt(s, at, t, id, e.ref))
  }

  ghost predicate AllEnd(s: State, t: State, ends: map<string, Ended>) {
    forall id :: id in ends ==> Ends(s, t, id, ends[id])
  }

  /**
   What the runtime answers about each fiber, "" when it fails: a fiber runs on only then, and is
   parked at that delta.
   */
  predicate Answers(ends: map<string, Ended>, runtime: string -> string) {
    forall id :: id in ends ==>
      (ends[id].RanOn? ==> runtime(id) == "") && (ends[id].ParkedAs? ==> ends[id].ref == runtime(id))
  }

  lemma EndsStay(s: State, t: State, u: State, ends: map<string, Ended>)
    requires Inv(t) && t.draining && Reaches(t, u) && AllEnd(s, t, ends)
    ensures AllEnd(s, u, ends)
  {
    TriedStays(t, u, {}, {});
    forall id | id in ends
      ensures Ends(s, u, id, ends[id])
    {
      EndStays(s, t, u, id, ends[id]);
    }
  }

  lemma MovesOver(batch: set<string>, left: set<string>, id: string)
    requires left <= batch && id in left
    ensures batch - (left - {id}) == (batch - left) + {id}
  {
  }

  lemma OneMoreEnd(s: State, t: State, u: State, ends: map<string, Ended>, id: string, e: Ended)
    requires Inv(t) && t.draining && Reaches(t, u) && AllEnd(s, t, ends) && Ends(s, u, id, e)
    ensures AllEnd(s, u, ends[id := e])
  {
    EndsStay(s, t, u, ends);
  }

  lemma StillDraining(start: State, s0: State, s: State)
    requires Inv(s0) && s0.draining && Reaches(start, s0) && Reaches(s0, s)
    ensures Inv(s) && s.draining && Reaches(start, s)
  {
    TriedStays(s0, s, {}, {});
    ReachesTransitive(start, s0, s);
  }

  lemma OneMoreDrained(start: State, s0: State, s: State, now: State,
                       ends: map<string, Ended>, runtime: string -> string, id: string, e: Ended)
    requires Inv(s) && s.draining && Reaches(s0, s) && Reaches(s, now) && AllEnd(start, s, ends)
    requires Answers(ends, runtime)
    requires Ends(start, now, id, e) && (e.RanOn? ==> runtime(id) == "") && (e.ParkedAs? ==> e.ref == runtime(id))
    ensures Reaches(s0, now) && AllEnd(start, now, ends[id := e]) && Answers(ends[id := e], runtime)
  {
    ReachesTransitive(s0, s, now);
    OneMoreEnd(start, s, now, ends, id, e);
    AnswersWith(ends, runtime, id, e);
  }

  lemma NoneMissed(ends: map<string, Ended>, more: map<string, Ended>, left: set<string>, rest: set<string>,
                   batch: set<string>)
    requires rest <= batch && more.Keys == batch - rest
    ensures (ends + more).Keys + (left + rest) == ends.Keys + left + batch
  {
    assert (ends + more).Keys == ends.Keys + more.Keys;
  }

  lemma AnswersWith(ends: map<string, Ended>, runtime: string -> string, id: string, e: Ended)
    requires Answers(ends, runtime) && (e.RanOn? ==> runtime(id) == "") && (e.ParkedAs? ==> e.ref == runtime(id))
    ensures Answers(ends[id := e], runtime)
  {
  }

  lemma JoinEnds(s: State, t: State, u: State, ends: map<string, Ended>, more: map<string, Ended>,
                 runtime: string -> string)
    requires Inv(t) && t.draining && Reaches(t, u) && AllEnd(s, t, ends) && AllEnd(s, u, more)
    requires Answers(ends, runtime) && Answers(more, runtime)
    ensures AllEnd(s, u, ends + more) && Answers(ends + more, runtime)
  {
    EndsStay(s, t, u, ends);
  }

  lemma EndStays(s: State, t: State, u: State, id: string, e: Ended)
    requires Reaches(t, u) && Ends(s, t, id, e) && (forall i :: i in u.l.fibers ==> i in t.l.fibers)
    ensures Ends(s, u, id, e)
  {
    if e.Shed? {
      var at :| ShedAt(s, at, t, id);
      ReachesTransitive(Apply(at, Release(id)), t, u);
      assert ShedAt(s, at, u, id);
    } else if e.ParkedAs? {
      var at :| ParkedAt(s, at, t, id, e.ref);
      ReachesTransitive(Apply(at, ParkFiber(id, e.ref)), t, u);
      assert ParkedAt(s, at, u, id, e.ref);
    }
  }

  /** Releasing an anonymous fiber the ledger holds sheds it. */
  lemma ReleaseSheds(s: State, at: State, id: string)
    requires Inv(at) && Reaches(s, at)
    ensures
      var t := Apply(at, Release(id));
      Reaches(s, t) && Ends(s, t, id, if id in at.l.fibers && at.l.fibers[id].sessionKey == "" then Shed else Gone)
  {
    var t := Apply(at, Release(id));
    StepReaches(at, Release(id), t);
    ReachesTransitive(s, at, t);
    ReachesItself(t);
    assert id !in t.l.fibers;
    if id in at.l.fibers && at.l.fibers[id].sessionKey == "" {
      assert ShedAt(s, at, t, id);
    }
  }

  lemma ParkEnds(s: State, at: State, id: string, ref: string)
    requires Inv(at) && Reaches(s, at) && ref != ""
    ensures
      var t := Apply(at, ParkFiber(id, ref));
      Reaches(s, t) &&
      Ends(s, t, id, if id in at.l.fibers && at.l.fibers[id].sessionKey != "" then ParkedAs(ref) else Gone)
  {
    var t := Apply(at, ParkFiber(id, ref));
    StepReaches(at, ParkFiber(id, ref), t);
    ReachesTransitive(s, at, t);
    ReachesItself(t);
    assert id !in t.l.fibers;
    if id in at.l.fibers && at.l.fibers[id].sessionKey != "" {
      assert ParkedAt(s, at, t, id, ref);
    }
  }

  lemma ListingShrinks(all: set<string>, before: set<string>, after: set<string>, batch: set<string>)
    requires batch != {} && batch !! before && after == before + batch && batch <= all
    ensures all - after < all - before
  {
    var id :| id in batch;
    assert id in all - before && id !in all - after;
  }

  /** A clone that must replay an exit committed a fiber whose fence is in the history. */
  ghost function ReportedFence(s: State, op: nat): (f: Fence)
    requires Inv(s) && op in s.clones && s.clones[op].phase.Landed? && s.clones[op].phase.died
    ensures f in s.minted && FenceString(f) == s.clones[op].phase.id
  {
    var f :| f in s.minted && FenceString(f) == s.clones[op].phase.id;
    f
  }

  /**
   What the runtime and the audit answer a clone: the endpoint of the new fiber or a failure,
   whether the birth was recorded, and whether a fiber that was not recorded could be released.
   */
  datatype Answer = Answer(endpoint: Option<string>, audited: bool, released: bool)

  /**
   Missed: an error and no fiber. Unreleased: an error too, but the fiber could be neither recorded
   nor released, and is committed so that it stays counted.
   */
  datatype CloneResult =
    | Missed
    | Unreleased(fence: Fence)
    | Attached(fence: Fence, endpoint: string)
    | Cloned(fence: Fence, endpoint: string)

  /** Between s and t this clone committed the fiber: it was not in the ledger, and the step put it there. */
  ghost predicate CommittedAt(s: State, at: State, t: State, op: nat, uid: string, name: string, f: Fence,
                              endpoint: string) {
    StepBetween(s, at, Label.Commit(op), t) && FenceString(f) !in at.l.fibers &&
    var l, k := Apply(at, Label.Commit(op)).l, uid + "/" + name;
    FenceString(f) in l.fibers && l.fibers[FenceString(f)] == FiberRef(uid, if name == "" then "" else k, f) &&
    (name != "" ==>
       k in l.sessions && l.sessions[k].state == Running && l.sessions[k].handle == FenceString(f) &&
       l.sessions[k].fence == f && l.sessions[k].endpoint == endpoint)
  }

  ghost predicate CommittedBetween(s: State, t: State, op: nat, uid: string, name: string, f: Fence, endpoint: string) {
    exists at :: CommittedAt(s, at, t, op, uid, name, f, endpoint)
  }

  /** Why a clone that was building gave up. */
  predicate GivesUp(a: Label, op: nat, w: Answer) {
    (a == RuntimeFails(op) && w.endpoint.None?) ||
    (a == RollBack(op) && w.endpoint.Some? && !w.audited && w.released) ||
    (a == Label.Commit(op) && w.endpoint.Some? && (w.audited || !w.released))
  }

  /**
   Between s and t this clone, still building, gave up: the runtime failed, the birth was rolled
   back, or the ledger refused the commit. The fiber is in no ledger then, and never will be.
   */
  ghost predicate GaveUpAt(s: State, at: State, a: Label, t: State, op: nat, f: Fence, w: Answer) {
    StepBetween(s, at, a, t) && GivesUp(a, op, w) && op in at.clones && Building(at.clones[op]) &&
    at.clones[op].phase.fence == f && (a.Commit? ==> Barred(at, f)) && Retired(Apply(at, a), f) && Retired(t, f)
  }

  ghost predicate GaveUpBetween(s: State, t: State, op: nat, f: Fence, w: Answer) {
    exists at, a :: GaveUpAt(s, at, a, t, op, f, w)
  }

  lemma CommittedWithin(s0: State, s: State, t: State, u: State, op: nat, uid: string, name: string, f: Fence,
                        endpoint: string)
    requires Reaches(s0, s) && Reaches(t, u) && CommittedBetween(s, t, op, uid, name, f, endpoint)
    ensures CommittedBetween(s0, u, op, uid, name, f, endpoint)
  {
    var at :| CommittedAt(s, at, t, op, uid, name, f, endpoint);
    ReachesTransitive(s0, s, at);
    ReachesTransitive(Apply(at, Label.Commit(op)), t, u);
    assert CommittedAt(s0, at, u, op, uid, name, f, endpoint);
  }

  lemma GaveUpWithin(s0: State, s: State, t: State, u: State, op: nat, f: Fence, w: Answer)
    requires Inv(t) && Reaches(s0, s) && Reaches(t, u) && GaveUpBetween(s, t, op, f, w)
    ensures GaveUpBetween(s0, u, op, f, w)
  {
    var at, a :| GaveUpAt(s, at, a, t, op, f, w);
    ReachesTransitive(s0, s, at);
    ReachesTransitive(Apply(at, a), t, u);
    ReachesEvolves(t, u);
    assert GaveUpAt(s0, at, a, u, op, f, w);
  }

  lemma CommitHappens(s: State, at: State, op: nat, c: CloneOp)
    requires Inv(at) && Reaches(s, at) && op in at.clones && at.clones[op] == c && c.phase.Built?
    requires CommitStep(at, op).clones[op].phase.Landed?
    ensures CommittedBetween(s, Apply(at, Label.Commit(op)), op, c.uid, c.name, c.phase.fence, c.phase.endpoint)
  {
    var t := Apply(at, Label.Commit(op));
    ReachesItself(t);
    FenceStringNonEmpty(c.phase.fence);
    assert SessionKey(c.uid, c.name) == c.uid + "/" + c.name;
    assert t.l == Committed(at.l, Offer(c));
    assert CommittedAt(s, at, t, op, c.uid, c.name, c.phase.fence, c.phase.endpoint);
  }

  lemma FailedIsRetired(at: State, a: Label, op: nat)
    requires ClonesMinted(at.clones, at.minted, at.l.fibers) && FencesDistinct(at.clones)
    requires op in at.clones && Building(at.clones[op]) && Enabled(at, a)
    requires a == RuntimeFails(op) || a == RollBack(op) || a == Label.Commit(op)
    requires op in Apply(at, a).clones && Apply(at, a).clones[op].phase.Failed?
    ensures Retired(Apply(at, a), at.clones[op].phase.fence)
  {
    var t := Apply(at, a);
    assert t.l == at.l && t.minted == at.minted;
    assert forall o :: o in t.clones && o != op ==> t.clones[o] == at.clones[o];
  }

  lemma GiveUpHappens(s: State, at: State, a: Label, op: nat, w: Answer)
    requires Inv(at) && Reaches(s, at) && op in at.clones && Building(at.clones[op]) && Enabled(at, a)
    requires GivesUp(a, op, w)
    requires op in Apply(at, a).clones && Apply(at, a).clones[op].phase.Failed?
    ensures GaveUpBetween(s, Apply(at, a), op, at.clones[op].phase.fence, w)
  {
    var t := Apply(at, a);
    ReachesItself(t);
    FailedIsRetired(at, a, op);
    assert GaveUpAt(s, at, a, t, op, at.clones[op].phase.fence, w);
  }

  /** Between s and t the resolve of this clone found that its grant serves it. */
  ghost predicate ServedAt(s: State, at: State, t: State, op: nat, uid: string, tier: nat, now: int) {
    StepBetween(s, at, Label.Resolve(op, tier, now), t) && Serves(at.l, uid, tier, now)
  }

  ghost predicate ServedBetween(s: State, t: State, op: nat, uid: string, tier: nat, now: int) {
    exists at :: ServedAt(s, at, t, op, uid, tier, now)
  }

  /** Between s and t it found that the clone may neither attach nor be born, and changed nothing. */
  ghost predicate RefusedAt(s: State, at: State, t: State, op: nat, uid: string, name: string, tier: nat, now: int) {
    StepBetween(s, at, Label.Resolve(op, tier, now), t) && Apply(at, Label.Resolve(op, tier, now)) == at &&
    !MayBeBorn(at.l, uid, name, tier, now) && !(Serves(at.l, uid, tier, now) && SessionIn(at.l, uid, name, Running))
  }

  ghost predicate RefusedBetween(s: State, t: State, op: nat, uid: string, name: string, tier: nat, now: int) {
    exists at :: RefusedAt(s, at, t, op, uid, name, tier, now)
  }

  lemma ResolveHappens(s: State, at: State, op: nat, uid: string, name: string, tier: nat, now: int)
    requires Inv(at) && Reaches(s, at) && op in at.clones && at.clones[op] == CloneOp(uid, name, Gated)
    ensures
      var t := Apply(at, Label.Resolve(op, tier, now));
      if t.clones[op].phase.Gated? then RefusedBetween(s, t, op, uid, name, tier, now)
      else ServedBetween(s, t, op, uid, tier, now)
  {
    var t := Apply(at, Label.Resolve(op, tier, now));
    ReachesItself(t);
    ResolvesExactly(at, op, tier, now);
    if t.clones[op].phase.Gated? {
      assert RefusedAt(s, at, t, op, uid, name, tier, now);
    } else {
      assert ServedAt(s, at, t, op, uid, tier, now);
    }
  }

  lemma ServedWithin(s0: State, s: State, t: State, u: State, op: nat, uid: string, tier: nat, now: int)
    requires Reaches(s0, s) && Reaches(t, u) && ServedBetween(s, t, op, uid, tier, now)
    ensures ServedBetween(s0, u, op, uid, tier, now)
  {
    var at :| ServedAt(s, at, t, op, uid, tier, now);
    ReachesTransitive(s0, s, at);
    ReachesTransitive(Apply(at, Label.Resolve(op, tier, now)), t, u);
    assert ServedAt(s0, at, u, op, uid, tier, now);
  }

  lemma RefusedWithin(s0: State, s: State, t: State, u: State, op: nat, uid: string, name: string, tier: nat, now: int)
    requires Reaches(s0, s) && Reaches(t, u) && RefusedBetween(s, t, op, uid, name, tier, now)
    ensures RefusedBetween(s0, u, op, uid, name, tier, now)
  {
    var at :| RefusedAt(s, at, t, op, uid, name, tier, now);
    ReachesTransitive(s0, s, at);
    ReachesTransitive(Apply(at, Label.Resolve(op, tier, now)), t, u);
    assert RefusedAt(s0, at, u, op, uid, name, tier, now);
  }

  /** A birth's fence is in the history after the resolve, and newer than all the grant had before. */
  lemma BirthIsNew(s0: State, s: State, op: nat, tier: nat, now: int)
    requires Evolves(s0, s) && op in s.clones
    requires Decide(s.l, s.clones[op].uid, s.clones[op].name, tier, now).Birth?
    ensures
      var f := Decide(s.l, s.clones[op].uid, s.clones[op].name, tier, now).fence;
      f in ResolveStep(s, op, tier, now).minted && f.grantUID == s.clones[op].uid &&
      forall g :: g in s0.minted && g.grantUID == f.grantUID ==> Newer(f, g)
  {
    MintedFenceIsNew(s, Decide(s.l, s.clones[op].uid, s.clones[op].name, tier, now).entry);
  }

  /** Between s and t this clone resolved to the fiber its session was running as, and minted nothing. */
  ghost predicate AttachedBetween(s: State, t: State, op: nat, uid: string, name: string, f: Fence, endpoint: string) {
    exists at, tier, now :: AttachedAt(s, at, t, op, tier, now, uid, name, f, endpoint)
  }

  ghost predicate AttachedAt(s: State, at: State, t: State, op: nat, tier: nat, now: int, uid: string, name: string,
                             f: Fence, endpoint: string) {
    StepBetween(s, at, Label.Resolve(op, tier, now), t) &&
    Apply(at, Label.Resolve(op, tier, now)).minted == at.minted &&
    FenceString(f) in at.l.fibers && at.l.fibers[FenceString(f)] == FiberRef(f.grantUID, SessionKey(uid, name), f) &&
    SessionIn(at.l, uid, name, Running) && at.l.sessions[uid + "/" + name].endpoint == endpoint
  }

  lemma AttachStep(s: State, at: State, op: nat, uid: string, name: string, tier: nat, now: int, f: Fence,
                   endpoint: string)
    requires Reaches(s, at) && Enabled(at, Label.Resolve(op, tier, now))
    requires Apply(at, Label.Resolve(op, tier, now)).minted == at.minted && FenceString(f) in at.l.fibers
    requires at.l.fibers[FenceString(f)] == FiberRef(f.grantUID, SessionKey(uid, name), f)
    requires SessionIn(at.l, uid, name, Running) && at.l.sessions[uid + "/" + name].endpoint == endpoint
    ensures AttachedBetween(s, Apply(at, Label.Resolve(op, tier, now)), op, uid, name, f, endpoint)
  {
    var t := Apply(at, Label.Resolve(op, tier, now));
    ReachesItself(t);
    assert AttachedAt(s, at, t, op, tier, now, uid, name, f, endpoint);
  }

  lemma AttachHappens(s: State, at: State, op: nat, uid: string, name: string, tier: nat, now: int)
    requires Inv(at) && Reaches(s, at) && op in at.clones && at.clones[op] == CloneOp(uid, name, Gated)
    requires Decide(at.l, uid, name, tier, now).Attach?
    ensures
      var d := Decide(at.l, uid, name, tier, now);
      AttachedBetween(s, Apply(at, Label.Resolve(op, tier, now)), op, uid, name, d.fence, d.endpoint)
  {
    AttachFindsTheRunningFiber(at, op, tier, now);
    var d := Decide(at.l, uid, name, tier, now);
    AttachStep(s, at, op, uid, name, tier, now, d.fence, d.endpoint);
  }

  lemma AttachedWithin(s0: State, s: State, t: State, u: State, op: nat, uid: string, name: string, f: Fence,
                       endpoint: string)
    requires Reaches(s0, s) && Reaches(t, u) && AttachedBetween(s, t, op, uid, name, f, endpoint)
    ensures AttachedBetween(s0, u, op, uid, name, f, endpoint)
  {
    var at, tier, now :| AttachedAt(s, at, t, op, tier, now, uid, name, f, endpoint);
    ReachesTransitive(s0, s, at);
    ReachesTransitive(Apply(at, Label.Resolve(op, tier, now)), t, u);
    assert AttachedAt(s0, at, u, op, tier, now, uid, name, f, endpoint);
  }

  /** A fence minted since s, newer than all the grant had then. */
  ghost predicate NewFor(s: State, t: State, uid: string, f: Fence) {
    f in t.minted && f.grantUID == uid && forall g :: g in s.minted && g.grantUID == uid ==> Newer(f, g)
  }

  /** What each answer of Clone means. */
  ghost predicate Told(s: State, t: State, op: nat, uid: string, name: string, tier: nat, now: int, w: Answer,
                       r: CloneResult) {
    match r
    case Missed =>
      s.draining || RefusedBetween(s, t, op, uid, name, tier, now) ||
      exists f :: NewFor(s, t, uid, f) && GaveUpBetween(s, t, op, f, w)
    case Attached(f, endpoint) =>
      ServedBetween(s, t, op, uid, tier, now) && AttachedBetween(s, t, op, uid, name, f, endpoint)
    case Cloned(f, endpoint) =>
      w.audited && w.endpoint == Some(endpoint) && ServedBetween(s, t, op, uid, tier, now) && NewFor(s, t, uid, f) &&
      CommittedBetween(s, t, op, uid, name, f, endpoint)
    case Unreleased(f) =>
      !w.audited && !w.released && w.endpoint.Some? && ServedBetween(s, t, op, uid, tier, now) &&
      NewFor(s, t, uid, f) && CommittedBetween(s, t, op, uid, name, f, w.endpoint.value)
  }

  lemma ToldWithin(s0: State, s: State, t: State, op: nat, uid: string, name: string, tier: nat, now: int, w: Answer,
                   r: CloneResult)
    requires Inv(t) && Reaches(s0, s) && s0.minted == s.minted && s0.draining == s.draining
    requires Told(s, t, op, uid, name, tier, now, w, r)
    ensures Told(s0, t, op, uid, name, tier, now, w, r)
  {
    ReachesItself(t);
    match r
    case Missed =>
      if RefusedBetween(s, t, op, uid, name, tier, now) {
        RefusedWithin(s0, s, t, t, op, uid, name, tier, now);
      } else if !s.draining {
        var f :| NewFor(s, t, uid, f) && GaveUpBetween(s, t, op, f, w);
        GaveUpWithin(s0, s, t, t, op, f, w);
        assert NewFor(s0, t, uid, f);
      }
    case Attached(f, endpoint) =>
      ServedWithin(s0, s, t, t, op, uid, tier, now);
      AttachedWithin(s0, s, t, t, op, uid, name, f, endpoint);
    case Cloned(f, endpoint) =>
      ServedWithin(s0, s, t, t, op, uid, tier, now);
      CommittedWithin(s0, s, t, t, op, uid, name, f, endpoint);
    case Unreleased(f) =>
      ServedWithin(s0, s, t, t, op, uid, tier, now);
      CommittedWithin(s0, s, t, t, op, uid, name, f, w.endpoint.value);
  }

  class Core {
    const ledger: Ledger
    var draining: bool
    var pending: set<string>
    ghost var clones: map<nat, CloneOp>
    ghost var exited: set<string>
    ghost var minted: map<Fence, nat>
    ghost var inherited: seq<nat>

    ghost function St(): (s: State)
      reads this, ledger
    {
      State(ledger.View(), draining, clones, pending, exited, minted, inherited)
    }

    constructor (epoch: nat)
      ensures St() == Initial(epoch) && Inv(St()) && fresh(ledger)
    {
      ledger := new Ledger(epoch);
      draining, pending := false, {};
      clones, exited, minted, inherited := map[], {}, map[], [];
      new;
      InitialInv(epoch);
    }

    /** Any other callers run for a while. Nothing happening at all is one such while. */
    method Interference()
      requires Inv(St())
      modifies this, ledger
      ensures Reaches(old(St()), St()) && Inv(St())
    {
      ReachesItself(St());
    }

    method Revoke(uid: string)
      requires Inv(St())
      modifies ledger
      ensures St() == Apply(old(St()), Label.Revoke(uid)) && Inv(St())
    {
      ghost var s := St();
      ledger.RevokeGrant(uid);
      StepKeepsInv(s, Label.Revoke(uid));
    }

    method MoveEpoch(n: nat)
      requires Inv(St())
      modifies ledger
      ensures St() == Apply(old(St()), Label.MoveEpoch(n)) && Inv(St())
    {
      ghost var s := St();
      ledger.BumpEpoch(n);
      StepKeepsInv(s, Label.MoveEpoch(n));
    }

    /** Revoke, then list, then release: nothing the grant had minted is left, whatever ran meanwhile. */
    method Yield(uid: string)
      requires Inv(St())
      modifies this, ledger
      ensures Inv(St()) && Reaches(old(St()), St())
      ensures forall f :: f in old(minted) && f.grantUID == uid ==> Barred(St(), f) && FenceString(f) !in ledger.fibers
    {
      ghost var s0 := St();
      Revoke(uid);
      ghost var s1 := St();
      StepReaches(s0, Label.Revoke(uid), s1);
      Interference();
      ghost var s2 := St();
      ReachesTransitive(s0, s1, s2);
      RevokeCorners(s0, uid, s2);
      var listed := ledger.ListFibers(uid);
      Sweep(listed, MintedFor(s0, uid));
      ReachesTransitive(s0, s2, St());
    }

    /** Move the epoch, then list, then release: no fiber of an earlier epoch is left. */
    method BumpEpoch(n: nat)
      requires Inv(St())
      modifies this, ledger
      ensures Inv(St()) && Reaches(old(St()), St()) && ledger.epoch >= n
      ensures forall id :: id in ledger.fibers ==> ledger.fibers[id].fence.epoch >= n
    {
      ghost var s0 := St();
      MoveEpoch(n);
      ghost var s1 := St();
      StepReaches(s0, Label.MoveEpoch(n), s1);
      SweepBefore(n);
      ReachesTransitive(s0, s1, St());
    }

    method SweepBefore(n: nat)
      requires Inv(St()) && ledger.epoch >= n
      modifies this, ledger
      ensures Inv(St()) && Reaches(old(St()), St()) && ledger.epoch >= n
      ensures forall id :: id in ledger.fibers ==> ledger.fibers[id].fence.epoch >= n
    {
      ghost var s1 := St();
      Interference();
      ghost var s2 := St();
      EpochCorners(s1, n, s2);
      var listed := set id | id in ledger.fibers && ledger.fibers[id].fence.epoch < n;
      Sweep(listed, MintedBefore(s1, n));
      ReachesTransitive(s1, s2, St());
      EpochSwept(s1, n, St());
    }

    /** Every listed fiber is looked up, released by the runtime and recorded, with others running between. */
    method Sweep(listed: set<string>, ghost stale: set<Fence>)
      requires Inv(St()) && Cornered(St(), stale, listed)
      modifies this, ledger
      ensures Inv(St()) && Reaches(old(St()), St()) && Cornered(St(), stale, {})
    {
      ghost var s0 := St();
      ReachesItself(s0);
      var left := listed;
      while left != {}
        invariant Inv(St()) && Reaches(s0, St()) && Cornered(St(), stale, left)
        decreases |left|
      {
        var id :| id in left;
        ghost var s1 := St();
        SweepOne(id, stale, left);
        ReachesTransitive(s0, s1, St());
        left := left - {id};
      }
    }

    method SweepOne(id: string, ghost stale: set<Fence>, ghost left: set<string>)
      requires Inv(St()) && Cornered(St(), stale, left)
      modifies this, ledger
      ensures Inv(St()) && Reaches(old(St()), St()) && Cornered(St(), stale, left - {id})
    {
      ghost var s0 := St();
      Interference();
      CorneredStays(s0, St(), stale, left);
      if id in ledger.fibers {
        ghost var s1 := St();
        Interference();
        ghost var s2 := St();
        CorneredStays(s1, s2, stale, left);
        ReachesTransitive(s0, s1, s2);
        Released(id);
        StepReaches(s2, Label.Release(id), St());
        ReachesTransitive(s0, s2, St());
        ReleaseCorners(s2, stale, left, id);
      }
    }

    method Released(id: string)
      requires Inv(St())
      modifies ledger
      ensures St() == Apply(old(St()), Label.Release(id)) && Inv(St())
    {
      ghost var s := St();
      var _, _, _ := ledger.OnGone(id);
      StepKeepsInv(s, Label.Release(id));
    }

    method StartDrain()
      requires Inv(St())
      modifies this
      ensures St() == Apply(old(St()), Label.StartDrain) && Inv(St())
    {
      ghost var s := St();
      draining := true;
      StepKeepsInv(s, Label.StartDrain);
    }

    /**
     Set the flag, then list and end fibers until a listing finds nothing new. It terminates
     however long the others run. `ends` has the fibers it dealt with and how each call ended,
     `left` those it listed but did not start because its context had ended, which it does not if
     it lasts. Once a listing found nothing new, every fiber still there of the grants that listing
     saw is one the runtime failed on or one left; `seen` is the state of that listing.
     */
    method Drain(runtime: string -> string, lasts: bool)
      returns (ends: map<string, Ended>, left: set<string>, ended: bool, complete: bool, ghost seen: State)
      requires Inv(St())
      modifies this, ledger
      ensures Inv(St()) && St().draining && Reaches(old(St()), St())
      ensures AllEnd(old(St()), St(), ends) && Answers(ends, runtime)
      ensures (left != {} ==> ended) && (!complete ==> ended) && (lasts ==> !ended)
      ensures complete ==> Reaches(old(St()), seen) && Reaches(seen, St())
      ensures complete ==> forall id :: id in ledger.fibers && ledger.fibers[id].grantUID in seen.l.grants ==>
        (id in ends && ends[id].RanOn?) || id in left
    {
      ghost var s0 := St();
      StartDrain();
      StepReaches(s0, Label.StartDrain, St());
      ghost var all := ledger.fibers.Keys;
      ends, left, ended, complete, seen := map[], {}, false, false, St();
      var stop := false;
      while !complete && !stop
        invariant Inv(St()) && Draining(all) && Reaches(s0, St()) && AllEnd(s0, St(), ends)
        invariant Answers(ends, runtime) && (left != {} ==> ended) && (stop ==> ended) && (lasts ==> !ended)
        invariant complete ==>
          Reaches(s0, seen) && Reaches(seen, St()) && Tried(St(), seen.l.grants.Keys, ends.Keys + left)
        decreases !complete, all - (ends.Keys + left)
      {
        complete, stop, ends, left, ended, seen := DrainPass(ends, left, ended, runtime, lasts, all, s0);
      }
    }

    /** The drain has begun, and only fibers that ran then still do. */
    ghost predicate Draining(all: set<string>)
      reads this, ledger
    {
      draining && ledger.fibers.Keys <= all
    }

    /** One pass: a listing, then its batch, unless the listing is empty or the context has ended. */
    method DrainPass(ends: map<string, Ended>, left: set<string>, ended: bool, runtime: string -> string, lasts: bool,
                     ghost all: set<string>, ghost start: State)
      returns (complete: bool, stop: bool, ends': map<string, Ended>, left': set<string>, ended': bool,
               ghost seen: State)
      requires Inv(St()) && Draining(all) && Reaches(start, St()) && AllEnd(start, St(), ends) && Answers(ends, runtime)
      requires (left != {} ==> ended) && (lasts ==> !ended)
      modifies this, ledger
      ensures Inv(St()) && Draining(all) && Reaches(start, seen) && Reaches(seen, St()) && Reaches(start, St())
      ensures AllEnd(start, St(), ends') && Answers(ends', runtime) && (left' != {} ==> ended') && (stop ==> ended')
      ensures lasts ==> !ended'
      ensures complete ==> Tried(St(), seen.l.grants.Keys, ends'.Keys + left')
      ensures !complete ==> all - (ends'.Keys + left') < all - (ends.Keys + left)
    {
      ghost var s0 := St();
      var tried := ends.Keys + left;
      var batch, now;
      batch, now, seen := DrainList(tried, all);
      ghost var s1 := St();
      EndsStay(start, s0, s1, ends);
      ReachesTransitive(start, s0, s1);
      ReachesTransitive(start, s0, seen);
      complete, stop, ends', left', ended' := batch == {}, false, ends, left, ended;
      if batch != {} {
        ListingShrinks(all, tried, now, batch);
        stop, ends', left', ended' := Deal(batch, ends, left, ended, runtime, lasts, start);
        TriedStays(s1, St(), {}, {});
        ReachesTransitive(seen, s1, St());
      }
    }

    /** Nothing is started once the context has ended. */
    method Deal(batch: set<string>, ends: map<string, Ended>, left: set<string>, ended: bool,
                runtime: string -> string, lasts: bool, ghost start: State)
      returns (stop: bool, ends': map<string, Ended>, left': set<string>, ended': bool)
      requires Inv(St()) && St().draining && Reaches(start, St()) && AllEnd(start, St(), ends) && Answers(ends, runtime)
      requires (left != {} ==> ended) && (lasts ==> !ended)
      modifies this, ledger
      ensures Inv(St()) && Reaches(start, St()) && Reaches(old(St()), St()) && AllEnd(start, St(), ends')
      ensures Answers(ends', runtime) && ends'.Keys + left' == ends.Keys + left + batch
      ensures (left' != {} ==> ended') && (stop ==> ended') && (lasts ==> !ended')
    {
      ghost var s := St();
      ended' := ended;
      if !ended && !lasts {
        ended' := *;
      }
      if ended' {
        ReachesItself(s);
        stop, ends', left' := true, ends, left + batch;
      } else {
        var more, rest;
        more, rest, ended' := DrainBatch(batch, runtime, lasts, start);
        JoinEnds(start, s, St(), ends, more, runtime);
        ReachesTransitive(start, s, St());
        stop, ends', left' := false, ends + more, left + rest;
        NoneMissed(ends, more, left, rest, batch);
      }
    }

    /** Others run while the home drains: fibers leave, none come. */
    method InterferenceWhileDraining(ghost all: set<string>, ghost done: set<string>, ghost tried: set<string>)
      requires Inv(St()) && Draining(all) && Tried(St(), done, tried)
      modifies this, ledger
      ensures Inv(St()) && Draining(all) && Tried(St(), done, tried) && Reaches(old(St()), St())
    {
      ghost var s := St();
      Interference();
      TriedStays(s, St(), done, tried);
    }

    /** One listing: the admitted grants first, then each grant's fibers, in separate lock holds. */
    method DrainList(tried: set<string>, ghost all: set<string>)
      returns (batch: set<string>, now: set<string>, ghost seen: State)
      requires Inv(St()) && Draining(all)
      modifies this, ledger
      ensures Inv(St()) && Draining(all) && Reaches(old(St()), seen) && Reaches(seen, St()) && Reaches(old(St()), St())
      ensures batch !! tried && now == tried + batch && batch <= all
      ensures Tried(St(), seen.l.grants.Keys, now)
    {
      InterferenceWhileDraining(all, {}, {});
      seen := St();
      var uids := ledger.grants.Keys;
      now := DrainListGrants(uids, tried, all);
      batch := now - tried;
      ReachesTransitive(old(St()), seen, St());
    }

    method DrainListGrants(uids: set<string>, tried: set<string>, ghost all: set<string>) returns (now: set<string>)
      requires Inv(St()) && Draining(all)
      modifies this, ledger
      ensures Inv(St()) && Draining(all) && Reaches(old(St()), St())
      ensures tried <= now <= tried + all && Tried(St(), uids, now)
    {
      ghost var s0 := St();
      ReachesItself(s0);
      var todo, done := uids, {};
      now := tried;
      while todo != {}
        invariant done + todo == uids && Inv(St()) && Draining(all) && Reaches(s0, St())
        invariant tried <= now <= tried + all && Tried(St(), done, now)
        decreases |todo|
      {
        var uid :| uid in todo;
        ghost var s1 := St();
        var ids := DrainListGrant(uid, done, now, all);
        ReachesTransitive(s0, s1, St());
        now, todo, done := now + ids, todo - {uid}, done + {uid};
      }
    }

    method DrainListGrant(uid: string, ghost done: set<string>, ghost now: set<string>, ghost all: set<string>)
      returns (ids: set<string>)
      requires Inv(St()) && Draining(all) && Tried(St(), done, now)
      modifies this, ledger
      ensures Inv(St()) && Draining(all) && Reaches(old(St()), St())
      ensures ids <= all && Tried(St(), done + {uid}, now + ids)
    {
      InterferenceWhileDraining(all, done, now);
      ids := ledger.ListFibers(uid);
    }

    /** Each fiber of the batch gets its call, until the context ends. */
    method DrainBatch(batch: set<string>, runtime: string -> string, lasts: bool, ghost start: State)
      returns (ends: map<string, Ended>, left: set<string>, ended: bool)
      requires Inv(St()) && St().draining && Reaches(start, St())
      modifies this, ledger
      ensures Inv(St()) && St().draining && Reaches(old(St()), St()) && AllEnd(start, St(), ends)
      ensures Answers(ends, runtime) && left <= batch && ends.Keys == batch - left && (left != {} ==> ended)
      ensures lasts ==> !ended
    {
      ghost var s0 := St();
      ReachesItself(s0);
      ends, left, ended := map[], batch, false;
      ghost var now := s0;
      while left != {} && !ended
        invariant now == St() && Reaches(s0, now) && AllEnd(start, now, ends) && left <= batch
        invariant ends.Keys == batch - left
        invariant Answers(ends, runtime) && (lasts ==> !ended)
        decreases left, !ended
      {
        if !lasts {
          ended := *;
        }
        if !ended {
          var id :| id in left;
          MovesOver(batch, left, id);
          ends, now := DrainNext(id, ends, runtime, start, s0);
          left := left - {id};
        }
      }
      TriedStays(s0, now, {}, {});
    }

    /** One more fiber's call, and its outcome. */
    method DrainNext(id: string, ends: map<string, Ended>, runtime: string -> string, ghost start: State,
                     ghost s0: State)
      returns (ends': map<string, Ended>, ghost now: State)
      requires Answers(ends, runtime) && Inv(s0) && s0.draining && Reaches(start, s0) && Reaches(s0, St())
      requires AllEnd(start, St(), ends)
      modifies this, ledger
      ensures Answers(ends', runtime) && now == St() && Reaches(s0, now) && AllEnd(start, now, ends')
      ensures ends'.Keys == ends.Keys + {id}
    {
      ghost var s := St();
      StillDraining(start, s0, s);
      var e := DrainCall(id, runtime(id), start);
      now := St();
      ends' := ends[id := e];
      OneMoreDrained(start, s0, s, now, ends, runtime, id, e);
    }

    method DrainCall(id: string, ref: string, ghost start: State) returns (e: Ended)
      requires Inv(St()) && St().draining && Reaches(start, St())
      modifies this, ledger
      ensures Reaches(old(St()), St()) && Ends(start, St(), id, e) && (e.RanOn? ==> ref == "")
      ensures e.ParkedAs? ==> e.ref == ref
    {
      ghost var at: State;
      e, at := DrainOne(id, ref, start);
    }

    /**
     A named session is parked at `ref`, an anonymous fiber released; "" is the runtime's failure,
     and the fiber runs on. `at` is the state this call's own step, if it takes one, starts from: a
     fiber that was gone had left by then, so others took it, and one that was there is parked or
     shed by that step as its session requires.
     */
    method DrainOne(id: string, ref: string, ghost start: State) returns (e: Ended, ghost at: State)
      requires Inv(St()) && St().draining && Reaches(start, St())
      modifies this, ledger
      ensures Inv(St()) && St().draining && Reaches(start, St()) && Reaches(old(St()), St()) && Ends(start, St(), id, e)
      ensures Reaches(old(St()), at) && (e.Gone? <==> id !in at.l.fibers)
      ensures e.RanOn? ==> ref == "" && St() == at
      ensures e.ParkedAs? ==> e.ref == ref && WellFormed(at.l) && St() == Apply(at, Label.ParkFiber(id, ref))
      ensures e.Shed? ==> WellFormed(at.l) && St() == Apply(at, Label.Release(id))
    {
      ghost var s0 := St();
      Interference();
      ghost var s1 := St();
      TriedStays(s0, s1, {}, {});
      ReachesTransitive(start, s0, s1);
      if id !in ledger.fibers {
        return Gone, s1;
      }
      var named := ledger.fibers[id].sessionKey != "";
      Interference();
      at := St();
      TriedStays(s1, at, {}, {});
      ReachesTransitive(start, s1, at);
      ReachesTransitive(s0, s1, at);
      e := EndOne(id, ref, named, start);
      ReachesTransitive(s0, at, St());
    }

    /** The runtime has answered: the ledger follows it. */
    method EndOne(id: string, ref: string, named: bool, ghost start: State) returns (e: Ended)
      requires Inv(St()) && St().draining && Reaches(start, St())
      requires id in ledger.fibers ==> named == (ledger.fibers[id].sessionKey != "")
      modifies ledger
      ensures Inv(St()) && St().draining && Reaches(start, St()) && Reaches(old(St()), St()) && Ends(start, St(), id, e)
      ensures e.Gone? <==> id !in old(ledger.fibers)
      ensures e.RanOn? ==> ref == "" && St() == old(St())
      ensures e.ParkedAs? ==> e.ref == ref && St() == Apply(old(St()), Label.ParkFiber(id, ref))
      ensures e.Shed? ==> St() == Apply(old(St()), Label.Release(id))
    {
      ghost var s := St();
      if ref == "" {
        ReachesItself(s);
        e := if id in ledger.fibers then RanOn else Gone;
      } else if named {
        e := ParkOne(id, ref, start);
      } else {
        e := ReleaseOne(id, start);
      }
    }

    method ParkOne(id: string, ref: string, ghost start: State) returns (e: Ended)
      requires Inv(St()) && Reaches(start, St()) && ref != ""
      requires id in ledger.fibers ==> ledger.fibers[id].sessionKey != ""
      modifies ledger
      ensures St() == Apply(old(St()), Label.ParkFiber(id, ref)) && Inv(St()) && Reaches(start, St())
      ensures Ends(start, St(), id, e)
      ensures e == (if id in old(ledger.fibers) then ParkedAs(ref) else Gone) && Reaches(old(St()), St())
      ensures draining == old(draining)
    {
      ghost var s := St();
      ParkEnds(start, s, id, ref);
      StepReaches(s, Label.ParkFiber(id, ref), Apply(s, Label.ParkFiber(id, ref)));
      StepKeepsInv(s, Label.ParkFiber(id, ref));
      e := if id in ledger.fibers then ParkedAs(ref) else Gone;
      var _, _ := ledger.OnPark(id, ref);
    }

    method ReleaseOne(id: string, ghost start: State) returns (e: Ended)
      requires Inv(St()) && Reaches(start, St()) && (id in ledger.fibers ==> ledger.fibers[id].sessionKey == "")
      modifies ledger
      ensures St() == Apply(old(St()), Label.Release(id)) && Inv(St()) && Reaches(start, St())
      ensures Ends(start, St(), id, e)
      ensures e == (if id in old(ledger.fibers) then Shed else Gone) && Reaches(old(St()), St())
      ensures draining == old(draining)
    {
      StepReaches(St(), Label.Release(id), Apply(St(), Label.Release(id)));
      ReleaseSheds(start, St(), id);
      e := if id in ledger.fibers then Shed else Gone;
      Released(id);
    }

    // ------------------------------------------------------------ Clone, one lock hold at a time

    /** Others run while clone `op` works outside the locks; nobody else touches its record. */
    method InterferenceBeside(ghost op: nat)
      requires Inv(St()) && op in clones
      modifies this, ledger
      ensures Reaches(old(St()), St()) && Inv(St()) && op in clones && clones[op] == old(clones[op])
    {
      ReachesItself(St());
    }

    method Resolve(ghost op: nat, uid: string, name: string, tier: nat, now: int) returns (d: Resolution)
      requires Inv(St()) && op in clones && clones[op] == CloneOp(uid, name, Gated)
      modifies this, ledger
      ensures St() == Apply(old(St()), Label.Resolve(op, tier, now)) && Inv(St())
      ensures d == Decide(old(ledger.View()), uid, name, tier, now)
    {
      ghost var s := St();
      StepKeepsInv(s, Label.Resolve(op, tier, now));
      d := ledger.ResolveHeld(uid, name, tier, now);
      match d
      case Refused(_) =>
      case Attach(f, _) => clones := SetPhase(s, op, Phase.Attached(f));
      case Birth(act, e, f, ref) =>
        clones := SetPhase(s, op, Reserved(e, f, act, ref));
        minted := minted[f := e];
    }

    /** The commit and the take of a held exit, under one hold of the exits' lock. */
    method CommitHeld(ghost op: nat, entry: nat, x: Session) returns (ok: bool, died: bool)
      requires op in clones && clones[op].phase.Built? && x == Offer(clones[op]) && entry == clones[op].phase.entry
      modifies this, ledger
      ensures St() == CommitStep(old(St()), op) && op in clones
      ensures clones[op].phase == if ok then Landed(x.handle, died) else Failed(entry)
    {
      ghost var s := St();
      ok := ledger.Commit(entry, x, draining);
      died := x.handle in pending;
      pending := pending - {x.handle};
      clones := SetPhase(s, op, if ok then Landed(x.handle, died) else Failed(entry));
    }

    /** OnExit: free the fiber the ledger knows, or hold the exit for the commit to come. */
    method OnExit(id: string, ghost f: Fence)
      requires WellFormed(ledger.View()) && f in minted && id == FenceString(f)
      modifies this, ledger
      ensures St() == ExitStep(old(St()), id)
    {
      var fence, _, _ := ledger.OnGone(id);
      if fence.None? {
        pending := pending + {id};
      }
      exited := exited + {id};
    }

    method Unlock(ghost op: nat, entry: nat)
      requires Inv(St()) && op in clones && clones[op].phase == Failed(entry)
      modifies this, ledger
      ensures St() == Apply(old(St()), Label.Finish(op)) && Inv(St())
    {
      ghost var s := St();
      StepKeepsInv(s, Label.Finish(op));
      ledger.Unreserve(entry);
      clones := clones - {op};
    }

    /** A clone without a fiber returns its slot and its gate. */
    method GiveUp(ghost op: nat, entry: nat)
      requires Inv(St()) && op in clones && clones[op].phase == Failed(entry)
      modifies this, ledger
      ensures Inv(St()) && Reaches(old(St()), St()) && op !in clones
    {
      ghost var s0 := St();
      InterferenceBeside(op);
      ghost var s1 := St();
      Unlock(op, entry);
      StepReaches(s1, Label.Finish(op), St());
      ReachesTransitive(s0, s1, St());
    }

    method Replay(ghost op: nat, id: string)
      requires Inv(St()) && op in clones && clones[op].phase == Landed(id, true)
      modifies this, ledger
      ensures St() == Apply(old(St()), Label.Replay(op)) && Inv(St()) && op in clones
      ensures clones[op].phase == Landed(id, false)
    {
      ghost var s := St();
      StepKeepsInv(s, Label.Replay(op));
      clones := SetPhase(s, op, Landed(id, false));
      OnExit(id, ReportedFence(s, op));
    }

    method Leave(ghost op: nat)
      requires Inv(St()) && Enabled(St(), Label.Finish(op)) && !clones[op].phase.Failed?
      modifies this
      ensures Inv(St()) && Reaches(old(St()), St()) && op !in clones
    {
      ghost var s := St();
      clones := clones - {op};
      StepKeepsInv(s, Label.Finish(op));
      StepReaches(s, Label.Finish(op), St());
    }

    /** A committed clone replays the exit held for its fiber, if any, and returns its gate. */
    method Settle(ghost op: nat, id: string, died: bool)
      requires Inv(St()) && op in clones && clones[op].phase == Landed(id, died)
      modifies this, ledger
      ensures Inv(St()) && Reaches(old(St()), St()) && op !in clones
    {
      ghost var s0 := St();
      InterferenceBeside(op);
      if died {
        ghost var s1 := St();
        Replay(op, id);
        StepReaches(s1, Label.Replay(op), St());
        ReachesTransitive(s0, s1, St());
      }
      ghost var s2 := St();
      Leave(op);
      ReachesTransitive(s0, s2, St());
    }

    /** The runtime returns a fiber or fails; `at` is the state its answer finds. */
    method RuntimeClone(ghost op: nat, ghost c: CloneOp, endpoint: Option<string>) returns (ghost at: State)
      requires Inv(St()) && op in clones && clones[op] == c && c.phase.Reserved?
      modifies this, ledger
      ensures Inv(St()) && Reaches(old(St()), St()) && op in clones
      ensures clones[op] ==
        c.(phase := if endpoint.Some?
                    then Built(c.phase.entry, c.phase.fence, c.phase.action, c.phase.ref, endpoint.value)
                    else Failed(c.phase.entry))
      ensures Inv(at) && Reaches(old(St()), at) && op in at.clones && at.clones[op] == c
      ensures endpoint.None? ==> St() == Apply(at, RuntimeFails(op))
    {
      ghost var s0 := St();
      InterferenceBeside(op);
      at := St();
      ghost var a := if endpoint.Some? then RuntimeReturns(op, endpoint.value) else RuntimeFails(op);
      RuntimeAnswers(op, a);
      StepReaches(at, a, St());
      ReachesTransitive(s0, at, St());
    }

    method RuntimeAnswers(ghost op: nat, ghost a: Label)
      requires Inv(St()) && op in clones && clones[op].phase.Reserved?
      requires a == RuntimeFails(op) || (a.RuntimeReturns? && a.op == op)
      modifies this`clones
      ensures St() == Apply(old(St()), a) && Inv(St())
    {
      ghost var s := St();
      StepKeepsInv(s, a);
      clones := Apply(s, a).clones;
    }

    /**
     The runtime works, the birth is audited, and the fiber is committed, or the clone gives up.
     `committed` is exact: the fiber entered the ledger in this clone's own step, or never will.
     */
    method Build(ghost op: nat, uid: string, name: string, act: Action, entry: nat, fence: Fence, ref: string,
                 w: Answer)
      returns (committed: bool)
      requires Inv(St()) && op in clones && clones[op] == CloneOp(uid, name, Reserved(entry, fence, act, ref))
      modifies this, ledger
      ensures Inv(St()) && Reaches(old(St()), St()) && op !in clones
      ensures committed ==> w.endpoint.Some? && !(!w.audited && w.released)
      ensures committed ==> CommittedBetween(old(St()), St(), op, uid, name, fence, w.endpoint.value)
      ensures !committed ==> GaveUpBetween(old(St()), St(), op, fence, w)
    {
      ghost var s0 := St();
      ghost var at := RuntimeClone(op, clones[op], w.endpoint);
      ghost var s1 := St();
      if w.endpoint.Some? {
        committed := Land(op, uid, name, act, entry, fence, ref, w);
        ReachesItself(St());
        if committed {
          CommittedWithin(s0, s1, St(), St(), op, uid, name, fence, w.endpoint.value);
        } else {
          GaveUpWithin(s0, s1, St(), St(), op, fence, w);
        }
      } else {
        committed := false;
        GiveUpHappens(s0, at, RuntimeFails(op), op, w);
        GaveUpFor(op, entry, fence, w, s0);
      }
      ReachesTransitive(s0, s1, St());
    }

    /** A clone that gave up returns its slot and its gate. */
    method GaveUpFor(ghost op: nat, entry: nat, ghost fence: Fence, ghost w: Answer, ghost s0: State)
      requires Inv(St()) && op in clones && clones[op].phase == Failed(entry) && GaveUpBetween(s0, St(), op, fence, w)
      modifies this, ledger
      ensures Inv(St()) && Reaches(old(St()), St()) && op !in clones && GaveUpBetween(s0, St(), op, fence, w)
    {
      ghost var s1 := St();
      ReachesItself(s0);
      GiveUp(op, entry);
      GaveUpWithin(s0, s0, s1, St(), op, fence, w);
    }

    method Land(ghost op: nat, uid: string, name: string, act: Action, entry: nat, fence: Fence, ref: string, w: Answer)
      returns (committed: bool)
      requires w.endpoint.Some?
      requires Inv(St()) && op in clones
      requires clones[op] == CloneOp(uid, name, Built(entry, fence, act, ref, w.endpoint.value))
      modifies this, ledger
      ensures Inv(St()) && Reaches(old(St()), St()) && op !in clones
      ensures committed ==> !(!w.audited && w.released)
      ensures committed ==> CommittedBetween(old(St()), St(), op, uid, name, fence, w.endpoint.value)
      ensures !committed ==> GaveUpBetween(old(St()), St(), op, fence, w)
    {
      ghost var s0 := St();
      InterferenceBeside(op);
      ghost var s1 := St();
      if !w.audited && w.released {
        RolledBack(op, entry, FenceString(fence));
        StepReaches(s1, Label.RollBack(op), St());
        ReachesTransitive(s0, s1, St());
        GiveUpHappens(s0, s1, Label.RollBack(op), op, w);
        ghost var s2 := St();
        GaveUpFor(op, entry, fence, w, s0);
        ReachesTransitive(s0, s2, St());
        return false;
      }
      committed := CommitOrGiveUp(op, uid, name, act, entry, fence, ref, w, s0);
      ReachesTransitive(s0, s1, St());
    }

    /** The commit, and what follows it either way. */
    method CommitOrGiveUp(ghost op: nat, uid: string, name: string, act: Action, entry: nat, fence: Fence, ref: string,
                          w: Answer, ghost s0: State) returns (committed: bool)
      requires w.endpoint.Some? && (w.audited || !w.released)
      requires Inv(St()) && op in clones && Reaches(s0, St())
      requires clones[op] == CloneOp(uid, name, Built(entry, fence, act, ref, w.endpoint.value))
      modifies this, ledger
      ensures Inv(St()) && Reaches(old(St()), St()) && op !in clones
      ensures committed ==> CommittedBetween(s0, St(), op, uid, name, fence, w.endpoint.value)
      ensures !committed ==> GaveUpBetween(s0, St(), op, fence, w)
    {
      ghost var s1 := St();
      var x := Session(name, uid, Running, fence, FenceString(fence), w.endpoint.value, ref);
      var died: bool;
      committed, died := CommitHeld(op, entry, x);
      StepTaken(s1, Label.Commit(op), St());
      ghost var s2 := St();
      if committed {
        CommitHappens(s0, s1, op, s1.clones[op]);
        Settle(op, x.handle, died);
        ReachesItself(s0);
        CommittedWithin(s0, s0, s2, St(), op, uid, name, fence, w.endpoint.value);
      } else {
        GiveUpHappens(s0, s1, Label.Commit(op), op, w);
        GaveUpFor(op, entry, fence, w, s0);
      }
      ReachesTransitive(s1, s2, St());
    }

    /** The audit record failed and the runtime released the fiber; an exit held for it goes. */
    method RolledBack(ghost op: nat, entry: nat, id: string)
      requires Inv(St()) && op in clones && clones[op].phase.Built? && clones[op].phase.entry == entry
      requires id == FenceString(clones[op].phase.fence)
      modifies this
      ensures St() == Apply(old(St()), Label.RollBack(op)) && Inv(St()) && op in clones
      ensures clones[op].phase == Failed(entry)
    {
      ghost var s := St();
      StepKeepsInv(s, Label.RollBack(op));
      pending := pending - {id};
      clones := SetPhase(s, op, Failed(entry));
    }

    /**
     Clone, with others running between any two of its lock holds. A draining home takes none. It
     leaves no reservation and no gate behind. Unless it is refused, its grant served it when it resolved. A fiber it
     reports was put into the ledger by its own commit, under a fence newer than every fence the
     grant had when it began; one it does not report never was and never will be. An attach returns
     the fiber its session was running as at that moment, and mints nothing.
     */
    method Clone(ghost op: nat, uid: string, name: string, tier: nat, now: int, w: Answer) returns (r: CloneResult)
      requires Inv(St()) && Enabled(St(), Begin(op, uid, name))
      modifies this, ledger
      ensures Inv(St()) && Reaches(old(St()), St()) && op !in clones
      ensures Told(old(St()), St(), op, uid, name, tier, now, w, r)
      ensures old(draining) ==> r == Missed && St() == old(St())
    {
      ghost var s0 := St();
      if draining {
        ReachesItself(s0);
        return Missed;
      }
      clones := clones[op := CloneOp(uid, name, Gated)];
      StepKeepsInv(s0, Begin(op, uid, name));
      StepReaches(s0, Begin(op, uid, name), St());
      ghost var s1 := St();
      r := CloneGated(op, uid, name, tier, now, w);
      ReachesTransitive(s0, s1, St());
      ToldWithin(s0, s1, St(), op, uid, name, tier, now, w, r);
    }

    /** The same once the session's gate is held. */
    method CloneGated(ghost op: nat, uid: string, name: string, tier: nat, now: int, w: Answer) returns (r: CloneResult)
      requires Inv(St()) && op in clones && clones[op] == CloneOp(uid, name, Gated)
      modifies this, ledger
      ensures Inv(St()) && Reaches(old(St()), St()) && op !in clones
      ensures Told(old(St()), St(), op, uid, name, tier, now, w, r)
    {
      ghost var s0 := St();
      var d := ResolveGated(op, uid, name, tier, now);
      ghost var s1 := St();
      ReachesItself(s0);
      match d {
        case Refused(e) =>
          Leave(op);
          r := Missed;
          RefusedWithin(s0, s0, s1, St(), op, uid, name, tier, now);
        case Attach(f, endpoint) =>
          Leave(op);
          r := CloneResult.Attached(f, endpoint);
          ServedWithin(s0, s0, s1, St(), op, uid, tier, now);
          AttachedWithin(s0, s0, s1, St(), op, uid, name, f, endpoint);
        case Birth(act, e, f, ref) =>
          r := Born(op, uid, name, tier, now, w, act, e, f, ref, s0);
      }
      ReachesTransitive(s0, s1, St());
    }

    /** What a clone that builds a fiber is told. */
    method Born(ghost op: nat, uid: string, name: string, ghost tier: nat, ghost now: int, w: Answer,
                act: Action, e: nat, f: Fence, ref: string, ghost s0: State) returns (r: CloneResult)
      requires Inv(St()) && op in clones && clones[op] == CloneOp(uid, name, Reserved(e, f, act, ref))
      requires Reaches(s0, St()) && ServedBetween(s0, St(), op, uid, tier, now) && NewFor(s0, St(), uid, f)
      modifies this, ledger
      ensures Inv(St()) && Reaches(old(St()), St()) && op !in clones
      ensures Told(s0, St(), op, uid, name, tier, now, w, r)
    {
      ghost var s1 := St();
      var committed := Build(op, uid, name, act, e, f, ref, w);
      ReachesItself(s0);
      ReachesItself(St());
      ReachesEvolves(s1, St());
      ServedWithin(s0, s0, s1, St(), op, uid, tier, now);
      if committed {
        CommittedWithin(s0, s1, St(), St(), op, uid, name, f, w.endpoint.value);
        r := if w.audited then Cloned(f, w.endpoint.value) else Unreleased(f);
      } else {
        GaveUpWithin(s0, s1, St(), St(), op, f, w);
        r := Missed;
      }
    }

    method ResolveGated(ghost op: nat, uid: string, name: string, tier: nat, now: int) returns (d: Resolution)
      requires Inv(St()) && op in clones && clones[op] == CloneOp(uid, name, Gated)
      modifies this, ledger
      ensures Inv(St()) && Reaches(old(St()), St()) && op in clones
      ensures clones[op] == CloneOp(uid, name, match d
                                               case Refused(_) => Gated
                                               case Attach(f, _) => Phase.Attached(f)
                                               case Birth(act, e, f, ref) => Reserved(e, f, act, ref))
      ensures d.Birth? ==> NewFor(old(St()), St(), uid, d.fence)
      ensures d.Attach? ==> AttachedBetween(old(St()), St(), op, uid, name, d.fence, d.endpoint)
      ensures if d.Refused? then RefusedBetween(old(St()), St(), op, uid, name, tier, now)
              else ServedBetween(old(St()), St(), op, uid, tier, now)
    {
      ghost var s0 := St();
      InterferenceBeside(op);
      ghost var s1 := St();
      ReachesEvolves(s0, s1);
      d := Resolve(op, uid, name, tier, now);
      if d.Birth? { BirthIsNew(s0, s1, op, tier, now); }
      if d.Attach? { AttachHappens(s0, s1, op, uid, name, tier, now); }
      ResolveHappens(s0, s1, op, uid, name, tier, now);
      StepReaches(s1, Label.Resolve(op, tier, now), St());
      ReachesTransitive(s0, s1, St());
    }
  }
}
