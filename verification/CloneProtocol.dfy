/**
 The clone protocol as a step machine. Every hold of the ledger's lock, and every hold of
 the lock over held exits, is one step; the runtime works between steps. A clone in flight
 is a record of what its closures captured. Steps of any number of clones, parks, releases,
 exits, revocations, epoch moves, admissions and drains interleave freely.
 */
module CloneProtocol {
  import opened Fences
  import opened LedgerState

  datatype Phase =
    | Gated                                                            // before the resolve
    | Attached(at: Fence)                                              // found its session running
    | Reserved(entry: nat, fence: Fence, action: Action, ref: string)  // slot held, the runtime works
    | Built(entry: nat, fence: Fence, action: Action, ref: string, endpoint: string)
    | Failed(entry: nat)                                               // slot held, no fiber to commit
    | Landed(id: string, died: bool)                                   // committed; died: an exit was held for it

  datatype CloneOp = CloneOp(uid: string, name: string, phase: Phase)

  /**
   `minted` and `inherited` are history: which entry minted each fence, and how many fibers
   of its uid the ledger held when each entry was admitted. `exited` is every fiber whose
   exit the runtime has reported, `pending` the exits held for a commit.
   */
  datatype State = State(l: View, draining: bool, clones: map<nat, CloneOp>, pending: set<string>,
                         exited: set<string>, minted: map<Fence, nat>, inherited: seq<nat>)

  datatype Label =
    | Admit(g: Grant)
    | Revoke(uid: string)
    | MoveEpoch(epoch: nat)
    | Begin(op: nat, uid: string, name: string)
    | Resolve(op: nat, tier: nat, now: int)
    | RuntimeReturns(op: nat, endpoint: string)
    | RuntimeFails(op: nat)
    | RollBack(op: nat)
    | Commit(op: nat)
    | Replay(op: nat)
    | Finish(op: nat)
    | ParkFiber(id: string, deltaRef: string)
    | Release(id: string)
    | Exit(f: Fence)
    | Forget(uid: string, name: string)
    | Restore(uid: string, name: string, fence: Fence, deltaRef: string)
    | StartDrain

  function Key(op: CloneOp): (k: string) {
    SessionKey(op.uid, op.name)
  }

  function Initial(epoch: nat): (s: State) {
    State(Init(epoch), false, map[], {}, {}, map[], [])
  }

  predicate Enabled(s: State, a: Label) {
    WellFormed(s.l) &&
    match a
    // Core.Admit refuses a refresh that changes a fixed field.
    case Admit(g) => g.uid in s.l.grants ==> !ChangesFixedFields(s.l.entries[s.l.grants[g.uid]].grant, g)
    case Revoke(_) => true
    case MoveEpoch(_) => true
    // A named clone takes its session's gate first.
    case Begin(op, uid, name) =>
      op !in s.clones &&
      (name != "" ==> forall o :: o in s.clones && s.clones[o].name != "" ==> Key(s.clones[o]) != SessionKey(uid, name))
    case Resolve(op, _, _) => op in s.clones && s.clones[op].phase.Gated?
    case RuntimeReturns(op, _) => op in s.clones && s.clones[op].phase.Reserved?
    case RuntimeFails(op) => op in s.clones && s.clones[op].phase.Reserved?
    case RollBack(op) => op in s.clones && s.clones[op].phase.Built?
    case Commit(op) => op in s.clones && s.clones[op].phase.Built?
    case Replay(op) => op in s.clones && s.clones[op].phase.Landed? && s.clones[op].phase.died
    case Finish(op) =>
      op in s.clones &&
      (match s.clones[op].phase
       case Gated => true
       case Attached(_) => true
       case Failed(e) => e < |s.l.entries|
       case Landed(_, died) => !died
       case _ => false)
    case ParkFiber(_, _) => true
    case Release(_) => true
    // The runtime reports at most one exit per fiber, at any time after its fence was minted.
    case Exit(f) => f in s.minted && FenceString(f) !in s.exited
    case Forget(_, _) => true
    case Restore(_, _, _, _) => true
    case StartDrain => true
  }

  function SetPhase(s: State, op: nat, p: Phase): (c: map<nat, CloneOp>)
    requires op in s.clones
  {
    s.clones[op := s.clones[op].(phase := p)]
  }

  /** The session a built clone offers to commit. */
  function Offer(c: CloneOp): (r: Session)
    requires c.phase.Built?
  {
    Session(c.name, c.uid, Running, c.phase.fence, FenceString(c.phase.fence), c.phase.endpoint, c.phase.ref)
  }

  function AdmitStep(s: State, g: Grant): (r: State)
    requires WellFormed(s.l)
  {
    s.(l := AdmitGrant(s.l, g),
       inherited := if g.uid in s.l.grants then s.inherited else s.inherited + [|FibersOf(s.l, g.uid)|])
  }

  function ResolveStep(s: State, op: nat, tier: nat, now: int): (r: State)
    requires WellFormed(s.l) && op in s.clones
  {
    var d := Decide(s.l, s.clones[op].uid, s.clones[op].name, tier, now);
    match d
    case Refused(_) => s
    case Attach(f, _) => s.(clones := SetPhase(s, op, Attached(f)))
    case Birth(act, e, f, ref) =>
      s.(l := Resolved(s.l, d), clones := SetPhase(s, op, Reserved(e, f, act, ref)), minted := s.minted[f := e])
  }

  /** commitHeld: the commit and the take of a held exit, under one hold of the exits' lock. */
  function CommitStep(s: State, op: nat): (r: State)
    requires op in s.clones && s.clones[op].phase.Built?
  {
    var c := s.clones[op];
    var p := c.phase;
    var id := FenceString(p.fence);
    var s1 := s.(pending := s.pending - {id});
    if MayCommit(s.l, c.uid, p.entry, p.fence, s.draining) then
      s1.(l := Committed(s.l, Offer(c)), clones := SetPhase(s, op, Landed(id, id in s.pending)))
    else
      s1.(clones := SetPhase(s, op, Failed(p.entry)))
  }

  /** OnExit: free the fiber the ledger knows, or hold the exit for a commit still to come. */
  function ExitStep(s: State, id: string): (r: State)
    requires WellFormed(s.l)
  {
    if id in s.l.fibers then s.(l := OnGone(s.l, id), exited := s.exited + {id})
    else s.(pending := s.pending + {id}, exited := s.exited + {id})
  }

  function FinishStep(s: State, op: nat): (r: State)
    requires Enabled(s, Finish(op))
    ensures r == s.(clones := s.clones - {op}, l := s.l.(entries := r.l.entries)) && |r.l.entries| == |s.l.entries|
  {
    var s1 := s.(clones := s.clones - {op});
    match s.clones[op].phase
    case Failed(e) => s1.(l := Unreserve(s.l, e))
    case _ => s1
  }

  function Apply(s: State, a: Label): (r: State)
    requires Enabled(s, a)
  {
    match a
    case Admit(g) => AdmitStep(s, g)
    case Revoke(uid) => s.(l := RevokeGrant(s.l, uid))
    case MoveEpoch(n) => s.(l := BumpEpoch(s.l, n))
    case Begin(op, uid, name) => s.(clones := s.clones[op := CloneOp(uid, name, Gated)])
    case Resolve(op, tier, now) => ResolveStep(s, op, tier, now)
    case RuntimeReturns(op, endpoint) =>
      var p := s.clones[op].phase;
      s.(clones := SetPhase(s, op, Built(p.entry, p.fence, p.action, p.ref, endpoint)))
    case RuntimeFails(op) => s.(clones := SetPhase(s, op, Failed(s.clones[op].phase.entry)))
    case RollBack(op) =>
      var p := s.clones[op].phase;
      s.(clones := SetPhase(s, op, Failed(p.entry)), pending := s.pending - {FenceString(p.fence)})
    case Commit(op) => CommitStep(s, op)
    case Replay(op) =>
      var id := s.clones[op].phase.id;
      ExitStep(s.(clones := SetPhase(s, op, Landed(id, false))), id)
    case Finish(op) => FinishStep(s, op)
    case ParkFiber(id, ref) => s.(l := OnPark(s.l, id, ref))
    case Release(id) => s.(l := OnGone(s.l, id))
    case Exit(f) => ExitStep(s, FenceString(f))
    case Forget(uid, name) => s.(l := ForgetSession(s.l, SessionKey(uid, name)))
    case Restore(uid, name, fence, ref) => s.(l := RestoreParked(s.l, uid, name, fence, ref))
    case StartDrain => s.(draining := true)
  }

  // ---------------------------------------------------------------- the invariant

  /** A clone that holds a slot, or its promise to commit one. */
  ghost predicate Building(c: CloneOp) { c.phase.Reserved? || c.phase.Built? }

  ghost predicate HoldsSlot(c: CloneOp, e: nat) {
    (Building(c) || c.phase.Failed?) && c.phase.entry == e
  }

  ghost function Reservations(clones: map<nat, CloneOp>, e: nat): (ops: set<nat>) {
    set o | o in clones && HoldsSlot(clones[o], e)
  }

  /** The largest sequence number the uid has minted so far. */
  function SeqBound(l: View, uid: string): (n: nat)
    requires WellFormed(l)
  {
    if uid in l.grants then l.entries[l.grants[uid]].nextSeq else LastSeq(l, uid)
  }

  ghost predicate FencesBounded(l: View, minted: map<Fence, nat>)
    requires WellFormed(l)
  {
    forall f :: f in minted ==>
      f.epoch <= l.epoch && f.num <= SeqBound(l, f.grantUID) &&
      minted[f] < |l.entries| && l.entries[minted[f]].grant.uid == f.grantUID
  }

  ghost predicate FibersMinted(fibers: map<string, FiberRef>, minted: map<Fence, nat>) {
    forall id :: id in fibers ==>
      id == FenceString(fibers[id].fence) && fibers[id].fence in minted &&
      fibers[id].fence.grantUID == fibers[id].grantUID
  }

  /** What a clone in flight captured is in the history, and its fiber is not in the ledger yet. */
  ghost predicate ClonesMinted(clones: map<nat, CloneOp>, minted: map<Fence, nat>, fibers: map<string, FiberRef>) {
    forall o :: o in clones && Building(clones[o]) ==>
      var p := clones[o].phase;
      p.fence in minted && minted[p.fence] == p.entry && p.fence.grantUID == clones[o].uid &&
      FenceString(p.fence) !in fibers
  }

  ghost predicate FailedInRange(clones: map<nat, CloneOp>, entries: nat) {
    forall o :: o in clones && clones[o].phase.Failed? ==> clones[o].phase.entry < entries
  }

  ghost predicate FencesDistinct(clones: map<nat, CloneOp>) {
    forall o, o' :: o in clones && o' in clones && o != o' && Building(clones[o]) && Building(clones[o']) ==>
      clones[o].phase.fence != clones[o'].phase.fence
  }

  /** Running named sessions and fibers that carry a session key are in one-to-one correspondence. */
  ghost predicate SessionsMatchFibers(sessions: map<string, Session>, fibers: map<string, FiberRef>) {
    (forall id :: id in fibers && fibers[id].sessionKey != "" ==>
       var k := fibers[id].sessionKey;
       k in sessions && sessions[k].state == Running && sessions[k].handle == id) &&
    (forall k :: k in sessions && sessions[k].state == Running ==>
       var id := sessions[k].handle;
       k != "" && id in fibers && fibers[id].sessionKey == k && fibers[id].fence == sessions[k].fence)
  }

  /** The gate: no two named clones in flight share a session. */
  ghost predicate GatesExclusive(clones: map<nat, CloneOp>) {
    forall o, o' :: o in clones && o' in clones && o != o' && clones[o].name != "" && clones[o'].name != "" ==>
      Key(clones[o]) != Key(clones[o'])
  }

  /** While a named clone builds a fiber its session does not run. */
  ghost predicate BuildersAlone(clones: map<nat, CloneOp>, sessions: map<string, Session>) {
    forall o :: o in clones && clones[o].name != "" && Building(clones[o]) ==>
      var k := Key(clones[o]);
      k in sessions ==> sessions[k].state == Parked
  }

  ghost predicate EntryAccount(l: View, clones: map<nat, CloneOp>, inherited: seq<nat>, uid: string)
    requires WellFormed(l) && uid in l.grants && |inherited| == |l.entries|
  {
    var e := l.grants[uid];
    l.entries[e].live + inherited[e] == |FibersOf(l, uid)| + |Reservations(clones, e)| &&
    (l.entries[e].grant.fiberMax > 0 ==> l.entries[e].live <= l.entries[e].grant.fiberMax)
  }

  /** The exact slot account: what an entry counts, plus what it never counted, is what there is. */
  ghost predicate SlotsConserved(l: View, clones: map<nat, CloneOp>, inherited: seq<nat>)
    requires WellFormed(l)
  {
    |inherited| == |l.entries| &&
    forall uid :: uid in l.grants ==> EntryAccount(l, clones, inherited, uid)
  }

  /** A reported exit is held for the clone that will commit the fiber. */
  ghost predicate ExitsHeld(clones: map<nat, CloneOp>, exited: set<string>, pending: set<string>) {
    forall o :: o in clones && Building(clones[o]) && FenceString(clones[o].phase.fence) in exited ==>
      FenceString(clones[o].phase.fence) in pending
  }

  /** A fiber whose exit was reported stays in the ledger only while its clone has yet to replay the exit. */
  ghost predicate ExitsReplayed(clones: map<nat, CloneOp>, exited: set<string>, fibers: map<string, FiberRef>) {
    forall id :: id in fibers && id in exited ==> exists o :: o in clones && clones[o].phase == Landed(id, true)
  }

  /** Held and replayed exits were reported. */
  ghost predicate ExitsKnown(clones: map<nat, CloneOp>, exited: set<string>, pending: set<string>) {
    pending <= exited &&
    forall o :: o in clones && clones[o].phase.Landed? && clones[o].phase.died ==> clones[o].phase.id in exited
  }

  ghost predicate ExitsMinted(exited: set<string>, minted: map<Fence, nat>) {
    forall id :: id in exited ==> exists f :: f in minted && FenceString(f) == id
  }

  /** What ties the ledger's own maps together. */
  ghost predicate LedgerInv(l: View, minted: map<Fence, nat>) {
    WellFormed(l) && FencesBounded(l, minted) && FibersMinted(l.fibers, minted) &&
    SessionsMatchFibers(l.sessions, l.fibers)
  }

  /** What ties the clones in flight to the ledger. */
  ghost predicate ClonesInv(l: View, clones: map<nat, CloneOp>, minted: map<Fence, nat>) {
    ClonesMinted(clones, minted, l.fibers) && FailedInRange(clones, |l.entries|) && FencesDistinct(clones) &&
    GatesExclusive(clones) && BuildersAlone(clones, l.sessions)
  }

  ghost predicate ExitsInv(clones: map<nat, CloneOp>, exited: set<string>, pending: set<string>,
                           fibers: map<string, FiberRef>, minted: map<Fence, nat>) {
    ExitsHeld(clones, exited, pending) && ExitsKnown(clones, exited, pending) &&
    ExitsReplayed(clones, exited, fibers) && ExitsMinted(exited, minted)
  }

  ghost predicate Inv(s: State) {
    LedgerInv(s.l, s.minted) && ClonesInv(s.l, s.clones, s.minted) &&
    ExitsInv(s.clones, s.exited, s.pending, s.l.fibers, s.minted) && SlotsConserved(s.l, s.clones, s.inherited)
  }
}
