/** The protocol's invariant is inductive: it holds at the start and every step of every interleaving keeps it. */
module CloneInvariant {
  import opened Common
  import opened Fences
  import opened LedgerState
  import opened CloneProtocol

  lemma AllFenceStringsInjective()
    ensures forall f, g :: FenceString(f) == FenceString(g) ==> f == g
  {
    forall f, g | FenceString(f) == FenceString(g)
      ensures f == g
    {
      FenceStringInjective(f, g);
    }
  }

  // ------------------------------------------------------------ counting

  lemma SizeBesides(s: set<nat>, x: nat)
    ensures |s| == |s - {x}| + (if x in s then 1 else 0)
  {
    if x in s { SizeWithout(s, x); } else { assert s - {x} == s; }
  }

  /** Changing one clone's record changes an entry's reservations by what that clone held and holds. */
  lemma ReservationsChange(clones: map<nat, CloneOp>, op: nat, c: CloneOp, e: nat)
    ensures
      |Reservations(clones[op := c], e)| ==
      |Reservations(clones, e)| - (if op in clones && HoldsSlot(clones[op], e) then 1 else 0) +
      (if HoldsSlot(c, e) then 1 else 0)
  {
    var before := Reservations(clones, e);
    var after := Reservations(clones[op := c], e);
    assert forall o :: o in after <==> if o == op then HoldsSlot(c, e) else o in before;
    assert after - {op} == before - {op};
    SizeBesides(before, op);
    SizeBesides(after, op);
  }

  lemma ReservationsWithout(clones: map<nat, CloneOp>, op: nat, e: nat)
    requires op in clones
    ensures |Reservations(clones - {op}, e)| == |Reservations(clones, e)| - (if HoldsSlot(clones[op], e) then 1 else 0)
  {
    var before := Reservations(clones, e);
    assert Reservations(clones - {op}, e) == before - {op};
    if op in before {
      SizeWithout(before, op);
    } else {
      assert before - {op} == before;
    }
  }

  lemma FibersWithout(l: View, l': View, id: string, uid: string)
    requires id in l.fibers && l'.fibers == l.fibers - {id}
    ensures |FibersOf(l', uid)| == |FibersOf(l, uid)| - (if l.fibers[id].grantUID == uid then 1 else 0)
  {
    var before := FibersOf(l, uid);
    assert FibersOf(l', uid) == before - {id};
    if id in before {
      SizeWithout(before, id);
    } else {
      assert before - {id} == before;
    }
  }

  lemma FibersWith(l: View, l': View, id: string, ref: FiberRef, uid: string)
    requires id !in l.fibers && l'.fibers == l.fibers[id := ref]
    ensures |FibersOf(l', uid)| == |FibersOf(l, uid)| + (if ref.grantUID == uid then 1 else 0)
  {
    var before := FibersOf(l, uid);
    if ref.grantUID == uid {
      assert FibersOf(l', uid) == before + {id};
    } else {
      assert FibersOf(l', uid) == before;
    }
  }

  lemma NoFibersChange(l: View, l': View, uid: string)
    requires l'.fibers == l.fibers
    ensures FibersOf(l', uid) == FibersOf(l, uid)
  {
  }

  // ------------------------------------------------------------ the slot account

  /** Nothing the account reads changed, up to the number of reservations. */
  lemma SlotsFrame(l: View, clones: map<nat, CloneOp>, inherited: seq<nat>, l': View, clones': map<nat, CloneOp>)
    requires WellFormed(l) && SlotsConserved(l, clones, inherited)
    requires l'.grants == l.grants && l'.entries == l.entries && l'.fibers == l.fibers
    requires forall uid :: uid in l.grants ==>
      |Reservations(clones', l.grants[uid])| == |Reservations(clones, l.grants[uid])|
    ensures SlotsConserved(l', clones', inherited)
  {
    forall uid | uid in l'.grants
      ensures EntryAccount(l', clones', inherited, uid)
    {
      assert EntryAccount(l, clones, inherited, uid);
      NoFibersChange(l, l', uid);
    }
  }

  /** A clone's record changed without changing which slot it holds. */
  lemma SlotsSameHolder(s: State, op: nat, c: CloneOp)
    requires WellFormed(s.l) && SlotsConserved(s.l, s.clones, s.inherited)
    requires forall e :: HoldsSlot(c, e) <==> op in s.clones && HoldsSlot(s.clones[op], e)
    ensures SlotsConserved(s.l, s.clones[op := c], s.inherited)
  {
    forall uid | uid in s.l.grants
      ensures |Reservations(s.clones[op := c], s.l.grants[uid])| == |Reservations(s.clones, s.l.grants[uid])|
    {
      ReservationsChange(s.clones, op, c, s.l.grants[uid]);
    }
    SlotsFrame(s.l, s.clones, s.inherited, s.l, s.clones[op := c]);
  }

  lemma NewEntryHasNoReservations(s: State)
    requires LedgerInv(s.l, s.minted) && ClonesInv(s.l, s.clones, s.minted)
    ensures Reservations(s.clones, |s.l.entries|) == {}
  {
    forall o | o in s.clones
      ensures !HoldsSlot(s.clones[o], |s.l.entries|)
    {
    }
  }

  lemma RefreshKeepsSlots(s: State, g: Grant)
    requires WellFormed(s.l) && SlotsConserved(s.l, s.clones, s.inherited)
    requires g.uid in s.l.grants && s.l.entries[s.l.grants[g.uid]].grant.fiberMax == g.fiberMax
    ensures var l := AdmitGrant(s.l, g); WellFormed(l) && SlotsConserved(l, s.clones, s.inherited)
  {
    var l := AdmitGrant(s.l, g);
    forall uid | uid in l.grants
      ensures EntryAccount(l, s.clones, s.inherited, uid)
    {
      assert EntryAccount(s.l, s.clones, s.inherited, uid);
      NoFibersChange(s.l, l, uid);
    }
  }

  lemma FirstAdmitKeepsSlots(s: State, g: Grant)
    requires WellFormed(s.l) && SlotsConserved(s.l, s.clones, s.inherited)
    requires g.uid !in s.l.grants && Reservations(s.clones, |s.l.entries|) == {}
    ensures var s' := AdmitStep(s, g); WellFormed(s'.l) && SlotsConserved(s'.l, s'.clones, s'.inherited)
  {
    var s' := AdmitStep(s, g);
    forall uid | uid in s'.l.grants
      ensures EntryAccount(s'.l, s'.clones, s'.inherited, uid)
    {
      NoFibersChange(s.l, s'.l, uid);
      if uid != g.uid {
        assert EntryAccount(s.l, s.clones, s.inherited, uid);
      }
    }
  }

  lemma RevokeKeepsSlots(s: State, uid: string)
    requires WellFormed(s.l) && SlotsConserved(s.l, s.clones, s.inherited)
    ensures var l := RevokeGrant(s.l, uid); WellFormed(l) && SlotsConserved(l, s.clones, s.inherited)
  {
    var l := RevokeGrant(s.l, uid);
    forall u | u in l.grants
      ensures EntryAccount(l, s.clones, s.inherited, u)
    {
      assert EntryAccount(s.l, s.clones, s.inherited, u);
      NoFibersChange(s.l, l, u);
    }
  }

  lemma ResolveKeepsSlots(s: State, op: nat, c: CloneOp, e: nat)
    requires WellFormed(s.l) && SlotsConserved(s.l, s.clones, s.inherited)
    requires e < |s.l.entries| && !Full(s.l.entries[e])
    requires op in s.clones && s.clones[op].phase.Gated?
    requires forall e' :: HoldsSlot(c, e') <==> e' == e
    ensures var l := ReserveAndMint(s.l, e); WellFormed(l) && SlotsConserved(l, s.clones[op := c], s.inherited)
  {
    var l := ReserveAndMint(s.l, e);
    forall uid | uid in l.grants
      ensures EntryAccount(l, s.clones[op := c], s.inherited, uid)
    {
      assert EntryAccount(s.l, s.clones, s.inherited, uid);
      NoFibersChange(s.l, l, uid);
      ReservationsChange(s.clones, op, c, l.grants[uid]);
    }
  }

  /** A commit turns the clone's reservation into a fiber of the same grant. */
  lemma CommitKeepsSlots(s: State, op: nat, c: CloneOp, uid: string, id: string, ref: FiberRef, l: View)
    requires WellFormed(s.l) && SlotsConserved(s.l, s.clones, s.inherited)
    requires uid in s.l.grants && op in s.clones
    requires forall e :: HoldsSlot(s.clones[op], e) <==> e == s.l.grants[uid]
    requires forall e :: !HoldsSlot(c, e)
    requires id !in s.l.fibers && ref.grantUID == uid
    requires l.grants == s.l.grants && l.entries == s.l.entries && l.fibers == s.l.fibers[id := ref]
    ensures WellFormed(l) && SlotsConserved(l, s.clones[op := c], s.inherited)
  {
    forall u | u in l.grants
      ensures EntryAccount(l, s.clones[op := c], s.inherited, u)
    {
      assert EntryAccount(s.l, s.clones, s.inherited, u);
      FibersWith(s.l, l, id, ref, u);
      ReservationsChange(s.clones, op, c, l.grants[u]);
    }
  }

  /** Dropping a fiber and freeing its uid's slot keeps the account, whichever entry minted the fiber. */
  lemma FreeKeepsSlots(s: State, id: string, l: View)
    requires WellFormed(s.l) && SlotsConserved(s.l, s.clones, s.inherited) && id in s.l.fibers
    requires l.grants == s.l.grants && l.entries == FreeSlot(s.l, s.l.fibers[id].grantUID).entries
    requires l.fibers == s.l.fibers - {id}
    ensures WellFormed(l) && SlotsConserved(l, s.clones, s.inherited)
  {
    var uid := s.l.fibers[id].grantUID;
    assert forall u :: u in l.grants && u != uid ==> l.entries[l.grants[u]] == s.l.entries[l.grants[u]];
    forall u | u in l.grants
      ensures EntryAccount(l, s.clones, s.inherited, u)
    {
      assert EntryAccount(s.l, s.clones, s.inherited, u);
      FibersWithout(s.l, l, id, u);
    }
  }

  lemma FinishKeepsSlots(s: State, op: nat)
    requires WellFormed(s.l) && SlotsConserved(s.l, s.clones, s.inherited) && Enabled(s, Finish(op))
    ensures var s' := FinishStep(s, op); WellFormed(s'.l) && SlotsConserved(s'.l, s'.clones, s'.inherited)
  {
    var s' := FinishStep(s, op);
    forall u | u in s'.l.grants
      ensures EntryAccount(s'.l, s'.clones, s'.inherited, u)
    {
      assert EntryAccount(s.l, s.clones, s.inherited, u);
      NoFibersChange(s.l, s'.l, u);
      ReservationsWithout(s.clones, op, s.l.grants[u]);
    }
  }

  // ------------------------------------------------------------ the ledger, the clones and the exits apart

  lemma AdmitKeepsLedger(s: State, g: Grant)
    requires LedgerInv(s.l, s.minted)
    ensures LedgerInv(AdmitGrant(s.l, g), s.minted)
  {
    var l := AdmitGrant(s.l, g);
    assert WellFormed(l);
    forall f | f in s.minted
      ensures f.num <= SeqBound(l, f.grantUID) && s.minted[f] < |l.entries|
      ensures l.entries[s.minted[f]].grant.uid == f.grantUID
    {
      assert f.num <= SeqBound(s.l, f.grantUID);
    }
  }

  /** A clone's record changed; what it builds, if anything, is what it built before. */
  lemma RecordKeepsClones(s: State, op: nat, c: CloneOp)
    requires ClonesInv(s.l, s.clones, s.minted) && op in s.clones && c.uid == s.clones[op].uid
    requires c.name == s.clones[op].name
    requires Building(c) ==>
      Building(s.clones[op]) && c.phase.fence == s.clones[op].phase.fence && c.phase.entry == s.clones[op].phase.entry
    requires c.phase.Failed? ==> c.phase.entry < |s.l.entries|
    ensures ClonesInv(s.l, s.clones[op := c], s.minted)
  {
    var clones := s.clones[op := c];
    assert FencesDistinct(clones);
    assert GatesExclusive(clones);
  }

  /** Clones that must replay an exit still must; no other fiber's exit was reported. */
  lemma ReplaysKept(clones: map<nat, CloneOp>, exited: set<string>, fibers: map<string, FiberRef>,
                    clones': map<nat, CloneOp>, exited': set<string>, fibers': map<string, FiberRef>)
    requires ExitsReplayed(clones, exited, fibers)
    requires forall id :: id in fibers' && id in exited' ==> id in fibers && id in exited
    requires forall o ::
      o in clones && clones[o].phase.Landed? && clones[o].phase.died && clones[o].phase.id in fibers' ==>
               o in clones' && clones'[o].phase == clones[o].phase
    ensures ExitsReplayed(clones', exited', fibers')
  {
    forall id | id in fibers' && id in exited'
      ensures exists o :: o in clones' && clones'[o].phase == Landed(id, true)
    {
      var o :| o in clones && clones[o].phase == Landed(id, true);
      assert o in clones' && clones'[o].phase == Landed(id, true);
    }
  }

  lemma RecordKeepsExits(s: State, op: nat, c: CloneOp)
    requires ExitsInv(s.clones, s.exited, s.pending, s.l.fibers, s.minted)
    requires Building(c) ==> op in s.clones && Building(s.clones[op]) && c.phase.fence == s.clones[op].phase.fence
    requires op in s.clones && s.clones[op].phase.Landed? ==> !s.clones[op].phase.died
    requires !c.phase.Landed?
    ensures ExitsInv(s.clones[op := c], s.exited, s.pending, s.l.fibers, s.minted)
  {
    ReplaysKept(s.clones, s.exited, s.l.fibers, s.clones[op := c], s.exited, s.l.fibers);
  }

  // ------------------------------------------------------------ one lemma per kind of step

  lemma AdmitKeepsInv(s: State, g: Grant)
    requires Inv(s) && Enabled(s, Admit(g))
    ensures Inv(AdmitStep(s, g))
  {
    AdmitKeepsLedger(s, g);
    if g.uid in s.l.grants {
      RefreshKeepsSlots(s, g);
    } else {
      NewEntryHasNoReservations(s);
      FirstAdmitKeepsSlots(s, g);
    }
  }

  lemma RevokeKeepsInv(s: State, uid: string)
    requires Inv(s)
    ensures Inv(s.(l := RevokeGrant(s.l, uid)))
  {
    RevokeKeepsSlots(s, uid);
  }

  lemma MoveEpochKeepsInv(s: State, n: nat)
    requires Inv(s)
    ensures Inv(s.(l := BumpEpoch(s.l, n)))
  {
    SlotsFrame(s.l, s.clones, s.inherited, BumpEpoch(s.l, n), s.clones);
  }

  lemma BeginKeepsInv(s: State, op: nat, uid: string, name: string)
    requires Inv(s) && Enabled(s, Begin(op, uid, name))
    ensures Inv(s.(clones := s.clones[op := CloneOp(uid, name, Gated)]))
  {
    SlotsSameHolder(s, op, CloneOp(uid, name, Gated));
    RecordKeepsExits(s, op, CloneOp(uid, name, Gated));
  }

  /** A clone moves on without touching the ledger: same slot, same fence if it still builds. */
  lemma MoveOnKeepsInv(s: State, op: nat, p: Phase)
    requires Inv(s) && op in s.clones && !s.clones[op].phase.Landed? && !p.Landed?
    requires var c := s.clones[op].(phase := p);
      (Building(c) ==> Building(s.clones[op]) && p.fence == s.clones[op].phase.fence) &&
      (forall e :: HoldsSlot(c, e) <==> HoldsSlot(s.clones[op], e))
    ensures Inv(s.(clones := SetPhase(s, op, p)))
  {
    var c := s.clones[op].(phase := p);
    if Building(c) || p.Failed? {
      assert HoldsSlot(c, p.entry);
      assert HoldsSlot(s.clones[op], p.entry);
    }
    SlotsSameHolder(s, op, c);
    RecordKeepsClones(s, op, c);
    RecordKeepsExits(s, op, c);
  }

  /** The fence a resolve mints is newer than every fence its grant was ever given. */
  lemma MintedFenceIsNew(s: State, e: nat)
    requires LedgerInv(s.l, s.minted) && e < |s.l.entries|
    requires var uid := s.l.entries[e].grant.uid; uid in s.l.grants && s.l.grants[uid] == e
    ensures
      var f := MintFence(s.l, e);
      f !in s.minted && forall g :: g in s.minted && g.grantUID == f.grantUID ==> Newer(f, g)
  {
  }

  lemma BirthKeepsLedger(s: State, e: nat)
    requires LedgerInv(s.l, s.minted) && e < |s.l.entries|
    requires var uid := s.l.entries[e].grant.uid; uid in s.l.grants && s.l.grants[uid] == e
    ensures LedgerInv(ReserveAndMint(s.l, e), s.minted[MintFence(s.l, e) := e])
  {
    var l := ReserveAndMint(s.l, e);
    var f := MintFence(s.l, e);
    var minted := s.minted[f := e];
    assert WellFormed(l);
    forall g | g in minted
      ensures g.num <= SeqBound(l, g.grantUID) && minted[g] < |l.entries|
      ensures l.entries[minted[g]].grant.uid == g.grantUID
    {
      if g != f { assert g.num <= SeqBound(s.l, g.grantUID); }
    }
    assert FencesBounded(l, minted);
  }

  lemma FreshStringUnused(s: State, f: Fence)
    requires LedgerInv(s.l, s.minted) && ExitsInv(s.clones, s.exited, s.pending, s.l.fibers, s.minted) && f !in s.minted
    ensures FenceString(f) !in s.l.fibers && FenceString(f) !in s.exited
  {
    AllFenceStringsInjective();
  }

  lemma BirthKeepsClones(s: State, op: nat, f: Fence, e: nat, c: CloneOp, l: View)
    requires ClonesInv(s.l, s.clones, s.minted) && op in s.clones && c.uid == s.clones[op].uid
    requires c.name == s.clones[op].name
    requires f !in s.minted && FenceString(f) !in s.l.fibers && f.grantUID == c.uid
    requires Building(c) && c.phase.fence == f && c.phase.entry == e
    requires c.name != "" && Key(c) in s.l.sessions ==> s.l.sessions[Key(c)].state == Parked
    requires l.fibers == s.l.fibers && l.sessions == s.l.sessions && |l.entries| == |s.l.entries|
    ensures ClonesInv(l, s.clones[op := c], s.minted[f := e])
  {
    var clones := s.clones[op := c];
    assert forall o :: o in s.clones && o != op && Building(s.clones[o]) ==> s.clones[o].phase.fence != f;
    assert FencesDistinct(clones);
    assert GatesExclusive(clones);
  }

  lemma BirthKeepsExits(s: State, op: nat, f: Fence, e: nat, c: CloneOp)
    requires ExitsInv(s.clones, s.exited, s.pending, s.l.fibers, s.minted) && op in s.clones
    requires !s.clones[op].phase.Landed?
    requires Building(c) && c.phase.fence == f && FenceString(f) !in s.exited
    ensures ExitsInv(s.clones[op := c], s.exited, s.pending, s.l.fibers, s.minted[f := e])
  {
    var minted := s.minted[f := e];
    ReplaysKept(s.clones, s.exited, s.l.fibers, s.clones[op := c], s.exited, s.l.fibers);
    forall id | id in s.exited
      ensures exists g :: g in minted && FenceString(g) == id
    {
      var g :| g in s.minted && FenceString(g) == id;
      assert g in minted;
    }
  }

  lemma BirthKeepsInv(s: State, op: nat, d: Resolution)
    requires Inv(s) && op in s.clones && s.clones[op].phase.Gated?
    requires d.Birth? && d.entry < |s.l.entries| && !Full(s.l.entries[d.entry]) && d.fence == MintFence(s.l, d.entry)
    requires s.clones[op].uid in s.l.grants && s.l.grants[s.clones[op].uid] == d.entry
    requires var c := s.clones[op];
      c.name != "" && Key(c) in s.l.sessions ==> s.l.sessions[Key(c)].state == Parked
    ensures Inv(s.(l := Resolved(s.l, d), minted := s.minted[d.fence := d.entry],
                   clones := SetPhase(s, op, Reserved(d.entry, d.fence, d.action, d.ref))))
  {
    var c := s.clones[op].(phase := Reserved(d.entry, d.fence, d.action, d.ref));
    assert s.l.entries[d.entry].grant.uid == c.uid;
    MintedFenceIsNew(s, d.entry);
    FreshStringUnused(s, d.fence);
    BirthKeepsLedger(s, d.entry);
    BirthKeepsClones(s, op, d.fence, d.entry, c, Resolved(s.l, d));
    BirthKeepsExits(s, op, d.fence, d.entry, c);
    ResolveKeepsSlots(s, op, c, d.entry);
  }

  /** A birth is decided only for a session that does not run, under the uid's current entry. */
  lemma BirthOnlyWhileNotRunning(l: View, uid: string, name: string, tier: nat, now: int)
    requires WellFormed(l) && Decide(l, uid, name, tier, now).Birth?
    ensures var d := Decide(l, uid, name, tier, now);
      d.entry < |l.entries| && uid in l.grants && l.grants[uid] == d.entry && d.fence == MintFence(l, d.entry) &&
      !Full(l.entries[d.entry])
    ensures name != "" && SessionKey(uid, name) in l.sessions ==> l.sessions[SessionKey(uid, name)].state == Parked
  {
  }

  lemma ResolveKeepsInv(s: State, op: nat, tier: nat, now: int)
    requires Inv(s) && op in s.clones && s.clones[op].phase.Gated?
    ensures Inv(ResolveStep(s, op, tier, now))
  {
    var d := Decide(s.l, s.clones[op].uid, s.clones[op].name, tier, now);
    match d
    case Refused(_) =>
    case Attach(f, _) => MoveOnKeepsInv(s, op, Attached(f));
    case Birth(_, _, _, _) =>
      BirthOnlyWhileNotRunning(s.l, s.clones[op].uid, s.clones[op].name, tier, now);
      BirthKeepsInv(s, op, d);
  }

  /** Taking the exit held for a fiber that no other clone builds. */
  lemma TakeKeepsExits(s: State, id: string)
    requires ExitsInv(s.clones, s.exited, s.pending, s.l.fibers, s.minted)
    requires forall o :: o in s.clones && Building(s.clones[o]) ==> FenceString(s.clones[o].phase.fence) != id
    ensures ExitsInv(s.clones, s.exited, s.pending - {id}, s.l.fibers, s.minted)
  {
  }

  lemma OthersBuildOtherFibers(s: State, op: nat)
    requires ClonesInv(s.l, s.clones, s.minted) && op in s.clones && Building(s.clones[op])
    ensures forall o :: o in s.clones && o != op && Building(s.clones[o]) ==>
              FenceString(s.clones[o].phase.fence) != FenceString(s.clones[op].phase.fence)
  {
    AllFenceStringsInjective();
  }

  /** A built clone that does not commit keeps its slot until it unlocks; the exit held for it goes. */
  lemma DropKeepsInv(s: State, op: nat)
    requires Inv(s) && op in s.clones && s.clones[op].phase.Built?
    ensures
      var p := s.clones[op].phase;
      Inv(s.(clones := SetPhase(s, op, Failed(p.entry)), pending := s.pending - {FenceString(p.fence)}))
  {
    var p := s.clones[op].phase;
    OthersBuildOtherFibers(s, op);
    var s1 := s.(clones := SetPhase(s, op, Failed(p.entry)));
    MoveOnKeepsInv(s, op, Failed(p.entry));
    TakeKeepsExits(s1, FenceString(p.fence));
  }

  lemma SessionKeyNonEmpty(uid: string, name: string)
    ensures SessionKey(uid, name) != ""
  {
    assert |SessionKey(uid, name)| >= 1;
  }

  lemma CommitKeepsMatch(l: View, s: Session)
    requires SessionsMatchFibers(l.sessions, l.fibers) && s.state == Running && s.handle != "" && s.handle !in l.fibers
    requires var k := SessionKey(s.grantUID, s.name); s.name != "" && k in l.sessions ==> l.sessions[k].state == Parked
    ensures var r := Committed(l, s); SessionsMatchFibers(r.sessions, r.fibers)
  {
    SessionKeyNonEmpty(s.grantUID, s.name);
    var r := Committed(l, s);
    forall id | id in r.fibers && r.fibers[id].sessionKey != ""
      ensures
        var k := r.fibers[id].sessionKey;
        k in r.sessions && r.sessions[k].state == Running && r.sessions[k].handle == id
    {
      if id != s.handle { assert id in l.fibers; }
    }
  }

  lemma CommitKeepsLedger(s: State, x: Session)
    requires LedgerInv(s.l, s.minted) && x.state == Running && x.handle == FenceString(x.fence)
    requires x.handle !in s.l.fibers
    requires x.fence in s.minted && x.fence.grantUID == x.grantUID
    requires
      var k := SessionKey(x.grantUID, x.name);
      x.name != "" && k in s.l.sessions ==> s.l.sessions[k].state == Parked
    ensures LedgerInv(Committed(s.l, x), s.minted)
  {
    FenceStringNonEmpty(x.fence);
    CommitKeepsMatch(s.l, x);
    var l := Committed(s.l, x);
    assert WellFormed(l);
    forall f | f in s.minted
      ensures SeqBound(l, f.grantUID) == SeqBound(s.l, f.grantUID)
    {
    }
  }

  lemma CommitKeepsClones(s: State, op: nat, l: View, id: string, died: bool)
    requires ClonesInv(s.l, s.clones, s.minted) && op in s.clones && s.clones[op].phase.Built?
    requires id == FenceString(s.clones[op].phase.fence)
    requires l == Committed(s.l, Offer(s.clones[op]))
    ensures ClonesInv(l, SetPhase(s, op, Landed(id, died)), s.minted)
  {
    var clones := SetPhase(s, op, Landed(id, died));
    OthersBuildOtherFibers(s, op);
    RecordKeepsClones(s, op, s.clones[op].(phase := Landed(id, died)));
    assert ClonesMinted(clones, s.minted, l.fibers);
    assert BuildersAlone(clones, l.sessions);
  }

  lemma CommitKeepsExits(s: State, op: nat, l: View, id: string)
    requires ExitsInv(s.clones, s.exited, s.pending, s.l.fibers, s.minted) && op in s.clones
    requires s.clones[op].phase.Built? && id == FenceString(s.clones[op].phase.fence)
    requires forall k :: k in l.fibers ==> k == id || k in s.l.fibers
    requires forall o :: o in s.clones && o != op && Building(s.clones[o]) ==>
      FenceString(s.clones[o].phase.fence) != id
    ensures ExitsInv(SetPhase(s, op, Landed(id, id in s.pending)), s.exited, s.pending - {id}, l.fibers, s.minted)
  {
    var clones := SetPhase(s, op, Landed(id, id in s.pending));
    forall k | k in l.fibers && k in s.exited
      ensures exists o :: o in clones && clones[o].phase == Landed(k, true)
    {
      if k == id {
        assert op in clones && clones[op].phase == Landed(k, true);
      } else {
        var o :| o in s.clones && s.clones[o].phase == Landed(k, true);
        assert o in clones && clones[o].phase == Landed(k, true);
      }
    }
  }

  /** What a built clone offers is minted, not in the ledger, and its session does not run. */
  lemma OfferIsNew(s: State, op: nat)
    requires ClonesInv(s.l, s.clones, s.minted) && op in s.clones && s.clones[op].phase.Built?
    ensures
      var x := Offer(s.clones[op]);
      x.fence in s.minted && x.fence.grantUID == x.grantUID && x.handle == FenceString(x.fence) && x.handle != "" &&
      x.handle !in s.l.fibers &&
      (x.name != "" && SessionKey(x.grantUID, x.name) in s.l.sessions ==>
         s.l.sessions[SessionKey(x.grantUID, x.name)].state == Parked)
  {
    FenceStringNonEmpty(s.clones[op].phase.fence);
  }

  lemma LandKeepsSlots(s: State, op: nat, x: Session, died: bool)
    requires WellFormed(s.l) && SlotsConserved(s.l, s.clones, s.inherited) && op in s.clones
    requires s.clones[op].phase.Built?
    requires x == Offer(s.clones[op]) && x.handle != "" && x.handle !in s.l.fibers
    requires x.grantUID in s.l.grants && s.l.grants[x.grantUID] == s.clones[op].phase.entry
    ensures
      var l := Committed(s.l, x);
      WellFormed(l) && SlotsConserved(l, SetPhase(s, op, Landed(x.handle, died)), s.inherited)
  {
    var l := Committed(s.l, x);
    var c := s.clones[op].(phase := Landed(x.handle, died));
    CommitKeepsSlots(s, op, c, x.grantUID, x.handle, l.fibers[x.handle], l);
  }

  lemma LandKeepsInv(s: State, op: nat, x: Session, id: string, l: View)
    requires Inv(s) && op in s.clones && s.clones[op].phase.Built?
    requires x == Offer(s.clones[op]) && id == x.handle && l == Committed(s.l, x)
    requires s.clones[op].uid in s.l.grants && s.l.grants[s.clones[op].uid] == s.clones[op].phase.entry
    ensures Inv(s.(l := l, pending := s.pending - {id}, clones := SetPhase(s, op, Landed(id, id in s.pending))))
  {
    OfferIsNew(s, op);
    OthersBuildOtherFibers(s, op);
    CommitKeepsLedger(s, x);
    CommitKeepsClones(s, op, l, id, id in s.pending);
    CommitKeepsExits(s, op, l, id);
    LandKeepsSlots(s, op, x, id in s.pending);
  }

  lemma CommitKeepsInv(s: State, op: nat)
    requires Inv(s) && Enabled(s, Commit(op))
    ensures Inv(CommitStep(s, op))
  {
    var c := s.clones[op];
    if MayCommit(s.l, c.uid, c.phase.entry, c.phase.fence, s.draining) {
      LandKeepsInv(s, op, Offer(c), FenceString(c.phase.fence), Committed(s.l, Offer(c)));
    } else {
      DropKeepsInv(s, op);
    }
  }

  // ------------------------------------------------------------ fibers that leave the ledger

  /** Losing a fiber, and parking or forgetting its session, keeps everything but the slot account. */
  lemma LossKeepsLedger(s: State, id: string, l: View)
    requires LedgerInv(s.l, s.minted) && id in s.l.fibers && l.fibers == s.l.fibers - {id} && l.epoch == s.l.epoch
    requires l.seqHigh == s.l.seqHigh
    requires l.grants == s.l.grants && |l.entries| == |s.l.entries|
    requires forall e :: 0 <= e < |l.entries| ==>
      l.entries[e].grant == s.l.entries[e].grant && l.entries[e].nextSeq == s.l.entries[e].nextSeq
    requires LostSession(s.l, id, l)
    ensures LedgerInv(l, s.minted)
  {
    LossKeepsMatch(s.l, id, l);
    assert WellFormed(l);
    forall f | f in s.minted
      ensures SeqBound(l, f.grantUID) == SeqBound(s.l, f.grantUID)
    {
    }
  }

  lemma LossKeepsMatch(l: View, id: string, l': View)
    requires SessionsMatchFibers(l.sessions, l.fibers) && id in l.fibers && l'.fibers == l.fibers - {id}
    requires LostSession(l, id, l')
    ensures SessionsMatchFibers(l'.sessions, l'.fibers)
  {
    forall i | i in l'.fibers && l'.fibers[i].sessionKey != ""
      ensures
        var k := l'.fibers[i].sessionKey;
        k in l'.sessions && l'.sessions[k].state == Running && l'.sessions[k].handle == i
    {
      assert l.sessions[l.fibers[i].sessionKey].handle == i;
    }
  }

  /** The lost fiber's session no longer runs, and no other session changed. */
  ghost predicate LostSession(l: View, id: string, l': View)
    requires id in l.fibers
  {
    var k := l.fibers[id].sessionKey;
    (k != "" && k in l'.sessions ==> l'.sessions[k].state == Parked) &&
    (forall j :: j != k || k == "" ==>
       (j in l'.sessions <==> j in l.sessions) && (j in l.sessions ==> l'.sessions[j] == l.sessions[j]))
  }

  lemma LossKeepsClones(s: State, id: string, l: View)
    requires ClonesInv(s.l, s.clones, s.minted) && id in s.l.fibers && l.fibers == s.l.fibers - {id}
    requires |l.entries| == |s.l.entries|
    requires LostSession(s.l, id, l)
    ensures ClonesInv(l, s.clones, s.minted)
  {
    assert BuildersAlone(s.clones, l.sessions);
  }

  lemma LossKeepsRest(s: State, id: string, l: View)
    requires LedgerInv(s.l, s.minted) && ClonesInv(s.l, s.clones, s.minted)
    requires SlotsConserved(s.l, s.clones, s.inherited)
    requires id in s.l.fibers && l.fibers == s.l.fibers - {id} && l.epoch == s.l.epoch && l.seqHigh == s.l.seqHigh
    requires l.grants == s.l.grants && l.entries == FreeSlot(s.l, s.l.fibers[id].grantUID).entries
    requires LostSession(s.l, id, l)
    ensures LedgerInv(l, s.minted) && ClonesInv(l, s.clones, s.minted) && SlotsConserved(l, s.clones, s.inherited)
  {
    LossKeepsLedger(s, id, l);
    LossKeepsClones(s, id, l);
    FreeKeepsSlots(s, id, l);
  }

  lemma LossKeepsInv(s: State, id: string, l: View)
    requires Inv(s) && id in s.l.fibers && l.fibers == s.l.fibers - {id} && l.epoch == s.l.epoch
    requires l.seqHigh == s.l.seqHigh
    requires l.grants == s.l.grants && l.entries == FreeSlot(s.l, s.l.fibers[id].grantUID).entries
    requires LostSession(s.l, id, l)
    ensures Inv(s.(l := l))
  {
    LossKeepsRest(s, id, l);
    ReplaysKept(s.clones, s.exited, s.l.fibers, s.clones, s.exited, l.fibers);
  }

  lemma GoneLosesSession(l: View, id: string)
    requires WellFormed(l) && id in l.fibers
    ensures var r := OnGone(l, id);
      LostSession(l, id, r) && r.fibers == l.fibers - {id} && r.epoch == l.epoch && r.seqHigh == l.seqHigh &&
      r.grants == l.grants && r.entries == FreeSlot(l, l.fibers[id].grantUID).entries
  {
  }

  lemma ParkLosesSession(l: View, id: string, ref: string)
    requires WellFormed(l) && id in l.fibers
    ensures var r := OnPark(l, id, ref);
      LostSession(l, id, r) && r.fibers == l.fibers - {id} && r.epoch == l.epoch && r.seqHigh == l.seqHigh &&
      r.grants == l.grants && r.entries == FreeSlot(l, l.fibers[id].grantUID).entries
  {
  }

  lemma GoneKeepsInv(s: State, id: string)
    requires Inv(s)
    ensures Inv(s.(l := OnGone(s.l, id)))
  {
    if id in s.l.fibers {
      GoneLosesSession(s.l, id);
      LossKeepsInv(s, id, OnGone(s.l, id));
    }
  }

  lemma ParkKeepsInv(s: State, id: string, ref: string)
    requires Inv(s)
    ensures Inv(s.(l := OnPark(s.l, id, ref)))
  {
    if id in s.l.fibers {
      ParkLosesSession(s.l, id, ref);
      LossKeepsInv(s, id, OnPark(s.l, id, ref));
    }
  }

  lemma ReportKeepsExits(s: State, f: Fence, fibers: map<string, FiberRef>, pending: set<string>)
    requires ExitsInv(s.clones, s.exited, s.pending, fibers, s.minted) && f in s.minted
    requires FenceString(f) !in fibers && s.pending <= pending <= s.pending + {FenceString(f)}
    requires
      FenceString(f) in pending ||
      forall o :: o in s.clones && Building(s.clones[o]) ==> FenceString(s.clones[o].phase.fence) != FenceString(f)
    ensures ExitsInv(s.clones, s.exited + {FenceString(f)}, pending, fibers, s.minted)
  {
    var id := FenceString(f);
    assert ExitsMinted(s.exited + {id}, s.minted);
    ReplaysKept(s.clones, s.exited, fibers, s.clones, s.exited + {id}, fibers);
  }

  lemma ExitKeepsInv(s: State, f: Fence)
    requires Inv(s) && f in s.minted
    ensures Inv(ExitStep(s, FenceString(f)))
  {
    var id := FenceString(f);
    if id in s.l.fibers {
      GoneLosesSession(s.l, id);
      GoneKeepsInv(s, id);
      ReportKeepsExits(s, f, OnGone(s.l, id).fibers, s.pending);
    } else {
      ReportKeepsExits(s, f, s.l.fibers, s.pending + {id});
    }
  }

  /** The clone that committed a fiber already dead frees it, unless a sweep did so first. */
  lemma ReplayKeepsExits(s: State, op: nat, id: string, fibers: map<string, FiberRef>, pending: set<string>)
    requires ExitsInv(s.clones, s.exited, s.pending, s.l.fibers, s.minted)
    requires op in s.clones && s.clones[op].phase == Landed(id, true)
    requires id !in fibers && (forall k :: k in fibers ==> k in s.l.fibers) && s.pending <= pending <= s.pending + {id}
    ensures ExitsInv(SetPhase(s, op, Landed(id, false)), s.exited + {id}, pending, fibers, s.minted)
  {
    assert s.exited + {id} == s.exited;
    ReplaysKept(s.clones, s.exited, s.l.fibers, SetPhase(s, op, Landed(id, false)), s.exited, fibers);
  }

  lemma ReplayFreesFiber(s: State, op: nat, id: string, c: CloneOp)
    requires Inv(s) && op in s.clones && s.clones[op].phase == Landed(id, true)
    requires c == s.clones[op].(phase := Landed(id, false))
    requires id in s.l.fibers
    ensures Inv(s.(clones := s.clones[op := c], l := OnGone(s.l, id), exited := s.exited + {id}))
  {
    var l := OnGone(s.l, id);
    var s1 := s.(clones := s.clones[op := c]);
    SlotsSameHolder(s, op, c);
    RecordKeepsClones(s, op, c);
    GoneLosesSession(s.l, id);
    LossKeepsRest(s1, id, l);
    ReplayKeepsExits(s, op, id, l.fibers, s.pending);
  }

  lemma ReplayFindsNothing(s: State, op: nat, id: string, c: CloneOp)
    requires Inv(s) && op in s.clones && s.clones[op].phase == Landed(id, true)
    requires c == s.clones[op].(phase := Landed(id, false))
    requires id !in s.l.fibers
    ensures Inv(s.(clones := s.clones[op := c], pending := s.pending + {id}, exited := s.exited + {id}))
  {
    SlotsSameHolder(s, op, c);
    RecordKeepsClones(s, op, c);
    ReplayKeepsExits(s, op, id, s.l.fibers, s.pending + {id});
  }

  lemma ReplayKeepsInv(s: State, op: nat, id: string)
    requires Inv(s) && op in s.clones && s.clones[op].phase == Landed(id, true)
    ensures Inv(ExitStep(s.(clones := SetPhase(s, op, Landed(id, false))), id))
  {
    if id in s.l.fibers {
      ReplayFreesFiber(s, op, id, s.clones[op].(phase := Landed(id, false)));
    } else {
      ReplayFindsNothing(s, op, id, s.clones[op].(phase := Landed(id, false)));
    }
  }

  lemma FinishKeepsClones(s: State, op: nat, l: View)
    requires ClonesInv(s.l, s.clones, s.minted) && l.fibers == s.l.fibers && l.sessions == s.l.sessions
    requires |l.entries| == |s.l.entries|
    ensures ClonesInv(l, s.clones - {op}, s.minted)
  {
    var clones := s.clones - {op};
    assert FencesDistinct(clones);
    assert GatesExclusive(clones);
  }

  lemma UnreserveKeepsLedger(s: State, e: nat)
    requires LedgerInv(s.l, s.minted) && e < |s.l.entries|
    ensures LedgerInv(Unreserve(s.l, e), s.minted)
  {
    var l := Unreserve(s.l, e);
    assert WellFormed(l);
    forall f | f in s.minted
      ensures SeqBound(l, f.grantUID) == SeqBound(s.l, f.grantUID)
    {
    }
  }

  lemma FinishKeepsExits(s: State, op: nat)
    requires ExitsInv(s.clones, s.exited, s.pending, s.l.fibers, s.minted)
    requires op in s.clones && s.clones[op].phase.Landed? ==> !s.clones[op].phase.died
    ensures ExitsInv(s.clones - {op}, s.exited, s.pending, s.l.fibers, s.minted)
  {
    ReplaysKept(s.clones, s.exited, s.l.fibers, s.clones - {op}, s.exited, s.l.fibers);
  }

  lemma FinishKeepsInv(s: State, op: nat)
    requires Inv(s) && Enabled(s, Finish(op))
    ensures Inv(FinishStep(s, op))
  {
    var s' := FinishStep(s, op);
    FinishKeepsSlots(s, op);
    FinishKeepsExits(s, op);
    FinishKeepsClones(s, op, s'.l);
    FinishKeepsLedger(s, op);
  }

  lemma FinishKeepsLedger(s: State, op: nat)
    requires LedgerInv(s.l, s.minted) && Enabled(s, Finish(op))
    ensures LedgerInv(FinishStep(s, op).l, s.minted)
  {
    if s.clones[op].phase.Failed? {
      UnreserveKeepsLedger(s, s.clones[op].phase.entry);
    }
  }

  /** Sessions that do not run may come and go. */
  lemma ParkedSessionsKeepInv(s: State, l: View, k: string)
    requires Inv(s) && l == s.l.(sessions := l.sessions)
    requires k in s.l.sessions ==> s.l.sessions[k].state == Parked
    requires k in l.sessions ==> l.sessions[k].state == Parked
    requires forall j :: j != k ==>
      (j in l.sessions <==> j in s.l.sessions) && (j in l.sessions ==> l.sessions[j] == s.l.sessions[j])
    ensures Inv(s.(l := l))
  {
    SlotsFrame(s.l, s.clones, s.inherited, l, s.clones);
    ParkedSessionsKeepLedger(s, l, k);
    assert BuildersAlone(s.clones, l.sessions);
  }

  lemma ParkedSessionsKeepLedger(s: State, l: View, k: string)
    requires LedgerInv(s.l, s.minted) && l == s.l.(sessions := l.sessions)
    requires k in s.l.sessions ==> s.l.sessions[k].state == Parked
    requires k in l.sessions ==> l.sessions[k].state == Parked
    requires forall j :: j != k ==>
      (j in l.sessions <==> j in s.l.sessions) && (j in l.sessions ==> l.sessions[j] == s.l.sessions[j])
    ensures LedgerInv(l, s.minted)
  {
    forall f | f in s.minted
      ensures SeqBound(l, f.grantUID) == SeqBound(s.l, f.grantUID)
    {
    }
  }

  lemma ForgetKeepsInv(s: State, uid: string, name: string)
    requires Inv(s)
    ensures Inv(s.(l := ForgetSession(s.l, SessionKey(uid, name))))
  {
    var k := SessionKey(uid, name);
    if k in s.l.sessions && s.l.sessions[k].state == Parked {
      ParkedSessionsKeepInv(s, ForgetSession(s.l, k), k);
    }
  }

  lemma RestoreKeepsInv(s: State, uid: string, name: string, fence: Fence, ref: string)
    requires Inv(s)
    ensures Inv(s.(l := RestoreParked(s.l, uid, name, fence, ref)))
  {
    if RestoreRefusal(s.l, uid, name).None? {
      ParkedSessionsKeepInv(s, RestoreParked(s.l, uid, name, fence, ref), SessionKey(uid, name));
    }
  }

  // ------------------------------------------------------------ every run

  lemma CloneStepKeepsInv(s: State, a: Label)
    requires Inv(s) && Enabled(s, a)
    requires
      a.Begin? || a.Resolve? || a.RuntimeReturns? || a.RuntimeFails? ||
      a.RollBack? || a.Commit? || a.Replay? || a.Finish?
    ensures Inv(Apply(s, a))
  {
    match a
    case Begin(op, uid, name) => BeginKeepsInv(s, op, uid, name);
    case Resolve(op, tier, now) => ResolveKeepsInv(s, op, tier, now);
    case RuntimeReturns(op, endpoint) =>
      var p := s.clones[op].phase;
      MoveOnKeepsInv(s, op, Built(p.entry, p.fence, p.action, p.ref, endpoint));
    case RuntimeFails(op) => MoveOnKeepsInv(s, op, Failed(s.clones[op].phase.entry));
    case RollBack(op) => DropKeepsInv(s, op);
    case Commit(op) => CommitKeepsInv(s, op);
    case Replay(op) => ReplayKeepsInv(s, op, s.clones[op].phase.id);
    case Finish(op) => FinishKeepsInv(s, op);
  }

  /** No step of any interleaving breaks the invariant. */
  lemma StepKeepsInv(s: State, a: Label)
    requires Inv(s) && Enabled(s, a)
    ensures Inv(Apply(s, a))
  {
    match a
    case Admit(g) => AdmitKeepsInv(s, g);
    case Revoke(uid) => RevokeKeepsInv(s, uid);
    case MoveEpoch(n) => MoveEpochKeepsInv(s, n);
    case ParkFiber(id, ref) => ParkKeepsInv(s, id, ref);
    case Release(id) => GoneKeepsInv(s, id);
    case Exit(f) => ExitKeepsInv(s, f);
    case Forget(uid, name) => ForgetKeepsInv(s, uid, name);
    case Restore(uid, name, fence, ref) => RestoreKeepsInv(s, uid, name, fence, ref);
    case StartDrain =>
    case _ => CloneStepKeepsInv(s, a);
  }
}
