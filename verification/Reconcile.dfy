/**
 Boot: what becomes of the grants and parked sessions of the last snapshot. A grant whose token
 verifies is admitted again, one the verifier cannot judge is held, and every parked session
 follows its grant. The runtime's deltas are the set `disk`.
 */
module Reconciling {
  import opened Fences
  import S = LedgerState
  import opened Ledgers

  datatype SessionSnap = SessionSnap(name: string, grantUID: string, state: S.SessionState, fence: Fence,
                                     deltaRef: string, fiberID: string)

  datatype Snapshot = Snapshot(grants: seq<S.Grant>, sessions: seq<SessionSnap>, unreadable: bool)

  /** The snapshot file: the grants and sessions it names. */
  datatype Saved = Saved(grants: set<S.Grant>, sessions: set<SessionSnap>)

  datatype HeldGrant = HeldGrant(grant: S.Grant, sessions: seq<SessionSnap>)

  /** The verifier and the admission that follows: unavailable, refused, or the grant the token carries. */
  datatype Answer = Unavailable | Bad | Good(grant: S.Grant, admitted: bool)

  function Key(s: SessionSnap): (k: string) { S.SessionKey(s.grantUID, s.name) }

  // ------------------------------------------------------------ grants

  datatype Outcome = Lapsed | Unverified | OnHold | Lost | Admitted(grant: S.Grant)

  /** What boot does with one grant of the snapshot. */
  function Judge(g: S.Grant, a: Answer, now: int): (o: Outcome)
    ensures o.Admitted? ==> o.grant.uid == g.uid
  {
    if S.Expired(g, now) then Lapsed
    else if g.token == "" then Unverified
    else match a
      case Unavailable => OnHold
      case Bad => Unverified
      case Good(vg, admitted) =>
        if vg.uid != g.uid then Unverified
        else if !admitted then Lost
        else Admitted(vg.(token := g.token))
  }

  datatype GrantTally = GrantTally(readmitted: nat, expired: nat, unverified: nat, unavailable: nat)

  function GrantCounted(t: GrantTally, o: Outcome): (r: GrantTally) {
    match o
    case Lapsed => t.(expired := t.expired + 1)
    case Unverified => t.(unverified := t.unverified + 1)
    case OnHold => t.(unavailable := t.unavailable + 1)
    case Lost => t
    case Admitted(_) => t.(readmitted := t.readmitted + 1)
  }

  function GrantTallyOf(gs: seq<S.Grant>, answers: seq<Answer>, now: int): (t: GrantTally)
    requires |gs| == |answers|
    decreases |gs|
  {
    if gs == [] then GrantTally(0, 0, 0, 0) else
    var n := |gs| - 1;
    GrantCounted(GrantTallyOf(gs[..n], answers[..n], now), Judge(gs[n], answers[n], now))
  }

  function AdmittedUIDs(gs: seq<S.Grant>, answers: seq<Answer>, now: int): (r: set<string>)
    requires |gs| == |answers|
  {
    set i | 0 <= i < |gs| && Judge(gs[i], answers[i], now).Admitted? :: gs[i].uid
  }

  function OnHoldUIDs(gs: seq<S.Grant>, answers: seq<Answer>, now: int): (r: set<string>)
    requires |gs| == |answers|
  {
    set i | 0 <= i < |gs| && Judge(gs[i], answers[i], now).OnHold? :: gs[i].uid
  }

  ghost predicate DistinctUIDs(gs: seq<S.Grant>) {
    forall i, j :: 0 <= i < j < |gs| ==> gs[i].uid != gs[j].uid
  }

  /** The file's lease has not run out, and it has a token to show the verifier. */
  predicate Showable(g: S.Grant, now: int) { (g.lease.Some? ==> now < g.lease.value) && g.token != "" }

  /** The verifier took the token for this grant, and the admission that followed succeeded. */
  predicate TokenAdmits(g: S.Grant, a: Answer, now: int) {
    Showable(g, now) && a.Good? && a.grant.uid == g.uid && a.admitted
  }

  predicate Undecided(g: S.Grant, a: Answer, now: int) { Showable(g, now) && a.Unavailable? }

  /** What the token carries, with the token itself kept. */
  function Carried(g: S.Grant, a: Answer): (r: S.Grant)
    requires a.Good?
  {
    a.grant.(token := g.token)
  }

  lemma JudgesExactly(g: S.Grant, a: Answer, now: int)
    ensures
      var o := Judge(g, a, now);
      (o.Admitted? <==> TokenAdmits(g, a, now)) && (o.Admitted? ==> o.grant == Carried(g, a)) &&
      (o.OnHold? <==> Undecided(g, a, now)) && (o.Lapsed? <==> g.lease.Some? && g.lease.value <= now) &&
      (o.Lost? <==> Showable(g, now) && a.Good? && a.grant.uid == g.uid && !a.admitted)
  {
  }

  /**
   Only a signature admits a grant again, never the file: a grant of the file is in the ledger if
   and only if its token admits it, with what the token carries, and held if and only if the
   verifier could not decide.
   */
  ghost predicate BootedGrants(l: S.View, held: map<string, HeldGrant>, gs: seq<S.Grant>, answers: seq<Answer>,
                               now: int) {
    |gs| == |answers| && S.WellFormed(l) && l.grants.Keys + held.Keys <= (set g | g in gs :: g.uid) &&
    forall i :: 0 <= i < |gs| ==> BootedGrant(l, held, gs[i], answers[i], now)
  }

  ghost predicate BootedGrant(l: S.View, held: map<string, HeldGrant>, g: S.Grant, a: Answer, now: int)
    requires S.WellFormed(l)
  {
    (g.uid in l.grants <==> TokenAdmits(g, a, now)) &&
    (g.uid in l.grants ==> l.entries[l.grants[g.uid]].grant == Carried(g, a)) &&
    (g.uid in held <==> Undecided(g, a, now)) && (g.uid in held ==> held[g.uid].grant == g)
  }

  lemma PlacedAreBooted(l: S.View, held: map<string, HeldGrant>, gs: seq<S.Grant>, answers: seq<Answer>, now: int)
    requires |gs| == |answers| && DistinctUIDs(gs) && S.WellFormed(l) && CarriesJudged(l, gs, answers, now)
    requires l.grants.Keys == AdmittedUIDs(gs, answers, now) && held.Keys == OnHoldUIDs(gs, answers, now)
    requires forall u :: u in held ==> held[u].grant in gs && held[u].grant.uid == u
    ensures BootedGrants(l, held, gs, answers, now)
  {
    forall u | u in l.grants || u in held
      ensures u in set g | g in gs :: g.uid
    {
      var i :| 0 <= i < |gs| && gs[i].uid == u;
      assert gs[i] in gs;
    }
    forall i | 0 <= i < |gs|
      ensures BootedGrant(l, held, gs[i], answers[i], now)
    {
      OnePlacedIsBooted(l, held, gs, answers, now, i);
    }
  }

  lemma OnePlacedIsBooted(l: S.View, held: map<string, HeldGrant>, gs: seq<S.Grant>, answers: seq<Answer>, now: int,
                          i: nat)
    requires |gs| == |answers| && i < |gs| && DistinctUIDs(gs) && CarriesJudged(l, gs, answers, now) && S.WellFormed(l)
    requires l.grants.Keys == AdmittedUIDs(gs, answers, now) && held.Keys == OnHoldUIDs(gs, answers, now)
    requires forall u :: u in held ==> held[u].grant in gs && held[u].grant.uid == u
    ensures BootedGrant(l, held, gs[i], answers[i], now)
  {
    JudgesExactly(gs[i], answers[i], now);
    if gs[i].uid in l.grants {
      var k :| 0 <= k < |gs| && Judge(gs[k], answers[k], now).Admitted? && gs[k].uid == gs[i].uid;
      assert k == i;
    }
    if gs[i].uid in held {
      var k :| 0 <= k < |gs| && Judge(gs[k], answers[k], now).OnHold? && gs[k].uid == gs[i].uid;
      assert k == i;
      var m :| 0 <= m < |gs| && gs[m] == held[gs[i].uid].grant;
      assert m == i;
    }
  }

  // ------------------------------------------------------------ parked sessions

  datatype Fate = Skipped | Dropped | Held | Restored

  predicate IsParked(s: SessionSnap) { s.state == S.Parked && s.deltaRef != "" }

  /** Each parked session follows its grant, if its delta is still there. */
  function FateOf(s: SessionSnap, admitted: set<string>, onHold: set<string>, has: string -> bool): (f: Fate)
    ensures f.Skipped? <==> !IsParked(s)
  {
    if !IsParked(s) then Skipped
    else if !has(s.deltaRef) then Dropped
    else if s.grantUID in onHold then Held
    else if s.grantUID in admitted then Restored
    else Dropped
  }

  function AsSession(s: SessionSnap): (r: S.Session) {
    S.Session(s.name, s.grantUID, S.Parked, s.fence, "", "", s.deltaRef)
  }

  function RestoredOf(ss: seq<SessionSnap>, admitted: set<string>, onHold: set<string>,
                      has: string -> bool): (m: map<string, S.Session>)
    decreases |ss|
  {
    if ss == [] then map[] else
    var s, m := ss[|ss| - 1], RestoredOf(ss[..|ss| - 1], admitted, onHold, has);
    if FateOf(s, admitted, onHold, has).Restored? then m[Key(s) := AsSession(s)] else m
  }

  function HeldOf(ss: seq<SessionSnap>, uid: string, admitted: set<string>, onHold: set<string>,
                  has: string -> bool): (r: seq<SessionSnap>)
    decreases |ss|
  {
    if ss == [] then [] else
    var s, r := ss[|ss| - 1], HeldOf(ss[..|ss| - 1], uid, admitted, onHold, has);
    if FateOf(s, admitted, onHold, has).Held? && s.grantUID == uid then r + [s] else r
  }

  datatype Tally = Tally(restored: nat, held: nat, dropped: nat)

  function Counted(t: Tally, f: Fate): (r: Tally) {
    match f
    case Restored => t.(restored := t.restored + 1)
    case Held => t.(held := t.held + 1)
    case Dropped => t.(dropped := t.dropped + 1)
    case Skipped => t
  }

  function TallyOf(ss: seq<SessionSnap>, admitted: set<string>, onHold: set<string>, has: string -> bool): (t: Tally)
    decreases |ss|
  {
    if ss == [] then Tally(0, 0, 0)
    else Counted(TallyOf(ss[..|ss| - 1], admitted, onHold, has), FateOf(ss[|ss| - 1], admitted, onHold, has))
  }

  ghost predicate DistinctKeys(ss: seq<SessionSnap>) {
    forall i, j :: 0 <= i < j < |ss| ==> Key(ss[i]) != Key(ss[j])
  }

  function RunningRefs(ss: seq<SessionSnap>): (r: set<string>) {
    set i | 0 <= i < |ss| && ss[i].state == S.Running && ss[i].deltaRef != "" :: ss[i].deltaRef
  }

  // ------------------------------------------------------------ the next snapshot

  function Snap(s: S.Session): (r: SessionSnap) {
    SessionSnap(s.name, s.grantUID, s.state, s.fence, s.deltaRef, if s.state == S.Running then s.handle else "")
  }

  function LedgerSessions(l: S.View): (r: set<SessionSnap>) {
    set k | k in l.sessions :: Snap(l.sessions[k])
  }

  /** The held sessions persist adds: under grants not admitted since, and not known to the ledger. */
  function HeldSessions(l: S.View, held: map<string, HeldGrant>): (r: set<SessionSnap>) {
    set uid, s | uid in held && uid !in l.grants && s in held[uid].sessions && Key(s) !in l.sessions :: s
  }

  function NextSessions(l: S.View, held: map<string, HeldGrant>): (r: set<SessionSnap>) {
    LedgerSessions(l) + HeldSessions(l, held)
  }

  function NextGrants(l: S.View, held: map<string, HeldGrant>): (r: set<S.Grant>)
    requires S.WellFormed(l)
  {
    (set uid | uid in l.grants :: l.entries[l.grants[uid]].grant) +
    (set uid | uid in held && uid !in l.grants :: held[uid].grant)
  }

  function KeepRefs(sessions: set<SessionSnap>): (r: set<string>) {
    set s | s in sessions && IsParked(s) :: s.deltaRef
  }

  // ------------------------------------------------------------ the two captures of a snapshot

  /** The ledger's half of a snapshot, taken under the ledger's lock: the grants by uid, and the sessions. */
  datatype Captured = Captured(grants: map<string, S.Grant>, sessions: set<SessionSnap>)

  ghost predicate CapturedFrom(c: Captured, l: S.View)
    requires S.WellFormed(l)
  {
    c.grants == (map uid | uid in l.grants :: l.entries[l.grants[uid]].grant) && c.sessions == LedgerSessions(l)
  }

  method Capture(ledger: Ledger) returns (c: Captured)
    requires S.WellFormed(ledger.View())
    ensures CapturedFrom(c, ledger.View())
  {
    c := Captured(map uid | uid in ledger.grants :: ledger.entries[ledger.grants[uid]].grant,
                  set k | k in ledger.sessions :: Snap(ledger.sessions[k]));
  }

  /** The second half, under the lock of the held grants: those the capture does not have, and their sessions. */
  method WithHeld(c: Captured, ghost l: S.View, held: map<string, HeldGrant>) returns (saved: Saved)
    requires S.WellFormed(l) && KeysMatch(l) && CapturedFrom(c, l)
    ensures saved == NextSaved(l, held)
  {
    var grants := (set uid | uid in c.grants :: c.grants[uid]) +
                  (set uid | uid in held && uid !in c.grants :: held[uid].grant);
    SameGrants(c, l, held, grants);
    var known := set s | s in c.sessions :: Key(s);
    KnownKeys(l, known);
    var more := HeldNotKnown(c.grants.Keys, known, l, held);
    return Saved(grants, c.sessions + more);
  }

  method HeldNotKnown(admitted: set<string>, known: set<string>, ghost l: S.View, held: map<string, HeldGrant>)
    returns (r: set<SessionSnap>)
    requires admitted == l.grants.Keys && known == l.sessions.Keys
    ensures r == HeldSessions(l, held)
  {
    r := {};
    var left := held.Keys;
    while left != {}
      invariant left <= held.Keys && r == HeldUnder(l, held, held.Keys - left)
    {
      var uid :| uid in left;
      OneMoreHeld(l, held, held.Keys - left, uid);
      assert held.Keys - (left - {uid}) == held.Keys - left + {uid};
      left := left - {uid};
      if uid !in admitted {
        var more := NotKnownOf(held[uid].sessions, known);
        r := r + more;
      }
    }
    AllHeld(l, held);
    assert held.Keys - {} == held.Keys;
  }

  /** The held sessions of one grant that the ledger does not know. */
  method NotKnownOf(ss: seq<SessionSnap>, known: set<string>) returns (r: set<SessionSnap>)
    ensures r == set s | s in ss && Key(s) !in known
  {
    r := {};
    for i := 0 to |ss|
      invariant r == set s | s in ss[..i] && Key(s) !in known
    {
      assert ss[..i + 1] == ss[..i] + [ss[i]];
      if Key(ss[i]) !in known {
        r := r + {ss[i]};
      }
    }
    assert ss[..|ss|] == ss;
  }

  // ------------------------------------------------------------ boot, as it runs

  class Boot {
    const ledger: Ledger
    var held: map<string, HeldGrant>
    var disk: set<string>
    var file: Saved

    constructor (l: Ledger, deltas: set<string>, f: Saved)
      ensures ledger == l && held == map[] && disk == deltas && file == f
    {
      ledger, held, disk, file := l, map[], deltas, f;
    }

    /** `persist`: the file becomes the snapshot as it is now. */
    method Persist()
      requires S.WellFormed(ledger.View()) && KeysMatch(ledger.View())
      modifies this`file
      ensures file == NextSaved(ledger.View(), held)
    {
      file := NextSnapshot();
    }

    /** `restoreHeld`: the sessions held under a grant that was just admitted go to the ledger. */
    method RestoreHeld(uid: string)
      requires S.WellFormed(ledger.View())
      modifies this`held, ledger
      ensures held == old(held) - {uid}
      ensures ledger.View() == RestoreAll(old(ledger.View()), if uid in old(held) then old(held)[uid].sessions else [])
      ensures S.WellFormed(ledger.View())
    {
      if uid !in held {
        assert held - {uid} == held;
        return;
      }
      var ss := held[uid].sessions;
      held := held - {uid};
      ghost var l0 := ledger.View();
      for i := 0 to |ss|
        invariant held == old(held) - {uid} && ledger.View() == RestoreAll(l0, ss[..i]) && S.WellFormed(ledger.View())
      {
        assert ss[..i + 1][..i] == ss[..i];
        var err := ledger.RestoreParked(ss[i].grantUID, ss[i].name, ss[i].fence, ss[i].deltaRef);
      }
      assert ss[..|ss|] == ss;
    }

    /** One grant of the snapshot. */
    method PlaceGrant(g: S.Grant, answer: Answer, now: int) returns (o: Outcome)
      requires S.WellFormed(ledger.View()) && KeysMatch(ledger.View())
      modifies this`held, this`file, ledger
      ensures o == Judge(g, answer, now) && S.WellFormed(ledger.View()) && KeysMatch(ledger.View())
      ensures (ledger.View(), held) == GrantPlaced(old(ledger.View()), old(held), g, o)
      ensures file == if o.Admitted? then NextSaved(ledger.View(), held) else old(file)
    {
      if g.lease.Some? && now >= g.lease.value {
        return Lapsed;
      }
      if g.token == "" {
        return Unverified;
      }
      if answer.Unavailable? {
        held := held[g.uid := HeldGrant(g, [])];
        return OnHold;
      }
      if answer.Bad? || answer.grant.uid != g.uid {
        return Unverified;
      }
      if !answer.admitted {
        return Lost;
      }
      var vg := answer.grant.(token := g.token);
      ledger.AdmitGrant(vg);
      RestoreAllMatches(ledger.View(), if vg.uid in held then held[vg.uid].sessions else []);
      RestoreHeld(vg.uid);
      Persist();
      return Admitted(vg);
    }

    /**
     The first loop: every grant of the snapshot is admitted, held or dropped. An admission writes
     the file, which names no session while none is restored.
     */
    method ReconcileGrants(gs: seq<S.Grant>, answers: seq<Answer>, now: int) returns (tally: GrantTally)
      requires |gs| == |answers| && DistinctUIDs(gs) && held == map[]
      requires S.WellFormed(ledger.View()) && ledger.View().grants == map[] && ledger.View().sessions == map[]
      requires Unused(ledger.View())
      modifies this`held, this`file, ledger
      ensures GrantsDone(old(ledger.View()), ledger.View(), held, old(file), file, gs, answers, now)
      ensures BootedGrants(ledger.View(), held, gs, answers, now)
      ensures tally == GrantTallyOf(gs, answers, now)
    {
      tally := GrantTally(0, 0, 0, 0);
      ghost var l0, f0 := ledger.View(), file;
      for i := 0 to |gs|
        invariant GrantsDone(l0, ledger.View(), held, f0, file, gs[..i], answers[..i], now)
        invariant tally == GrantTallyOf(gs[..i], answers[..i], now)
      {
        OneMoreTally(gs, answers, now, i);
        GrantsOneMore(l0, ledger.View(), held, f0, file, gs, answers, now, i);
        var o := PlaceGrant(gs[i], answers[i], now);
        tally := GrantCounted(tally, o);
      }
      assert gs[..|gs|] == gs && answers[..|gs|] == answers;
      PlacedAreBooted(ledger.View(), held, gs, answers, now);
    }

    /** `holdParked` or `RestoreParked`: one session of the snapshot. */
    method Place(s: SessionSnap, has: string -> bool) returns (f: Fate)
      requires Key(s) !in ledger.View().sessions
      modifies this`held, ledger
      ensures f == FateOf(s, old(ledger.View().grants.Keys), old(held.Keys), has)
      ensures ledger.View() == old(ledger.View()).(sessions :=
        if f.Restored? then old(ledger.View().sessions)[Key(s) := AsSession(s)] else old(ledger.View().sessions))
      ensures held.Keys == old(held.Keys)
      ensures forall u :: u in held ==>
        held[u] ==
          if f.Held? && u == s.grantUID then old(held)[u].(sessions := old(held)[u].sessions + [s]) else old(held)[u]
    {
      if s.state != S.Parked || s.deltaRef == "" {
        return Skipped;
      }
      if !has(s.deltaRef) {
        return Dropped;
      }
      if s.grantUID in held {
        held := held[s.grantUID := held[s.grantUID].(sessions := held[s.grantUID].sessions + [s])];
        return Held;
      }
      var err := ledger.RestoreParked(s.grantUID, s.name, s.fence, s.deltaRef);
      return if err.Some? then Dropped else Restored;
    }

    /** The second loop: every parked session with a delta is restored, held or dropped. */
    method ReconcileSessions(ss: seq<SessionSnap>, has: string -> bool) returns (tally: Tally)
      requires DistinctKeys(ss) && ledger.View().sessions == map[]
      requires forall u :: u in held ==> held[u].sessions == []
      modifies this`held, ledger
      ensures ledger.View() ==
        old(ledger.View()).(sessions := RestoredOf(ss, old(ledger.View().grants.Keys), old(held.Keys), has))
      ensures held.Keys == old(held.Keys)
      ensures forall u :: u in held ==>
        held[u] == HeldGrant(old(held)[u].grant, HeldOf(ss, u, old(ledger.View().grants.Keys), old(held.Keys), has))
      ensures BootedSessions(ledger.View(), held, ss, has)
      ensures tally == TallyOf(ss, old(ledger.View().grants.Keys), old(held.Keys), has)
    {
      tally := Tally(0, 0, 0);
      ghost var l0, h0 := ledger.View(), held;
      ghost var a, h := l0.grants.Keys, h0.Keys;
      for i := 0 to |ss|
        invariant ledger.View() == l0.(sessions := RestoredOf(ss[..i], a, h, has))
        invariant held.Keys == h
        invariant forall u :: u in held ==> held[u] == HeldGrant(h0[u].grant, HeldOf(ss[..i], u, a, h, has))
        invariant tally == TallyOf(ss[..i], a, h, has)
      {
        assert ss[..i + 1][..i] == ss[..i] && ss[..i + 1][i] == ss[i];
        KeyIsNew(ss, i, a, h, has);
        var f := Place(ss[i], has);
        tally := Counted(tally, f);
      }
      assert ss[..|ss|] == ss;
      FollowedAreBooted(ledger.View(), held, ss, has);
    }

    /** The runtime drops a delta, or fails to; `works` says it does not fail. */
    method DiscardDelta(ref: string, ghost works: bool)
      modifies this`disk
      ensures disk == old(disk) - {ref} || (!works && disk == old(disk))
    {
      disk := disk - {ref};
    }

    /** The third loop: what running sessions were resumed from goes with them. */
    method DiscardRunning(ss: seq<SessionSnap>, ghost works: bool)
      modifies this`disk
      ensures old(disk) - RunningRefs(ss) <= disk <= old(disk)
      ensures works ==> disk == old(disk) - RunningRefs(ss)
    {
      for i := 0 to |ss|
        invariant old(disk) - RunningRefs(ss[..i]) <= disk <= old(disk)
        invariant works ==> disk == old(disk) - RunningRefs(ss[..i])
      {
        OneMoreRef(ss, i);
        if ss[i].state == S.Running && ss[i].deltaRef != "" {
          DiscardDelta(ss[i].deltaRef, works);
        }
      }
      assert ss[..|ss|] == ss;
    }

    /** The runtime removes deltas, and none it is told to keep. */
    method SweepDeltas(keep: set<string>)
      modifies this`disk
      ensures old(disk) * keep <= disk <= old(disk)
    {
      disk := disk * keep;
    }

    /** `snapshot` at boot, where nobody else runs between its two captures. */
    method NextSnapshot() returns (saved: Saved)
      requires S.WellFormed(ledger.View()) && KeysMatch(ledger.View())
      ensures saved == NextSaved(ledger.View(), held)
    {
      var captured := Capture(ledger);
      saved := WithHeld(captured, ledger.View(), held);
    }

    /**
     `Reconcile` on the snapshot the file names. `ok` is false when the runtime could not list its
     fibers: nothing is discarded or swept then, but the admissions before it have written the
     file. It names every session boot keeps if and only if the fibers were listed, no grant was
     admitted, or there is none to keep.
     */
    method Reconcile(snap: Snapshot, now: int, answers: seq<Answer>, canCheck: bool, listed: bool, ghost works: bool)
      returns (ok: bool, grants: GrantTally, tally: Tally)
      requires |snap.grants| == |answers| && DistinctUIDs(snap.grants) && DistinctKeys(snap.sessions)
      requires held == map[] && S.WellFormed(ledger.View()) && ledger.View().grants == map[]
      requires ledger.View().sessions == map[] && Unused(ledger.View())
      requires forall i :: 0 <= i < |snap.sessions| ==> snap.sessions[i] in file.sessions
      modifies this, ledger
      ensures ok == listed
      ensures S.WellFormed(ledger.View()) && CarriesJudged(ledger.View(), snap.grants, answers, now)
      ensures grants == GrantTallyOf(snap.grants, answers, now)
      ensures tally == TallyOf(snap.sessions, AdmittedUIDs(snap.grants, answers, now),
                               OnHoldUIDs(snap.grants, answers, now), Has(canCheck, old(disk)))
      ensures Rebuilt(ledger.View(), held, snap, AdmittedUIDs(snap.grants, answers, now),
                      OnHoldUIDs(snap.grants, answers, now), Has(canCheck, old(disk)))
      ensures Finished(ledger.View(), held, file, snap, AdmittedUIDs(snap.grants, answers, now),
                       OnHoldUIDs(snap.grants, answers, now), Has(canCheck, old(disk)), listed, old(disk), disk, works)
    {
      var d := disk;
      var has := Has(canCheck, d);
      grants, tally := Rebuild(snap, now, answers, has, works);
      ghost var a, h := AdmittedUIDs(snap.grants, answers, now), OnHoldUIDs(snap.grants, answers, now);
      ghost var l := ledger.View();
      ok := listed;
      if listed {
        Finish(snap, a, h, has, works);
        assert ledger.View() == l;
      }
    }

    /** The two loops, before the runtime is asked for its fibers. */
    method Rebuild(snap: Snapshot, now: int, answers: seq<Answer>, has: string -> bool, ghost works: bool)
      returns (grants: GrantTally, tally: Tally)
      requires |snap.grants| == |answers| && DistinctUIDs(snap.grants) && DistinctKeys(snap.sessions)
      requires held == map[] && S.WellFormed(ledger.View()) && ledger.View().grants == map[]
      requires ledger.View().sessions == map[] && Unused(ledger.View())
      requires forall i :: 0 <= i < |snap.sessions| ==> snap.sessions[i] in file.sessions
      modifies this`held, this`file, ledger
      ensures S.WellFormed(ledger.View()) && KeysMatch(ledger.View())
      ensures CarriesJudged(ledger.View(), snap.grants, answers, now)
      ensures Rebuilt(ledger.View(), held, snap, AdmittedUIDs(snap.grants, answers, now),
                      OnHoldUIDs(snap.grants, answers, now), has)
      ensures grants == GrantTallyOf(snap.grants, answers, now)
      ensures tally == TallyOf(snap.sessions, AdmittedUIDs(snap.grants, answers, now),
                               OnHoldUIDs(snap.grants, answers, now), has)
      ensures Finished(ledger.View(), held, file, snap, AdmittedUIDs(snap.grants, answers, now),
                       OnHoldUIDs(snap.grants, answers, now), has, false, disk, disk, works)
    {
      grants := ReconcileGrants(snap.grants, answers, now);
      AdmittedNotHeld(snap.grants, answers, now);
      ghost var l1 := ledger.View();
      tally := ReconcileSessions(snap.sessions, has);
      ghost var a, h := ledger.View().grants.Keys, held.Keys;
      RestoredKeysMatch(ledger.View(), snap.sessions, a, h, has);
      NextIsKept(snap.sessions, ledger.View(), held, a, h, has);
      FileNames(snap.sessions, file.sessions, a, h, has);
    }

    /** Once the fibers are listed: discard, sweep, save. */
    method Finish(snap: Snapshot, ghost a: set<string>, ghost h: set<string>, ghost has: string -> bool,
                  ghost works: bool)
      requires S.WellFormed(ledger.View()) && KeysMatch(ledger.View()) && Rebuilt(ledger.View(), held, snap, a, h, has)
      modifies this`disk, this`file
      ensures Finished(ledger.View(), held, file, snap, a, h, has, true, old(disk), disk, works)
    {
      DiscardRunning(snap.sessions, works);
      var saved := NextSnapshot();
      if !snap.unreadable {
        SweepDeltas(KeepRefs(saved.sessions));
      }
      KeptRefsKept(snap.sessions, a, h, has);
      Persist();
    }
  }

  /** What boot leaves on disk: the file, and the deltas of the sessions it keeps. */
  ghost predicate Finished(l: S.View, held: map<string, HeldGrant>, file: Saved, snap: Snapshot,
                           a: set<string>, h: set<string>, has: string -> bool,
                           listed: bool, before: set<string>, after: set<string>, works: bool)
  {
    var kept := KeptOf(snap.sessions, a, h, has);
    (Named(kept) <= Named(file.sessions) <==> listed || a == {} || kept == {}) &&
    (if listed then
       S.WellFormed(l) && file == Saved(NextGrants(l, held), kept) &&
       DeltasKept(snap, before, after, a, h, has, works) &&
       (snap.unreadable ==> before - RunningRefs(snap.sessions) <= after) &&
       (works ==> RunningGone(snap.sessions, after))
     else after == before)
  }

  /** What a running session was resumed from is not on disk. */
  ghost predicate RunningGone(ss: seq<SessionSnap>, disk: set<string>) {
    forall i :: 0 <= i < |ss| && ss[i].state == S.Running && ss[i].deltaRef != "" ==> ss[i].deltaRef !in disk
  }

  /** What `HasDelta` answers, or yes for every ref when the runtime cannot say. */
  function Has(canCheck: bool, disk: set<string>): (has: string -> bool) {
    if canCheck then (ref: string) => ref in disk else (ref: string) => true
  }

  predicate IsKept(f: Fate) { f.Restored? || f.Held? }

  /** A session as the next snapshot names it. */
  function AsKept(s: SessionSnap, f: Fate): (r: SessionSnap) {
    if f.Restored? then s.(fiberID := "") else s
  }

  function KeptOf(ss: seq<SessionSnap>, a: set<string>, h: set<string>, has: string -> bool): (r: set<SessionSnap>) {
    set i | 0 <= i < |ss| && IsKept(FateOf(ss[i], a, h, has)) :: AsKept(ss[i], FateOf(ss[i], a, h, has))
  }

  /**
   A restored or held session's delta survives boot unless a running session named it too; and
   when discarding works, exactly then.
   */
  ghost predicate DeltasKept(snap: Snapshot, before: set<string>, after: set<string>, a: set<string>, h: set<string>,
                             has: string -> bool, works: bool) {
    forall i ::
      0 <= i < |snap.sessions| && IsKept(FateOf(snap.sessions[i], a, h, has)) && snap.sessions[i].deltaRef in before ==>
      (snap.sessions[i].deltaRef !in RunningRefs(snap.sessions) ==> snap.sessions[i].deltaRef in after) &&
      (works && snap.sessions[i].deltaRef in RunningRefs(snap.sessions) ==> snap.sessions[i].deltaRef !in after)
  }

  /** The ledger and the held grants once a grant of the snapshot has been placed. */
  function GrantPlaced(l: S.View, held: map<string, HeldGrant>, g: S.Grant,
                       o: Outcome): (r: (S.View, map<string, HeldGrant>))
    requires S.WellFormed(l)
  {
    match o
    case OnHold => (l, held[g.uid := HeldGrant(g, [])])
    case Admitted(vg) =>
      (RestoreAll(S.AdmitGrant(l, vg), if vg.uid in held then held[vg.uid].sessions else []), held - {vg.uid})
    case _ => (l, held)
  }

  /** No fiber yet, and no slot taken. */
  ghost predicate Unused(l: S.View) {
    l.fibers == map[] && forall e :: 0 <= e < |l.entries| ==> l.entries[e].live == 0
  }

  /** The ledger has the admitted grants and the restored sessions, and the held grants have the held ones. */
  ghost predicate Rebuilt(l: S.View, held: map<string, HeldGrant>, snap: Snapshot, a: set<string>, h: set<string>,
                          has: string -> bool) {
    Unused(l) && l.grants.Keys == a && held.Keys == h && l.sessions == RestoredOf(snap.sessions, a, h, has) &&
    NextSessions(l, held) == KeptOf(snap.sessions, a, h, has) &&
    forall u :: u in held ==>
      held[u].grant in snap.grants && held[u].grant.uid == u && held[u].sessions == HeldOf(snap.sessions, u, a, h, has)
  }

  /** The parked sessions a file names, by key, with their deltas. */
  function Named(sessions: set<SessionSnap>): (r: set<(string, string)>) {
    set s | s in sessions && IsParked(s) :: (Key(s), s.deltaRef)
  }

  function NextSaved(l: S.View, held: map<string, HeldGrant>): (r: Saved)
    requires S.WellFormed(l)
  {
    Saved(NextGrants(l, held), NextSessions(l, held))
  }

  /** A file that names the old snapshot names what boot keeps; one that names no session names nothing it keeps. */
  lemma FileNames(ss: seq<SessionSnap>, file: set<SessionSnap>, a: set<string>, h: set<string>, has: string -> bool)
    ensures (forall i :: 0 <= i < |ss| ==> ss[i] in file) ==> Named(KeptOf(ss, a, h, has)) <= Named(file)
    ensures file == {} ==> (Named(KeptOf(ss, a, h, has)) <= Named(file) <==> KeptOf(ss, a, h, has) == {})
  {
    var kept := KeptOf(ss, a, h, has);
    if forall i :: 0 <= i < |ss| ==> ss[i] in file {
      forall x | x in kept
        ensures (Key(x), x.deltaRef) in Named(file)
      {
        var i :| 0 <= i < |ss| && IsKept(FateOf(ss[i], a, h, has)) && x == AsKept(ss[i], FateOf(ss[i], a, h, has));
        assert ss[i] in file && IsParked(ss[i]) && (Key(ss[i]), ss[i].deltaRef) == (Key(x), x.deltaRef);
      }
    }
    if kept != {} {
      var x :| x in kept;
      assert IsParked(x) && (Key(x), x.deltaRef) in Named(kept);
    }
  }

  lemma NothingToName(l: S.View, held: map<string, HeldGrant>)
    ensures l.sessions == map[] && (forall u :: u in held ==> held[u].sessions == []) ==> NextSessions(l, held) == {}
  {
  }

  lemma {:induction false} RestoreAllMatches(l: S.View, ss: seq<SessionSnap>)
    requires KeysMatch(l)
    ensures KeysMatch(RestoreAll(l, ss))
    decreases |ss|
  {
    if ss != [] {
      RestoreAllMatches(l, ss[..|ss| - 1]);
    }
  }

  /** Each admitted uid's entry carries the grant its token was judged to carry. */
  ghost predicate CarriesJudged(l: S.View, gs: seq<S.Grant>, answers: seq<Answer>, now: int)
    requires |gs| == |answers|
  {
    forall i :: 0 <= i < |gs| && Judge(gs[i], answers[i], now).Admitted? ==>
      gs[i].uid in l.grants && l.grants[gs[i].uid] < |l.entries| &&
      l.entries[l.grants[gs[i].uid]].grant == Judge(gs[i], answers[i], now).grant
  }

  lemma CarriesOneMore(l: S.View, held: map<string, HeldGrant>, gs: seq<S.Grant>, answers: seq<Answer>, now: int,
                       i: nat)
    requires |gs| == |answers| && i < |gs| && S.WellFormed(l) && DistinctUIDs(gs)
    requires gs[i].uid !in held && gs[i].uid !in l.grants && CarriesJudged(l, gs[..i], answers[..i], now)
    ensures
      var l' := GrantPlaced(l, held, gs[i], Judge(gs[i], answers[i], now)).0;
      CarriesJudged(l', gs[..i + 1], answers[..i + 1], now)
  {
    var o := Judge(gs[i], answers[i], now);
    var l' := GrantPlaced(l, held, gs[i], o).0;
    var gs', as' := gs[..i + 1], answers[..i + 1];
    assert o.Admitted? ==> l' == S.AdmitGrant(l, o.grant);
    forall k | 0 <= k < |gs'| && Judge(gs'[k], as'[k], now).Admitted?
      ensures gs'[k].uid in l'.grants && l'.grants[gs'[k].uid] < |l'.entries|
      ensures l'.entries[l'.grants[gs'[k].uid]].grant == Judge(gs'[k], as'[k], now).grant
    {
      if k < i {
        assert gs[..i][k] == gs'[k] && answers[..i][k] == as'[k];
        assert gs[k].uid != gs[i].uid;
      }
    }
  }

  /** A grant whose uid is new to boot touches no session, and no other grant. */
  lemma PlacedNew(l: S.View, held: map<string, HeldGrant>, g: S.Grant, o: Outcome)
    requires S.WellFormed(l) && g.uid !in held && g.uid !in l.grants && (o.Admitted? ==> o.grant.uid == g.uid)
    ensures
      var (l', held') := GrantPlaced(l, held, g, o);
      l' == l.(grants := l'.grants, entries := l'.entries) &&
      S.WellFormed(l') && (Unused(l) ==> Unused(l')) &&
      l'.grants.Keys == l.grants.Keys + (if o.Admitted? then {g.uid} else {}) &&
      held' == if o.OnHold? then held[g.uid := HeldGrant(g, [])] else held
  {
    assert held - {g.uid} == held;
  }

  ghost predicate KeysMatch(l: S.View) {
    forall k :: k in l.sessions ==> S.SessionKey(l.sessions[k].grantUID, l.sessions[k].name) == k
  }

  /** The held sessions under the grants in `uids`. */
  function HeldUnder(l: S.View, held: map<string, HeldGrant>, uids: set<string>): (r: set<SessionSnap>) {
    set uid, s | uid in held && uid in uids && uid !in l.grants && s in held[uid].sessions && Key(s) !in l.sessions :: s
  }

  function NotKnown(l: S.View, ss: seq<SessionSnap>): (r: set<SessionSnap>) {
    set s | s in ss && Key(s) !in l.sessions
  }

  lemma SameGrants(c: Captured, l: S.View, held: map<string, HeldGrant>, grants: set<S.Grant>)
    requires S.WellFormed(l) && CapturedFrom(c, l)
    requires grants == (set uid | uid in c.grants :: c.grants[uid]) +
                       (set uid | uid in held && uid !in c.grants :: held[uid].grant)
    ensures grants == NextGrants(l, held)
  {
    assert c.grants.Keys == l.grants.Keys;
    assert (set uid | uid in c.grants :: c.grants[uid]) == set uid | uid in l.grants :: l.entries[l.grants[uid]].grant;
  }

  lemma KnownKeys(l: S.View, known: set<string>)
    requires KeysMatch(l) && known == set s | s in LedgerSessions(l) :: Key(s)
    ensures known == l.sessions.Keys
  {
    forall k | k in l.sessions
      ensures k in known
    {
      assert Snap(l.sessions[k]) in LedgerSessions(l) && Key(Snap(l.sessions[k])) == k;
    }
  }

  lemma OneMoreHeld(l: S.View, held: map<string, HeldGrant>, uids: set<string>, uid: string)
    requires uid in held
    ensures HeldUnder(l, held, uids + {uid}) ==
            HeldUnder(l, held, uids) + if uid in l.grants then {} else NotKnown(l, held[uid].sessions)
  {
  }

  lemma AllHeld(l: S.View, held: map<string, HeldGrant>)
    ensures HeldUnder(l, held, held.Keys) == HeldSessions(l, held)
  {
  }

  lemma OneMoreRef(ss: seq<SessionSnap>, i: nat)
    requires i < |ss|
    ensures RunningRefs(ss[..i + 1]) ==
            RunningRefs(ss[..i]) + if ss[i].state == S.Running && ss[i].deltaRef != "" then {ss[i].deltaRef} else {}
  {
    var t := ss[..i + 1];
    assert t[i] == ss[i] && forall k :: 0 <= k < i ==> t[k] == ss[..i][k];
  }

  lemma AdmittedNotHeld(gs: seq<S.Grant>, answers: seq<Answer>, now: int)
    requires |gs| == |answers| && DistinctUIDs(gs)
    ensures AdmittedUIDs(gs, answers, now) !! OnHoldUIDs(gs, answers, now)
  {
  }

  function RestoreAll(l: S.View, ss: seq<SessionSnap>): (r: S.View)
    decreases |ss|
  {
    if ss == [] then l else
    var s := ss[|ss| - 1];
    S.RestoreParked(RestoreAll(l, ss[..|ss| - 1]), s.grantUID, s.name, s.fence, s.deltaRef)
  }

  lemma OneMoreTally(gs: seq<S.Grant>, answers: seq<Answer>, now: int, i: nat)
    requires |gs| == |answers| && i < |gs|
    ensures GrantTallyOf(gs[..i + 1], answers[..i + 1], now) ==
      GrantCounted(GrantTallyOf(gs[..i], answers[..i], now), Judge(gs[i], answers[i], now))
  {
    assert gs[..i + 1][..i] == gs[..i] && answers[..i + 1][..i] == answers[..i];
  }

  /** Where the ledger, the held grants and the file stand once these grants have been placed. */
  ghost predicate GrantsDone(l0: S.View, l: S.View, held: map<string, HeldGrant>, f0: Saved, f: Saved,
                             gs: seq<S.Grant>, answers: seq<Answer>, now: int) {
    |gs| == |answers| && LedgerDone(l0, l, gs, answers, now) && HeldDone(held, gs, answers, now) &&
    FileDone(f0, f, AdmittedUIDs(gs, answers, now))
  }

  ghost predicate LedgerDone(l0: S.View, l: S.View, gs: seq<S.Grant>, answers: seq<Answer>, now: int)
    requires |gs| == |answers|
  {
    S.WellFormed(l) && l == l0.(grants := l.grants, entries := l.entries) && l.sessions == map[] && Unused(l) &&
    l.grants.Keys == AdmittedUIDs(gs, answers, now) && CarriesJudged(l, gs, answers, now)
  }

  ghost predicate HeldDone(held: map<string, HeldGrant>, gs: seq<S.Grant>, answers: seq<Answer>, now: int)
    requires |gs| == |answers|
  {
    held.Keys == OnHoldUIDs(gs, answers, now) &&
    forall u :: u in held ==> held[u].grant in gs && held[u].grant.uid == u && held[u].sessions == []
  }

  ghost predicate FileDone(f0: Saved, f: Saved, admitted: set<string>) {
    if admitted == {} then f == f0 else f.sessions == {}
  }

  lemma LedgerOneMore(l0: S.View, l: S.View, held: map<string, HeldGrant>, gs: seq<S.Grant>, answers: seq<Answer>,
                      now: int, i: nat)
    requires |gs| == |answers| && i < |gs| && DistinctUIDs(gs) && LedgerDone(l0, l, gs[..i], answers[..i], now)
    requires gs[i].uid !in held && gs[i].uid !in l.grants
    ensures
      var l' := GrantPlaced(l, held, gs[i], Judge(gs[i], answers[i], now)).0;
      LedgerDone(l0, l', gs[..i + 1], answers[..i + 1], now)
  {
    OneMoreGrant(gs, answers, now, i);
    PlacedNew(l, held, gs[i], Judge(gs[i], answers[i], now));
    CarriesOneMore(l, held, gs, answers, now, i);
  }

  lemma HeldOneMore(l: S.View, held: map<string, HeldGrant>, gs: seq<S.Grant>, answers: seq<Answer>, now: int, i: nat)
    requires |gs| == |answers| && i < |gs| && DistinctUIDs(gs) && S.WellFormed(l)
    requires HeldDone(held, gs[..i], answers[..i], now)
    requires gs[i].uid !in l.grants
    ensures gs[i].uid !in held
    ensures HeldDone(GrantPlaced(l, held, gs[i], Judge(gs[i], answers[i], now)).1, gs[..i + 1], answers[..i + 1], now)
  {
    OneMoreGrant(gs, answers, now, i);
    PlacedNew(l, held, gs[i], Judge(gs[i], answers[i], now));
    assert gs[..i + 1] == gs[..i] + [gs[i]];
  }

  lemma GrantsOneMore(l0: S.View, l: S.View, held: map<string, HeldGrant>, f0: Saved, f: Saved, gs: seq<S.Grant>,
                      answers: seq<Answer>, now: int, i: nat)
    requires |gs| == |answers| && i < |gs| && DistinctUIDs(gs)
    requires GrantsDone(l0, l, held, f0, f, gs[..i], answers[..i], now)
    ensures KeysMatch(l)
    ensures
      var o := Judge(gs[i], answers[i], now);
      var (l', held') := GrantPlaced(l, held, gs[i], o);
      S.WellFormed(l') &&
      GrantsDone(l0, l', held', f0, if o.Admitted? then NextSaved(l', held') else f, gs[..i + 1], answers[..i + 1], now)
  {
    var o := Judge(gs[i], answers[i], now);
    OneMoreGrant(gs, answers, now, i);
    HeldOneMore(l, held, gs, answers, now, i);
    LedgerOneMore(l0, l, held, gs, answers, now, i);
    var (l', held') := GrantPlaced(l, held, gs[i], o);
    NothingToName(l', held');
  }

  lemma OneMoreGrant(gs: seq<S.Grant>, answers: seq<Answer>, now: int, i: nat)
    requires |gs| == |answers| && i < |gs| && DistinctUIDs(gs)
    ensures
      var o := Judge(gs[i], answers[i], now);
      AdmittedUIDs(gs[..i + 1], answers[..i + 1], now) ==
        AdmittedUIDs(gs[..i], answers[..i], now) + (if o.Admitted? then {gs[i].uid} else {}) &&
      OnHoldUIDs(gs[..i + 1], answers[..i + 1], now) ==
        OnHoldUIDs(gs[..i], answers[..i], now) + (if o.OnHold? then {gs[i].uid} else {})
    ensures gs[i].uid !in AdmittedUIDs(gs[..i], answers[..i], now)
    ensures gs[i].uid !in OnHoldUIDs(gs[..i], answers[..i], now)
  {
    var gs', as' := gs[..i + 1], answers[..i + 1];
    assert gs'[i] == gs[i] && as'[i] == answers[i] && gs'[..i] == gs[..i] && as'[..i] == answers[..i];
    assert forall k :: 0 <= k < i ==> gs'[k] == gs[..i][k] && as'[k] == answers[..i][k];
  }

  lemma KeyIsNew(ss: seq<SessionSnap>, i: nat, a: set<string>, h: set<string>, has: string -> bool)
    requires DistinctKeys(ss) && i < |ss|
    ensures Key(ss[i]) !in RestoredOf(ss[..i], a, h, has)
  {
    RestoredKeys(ss[..i], a, h, has);
  }

  lemma {:induction false} RestoredKeys(ss: seq<SessionSnap>, a: set<string>, h: set<string>, has: string -> bool)
    ensures forall k :: k in RestoredOf(ss, a, h, has) ==> exists i :: 0 <= i < |ss| && Key(ss[i]) == k
    decreases |ss|
  {
    if ss != [] {
      var n := |ss| - 1;
      RestoredKeys(ss[..n], a, h, has);
      forall k | k in RestoredOf(ss, a, h, has)
        ensures exists i :: 0 <= i < |ss| && Key(ss[i]) == k
      {
        if k in RestoredOf(ss[..n], a, h, has) {
          var i :| 0 <= i < n && Key(ss[..n][i]) == k;
          assert Key(ss[i]) == k;
        } else {
          assert Key(ss[n]) == k;
        }
      }
    }
  }

  /** What the ledger was given, session by session. */
  lemma {:induction false} RestoredIs(ss: seq<SessionSnap>, a: set<string>, h: set<string>, has: string -> bool, i: nat)
    requires DistinctKeys(ss) && i < |ss| && FateOf(ss[i], a, h, has).Restored?
    ensures Key(ss[i]) in RestoredOf(ss, a, h, has) && RestoredOf(ss, a, h, has)[Key(ss[i])] == AsSession(ss[i])
    decreases |ss|
  {
    var n := |ss| - 1;
    if i < n {
      RestoredIs(ss[..n], a, h, has, i);
      assert Key(ss[i]) != Key(ss[n]);
    }
  }

  lemma {:induction false} RestoredFrom(ss: seq<SessionSnap>, a: set<string>, h: set<string>, has: string -> bool,
                                        k: string) returns (i: nat)
    requires k in RestoredOf(ss, a, h, has)
    ensures i < |ss| && FateOf(ss[i], a, h, has).Restored? && Key(ss[i]) == k
    ensures RestoredOf(ss, a, h, has)[k] == AsSession(ss[i])
    decreases |ss|
  {
    var n := |ss| - 1;
    if FateOf(ss[n], a, h, has).Restored? && Key(ss[n]) == k {
      i := n;
    } else {
      i := RestoredFrom(ss[..n], a, h, has, k);
    }
  }

  lemma RestoredAlone(ss: seq<SessionSnap>, a: set<string>, h: set<string>, has: string -> bool, i: nat)
    requires DistinctKeys(ss) && i < |ss| && Key(ss[i]) in RestoredOf(ss, a, h, has)
    ensures FateOf(ss[i], a, h, has).Restored?
  {
    var j := RestoredFrom(ss, a, h, has, Key(ss[i]));
    assert !(i < j) && !(j < i);
  }

  lemma {:induction false} HeldIs(ss: seq<SessionSnap>, uid: string, a: set<string>, h: set<string>,
                                  has: string -> bool, s: SessionSnap)
    ensures s in HeldOf(ss, uid, a, h, has) <==> s in ss && FateOf(s, a, h, has).Held? && s.grantUID == uid
    decreases |ss|
  {
    if ss != [] {
      var n := |ss| - 1;
      HeldIs(ss[..n], uid, a, h, has, s);
      assert ss == ss[..n] + [ss[n]];
    }
  }

  lemma RestoredKeysMatch(l: S.View, ss: seq<SessionSnap>, a: set<string>, h: set<string>, has: string -> bool)
    requires l.sessions == RestoredOf(ss, a, h, has)
    ensures KeysMatch(l)
  {
    forall k | k in l.sessions
      ensures S.SessionKey(l.sessions[k].grantUID, l.sessions[k].name) == k
    {
      var i := RestoredFrom(ss, a, h, has, k);
    }
  }

  /** The next snapshot names exactly the restored and the held sessions. */
  lemma NextIsKept(ss: seq<SessionSnap>, l: S.View, held: map<string, HeldGrant>, a: set<string>, h: set<string>,
                   has: string -> bool)
    requires DistinctKeys(ss) && a !! h && l.grants.Keys == a && held.Keys == h
    requires l.sessions == RestoredOf(ss, a, h, has)
    requires forall u :: u in held ==> held[u].sessions == HeldOf(ss, u, a, h, has)
    ensures NextSessions(l, held) == KeptOf(ss, a, h, has)
  {
    forall x | x in NextSessions(l, held)
      ensures x in KeptOf(ss, a, h, has)
    {
      NextWasKept(ss, l, held, a, h, has, x);
    }
    forall i | 0 <= i < |ss| && IsKept(FateOf(ss[i], a, h, has))
      ensures AsKept(ss[i], FateOf(ss[i], a, h, has)) in NextSessions(l, held)
    {
      KeptIsNext(ss, l, held, a, h, has, i);
    }
  }

  lemma NextWasKept(ss: seq<SessionSnap>, l: S.View, held: map<string, HeldGrant>, a: set<string>, h: set<string>,
                    has: string -> bool, x: SessionSnap)
    requires l.sessions == RestoredOf(ss, a, h, has) && x in NextSessions(l, held)
    requires forall u :: u in held ==> held[u].sessions == HeldOf(ss, u, a, h, has)
    ensures x in KeptOf(ss, a, h, has)
  {
    if x in LedgerSessions(l) {
      var k :| k in l.sessions && Snap(l.sessions[k]) == x;
      var i := RestoredFrom(ss, a, h, has, k);
      assert x == AsKept(ss[i], FateOf(ss[i], a, h, has));
    } else {
      var u :| u in held && x in held[u].sessions;
      HeldIs(ss, u, a, h, has, x);
      var i :| 0 <= i < |ss| && ss[i] == x;
      assert x == AsKept(ss[i], FateOf(ss[i], a, h, has));
    }
  }

  lemma KeptIsNext(ss: seq<SessionSnap>, l: S.View, held: map<string, HeldGrant>, a: set<string>, h: set<string>,
                   has: string -> bool, i: nat)
    requires DistinctKeys(ss) && a !! h && l.grants.Keys == a && held.Keys == h
    requires l.sessions == RestoredOf(ss, a, h, has)
    requires forall u :: u in held ==> held[u].sessions == HeldOf(ss, u, a, h, has)
    requires i < |ss| && IsKept(FateOf(ss[i], a, h, has))
    ensures AsKept(ss[i], FateOf(ss[i], a, h, has)) in NextSessions(l, held)
  {
    var s := ss[i];
    if FateOf(s, a, h, has).Restored? {
      RestoredIs(ss, a, h, has, i);
      assert Snap(l.sessions[Key(s)]) == AsKept(s, Restored);
    } else {
      HeldIs(ss, s.grantUID, a, h, has, s);
      if Key(s) in l.sessions {
        RestoredAlone(ss, a, h, has, i);
      }
      assert s in held[s.grantUID].sessions;
    }
  }

  /** A parked session of the file whose delta is there, as far as the runtime can say. */
  predicate Resumable(s: SessionSnap, has: string -> bool) {
    s.state == S.Parked && s.deltaRef != "" && has(s.deltaRef)
  }

  /**
   Each session of the file follows its grant: the ledger has it, parked as it was, if and only if
   it is resumable and its grant is admitted and not held; it is held if and only if it is resumable
   and its grant is held. The ledger has no other.
   */
  ghost predicate BootedSessions(l: S.View, held: map<string, HeldGrant>, ss: seq<SessionSnap>, has: string -> bool) {
    (forall k :: k in l.sessions ==> exists i :: 0 <= i < |ss| && Key(ss[i]) == k) &&
    forall i :: 0 <= i < |ss| ==> BootedSession(l, held, ss[i], has)
  }

  ghost predicate BootedSession(l: S.View, held: map<string, HeldGrant>, s: SessionSnap, has: string -> bool) {
    var k, u := s.grantUID + "/" + s.name, s.grantUID;
    (k in l.sessions <==> Resumable(s, has) && u in l.grants && u !in held) &&
    (k in l.sessions ==> l.sessions[k] == S.Session(s.name, u, S.Parked, s.fence, "", "", s.deltaRef)) &&
    (u in held && s in held[u].sessions <==> Resumable(s, has) && u in held)
  }

  lemma FollowedAreBooted(l: S.View, held: map<string, HeldGrant>, ss: seq<SessionSnap>, has: string -> bool)
    requires DistinctKeys(ss) && l.sessions == RestoredOf(ss, l.grants.Keys, held.Keys, has)
    requires forall u :: u in held ==> held[u].sessions == HeldOf(ss, u, l.grants.Keys, held.Keys, has)
    ensures BootedSessions(l, held, ss, has)
  {
    RestoredKeys(ss, l.grants.Keys, held.Keys, has);
    forall i | 0 <= i < |ss|
      ensures BootedSession(l, held, ss[i], has)
    {
      OneFollowedIsBooted(l, held, ss, has, i);
    }
  }

  lemma FatesExactly(s: SessionSnap, a: set<string>, h: set<string>, has: string -> bool)
    ensures FateOf(s, a, h, has).Restored? <==> Resumable(s, has) && s.grantUID in a && s.grantUID !in h
    ensures FateOf(s, a, h, has).Held? <==> Resumable(s, has) && s.grantUID in h
  {
  }

  lemma RestoredExactly(ss: seq<SessionSnap>, a: set<string>, h: set<string>, has: string -> bool, i: nat)
    requires DistinctKeys(ss) && i < |ss|
    ensures
      var m := RestoredOf(ss, a, h, has);
      (Key(ss[i]) in m <==> FateOf(ss[i], a, h, has).Restored?) &&
      (Key(ss[i]) in m ==> m[Key(ss[i])] == AsSession(ss[i]))
  {
    if FateOf(ss[i], a, h, has).Restored? {
      RestoredIs(ss, a, h, has, i);
    }
    if Key(ss[i]) in RestoredOf(ss, a, h, has) {
      RestoredAlone(ss, a, h, has, i);
    }
  }

  lemma OneFollowedIsBooted(l: S.View, held: map<string, HeldGrant>, ss: seq<SessionSnap>, has: string -> bool, i: nat)
    requires DistinctKeys(ss) && l.sessions == RestoredOf(ss, l.grants.Keys, held.Keys, has) && i < |ss|
    requires forall u :: u in held ==> held[u].sessions == HeldOf(ss, u, l.grants.Keys, held.Keys, has)
    ensures BootedSession(l, held, ss[i], has)
  {
    var s, a, h := ss[i], l.grants.Keys, held.Keys;
    FatesExactly(s, a, h, has);
    RestoredExactly(ss, a, h, has, i);
    HeldIs(ss, s.grantUID, a, h, has, s);
    assert Key(s) == s.grantUID + "/" + s.name && s in ss;
  }

  /** The sweep is told to keep every restored or held session's delta. */
  lemma KeptRefsKept(ss: seq<SessionSnap>, a: set<string>, h: set<string>, has: string -> bool)
    ensures forall i :: 0 <= i < |ss| && IsKept(FateOf(ss[i], a, h, has)) ==>
      ss[i].deltaRef in KeepRefs(KeptOf(ss, a, h, has))
  {
    forall i | 0 <= i < |ss| && IsKept(FateOf(ss[i], a, h, has))
      ensures ss[i].deltaRef in KeepRefs(KeptOf(ss, a, h, has))
    {
      var x := AsKept(ss[i], FateOf(ss[i], a, h, has));
      assert x in KeptOf(ss, a, h, has) && IsParked(x) && x.deltaRef == ss[i].deltaRef;
    }
  }
}
