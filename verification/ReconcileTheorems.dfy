/** What boot conserves, and what it takes for the next boot to conserve it too. */
module ReconcileTheorems {
  import opened Common
  import opened Fences
  import S = LedgerState
  import opened Reconciling
  import P = CloneProtocol
  import I = CloneInvariant

  // ------------------------------------------------------------ nobody is counted twice or not at all

  function ParkedCount(ss: seq<SessionSnap>): (n: nat) {
    if ss == [] then 0 else ParkedCount(ss[..|ss| - 1]) + if IsParked(ss[|ss| - 1]) then 1 else 0
  }

  /** Restored, held and dropped add up to the parked sessions with a delta. */
  lemma {:induction false} TallyAddsUp(ss: seq<SessionSnap>, a: set<string>, h: set<string>, has: string -> bool)
    ensures var t := TallyOf(ss, a, h, has); t.restored + t.held + t.dropped == ParkedCount(ss)
    decreases |ss|
  {
    if ss != [] {
      TallyAddsUp(ss[..|ss| - 1], a, h, has);
    }
  }

  function CountSessions(ss: seq<SessionSnap>, p: SessionSnap -> bool): (n: nat)
    decreases |ss|
  {
    if ss == [] then 0 else CountSessions(ss[..|ss| - 1], p) + if p(ss[|ss| - 1]) then 1 else 0
  }

  function HeldBack(h: set<string>, has: string -> bool): (p: SessionSnap -> bool) {
    s => Resumable(s, has) && s.grantUID in h
  }

  /** The counts are of the sessions restored and held, so what is left of the parked ones was dropped. */
  lemma {:induction false} TallyCounts(ss: seq<SessionSnap>, a: set<string>, h: set<string>, has: string -> bool)
    requires DistinctKeys(ss)
    ensures TallyOf(ss, a, h, has).restored == |RestoredOf(ss, a, h, has)|
    ensures TallyOf(ss, a, h, has).held == CountSessions(ss, HeldBack(h, has))
    decreases |ss|
  {
    if ss != [] {
      var n := |ss| - 1;
      TallyCounts(ss[..n], a, h, has);
      KeyIsNew(ss, n, a, h, has);
      FatesExactly(ss[n], a, h, has);
    }
  }

  function CountGrants(gs: seq<S.Grant>, answers: seq<Answer>, p: (S.Grant, Answer) -> bool): (n: nat)
    requires |gs| == |answers|
    decreases |gs|
  {
    if gs == [] then 0 else
    var n := |gs| - 1;
    CountGrants(gs[..n], answers[..n], p) + if p(gs[n], answers[n]) then 1 else 0
  }

  function Admitting(now: int): (p: (S.Grant, Answer) -> bool) { (g, a) => TokenAdmits(g, a, now) }
  function Holding(now: int): (p: (S.Grant, Answer) -> bool) { (g, a) => Undecided(g, a, now) }
  function Expiring(now: int): (p: (S.Grant, Answer) -> bool) {
    (g: S.Grant, a: Answer) => g.lease.Some? && g.lease.value <= now
  }

  /** Its lease runs, but it has no token, or one the verifier refused or took for another grant. */
  function Unproven(now: int): (p: (S.Grant, Answer) -> bool) {
    (g: S.Grant, a: Answer) =>
      (g.lease.Some? ==> now < g.lease.value) && (g.token == "" || a.Bad? || (a.Good? && a.grant.uid != g.uid))
  }

  /** The same for the grants of the file, each counted once. */
  lemma {:induction false} GrantTallyCounts(gs: seq<S.Grant>, answers: seq<Answer>, now: int)
    requires |gs| == |answers|
    ensures
      GrantTallyOf(gs, answers, now) ==
      GrantTally(CountGrants(gs, answers, Admitting(now)), CountGrants(gs, answers, Expiring(now)),
                 CountGrants(gs, answers, Unproven(now)), CountGrants(gs, answers, Holding(now)))
    decreases |gs|
  {
    if gs != [] {
      var n := |gs| - 1;
      GrantTallyCounts(gs[..n], answers[..n], now);
      JudgesExactly(gs[n], answers[n], now);
    }
  }

  /** When the runtime can say what is on disk, boot keeps no session whose delta is gone. */
  lemma KeptIsOnDisk(snap: Snapshot, l: S.View, held: map<string, HeldGrant>, a: set<string>, h: set<string>,
                     disk: set<string>, x: SessionSnap)
    requires Rebuilt(l, held, snap, a, h, Has(true, disk)) && x in NextSessions(l, held)
    ensures IsParked(x) && x.deltaRef in disk
  {
    var has := Has(true, disk);
    assert x in KeptOf(snap.sessions, a, h, has);
    var i :| 0 <= i < |snap.sessions| && IsKept(FateOf(snap.sessions[i], a, h, has)) &&
             x == AsKept(snap.sessions[i], FateOf(snap.sessions[i], a, h, has));
    FatesExactly(snap.sessions[i], a, h, has);
  }

  /** When it cannot, a parked session is kept for its grant alone. */
  lemma UncheckedIsKept(s: SessionSnap, disk: set<string>)
    ensures Resumable(s, Has(false, disk)) <==> IsParked(s)
  {
  }

  /** Boot as a whole: what it leaves in the ledger is what tokens carry, and sessions follow their grants. */
  lemma BootAdmitsBySignature(l: S.View, held: map<string, HeldGrant>, snap: Snapshot, answers: seq<Answer>, now: int,
                              has: string -> bool)
    requires |snap.grants| == |answers| && DistinctUIDs(snap.grants) && DistinctKeys(snap.sessions) && S.WellFormed(l)
    requires CarriesJudged(l, snap.grants, answers, now)
    requires Rebuilt(l, held, snap, AdmittedUIDs(snap.grants, answers, now), OnHoldUIDs(snap.grants, answers, now), has)
    ensures BootedGrants(l, held, snap.grants, answers, now) && BootedSessions(l, held, snap.sessions, has)
  {
    PlacedAreBooted(l, held, snap.grants, answers, now);
    FollowedAreBooted(l, held, snap.sessions, has);
  }

  /** Two files that agree on uids, leases and tokens, whatever else they say, boot to the same admitted grants. */
  lemma FileGrantsNothing(l: S.View, held: map<string, HeldGrant>, gs: seq<S.Grant>,
                          l': S.View, held': map<string, HeldGrant>, gs': seq<S.Grant>, answers: seq<Answer>, now: int)
    requires BootedGrants(l, held, gs, answers, now) && BootedGrants(l', held', gs', answers, now)
    requires forall i :: 0 <= i < |gs| ==>
      gs[i].uid == gs'[i].uid && gs[i].lease == gs'[i].lease && gs[i].token == gs'[i].token
    ensures l.grants.Keys == l'.grants.Keys
    ensures forall u :: u in l.grants ==> l.entries[l.grants[u]].grant == l'.entries[l'.grants[u]].grant
  {
    forall u | u in l.grants || u in l'.grants
      ensures u in l.grants && u in l'.grants && l.entries[l.grants[u]].grant == l'.entries[l'.grants[u]].grant
    {
      var i :| 0 <= i < |gs| && gs[i].uid == u;
      assert BootedGrant(l, held, gs[i], answers[i], now) && BootedGrant(l', held', gs'[i], answers[i], now);
    }
  }

  // ------------------------------------------------------------ the next boot

  /** No two held sessions share a key, and grants and sessions are filed under their own uid. */
  ghost predicate HeldWell(held: map<string, HeldGrant>) {
    (forall u :: u in held ==> held[u].grant.uid == u) &&
    (forall u, s :: u in held && s in held[u].sessions ==> s.grantUID == u) &&
    (forall u, v, s, t ::
       u in held && v in held && s in held[u].sessions && t in held[v].sessions && Key(s) == Key(t) ==> s == t)
  }

  lemma BootHoldsWell(ss: seq<SessionSnap>, held: map<string, HeldGrant>, a: set<string>, h: set<string>,
                      has: string -> bool)
    requires DistinctKeys(ss)
    requires forall u :: u in held ==> held[u].grant.uid == u && held[u].sessions == HeldOf(ss, u, a, h, has)
    ensures HeldWell(held)
  {
    forall u, s | u in held && s in held[u].sessions
      ensures s in ss && s.grantUID == u
    {
      HeldIs(ss, u, a, h, has, s);
    }
    forall u, v, s, t | u in held && v in held && s in held[u].sessions && t in held[v].sessions && Key(s) == Key(t)
      ensures s == t
    {
      var i :| 0 <= i < |ss| && ss[i] == s;
      var j :| 0 <= j < |ss| && ss[j] == t;
      assert !(i < j) && !(j < i);
    }
  }

  lemma NextKeysDiffer(l: S.View, held: map<string, HeldGrant>, x: SessionSnap, y: SessionSnap)
    requires KeysMatch(l) && HeldWell(held) && x in NextSessions(l, held) && y in NextSessions(l, held)
    requires Key(x) == Key(y)
    ensures x == y
  {
    NextKey(l, held, x);
    NextKey(l, held, y);
  }

  /** A ledger session is named under its key; a held one has a key the ledger does not know. */
  lemma NextKey(l: S.View, held: map<string, HeldGrant>, x: SessionSnap)
    requires KeysMatch(l) && x in NextSessions(l, held)
    ensures Key(x) in l.sessions ==> x == Snap(l.sessions[Key(x)])
    ensures Key(x) !in l.sessions ==> exists u :: u in held && x in held[u].sessions
  {
    if x in LedgerSessions(l) {
      var k :| k in l.sessions && Snap(l.sessions[k]) == x;
    }
  }

  lemma NextUIDsDiffer(l: S.View, held: map<string, HeldGrant>, x: S.Grant, y: S.Grant)
    requires S.WellFormed(l) && HeldWell(held) && x in NextGrants(l, held) && y in NextGrants(l, held) && x.uid == y.uid
    ensures x == y
  {
    NextUID(l, held, x);
    NextUID(l, held, y);
  }

  lemma NextUID(l: S.View, held: map<string, HeldGrant>, x: S.Grant)
    requires S.WellFormed(l) && HeldWell(held) && x in NextGrants(l, held)
    ensures if x.uid in l.grants then x == l.entries[l.grants[x.uid]].grant else x.uid in held && x == held[x.uid].grant
  {
  }

  /** The entries of the file, in whatever order, each once. */
  ghost predicate Lists(gs: seq<S.Grant>, ss: seq<SessionSnap>, file: Saved) {
    (forall i :: 0 <= i < |gs| ==> gs[i] in file.grants) && (forall i, j :: 0 <= i < j < |gs| ==> gs[i] != gs[j]) &&
    (forall i :: 0 <= i < |ss| ==> ss[i] in file.sessions) && (forall i, j :: 0 <= i < j < |ss| ==> ss[i] != ss[j])
  }

  lemma ListingDiffers(l: S.View, held: map<string, HeldGrant>, gs: seq<S.Grant>, ss: seq<SessionSnap>)
    requires S.WellFormed(l) && KeysMatch(l) && HeldWell(held) && Lists(gs, ss, NextSaved(l, held))
    ensures DistinctUIDs(gs) && DistinctKeys(ss)
  {
    forall i, j | 0 <= i < j < |gs|
      ensures gs[i].uid != gs[j].uid
    {
      if gs[i].uid == gs[j].uid {
        NextUIDsDiffer(l, held, gs[i], gs[j]);
      }
    }
    forall i, j | 0 <= i < j < |ss|
      ensures Key(ss[i]) != Key(ss[j])
    {
      if Key(ss[i]) == Key(ss[j]) {
        NextKeysDiffer(l, held, ss[i], ss[j]);
      }
    }
  }

  // ------------------------------------------------------------ from boot to boot

  /** The running home: the clone protocol's state, and the grants boot still holds. */
  datatype Home = Home(s: P.State, held: map<string, HeldGrant>)

  /** A step of the protocol, among them the restore of one held session; or a held grant let go. */
  datatype Step = Proto(a: P.Label) | LetGo(uid: string)

  predicate Can(h: Home, x: Step) { x.Proto? ==> P.Enabled(h.s, x.a) }

  function Do(h: Home, x: Step): (r: Home)
    requires Can(h, x)
  {
    match x
    case Proto(a) => h.(s := P.Apply(h.s, a))
    case LetGo(uid) => h.(held := h.held - {uid})
  }

  ghost predicate IsRun(h: Home, steps: seq<Step>, t: Home)
    decreases |steps|
  {
    if steps == [] then h == t else Can(h, steps[0]) && IsRun(Do(h, steps[0]), steps[1..], t)
  }

  /** The protocol starts on the ledger boot leaves: nothing minted, nothing in flight. */
  ghost function AfterBoot(l: S.View, held: map<string, HeldGrant>): (h: Home) {
    Home(P.State(l, false, map[], {}, {}, map[], seq(|l.entries|, i => 0)), held)
  }

  ghost predicate HomeInv(h: Home) { P.Inv(h.s) && KeysMatch(h.s.l) && HeldWell(h.held) }

  lemma NoFibersNoReservations(l: S.View, uid: string, e: nat)
    requires l.fibers == map[]
    ensures |S.FibersOf(l, uid)| == 0 && |P.Reservations(map[], e)| == 0
  {
    assert S.FibersOf(l, uid) == {} && P.Reservations(map[], e) == {};
  }

  /** So every theorem about runs of the protocol holds from boot on. */
  lemma BootIsSound(l: S.View, held: map<string, HeldGrant>, snap: Snapshot, a: set<string>, h: set<string>,
                    has: string -> bool)
    requires S.WellFormed(l) && Rebuilt(l, held, snap, a, h, has) && DistinctKeys(snap.sessions)
    ensures HomeInv(AfterBoot(l, held))
  {
    RestoredKeysMatch(l, snap.sessions, a, h, has);
    BootHoldsWell(snap.sessions, held, a, h, has);
    forall k | k in l.sessions
      ensures l.sessions[k].state == S.Parked
    {
      var i := RestoredFrom(snap.sessions, a, h, has, k);
    }
    forall uid | uid in l.grants
      ensures P.EntryAccount(l, map[], seq(|l.entries|, i => 0), uid)
    {
      NoFibersNoReservations(l, uid, l.grants[uid]);
    }
  }

  lemma StepKeepsHome(h: Home, x: Step)
    requires HomeInv(h) && Can(h, x)
    ensures HomeInv(Do(h, x))
  {
    if x.Proto? {
      I.StepKeepsInv(h.s, x.a);
      StepKeepsKeys(h.s, x.a);
    }
  }

  lemma {:induction false} RunKeepsHome(h: Home, steps: seq<Step>, t: Home)
    requires HomeInv(h) && IsRun(h, steps, t)
    ensures HomeInv(t)
    decreases |steps|
  {
    if steps != [] {
      StepKeepsHome(h, steps[0]);
      RunKeepsHome(Do(h, steps[0]), steps[1..], t);
    }
  }

  /**
   From a boot that accepted its snapshot, whatever the home does and whichever held grants it lets
   go, also between the capture of the ledger and that of the held grants, every snapshot it then
   writes, in any order, is one the next boot accepts.
   */
  lemma NextBootAccepts(l: S.View, held: map<string, HeldGrant>, snap: Snapshot,
                        a: set<string>, h: set<string>, has: string -> bool,
                        before: seq<Step>, h1: Home, between: seq<Step>, h2: Home,
                        gs: seq<S.Grant>, ss: seq<SessionSnap>)
    requires S.WellFormed(l) && Rebuilt(l, held, snap, a, h, has) && DistinctKeys(snap.sessions)
    requires IsRun(AfterBoot(l, held), before, h1) && IsRun(h1, between, h2)
    ensures S.WellFormed(h1.s.l) && (Lists(gs, ss, NextSaved(h1.s.l, h2.held)) ==> DistinctUIDs(gs) && DistinctKeys(ss))
  {
    BootIsSound(l, held, snap, a, h, has);
    RunKeepsHome(AfterBoot(l, held), before, h1);
    RunKeepsHome(h1, between, h2);
    if Lists(gs, ss, NextSaved(h1.s.l, h2.held)) {
      ListingDiffers(h1.s.l, h2.held, gs, ss);
    }
  }

  // ------------------------------------------------------------ what a written file names

  /** In a run a held grant stays as it is until it is let go. */
  lemma {:induction false} HeldUntilLetGo(h: Home, steps: seq<Step>, t: Home, u: string)
    requires IsRun(h, steps, t)
    ensures u in t.held <==> u in h.held && LetGo(u) !in steps
    ensures u in t.held ==> t.held[u] == h.held[u]
    decreases |steps|
  {
    if steps != [] {
      HeldUntilLetGo(Do(h, steps[0]), steps[1..], t, u);
      assert steps == [steps[0]] + steps[1..];
    }
  }

  /**
   A snapshot captures the ledger at h1 and the held grants at h2. It names every session the
   ledger had at h1. Any other session held at h1 it names, under its key or at all, if and only if
   its grant was not admitted at h1 and is not let go between the two captures.
   */
  lemma FileNamesExactly(h1: Home, between: seq<Step>, h2: Home, u: string, x: SessionSnap)
    requires HomeInv(h1) && IsRun(h1, between, h2)
    ensures forall k :: k in h1.s.l.sessions ==> Snap(h1.s.l.sessions[k]) in NextSessions(h1.s.l, h2.held)
    ensures u in h1.held && x in h1.held[u].sessions && Key(x) !in h1.s.l.sessions ==>
      (x in NextSessions(h1.s.l, h2.held) <==> u !in h1.s.l.grants && LetGo(u) !in between) &&
      ((exists y :: y in NextSessions(h1.s.l, h2.held) && Key(y) == Key(x)) <==> x in NextSessions(h1.s.l, h2.held))
  {
    RunKeepsHome(h1, between, h2);
    if u in h1.held && x in h1.held[u].sessions && Key(x) !in h1.s.l.sessions {
      HeldUntilLetGo(h1, between, h2, u);
      forall y | y in NextSessions(h1.s.l, h2.held) && Key(y) == Key(x)
        ensures y == x && u !in h1.s.l.grants && u in h2.held
      {
        HeldNamedUnderItsGrant(h1, between, h2, u, x, y);
      }
    }
  }

  /** A running session is named with the fiber it runs as, a parked one with none. */
  lemma FileNamesRunningFibers(h: Home, held: map<string, HeldGrant>, k: string)
    requires HomeInv(h) && k in h.s.l.sessions
    ensures exists x :: x in NextSessions(h.s.l, held) && NamesFiber(h.s.l, k, x)
  {
    var x := Snap(h.s.l.sessions[k]);
    assert x in NextSessions(h.s.l, held) && NamesFiber(h.s.l, k, x);
  }

  ghost predicate NamesFiber(l: S.View, k: string, x: SessionSnap) {
    Key(x) == k &&
    if x.state == S.Running
    then x.fiberID in l.fibers && l.fibers[x.fiberID].sessionKey == k && l.fibers[x.fiberID].fence == x.fence
    else x.fiberID == ""
  }

  /**
   The same for grants: one admitted at h1 is named as the ledger has it; one that is only held is
   named, as the file had it, if and only if it is not let go between the two captures.
   */
  lemma FileNamesGrantsExactly(h1: Home, between: seq<Step>, h2: Home, u: string)
    requires HomeInv(h1) && IsRun(h1, between, h2)
    ensures u in h1.s.l.grants ==> h1.s.l.entries[h1.s.l.grants[u]].grant in NextGrants(h1.s.l, h2.held)
    ensures u in h1.held && u !in h1.s.l.grants ==>
      (h1.held[u].grant in NextGrants(h1.s.l, h2.held) <==> LetGo(u) !in between)
  {
    RunKeepsHome(h1, between, h2);
    HeldUntilLetGo(h1, between, h2, u);
    if u in h1.held && u !in h1.s.l.grants && h1.held[u].grant in NextGrants(h1.s.l, h2.held) {
      NextUID(h1.s.l, h2.held, h1.held[u].grant);
    }
  }

  /**
   From one boot to the next: a session held under a grant the ledger does not know is in the file
   with its grant, and the next boot restores it, or holds it again, as its token is judged then.
   */
  lemma HeldComesBack(l: S.View, held: map<string, HeldGrant>, u: string, x: SessionSnap, snap: Snapshot,
                      answers: seq<Answer>, now: int, has: string -> bool, l': S.View, held': map<string, HeldGrant>)
    returns (i: nat)
    requires S.WellFormed(l) && HeldWell(held) && u in held && u !in l.grants && x in held[u].sessions
    requires Key(x) !in l.sessions && Resumable(x, has)
    requires Saved(set g | g in snap.grants, set s | s in snap.sessions) == NextSaved(l, held)
    requires BootedGrants(l', held', snap.grants, answers, now) && BootedSessions(l', held', snap.sessions, has)
    ensures i < |snap.grants| && snap.grants[i] == held[u].grant
    ensures TokenAdmits(snap.grants[i], answers[i], now) ==>
      Key(x) in l'.sessions && l'.sessions[Key(x)].state == S.Parked && l'.sessions[Key(x)].deltaRef == x.deltaRef
    ensures Undecided(snap.grants[i], answers[i], now) ==> u in held' && x in held'[u].sessions
  {
    assert held[u].grant in NextGrants(l, held) && x in NextSessions(l, held);
    assert held[u].grant in (set g | g in snap.grants) && x in (set s | s in snap.sessions);
    i :| 0 <= i < |snap.grants| && snap.grants[i] == held[u].grant;
    var j :| 0 <= j < |snap.sessions| && snap.sessions[j] == x;
    assert BootedGrant(l', held', snap.grants[i], answers[i], now) && BootedSession(l', held', snap.sessions[j], has);
    assert Key(x) == x.grantUID + "/" + x.name;
  }

  lemma HeldNamedUnderItsGrant(h1: Home, between: seq<Step>, h2: Home, u: string, x: SessionSnap, y: SessionSnap)
    requires HomeInv(h1) && IsRun(h1, between, h2) && u in h1.held && x in h1.held[u].sessions
    requires Key(x) !in h1.s.l.sessions
    requires y in NextSessions(h1.s.l, h2.held) && Key(y) == Key(x)
    ensures y == x && u !in h1.s.l.grants && u in h2.held
  {
    NextKey(h1.s.l, h2.held, y);
    var v :| v in h2.held && v !in h1.s.l.grants && y in h2.held[v].sessions;
    HeldUntilLetGo(h1, between, h2, v);
  }

  const someGrant: S.Grant := S.Grant("g", 1, 0, 0, None, "", "token", "")
  const someSession: SessionSnap := SessionSnap("s", "g", S.Parked, Fence("g", 0, 1), "delta", "")
  const oneAdmitted: S.View :=
    S.View(1, map["g" := 0], [S.GrantEntry(someGrant, 0, 0, 0)], map["g/s" := AsSession(someSession)], map[], map[])

  lemma OneAdmittedIsNamed()
    ensures S.WellFormed(oneAdmitted) && NextSaved(oneAdmitted, map[]) == Saved({someGrant}, {someSession})
  {
    assert LedgerSessions(oneAdmitted) == {Snap(oneAdmitted.sessions["g/s"])} == {someSession};
    assert oneAdmitted.grants.Keys == {"g"} && oneAdmitted.entries[oneAdmitted.grants["g"]].grant == someGrant;
  }

  lemma OneHeldIsSound()
    ensures HomeInv(AfterBoot(S.Init(1), map["g" := HeldGrant(someGrant, [someSession])]))
  {
  }

  lemma HeldGrantIsAdmitted() returns (h2: Home)
    ensures
      var h1 := AfterBoot(S.Init(1), map["g" := HeldGrant(someGrant, [someSession])]);
      IsRun(h1, [Proto(P.Admit(someGrant)), LetGo("g"), Proto(P.Restore("g", "s", someSession.fence, "delta"))], h2) &&
      h2.held == map[] && h2.s.l == oneAdmitted
  {
    var h1 := AfterBoot(S.Init(1), map["g" := HeldGrant(someGrant, [someSession])]);
    var steps := [Proto(P.Admit(someGrant)), LetGo("g"), Proto(P.Restore("g", "s", someSession.fence, "delta"))];
    assert S.SessionKey("g", "s") == "g/s";
    h2 := Do(Do(Do(h1, steps[0]), steps[1]), steps[2]);
    ThreeSteps(h1, steps);
  }

  /**
   A file that names neither a session nor its grant though the home has both all the time: the
   ledger is captured, the held grant is admitted and let go and its session restored, and then the
   held grants are captured. The next file names both.
   */
  lemma AdmissionBetweenCapturesForgets() returns (h1: Home, between: seq<Step>, h2: Home)
    ensures HomeInv(h1) && IsRun(h1, between, h2) && h1.held == map["g" := HeldGrant(someGrant, [someSession])]
    ensures IsParked(someSession)
    ensures S.WellFormed(h1.s.l) && NextSaved(h1.s.l, h2.held) == Saved({}, {})
    ensures S.WellFormed(h2.s.l) && NextSaved(h2.s.l, h2.held) == Saved({someGrant}, {someSession})
  {
    OneHeldIsSound();
    h1 := AfterBoot(S.Init(1), map["g" := HeldGrant(someGrant, [someSession])]);
    between := [Proto(P.Admit(someGrant)), LetGo("g"), Proto(P.Restore("g", "s", someSession.fence, "delta"))];
    h2 := HeldGrantIsAdmitted();
    OneAdmittedIsNamed();
  }

  lemma ThreeSteps(h: Home, steps: seq<Step>)
    requires |steps| == 3 && Can(h, steps[0]) && Can(Do(h, steps[0]), steps[1])
    requires Can(Do(Do(h, steps[0]), steps[1]), steps[2])
    ensures IsRun(h, steps, Do(Do(Do(h, steps[0]), steps[1]), steps[2]))
  {
    var t := Do(Do(Do(h, steps[0]), steps[1]), steps[2]);
    assert IsRun(t, steps[3..], t);
    assert steps[2..][1..] == steps[3..] && IsRun(Do(Do(h, steps[0]), steps[1]), steps[2..], t);
    assert steps[1..][1..] == steps[2..] && IsRun(Do(h, steps[0]), steps[1..], t);
  }

  predicate TouchesSessions(a: P.Label) {
    a.Commit? || a.Replay? || a.ParkFiber? || a.Release? || a.Exit? || a.Forget? || a.Restore?
  }

  lemma OthersKeepSessions(s: P.State, a: P.Label)
    requires P.Enabled(s, a) && !TouchesSessions(a)
    ensures P.Apply(s, a).l.sessions == s.l.sessions
  {
  }

  lemma CloneKeepsKeys(s: P.State, a: P.Label)
    requires P.Enabled(s, a) && KeysMatch(s.l) && (a.Commit? || a.Replay?)
    ensures KeysMatch(P.Apply(s, a).l)
  {
  }

  lemma LossKeepsKeys(s: P.State, a: P.Label)
    requires P.Enabled(s, a) && KeysMatch(s.l) && (a.ParkFiber? || a.Release? || a.Exit?)
    ensures KeysMatch(P.Apply(s, a).l)
  {
  }

  /** The ledger files every session under its own key, whatever the home does. */
  lemma StepKeepsKeys(s: P.State, a: P.Label)
    requires P.Enabled(s, a) && KeysMatch(s.l)
    ensures KeysMatch(P.Apply(s, a).l)
  {
    if !TouchesSessions(a) {
      OthersKeepSessions(s, a);
    } else if a.Commit? || a.Replay? {
      CloneKeepsKeys(s, a);
    } else if !a.Forget? && !a.Restore? {
      LossKeepsKeys(s, a);
    }
  }

  // ------------------------------------------------------------ held sessions after boot

  /** Restoring the held sessions of a grant keeps every session the ledger had. */
  lemma {:induction false} RestoreAllKeeps(l: S.View, ss: seq<SessionSnap>, k: string)
    requires k in l.sessions
    ensures k in RestoreAll(l, ss).sessions && RestoreAll(l, ss).sessions[k] == l.sessions[k]
    ensures RestoreAll(l, ss).grants == l.grants
    decreases |ss|
  {
    if ss != [] {
      RestoreAllKeeps(l, ss[..|ss| - 1], k);
    }
  }

  lemma {:induction false} RestoreAllGrants(l: S.View, ss: seq<SessionSnap>)
    ensures RestoreAll(l, ss).grants == l.grants
    decreases |ss|
  {
    if ss != [] {
      RestoreAllGrants(l, ss[..|ss| - 1]);
    }
  }

  /**
   While nobody else runs, restoring the sessions of an admitted grant leaves each of them in the
   ledger, and those it had as they were. With clones in flight see RestoredSessions.
   */
  lemma {:induction false} HeldSurviveAdmission(l: S.View, ss: seq<SessionSnap>, uid: string, i: nat)
    requires uid in l.grants && i < |ss| && (forall j :: 0 <= j < |ss| ==> ss[j].grantUID == uid)
    requires DistinctKeys(ss)
    ensures
      var r := RestoreAll(l, ss).sessions;
      Key(ss[i]) in r && r[Key(ss[i])] == if Key(ss[i]) in l.sessions then l.sessions[Key(ss[i])] else AsSession(ss[i])
    decreases |ss|
  {
    var n := |ss| - 1;
    RestoreAllGrants(l, ss[..n]);
    if i < n {
      HeldSurviveAdmission(l, ss[..n], uid, i);
      assert Key(ss[i]) != Key(ss[n]);
    } else if Key(ss[n]) in l.sessions {
      RestoreAllKeeps(l, ss[..n], Key(ss[n]));
    } else {
      RestoreAllAdds(l, ss[..n], Key(ss[n]));
    }
  }

  lemma {:induction false} RestoreAllAdds(l: S.View, ss: seq<SessionSnap>, k: string)
    requires k !in l.sessions && forall j :: 0 <= j < |ss| ==> Key(ss[j]) != k
    ensures k !in RestoreAll(l, ss).sessions
    decreases |ss|
  {
    if ss != [] {
      RestoreAllAdds(l, ss[..|ss| - 1], k);
    }
  }

  // ------------------------------------------------------------ why uids must differ

  /** A held session is in the next snapshot if and only if its grant was not admitted as well. */
  lemma HeldIsNamedExactly(ss: seq<SessionSnap>, l: S.View, held: map<string, HeldGrant>, a: set<string>,
                           h: set<string>, has: string -> bool, i: nat)
    requires DistinctKeys(ss) && l.grants.Keys == a && held.Keys == h && l.sessions == RestoredOf(ss, a, h, has)
    requires forall u :: u in held ==> held[u].sessions == HeldOf(ss, u, a, h, has)
    requires i < |ss| && FateOf(ss[i], a, h, has).Held?
    ensures ss[i] in NextSessions(l, held) <==> ss[i].grantUID !in a
  {
    var s := ss[i];
    HeldIs(ss, s.grantUID, a, h, has, s);
    RestoredKeysMatch(l, ss, a, h, has);
    if Key(s) in l.sessions {
      RestoredAlone(ss, a, h, has, i);
    }
    if s in NextSessions(l, held) {
      NextKey(l, held, s);
      var u :| u in held && u !in l.grants && s in held[u].sessions;
      HeldIs(ss, u, a, h, has, s);
    }
    assert s in held[s.grantUID].sessions;
  }

  /** A file that lists a grant twice can lose a parked session: admitted once, held the second time. */
  lemma DuplicateGrantLosesItsSession() returns (g: S.Grant, s: SessionSnap)
    ensures
      var first := GrantPlaced(S.Init(1), map[], g, Judge(g, Good(g, true), 0));
      var second := GrantPlaced(first.0, first.1, g, Judge(g, Unavailable, 0));
      var held := second.1[g.uid := HeldGrant(g, [s])];
      FateOf(s, second.0.grants.Keys, second.1.Keys, ref => true).Held? && NextSessions(second.0, held) == {}
  {
    g := S.Grant("g", 1, 0, 0, None, "", "token", "");
    s := SessionSnap("s", "g", S.Parked, Fence("g", 0, 1), "delta", "");
    var first := GrantPlaced(S.Init(1), map[], g, Judge(g, Good(g, true), 0));
    assert first.0 == S.AdmitGrant(S.Init(1), g);
  }

  // ------------------------------------------------------------ a boot that cannot list

  /**
   The run in which parked sessions are lost: a grant is admitted again, which writes the file
   before any session is restored, and the fibers cannot be listed. The session would have been
   restored; the file no longer names it, and a boot from that file keeps no delta.
   */
  lemma BootThatCannotListForgets() returns (g: S.Grant, s: SessionSnap)
    ensures
      var placed := GrantPlaced(S.Init(1), map[], g, Judge(g, Good(g, true), 0));
      var file := NextSaved(placed.0, placed.1);
      FateOf(s, placed.0.grants.Keys, placed.1.Keys, ref => true).Restored? && g in file.grants &&
      file.sessions == {} && KeepRefs(file.sessions) == {}
  {
    g := S.Grant("g", 1, 0, 0, None, "", "token", "");
    s := SessionSnap("s", "g", S.Parked, Fence("g", 0, 1), "delta", "");
    var placed := GrantPlaced(S.Init(1), map[], g, Judge(g, Good(g, true), 0));
    assert placed.0 == S.AdmitGrant(S.Init(1), g);
    assert placed.0.entries[placed.0.grants["g"]].grant == g;
  }
}
