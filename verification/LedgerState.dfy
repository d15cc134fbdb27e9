/**
 The ledger as a value, and what each hold of its lock does to it. A grant entry is a
 pointer in the source and is compared by identity at commit, so entries live in a
 sequence that only grows and `grants` maps a uid to its current entry's index.
 */
module LedgerState {
  import opened Common
  import opened Fences

  const TIER_CHECKPOINT: nat := 3

  /** `rest` stands for the fields no ledger decision reads (tenant, template, policy, budgets). */
  datatype Grant = Grant(uid: string, fiberMax: int, fiberWarm: int, minTier: nat,
                         lease: Option<int>, caller: string, token: string, rest: string)

  predicate Expired(g: Grant, now: int) {
    g.lease.Some? && now >= g.lease.value
  }

  /** A redelivery that moves more than lease, caller and token. */
  predicate ChangesFixedFields(held: Grant, g: Grant) {
    g.(lease := held.lease, caller := held.caller, token := held.token) != held
  }

  datatype GrantEntry = GrantEntry(grant: Grant, nextSeq: nat, live: int, pooled: int)

  datatype SessionState = Running | Parked

  /** `handle` is the running fiber's id and "" when parked. */
  datatype Session = Session(name: string, grantUID: string, state: SessionState, fence: Fence,
                             handle: string, endpoint: string, deltaRef: string)

  /** `sessionKey` is "" for an anonymous fiber. */
  datatype FiberRef = FiberRef(grantUID: string, sessionKey: string, fence: Fence)

  datatype View = View(epoch: nat, grants: map<string, nat>, entries: seq<GrantEntry>,
                       sessions: map<string, Session>, fibers: map<string, FiberRef>,
                       seqHigh: map<string, nat>)

  datatype Error = GrantUnknown | GrantExpired | NeedsTier | GrantFull | SessionHeld

  datatype Action = Create | Resume

  datatype Resolution =
    | Refused(error: Error)
    | Attach(fence: Fence, endpoint: string)
    | Birth(action: Action, entry: nat, fence: Fence, ref: string)

  function SessionKey(uid: string, name: string): (k: string) {
    uid + "/" + name
  }

  /** Session keys do not collide, because a grant uid is a DNS label and holds no slash. */
  lemma SessionKeyInjective(uid: string, name: string, uid': string, name': string)
    requires NoSlash(uid) && NoSlash(uid')
    requires SessionKey(uid, name) == SessionKey(uid', name')
    ensures uid == uid' && name == name'
  {
    var k := SessionKey(uid, name);
    assert k[|uid|] == '/' && k[|uid'|] == '/';
    assert forall i :: 0 <= i < |uid| ==> k[i] == uid[i];
    assert forall i :: 0 <= i < |uid'| ==> k[i] == uid'[i];
    assert uid == k[..|uid|] == uid';
    assert name == k[|uid| + 1..] == name';
  }

  /** Every index in `grants` names an entry admitted under that uid. */
  predicate WellFormed(l: View) {
    forall uid :: uid in l.grants ==>
      l.grants[uid] < |l.entries| && l.entries[l.grants[uid]].grant.uid == uid
  }

  function Init(epoch: nat): (l: View) {
    View(epoch, map[], [], map[], map[], map[])
  }

  function BumpEpoch(l: View, epoch: nat): (r: View) {
    if epoch > l.epoch then l.(epoch := epoch) else l
  }

  function LastSeq(l: View, uid: string): (n: nat) {
    if uid in l.seqHigh then l.seqHigh[uid] else 0
  }

  function AdmitGrant(l: View, g: Grant): (r: View)
    requires WellFormed(l)
  {
    if g.uid in l.grants then
      var e := l.grants[g.uid];
      l.(entries := l.entries[e := l.entries[e].(grant := g)])
    else
      l.(entries := l.entries + [GrantEntry(g, LastSeq(l, g.uid), 0, 0)],
         grants := l.grants[g.uid := |l.entries|])
  }

  function RevokeGrant(l: View, uid: string): (r: View)
    requires WellFormed(l)
  {
    if uid in l.grants then
      l.(seqHigh := l.seqHigh[uid := l.entries[l.grants[uid]].nextSeq], grants := l.grants - {uid})
    else l
  }

  predicate Full(e: GrantEntry) {
    e.grant.fiberMax > 0 && e.live >= e.grant.fiberMax
  }

  /** Reserve a slot in entry e and mint its next fence. */
  function MintFence(l: View, e: nat): (f: Fence)
    requires e < |l.entries|
  {
    Fence(l.entries[e].grant.uid, l.epoch, l.entries[e].nextSeq + 1)
  }

  function ReserveAndMint(l: View, e: nat): (r: View)
    requires e < |l.entries|
  {
    l.(entries := l.entries[e := l.entries[e].(nextSeq := l.entries[e].nextSeq + 1, live := l.entries[e].live + 1)])
  }

  /** A clone may run under the grant now: it is admitted, its lease runs, the runtime has its tier. */
  predicate Serves(l: View, uid: string, tier: nat, now: int)
    requires WellFormed(l)
  {
    uid in l.grants &&
    var g := l.entries[l.grants[uid]].grant;
    (g.lease.Some? ==> now < g.lease.value) && g.minTier <= tier
  }

  predicate HasRoom(l: View, uid: string)
    requires WellFormed(l) && uid in l.grants
  {
    var x := l.entries[l.grants[uid]];
    x.grant.fiberMax > 0 ==> x.live < x.grant.fiberMax
  }

  predicate SessionIn(l: View, uid: string, name: string, state: SessionState) {
    name != "" && uid + "/" + name in l.sessions && l.sessions[uid + "/" + name].state == state
  }

  /** resolveHeld's decision: which of the three paths a clone takes. */
  function Decide(l: View, uid: string, name: string, tier: nat, now: int): (r: Resolution)
    requires WellFormed(l)
    ensures r.Birth? ==> uid in l.grants && r.entry == l.grants[uid] && !Full(l.entries[r.entry])
    ensures r.Birth? ==> r.fence == MintFence(l, r.entry)
  {
    if uid !in l.grants then Refused(GrantUnknown) else
    var e := l.grants[uid];
    var g := l.entries[e].grant;
    if Expired(g, now) then Refused(GrantExpired) else
    if g.minTier > tier then Refused(NeedsTier) else
    var key := SessionKey(uid, name);
    if name != "" && key in l.sessions && l.sessions[key].state == Running then
      Attach(l.sessions[key].fence, l.sessions[key].endpoint)
    else if name != "" && key in l.sessions then
      if tier < TIER_CHECKPOINT then Refused(NeedsTier)
      else if Full(l.entries[e]) then Refused(GrantFull)
      else Birth(Resume, e, MintFence(l, e), l.sessions[key].deltaRef)
    else if Full(l.entries[e]) then Refused(GrantFull)
    else Birth(Create, e, MintFence(l, e), "")
  }

  function Resolved(l: View, d: Resolution): (r: View)
    requires d.Birth? ==> d.entry < |l.entries|
  {
    if d.Birth? then ReserveAndMint(l, d.entry) else l
  }

  /** unlock without a commit gives the captured entry's slot back. */
  function Unreserve(l: View, e: nat): (r: View)
    requires e < |l.entries|
  {
    l.(entries := l.entries[e := l.entries[e].(live := l.entries[e].live - 1)])
  }

  /** The entry a clone captured is still the grant's, its epoch is current and nothing refuses. */
  predicate MayCommit(l: View, uid: string, entry: nat, fence: Fence, refuse: bool) {
    uid in l.grants && l.grants[uid] == entry && fence.epoch == l.epoch && !refuse
  }

  function Committed(l: View, s: Session): (r: View) {
    var key := SessionKey(s.grantUID, s.name);
    var ref := FiberRef(s.grantUID, if s.name != "" then key else "", s.fence);
    var fibers := if s.handle != "" then l.fibers[s.handle := ref] else l.fibers;
    var sessions := if s.name != "" then l.sessions[key := s] else l.sessions;
    l.(fibers := fibers, sessions := sessions)
  }

  /** The fiber runs for a session the ledger knows. */
  predicate RunsSession(l: View, id: string) {
    id in l.fibers && l.fibers[id].sessionKey != "" && l.fibers[id].sessionKey in l.sessions
  }

  /** Park and exit free the slot by uid, in whatever entry the uid has now. */
  function FreeSlot(l: View, uid: string): (r: View)
    requires WellFormed(l)
    ensures r == l.(entries := r.entries) && |r.entries| == |l.entries|
  {
    if uid in l.grants then Unreserve(l, l.grants[uid]) else l
  }

  function OnPark(l: View, id: string, deltaRef: string): (r: View)
    requires WellFormed(l)
    ensures r == l.(fibers := l.fibers - {id}, entries := r.entries, sessions := r.sessions)
    ensures |r.entries| == |l.entries|
  {
    if id !in l.fibers then assert l.fibers - {id} == l.fibers; l else
    var ref := l.fibers[id];
    var l1 := FreeSlot(l.(fibers := l.fibers - {id}), ref.grantUID);
    if ref.sessionKey != "" && ref.sessionKey in l.sessions then
      var s := l.sessions[ref.sessionKey];
      var parked := s.(state := Parked, deltaRef := deltaRef, handle := "", endpoint := "");
      l1.(sessions := l.sessions[ref.sessionKey := parked])
    else l1
  }

  /** What release and exit do: one slot back, and nothing of the session left. */
  function OnGone(l: View, id: string): (r: View)
    requires WellFormed(l)
    ensures r == l.(fibers := l.fibers - {id}, entries := r.entries, sessions := r.sessions)
    ensures |r.entries| == |l.entries|
  {
    if id !in l.fibers then assert l.fibers - {id} == l.fibers; l else
    var ref := l.fibers[id];
    var l1 := FreeSlot(l.(fibers := l.fibers - {id}), ref.grantUID);
    if ref.sessionKey != "" then l1.(sessions := l.sessions - {ref.sessionKey}) else l1
  }

  function ForgetSession(l: View, key: string): (r: View) {
    if key in l.sessions && l.sessions[key].state == Parked
    then l.(sessions := l.sessions - {key}) else l
  }

  /** Why a session that was parked elsewhere or earlier cannot be taken in. */
  function RestoreRefusal(l: View, uid: string, name: string): (r: Option<Error>) {
    if uid !in l.grants then Some(GrantUnknown)
    else if SessionKey(uid, name) in l.sessions then Some(SessionHeld)
    else None
  }

  function RestoreParked(l: View, uid: string, name: string, fence: Fence, deltaRef: string): (r: View) {
    if RestoreRefusal(l, uid, name).Some? then l
    else l.(sessions := l.sessions[SessionKey(uid, name) := Session(name, uid, Parked, fence, "", "", deltaRef)])
  }

  function FibersOf(l: View, uid: string): (ids: set<string>) {
    set id | id in l.fibers && l.fibers[id].grantUID == uid
  }

  function Max(a: int, b: int): (m: int) { if a > b then a else b }
  function Min(a: int, b: int): (m: int) { if a < b then a else b }

  /** n more sandboxes keep the pool within fibers.warm, and with the running fibers within fibers.max. */
  predicate RoomFor(e: GrantEntry, n: int) {
    e.pooled + n <= e.grant.fiberWarm && (e.grant.fiberMax > 0 ==> e.live + e.pooled + n <= e.grant.fiberMax)
  }

  /** The largest refill that fits. */
  function PoolRoom(l: View, uid: string): (room: int)
    requires WellFormed(l)
    ensures room >= 0
    ensures uid !in l.grants ==> room == 0
    ensures uid in l.grants ==> forall n: nat {:trigger RoomFor(l.entries[l.grants[uid]], n)} :: n > 0 ==>
      (RoomFor(l.entries[l.grants[uid]], n) <==> n <= room)
  {
    if uid !in l.grants then 0 else
    var e := l.entries[l.grants[uid]];
    var room := e.grant.fiberWarm - e.pooled;
    Max(if e.grant.fiberMax > 0 then Min(room, e.grant.fiberMax - e.live - e.pooled) else room, 0)
  }
}
