/**
 Admitting and removing one grant. Admissions of a grant run one at a time, behind a slot; a
 removal denies the grant, waits for the admission it finds in the slot, and then revokes. Each
 step is one hold of a lock or one reading of the clock, and all of them interleave.
 */
module Admissions {
  import opened Common
  import opened RevokedGrants

  /** Where an admission is: queued for the slot, in it, past the deny check, on its way out, gone. */
  datatype Phase = Queued | Slotted | Checked | Leaving | Finished

  datatype Admission = Admission(lease: Until, phase: Phase)

  /**
   Where a removal is. `patient` is false when its context ended before the admission it was
   waiting for did.
   */
  datatype Stage =
    | Starting
    | Read(lease: Until)
    | Denied
    | Waiting(on: Option<nat>)
    | Ready(patient: bool)
    | Done(patient: bool)

  /**
   `bar` is the denial as the removal left it. History: `at`, when that was; `early`, the admission
   that was past its deny check then; `lifted`, set when the home delivered the grant again since.
   */
  datatype Removal = Removal(stage: Stage, bar: Until, at: nat, early: Option<nat>, lifted: bool)

  /** `held` is the lease of the grant while the ledger has it admitted; `ttl` is the deny-list's. */
  datatype State = State(
    ttl: nat, now: nat, held: Option<Until>, entry: Option<Until>, slot: Option<nat>,
    admissions: seq<Admission>, removals: seq<Removal>)

  datatype Label =
    | Tick(d: nat)
    | Admit(lease: Until)
    | TakeSlot(a: nat)
    | GiveUp(a: nat)
    | Check(a: nat)
    | Fail(a: nat)
    | Record(a: nat)
    | Leave(a: nat)
    | Revoke
    | Remove
    | ReadLease(r: nat)
    | Deny(r: nat)
    | Observe(r: nat)
    | Wait(r: nat)
    | StopWaiting(r: nat)
    | Yield(r: nat)
    | Redeliver

  /** `renewsLease`: the lease runs longer than the one admitted. */
  predicate RenewsLease(held: Until, lease: Until) { Outlasts(lease, held) }

  predicate AdmissionIn(s: State, a: nat, p: Phase) { a < |s.admissions| && s.admissions[a].phase == p }

  predicate RemovalAt(s: State, r: nat) { r < |s.removals| }

  predicate Enabled(s: State, l: Label) {
    match l
    case Tick(_) => true
    // An expired grant is refused before anything else.
    case Admit(lease) => !Over(lease, s.now)
    case TakeSlot(a) => AdmissionIn(s, a, Queued) && s.slot.None?
    // A queued admission may end by sharing the result of the one before it, or with its context.
    case GiveUp(a) => AdmissionIn(s, a, Queued)
    case Check(a) => AdmissionIn(s, a, Slotted)
    case Fail(a) => AdmissionIn(s, a, Checked)
    case Record(a) => AdmissionIn(s, a, Checked)
    case Leave(a) => AdmissionIn(s, a, Leaving)
    case Revoke => true
    case Remove => true
    case ReadLease(r) => RemovalAt(s, r) && s.removals[r].stage.Starting?
    case Deny(r) => RemovalAt(s, r) && s.removals[r].stage.Read?
    case Observe(r) => RemovalAt(s, r) && s.removals[r].stage.Denied?
    case Wait(r) =>
      RemovalAt(s, r) && s.removals[r].stage.Waiting? &&
      (s.removals[r].stage.on.Some? ==> AdmissionIn(s, s.removals[r].stage.on.value, Finished))
    case StopWaiting(r) => RemovalAt(s, r) && s.removals[r].stage.Waiting?
    case Yield(r) => RemovalAt(s, r) && s.removals[r].stage.Ready?
    case Redeliver => true
  }

  function Moved(s: State, a: nat, p: Phase): (t: State)
    requires a < |s.admissions|
  {
    s.(admissions := s.admissions[a := s.admissions[a].(phase := p)])
  }

  function Staged(s: State, r: nat, stage: Stage): (t: State)
    requires r < |s.removals|
  {
    s.(removals := s.removals[r := s.removals[r].(stage := stage)])
  }

  function Lifted(rs: seq<Removal>): (r: seq<Removal>)
    ensures |r| == |rs| && forall i :: 0 <= i < |rs| ==> r[i] == rs[i].(lifted := true)
  {
    seq(|rs|, i requires 0 <= i < |rs| => rs[i].(lifted := true))
  }

  /** The admission past its deny check, if there is one. */
  function PastCheck(s: State): (r: Option<nat>) {
    if s.slot.Some? && AdmissionIn(s, s.slot.value, Checked) then s.slot else None
  }

  function Apply(s: State, l: Label): (t: State)
    requires Enabled(s, l)
  {
    match l
    case Tick(d) => s.(now := s.now + d)
    case Admit(lease) => s.(admissions := s.admissions + [Admission(lease, Queued)])
    case TakeSlot(a) => Moved(s, a, Slotted).(slot := Some(a))
    case GiveUp(a) => Moved(s, a, Finished)
    case Check(a) =>
      var (denied, entry) := Asked(s.entry, s.admissions[a].lease, s.now);
      Moved(s, a, if denied then Leaving else Checked).(entry := entry)
    case Fail(a) => Moved(s, a, Leaving)
    case Record(a) => Moved(s, a, Leaving).(held := Some(s.admissions[a].lease))
    case Leave(a) => Moved(s, a, Finished).(slot := None)
    case Revoke => s.(held := None)
    case Remove => s.(removals := s.removals + [Removal(Starting, Never, 0, None, false)])
    case ReadLease(r) => Staged(s, r, Read(if s.held.Some? then s.held.value else At(s.now)))
    case Deny(r) =>
      var bar := Added(s.entry, s.removals[r].stage.lease, s.now, s.ttl);
      s.(entry := Some(bar), removals := s.removals[r := Removal(Denied, bar, s.now, PastCheck(s), false)])
    case Observe(r) => Staged(s, r, Waiting(s.slot))
    case Wait(r) => Staged(s, r, Ready(true))
    case StopWaiting(r) => Staged(s, r, Ready(false))
    case Yield(r) => Staged(s, r, Done(s.removals[r].stage.patient)).(held := None)
    case Redeliver => s.(entry := None, removals := Lifted(s.removals))
  }

  ghost predicate IsRun(s: State, labels: seq<Label>, t: State)
    decreases |labels|
  {
    if labels == [] then s == t else Enabled(s, labels[0]) && IsRun(Apply(s, labels[0]), labels[1..], t)
  }

  ghost predicate IsStart(s: State) {
    s.slot == None && s.admissions == [] && s.removals == []
  }

  // ------------------------------------------------------------ the invariant

  predicate InSlot(p: Phase) { p.Slotted? || p.Checked? || p.Leaving? }

  ghost predicate SlotInv(slot: Option<nat>, admissions: seq<Admission>) {
    (slot.Some? ==> slot.value < |admissions|) &&
    forall a: nat :: a < |admissions| ==> (InSlot(admissions[a].phase) <==> slot == Some(a))
  }

  /** A lease the denial did not have to cover, or that is over anyway. */
  predicate Harmless(lease: Until, bar: Until, now: nat) { Outlasts(lease, bar) || Over(lease, now) }

  predicate Denying(v: Removal) { !v.lifted && !v.stage.Starting? && !v.stage.Read? }

  ghost predicate EntryInv(v: Removal, entry: Option<Until>, now: nat) {
    Over(v.bar, now) || (entry.Some? && !Outlasts(v.bar, entry.value))
  }

  ghost predicate ChecksInv(v: Removal, admissions: seq<Admission>, now: nat) {
    forall a: nat :: a < |admissions| && admissions[a].phase.Checked? ==>
      Harmless(admissions[a].lease, v.bar, now) || v.early == Some(a)
  }

  predicate EarlyRuns(v: Removal, admissions: seq<Admission>) {
    v.early.Some? && v.early.value < |admissions| && admissions[v.early.value].phase.Checked?
  }

  ghost predicate WaitInv(v: Removal, admissions: seq<Admission>) {
    (v.stage.Waiting? && EarlyRuns(v, admissions) ==> v.stage.on == v.early) &&
    ((v.stage.Ready? || v.stage.Done?) && v.stage.patient ==> !EarlyRuns(v, admissions))
  }

  ghost predicate HeldInv(v: Removal, held: Option<Until>, now: nat) {
    v.stage.Done? && v.stage.patient && held.Some? ==> Harmless(held.value, v.bar, now)
  }

  /** The early admission was past its check, and there is no way back. */
  ghost predicate EarlyInv(v: Removal, admissions: seq<Admission>) {
    v.early.Some? ==>
      v.early.value < |admissions| && !admissions[v.early.value].phase.Queued? &&
      !admissions[v.early.value].phase.Slotted?
  }

  /** An admission waited for was in the slot when it was found. */
  ghost predicate FoundInv(v: Removal, admissions: seq<Admission>) {
    v.stage.Waiting? && v.stage.on.Some? ==>
      v.stage.on.value < |admissions| && !admissions[v.stage.on.value].phase.Queued?
  }

  ghost predicate DenyingInv(v: Removal, s: State) {
    Denying(v) ==>
      EntryInv(v, s.entry, s.now) && ChecksInv(v, s.admissions, s.now) && WaitInv(v, s.admissions) &&
      HeldInv(v, s.held, s.now) && EarlyInv(v, s.admissions) && !Outlasts(At(v.at + s.ttl), v.bar)
  }

  ghost predicate RemovalInv(v: Removal, s: State) { FoundInv(v, s.admissions) && DenyingInv(v, s) }

  ghost predicate Inv(s: State) {
    SlotInv(s.slot, s.admissions) && forall r: nat :: r < |s.removals| ==> RemovalInv(s.removals[r], s)
  }

  /** A step of an admission, or of nobody's removal, keeps what a removal knows. */
  lemma StepKeepsRemoval(s: State, l: Label, v: Removal)
    requires Enabled(s, l) && SlotInv(s.slot, s.admissions) && RemovalInv(v, s)
    requires !l.Redeliver?
    ensures RemovalInv(v, Apply(s, l))
  {
    match l
    case Check(a) =>
    case Record(a) =>
    case Deny(r) =>
      AddedCovers(s.entry, s.removals[r].stage.lease, s.now, s.ttl);
    case _ =>
  }

  /** What the removal that takes the step knows afterwards. */
  lemma RemovalKeepsItself(s: State, l: Label)
    requires Enabled(s, l) && Inv(s) && (l.ReadLease? || l.Deny? || l.Observe? || l.Wait? || l.StopWaiting? || l.Yield?)
    ensures var t := Apply(s, l); RemovalInv(t.removals[l.r], t)
  {
    assert RemovalInv(s.removals[l.r], s);
  }

  lemma StepKeepsSlot(s: State, l: Label)
    requires Enabled(s, l) && SlotInv(s.slot, s.admissions)
    ensures SlotInv(Apply(s, l).slot, Apply(s, l).admissions)
  {
  }

  lemma StepKeepsInv(s: State, l: Label)
    requires Inv(s) && Enabled(s, l)
    ensures Inv(Apply(s, l))
  {
    var t := Apply(s, l);
    StepKeepsSlot(s, l);
    forall r: nat | r < |t.removals|
      ensures RemovalInv(t.removals[r], t)
    {
      if l.Redeliver? {
        assert RemovalInv(s.removals[r], s);
      } else if r < |s.removals| {
        if t.removals[r] == s.removals[r] {
          StepKeepsRemoval(s, l, s.removals[r]);
        } else {
          RemovalKeepsItself(s, l);
        }
      }
    }
  }

  lemma {:induction false} RunKeepsInv(s: State, labels: seq<Label>, t: State)
    requires Inv(s) && IsRun(s, labels, t)
    ensures Inv(t)
    decreases |labels|
  {
    if labels != [] {
      StepKeepsInv(s, labels[0]);
      RunKeepsInv(Apply(s, labels[0]), labels[1..], t);
    }
  }

  // ------------------------------------------------------------ removal beats admission

  /**
   Once a removal is done, and until the home delivers the grant again, the grant is not admitted
   under an unexpired lease that the denial covers, however admissions interleaved with it.
   */
  lemma RemovalBeatsAdmission(s: State, labels: seq<Label>, t: State, r: nat)
    requires IsStart(s) && IsRun(s, labels, t) && r < |t.removals|
    requires t.removals[r].stage == Done(true) && !t.removals[r].lifted
    ensures t.held.Some? && !Outlasts(t.held.value, t.removals[r].bar) ==> Over(t.held.value, t.now)
  {
    RunKeepsInv(s, labels, t);
    assert RemovalInv(t.removals[r], t);
  }

  /** The removal denies, or is about to deny, the lease it found admitted. */
  ghost predicate Covers(v: Removal, lease: Until) {
    !v.stage.Starting? && if v.stage.Read? then v.stage.lease == lease else !Outlasts(lease, v.bar)
  }

  lemma StepKeepsCover(s: State, l: Label, r: nat, lease: Until)
    requires Enabled(s, l) && r < |s.removals| && Covers(s.removals[r], lease)
    ensures r < |Apply(s, l).removals| && Covers(Apply(s, l).removals[r], lease)
  {
    if l == Deny(r) {
      AddedCovers(s.entry, s.removals[r].stage.lease, s.now, s.ttl);
    }
  }

  lemma {:induction false} RunKeepsCover(s: State, labels: seq<Label>, t: State, r: nat, lease: Until)
    requires IsRun(s, labels, t) && r < |s.removals| && Covers(s.removals[r], lease)
    ensures r < |t.removals| && Covers(t.removals[r], lease)
    decreases |labels|
  {
    if labels != [] {
      StepKeepsCover(s, labels[0], r, lease);
      RunKeepsCover(Apply(s, labels[0]), labels[1..], t, r, lease);
    }
  }

  /**
   So the lease the grant was admitted under when the removal began stays out until it is over: the
   denial covers it however long it runs.
   */
  lemma RemovedLeaseStaysOut(s: State, labels: seq<Label>, t: State, r: nat)
    requires Inv(s) && Enabled(s, ReadLease(r)) && s.held.Some? && IsRun(Apply(s, ReadLease(r)), labels, t)
    ensures
      r < |t.removals| &&
      (t.removals[r].stage == Done(true) && !t.removals[r].lifted ==>
         !Outlasts(s.held.value, t.removals[r].bar) && (t.held == s.held ==> Over(s.held.value, t.now)))
  {
    var u := Apply(s, ReadLease(r));
    StepKeepsInv(s, ReadLease(r));
    RunKeepsInv(u, labels, t);
    RunKeepsCover(u, labels, t, r, s.held.value);
    assert RemovalInv(t.removals[r], t);
  }

  // ------------------------------------------------------------ tokens

  const SECOND: nat := 1_000_000_000

  /** A verified token: `iat` and `exp` in whole seconds, the lease in nanoseconds. */
  datatype Token = Token(iat: nat, exp: nat, lease: nat)

  /** The verifier's lease arithmetic: `exp` is the lease cut to the second, and the lifetime is bounded. */
  predicate Verified(k: Token, maxLease: nat) {
    k.exp == k.lease / SECOND && k.exp * SECOND - k.iat * SECOND <= maxLease
  }

  lemma WholeSeconds(k: Token)
    requires k.exp == k.lease / SECOND
    ensures k.exp * SECOND <= k.lease < k.exp * SECOND + SECOND
    ensures k.lease % SECOND == 0 ==> k.lease == k.exp * SECOND
  {
  }

  /** A removal beats every token issued before it whose lease is in whole seconds. */
  lemma RemovalBeatsTokens(s: State, labels: seq<Label>, t: State, r: nat, k: Token)
    requires IsStart(s) && IsRun(s, labels, t) && r < |t.removals|
    requires t.removals[r].stage == Done(true) && !t.removals[r].lifted
    requires Verified(k, t.ttl) && k.iat * SECOND <= t.removals[r].at && k.lease % SECOND == 0
    ensures t.held == Some(At(k.lease)) ==> Over(At(k.lease), t.now)
  {
    RunKeepsInv(s, labels, t);
    assert RemovalInv(t.removals[r], t);
    WholeSeconds(k);
  }

  /** Without that: the lease outlives the denial by part of a second, and the token gets in. */
  lemma SubSecondLeaseSlipsIn() returns (s: State, labels: seq<Label>, t: State, k: Token)
    ensures IsStart(s) && IsRun(s, labels, t) && |t.removals| == 1 && t.removals[0].stage == Done(true)
    ensures !t.removals[0].lifted
    ensures Verified(k, t.ttl) && k.iat * SECOND <= t.removals[0].at
    ensures t.held == Some(At(k.lease)) && !Over(At(k.lease), t.now)
  {
    s := State(60 * SECOND, 0, None, None, None, [], []);
    k := Token(0, 60, 60 * SECOND + 1);
    var removing, gone := RemoveAlone(s);
    var later;
    later, t := WaitAndGetIn(gone, At(k.lease));
    JoinRuns(s, removing, gone, later, t);
    labels := removing + later;
  }

  /** A removal with nothing in the slot, start to end. */
  lemma RemoveAlone(s: State) returns (labels: seq<Label>, t: State)
    requires s.slot.None?
    ensures IsRun(s, labels, t)
    ensures
      var bar := Added(s.entry, if s.held.Some? then s.held.value else At(s.now), s.now, s.ttl);
      t == s.(held := None, entry := Some(bar), removals := s.removals + [Removal(Done(true), bar, s.now, None, false)])
  {
    var r := |s.removals|;
    var s1 := Apply(s, Remove);
    var s2 := Apply(s1, ReadLease(r));
    var s3 := Apply(s2, Deny(r));
    var rest;
    rest, t := FinishAlone(s3, r);
    RunPrepends(s2, Deny(r), rest, t);
    RunPrepends(s1, ReadLease(r), [Deny(r)] + rest, t);
    RunPrepends(s, Remove, [ReadLease(r)] + ([Deny(r)] + rest), t);
    labels := [Remove] + ([ReadLease(r)] + ([Deny(r)] + rest));
  }

  lemma FinishAlone(s: State, r: nat) returns (labels: seq<Label>, t: State)
    requires s.slot.None? && r < |s.removals| && s.removals[r].stage.Denied?
    ensures IsRun(s, labels, t)
    ensures t == s.(held := None, removals := s.removals[r := s.removals[r].(stage := Done(true))])
  {
    var s1 := Apply(s, Observe(r));
    var s2 := Apply(s1, Wait(r));
    t := Apply(s2, Yield(r));
    assert IsRun(t, [], t);
    RunPrepends(s2, Yield(r), [], t);
    RunPrepends(s1, Wait(r), [Yield(r)], t);
    RunPrepends(s, Observe(r), [Wait(r)] + [Yield(r)], t);
    labels := [Observe(r)] + ([Wait(r)] + [Yield(r)]);
  }

  lemma {:induction false} JoinRuns(s: State, first: seq<Label>, t: State, rest: seq<Label>, u: State)
    requires IsRun(s, first, t) && IsRun(t, rest, u)
    ensures IsRun(s, first + rest, u)
    decreases |first|
  {
    if first == [] {
      assert first + rest == rest;
    } else {
      JoinRuns(Apply(s, first[0]), first[1..], t, rest, u);
      assert (first + rest)[1..] == first[1..] + rest;
    }
  }

  lemma RunPrepends(s: State, l: Label, labels: seq<Label>, t: State)
    requires Enabled(s, l) && IsRun(Apply(s, l), labels, t)
    ensures IsRun(s, [l] + labels, t)
  {
    assert ([l] + labels)[1..] == labels;
  }

  // ------------------------------------------------------------ exactly which leases get in

  /** A run without a redelivery leaves the grant admitted under this lease, unexpired. */
  ghost predicate CanGetIn(s: State, lease: Until) {
    exists labels: seq<Label>, t: State :: GetsIn(s, labels, t, lease)
  }

  ghost predicate GetsIn(s: State, labels: seq<Label>, t: State, lease: Until) {
    IsRun(s, labels, t) && Redeliver !in labels && t.held == Some(lease) && !Over(lease, t.now)
  }

  /** A denial that has lapsed, or none. */
  predicate Lapsed(s: State) { s.entry.None? || Over(s.entry.value, s.now) }

  /** An admission under this lease is past its deny check. */
  ghost predicate OnItsWay(s: State, lease: Until) {
    exists a: nat :: AdmissionIn(s, a, Checked) && s.admissions[a].lease == lease
  }

  /**
   No way in: the lease is over, or a denial stands that it does not outlast and it is neither
   admitted nor on its way.
   */
  ghost predicate Shut(s: State, lease: Until) {
    Over(lease, s.now) ||
    (s.entry.Some? && !Outlasts(lease, s.entry.value) && s.held != Some(lease) && !OnItsWay(s, lease))
  }

  /** Nothing but a redelivery opens it again; a denial only ever grows until it lapses. */
  lemma ShutStays(s: State, l: Label, lease: Until)
    requires Enabled(s, l) && !l.Redeliver? && Shut(s, lease)
    ensures Shut(Apply(s, l), lease)
  {
    var t := Apply(s, l);
    if !Over(lease, t.now) {
      assert forall a: nat :: AdmissionIn(s, a, Checked) ==> s.admissions[a].lease != lease;
      if l.Deny? {
        AddedCovers(s.entry, s.removals[l.r].stage.lease, s.now, s.ttl);
      }
      assert forall a: nat :: AdmissionIn(t, a, Checked) && !AdmissionIn(s, a, Checked) ==> l == Check(a);
    }
  }

  lemma {:induction false} ShutForGood(s: State, labels: seq<Label>, t: State, lease: Until)
    requires IsRun(s, labels, t) && Redeliver !in labels && Shut(s, lease)
    ensures Shut(t, lease)
    decreases |labels|
  {
    if labels != [] {
      assert labels[0] in labels && forall l :: l in labels[1..] ==> l in labels;
      ShutStays(s, labels[0], lease);
      ShutForGood(Apply(s, labels[0]), labels[1..], t, lease);
    }
  }

  /** With the slot free and no denial standing an unexpired lease is admitted. */
  lemma AdmitNow(s: State, lease: Until) returns (labels: seq<Label>, t: State)
    requires s.slot.None? && Lapsed(s) && !Over(lease, s.now)
    ensures GetsIn(s, labels, t, lease) && t.removals == s.removals && t.ttl == s.ttl
  {
    var a := |s.admissions|;
    var s2 := Apply(s, Admit(lease));
    var s3 := Apply(s2, TakeSlot(a));
    var s4 := Apply(s3, Check(a));
    t := Apply(s4, Record(a));
    assert IsRun(t, [], t);
    RunPrepends(s4, Record(a), [], t);
    RunPrepends(s3, Check(a), [Record(a)], t);
    RunPrepends(s2, TakeSlot(a), [Check(a)] + [Record(a)], t);
    RunPrepends(s, Admit(lease), [TakeSlot(a)] + ([Check(a)] + [Record(a)]), t);
    labels := [Admit(lease)] + ([TakeSlot(a)] + ([Check(a)] + [Record(a)]));
  }

  /** Whoever is in the slot may fail and leave it, and then no denial stands. */
  lemma FreeSlot(s: State) returns (labels: seq<Label>, t: State)
    requires SlotInv(s.slot, s.admissions) && Lapsed(s)
    ensures IsRun(s, labels, t) && Redeliver !in labels && t.slot.None? && Lapsed(t)
    ensures t.now == s.now && t.ttl == s.ttl && t.removals == s.removals
  {
    labels, t := [], s;
    if s.slot.Some? {
      var b := s.slot.value;
      var s1 := if s.admissions[b].phase.Slotted? then Apply(s, Check(b)) else s;
      var s2 := if s1.admissions[b].phase.Checked? then Apply(s1, Fail(b)) else s1;
      t := Apply(s2, Leave(b));
      assert IsRun(t, [], t);
      RunPrepends(s2, Leave(b), [], t);
      labels := [Leave(b)];
      if s1.admissions[b].phase.Checked? {
        RunPrepends(s1, Fail(b), labels, t);
        labels := [Fail(b)] + labels;
      }
      if s.admissions[b].phase.Slotted? {
        RunPrepends(s, Check(b), labels, t);
        labels := [Check(b)] + labels;
      }
    }
  }

  /** A lease that outlasts the denial waits for it to lapse, and for the slot. */
  lemma WaitAndGetIn(s: State, lease: Until) returns (labels: seq<Label>, t: State)
    requires SlotInv(s.slot, s.admissions) && !Over(lease, s.now) && (s.entry.None? || Outlasts(lease, s.entry.value))
    ensures GetsIn(s, labels, t, lease) && t.removals == s.removals && t.ttl == s.ttl
  {
    var d := if s.entry.Some? && s.entry.value.t > s.now then s.entry.value.t - s.now else 0;
    var s1 := Apply(s, Tick(d));
    var freeing, s2 := FreeSlot(s1);
    var admitting;
    admitting, t := AdmitNow(s2, lease);
    JoinRuns(s1, freeing, s2, admitting, t);
    RunPrepends(s, Tick(d), freeing + admitting, t);
    labels := [Tick(d)] + (freeing + admitting);
  }

  lemma OnItsWayGetsIn(s: State, lease: Until) returns (labels: seq<Label>, t: State)
    requires OnItsWay(s, lease) && !Over(lease, s.now)
    ensures GetsIn(s, labels, t, lease)
  {
    var a: nat :| AdmissionIn(s, a, Checked) && s.admissions[a].lease == lease;
    t := Apply(s, Record(a));
    assert IsRun(t, [], t);
    RunPrepends(s, Record(a), [], t);
    labels := [Record(a)] + [];
  }

  /** In any state, a lease gets in before the grant is delivered again if and only if it is not shut out. */
  lemma GetsInExactly(s: State, lease: Until)
    requires SlotInv(s.slot, s.admissions)
    ensures CanGetIn(s, lease) <==> !Shut(s, lease)
  {
    if Shut(s, lease) {
      forall labels: seq<Label>, t: State
        ensures !GetsIn(s, labels, t, lease)
      {
        if IsRun(s, labels, t) && Redeliver !in labels {
          ShutForGood(s, labels, t, lease);
        }
      }
    } else if s.held == Some(lease) {
      assert GetsIn(s, [], s, lease);
    } else if OnItsWay(s, lease) {
      var labels, t := OnItsWayGetsIn(s, lease);
      assert GetsIn(s, labels, t, lease);
    } else {
      var labels, t := WaitAndGetIn(s, lease);
      assert GetsIn(s, labels, t, lease);
    }
  }

  /**
   A lease once refused by a denial, and every lease it outlasts, can get in before the grant is
   delivered again if and only if the ledger has it admitted already and it is not over.
   */
  lemma RefusedStaysRefused(s: State, a: nat, lease: Until)
    requires SlotInv(s.slot, s.admissions) && Enabled(s, Check(a)) && !Lapsed(s)
    requires !Outlasts(lease, s.admissions[a].lease)
    ensures
      var t := Apply(s, Check(a));
      t.admissions[a].phase.Leaving? && t.held == s.held &&
      (CanGetIn(t, lease) <==> s.held == Some(lease) && !Over(lease, s.now))
  {
    var t := Apply(s, Check(a));
    StepKeepsSlot(s, Check(a));
    GetsInExactly(t, lease);
    assert !OnItsWay(t, lease);
    assert t.entry.Some? && !Outlasts(lease, t.entry.value);
  }

  /** So in every run after the refusal, until a redelivery, the refused lease is never admitted unexpired. */
  lemma RefusedNeverAdmitted(s: State, a: nat, labels: seq<Label>, t: State)
    requires SlotInv(s.slot, s.admissions) && Enabled(s, Check(a)) && !Lapsed(s)
    requires s.held != Some(s.admissions[a].lease)
    requires IsRun(Apply(s, Check(a)), labels, t) && Redeliver !in labels
    ensures t.held == Some(s.admissions[a].lease) ==> Over(s.admissions[a].lease, t.now)
  {
    var lease := s.admissions[a].lease;
    RefusedStaysRefused(s, a, lease);
    if t.held == Some(lease) && !Over(lease, t.now) {
      assert GetsIn(Apply(s, Check(a)), labels, t, lease);
    }
  }

  /** A removal that is done shuts out every lease its denial covers; so does what Denied made of it since. */
  lemma RemovalShuts(s: State, r: nat, lease: Until)
    requires Inv(s) && r < |s.removals| && s.removals[r].stage == Done(true) && !s.removals[r].lifted
    ensures !Outlasts(lease, s.removals[r].bar) ==> Shut(s, lease)
    ensures !Over(s.removals[r].bar, s.now) ==> s.entry.Some? && !Outlasts(s.removals[r].bar, s.entry.value)
  {
    assert RemovalInv(s.removals[r], s);
  }
}
