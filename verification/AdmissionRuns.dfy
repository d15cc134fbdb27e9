/** `Admit` and `Remove` as they run: each against anything the other callers may do between its steps. */
module AdmissionRuns {
  import opened Common
  import opened RevokedGrants
  import opened Admissions

  /** Labels of admission a and of removal r, the caller's own. */
  predicate Own(l: Label, a: Option<nat>, r: Option<nat>) {
    match l
    case TakeSlot(b) => a == Some(b)
    case GiveUp(b) => a == Some(b)
    case Check(b) => a == Some(b)
    case Fail(b) => a == Some(b)
    case Record(b) => a == Some(b)
    case Leave(b) => a == Some(b)
    case ReadLease(q) => r == Some(q)
    case Deny(q) => r == Some(q)
    case Observe(q) => r == Some(q)
    case Wait(q) => r == Some(q)
    case StopWaiting(q) => r == Some(q)
    case Yield(q) => r == Some(q)
    case _ => false
  }

  /** The same removal, but that its denial may have been lifted. */
  predicate Kept(v: Removal, w: Removal) { w == v.(lifted := w.lifted) && (v.lifted ==> w.lifted) }

  ghost predicate DoneKept(s: State, t: State) {
    |s.removals| <= |t.removals| &&
    forall q: nat :: q < |s.removals| && s.removals[q].stage.Done? ==> Kept(s.removals[q], t.removals[q])
  }

  ghost predicate AdmissionKept(s: State, t: State, a: nat) {
    a < |s.admissions| <= |t.admissions| && t.admissions[a] == s.admissions[a]
  }

  ghost predicate RemovalKept(s: State, t: State, r: nat) {
    r < |s.removals| <= |t.removals| && Kept(s.removals[r], t.removals[r])
  }

  /** What the others may have done by t: time went on, and what is the caller's own or done stayed. */
  ghost predicate Aside(s: State, t: State, a: Option<nat>, r: Option<nat>) {
    s.now <= t.now && t.ttl == s.ttl && DoneKept(s, t) &&
    (a.Some? ==> AdmissionKept(s, t, a.value)) && (r.Some? ==> RemovalKept(s, t, r.value))
  }

  lemma StepAside(s: State, l: Label, a: Option<nat>, r: Option<nat>)
    requires Enabled(s, l) && !Own(l, a, r)
    requires (a.Some? ==> a.value < |s.admissions|) && (r.Some? ==> r.value < |s.removals|)
    ensures Aside(s, Apply(s, l), a, r)
  {
  }

  lemma {:induction false} OthersStayAside(s: State, labels: seq<Label>, t: State, a: Option<nat>, r: Option<nat>)
    requires Inv(s) && IsRun(s, labels, t) && forall i :: 0 <= i < |labels| ==> !Own(labels[i], a, r)
    requires (a.Some? ==> a.value < |s.admissions|) && (r.Some? ==> r.value < |s.removals|)
    ensures Inv(t) && Aside(s, t, a, r)
    decreases |labels|
  {
    if labels != [] {
      StepKeepsInv(s, labels[0]);
      StepAside(s, labels[0], a, r);
      OthersStayAside(Apply(s, labels[0]), labels[1..], t, a, r);
    }
  }

  /** No removal that was done by s counts admission a as early. */
  ghost predicate NotEarly(s: State, t: State, a: nat) {
    |s.removals| <= |t.removals| &&
    forall q: nat :: q < |s.removals| && s.removals[q].stage.Done? && Denying(t.removals[q]) ==>
      t.removals[q].early != Some(a)
  }

  /** Barred: a denial refused it. Refused: its lease was over, its context ended, or warming its template failed. */
  datatype Answer = Barred | Refused | Shared | Admitted

  predicate Succeeded(r: Answer) { r.Shared? || r.Admitted? }

  /** Whatever removal was done by s and not lifted by t does not deny the lease any more, or it is over. */
  ghost predicate StillHarmless(s: State, t: State, lease: Until) {
    |s.removals| <= |t.removals| &&
    forall q: nat :: q < |s.removals| && s.removals[q].stage == Done(true) && !t.removals[q].lifted ==>
      Harmless(lease, t.removals[q].bar, t.now)
  }

  lemma HeldIsHarmless(s: State, t: State)
    requires Inv(t) && DoneKept(s, t) && t.held.Some?
    ensures StillHarmless(s, t, t.held.value)
  {
    forall q: nat | q < |s.removals| && s.removals[q].stage == Done(true) && !t.removals[q].lifted
      ensures Harmless(t.held.value, t.removals[q].bar, t.now)
    {
      assert RemovalInv(t.removals[q], t);
    }
  }

  /** A refused admission on its way out changes nothing about what can get in. */
  lemma RefusedLeaves(s: State, a: nat)
    requires Inv(s) && Enabled(s, Check(a)) && !Lapsed(s)
    ensures
      var t, lease := Apply(s, Check(a)), s.admissions[a].lease;
      Enabled(t, Leave(a)) && t.held == s.held &&
      (CanGetIn(Apply(t, Leave(a)), lease) <==> s.held == Some(lease) && !Over(lease, s.now))
  {
    var t, lease := Apply(s, Check(a)), s.admissions[a].lease;
    RefusedStaysRefused(s, a, lease);
    StepKeepsSlot(s, Check(a));
    StepKeepsSlot(t, Leave(a));
    GetsInExactly(t, lease);
    GetsInExactly(Apply(t, Leave(a)), lease);
    if Shut(t, lease) {
      ShutStays(t, Leave(a), lease);
    }
  }

  class Home {
    const ttl: nat
    var now: nat
    var held: Option<Until>
    var entry: Option<Until>
    var slot: Option<nat>
    var count: nat
    ghost var st: State

    ghost predicate Valid()
      reads this
    {
      Inv(st) && ttl == st.ttl && now == st.now && held == st.held && entry == st.entry && slot == st.slot &&
      count == |st.admissions|
    }

    /** Anything the others may do: see OthersStayAside. */
    method Others(ghost a: Option<nat>, ghost r: Option<nat>)
      requires Valid() && (a.Some? ==> a.value < |st.admissions|) && (r.Some? ==> r.value < |st.removals|)
      modifies this
      ensures Valid() && Aside(old(st), st, a, r)
    {
      var d: nat :| true;
      now := now + d;
      Take(Tick(d), a, r);
      if * {
        held := None;
        Take(Revoke, a, r);
      } else {
        entry := None;
        Take(Redeliver, a, r);
      }
    }

    /** The machine takes a step of somebody else's. */
    ghost method Take(l: Label, a: Option<nat>, r: Option<nat>)
      requires Inv(st) && Enabled(st, l) && !Own(l, a, r)
      requires (a.Some? ==> a.value < |st.admissions|) && (r.Some? ==> r.value < |st.removals|)
      modifies this`st
      ensures Inv(st) && st == Apply(old(st), l) && Aside(old(st), st, a, r)
    {
      StepKeepsInv(st, l);
      StepAside(st, l, a, r);
      st := Apply(st, l);
    }

    ghost method Step(l: Label)
      requires Inv(st) && Enabled(st, l)
      modifies this`st
      ensures Inv(st) && st == Apply(old(st), l)
    {
      StepKeepsInv(st, l);
      st := Apply(st, l);
    }

    /** Waits for the admission to leave its slot, or stops waiting when the context ends. */
    method Await(a: nat, ghost r: nat) returns (closed: bool)
      requires Valid() && r < |st.removals| && st.removals[r].stage == Waiting(Some(a))
      modifies this
      ensures Valid() && Aside(old(st), st, None, Some(r))
      ensures closed ==> AdmissionIn(st, a, Finished)
    {
      Others(None, Some(r));
      closed := slot != Some(a);
      assert RemovalInv(st.removals[r], st);
    }

    /**
     `Remove`: deny the grant, wait for the admission found in the slot, revoke. When it did wait
     and the denial was not lifted meanwhile, no unexpired lease the denial covers is admitted. It
     covers the lease that was admitted when the removal began.
     */
    method Remove() returns (patient: bool, ghost r: nat)
      requires Valid()
      modifies this
      ensures Valid() && r < |st.removals| && st.removals[r].stage == Done(patient)
      ensures patient && !st.removals[r].lifted && held.Some? && !Outlasts(held.value, st.removals[r].bar) ==>
        Over(held.value, now)
      ensures !st.removals[r].lifted ==> !Outlasts(At(old(now) + ttl), st.removals[r].bar)
      ensures old(held).Some? ==> !Outlasts(old(held).value, st.removals[r].bar)
    {
      r := StartRemoval();
      Others(None, Some(r));
      var wait := slot;
      Step(Observe(r));
      patient := FinishRemoval(r, wait);
      assert RemovalInv(st.removals[r], st);
    }

    method StartRemoval() returns (ghost r: nat)
      requires Valid()
      modifies this
      ensures Valid() && r < |st.removals| && st.removals[r].stage == Denied && st.removals[r].at >= old(now)
      ensures old(held).Some? ==> !Outlasts(old(held).value, st.removals[r].bar)
    {
      r := |st.removals|;
      Step(Admissions.Remove);
      var lease := if held.Some? then held.value else At(now);
      Step(ReadLease(r));
      Others(None, Some(r));
      AddedCovers(entry, lease, now, ttl);
      entry := Some(Added(entry, lease, now, ttl));
      Step(Deny(r));
    }

    method FinishRemoval(ghost r: nat, wait: Option<nat>) returns (patient: bool)
      requires Valid() && r < |st.removals| && st.removals[r].stage == Waiting(wait)
      modifies this
      ensures Valid() && r < |st.removals|
      ensures Kept(old(st).removals[r].(stage := Done(patient)), st.removals[r])
    {
      patient := true;
      if wait.Some? {
        patient := Await(wait.value, r);
      }
      if patient {
        Step(Wait(r));
      } else {
        Step(StopWaiting(r));
      }
      Others(None, Some(r));
      held := None;
      Step(Yield(r));
      Others(None, Some(r));
    }

    /**
     `Admit`: an admission that waited is content with what it finds admitted if its own lease would
     add nothing; if not, it takes its turn. `under` is the lease the answer rests on, which the
     ledger then holds. No answer rests on a lease that a removal finished before the call still denies,
     and a lease that was barred cannot get in before the grant is delivered again.
     */
    method Admit(lease: Until) returns (r: Answer, under: Until, a: nat)
      requires Valid()
      modifies this
      ensures Valid() && DoneKept(old(st), st)
      ensures Succeeded(r) ==> (lease.At? ==> old(now) < lease.t) && !Outlasts(lease, under)
      ensures r == Admitted ==> under == lease
      ensures Succeeded(r) ==> held == Some(under) && StillHarmless(old(st), st, under)
      ensures r == Barred ==> (CanGetIn(st, lease) <==> held == Some(lease) && !Over(lease, now))
    {
      r, under, a := Refused, lease, count;
      if lease.At? && now >= lease.t {
        return;
      }
      count := count + 1;
      Step(Admissions.Admit(lease));
      var shared := InLine(a, lease, old(st));
      if shared {
        HeldIsHarmless(old(st), st);
        Step(GiveUp(a));
        return Shared, held.value, a;
      }
      if slot.Some? {
        // Its context ended.
        Step(GiveUp(a));
        return;
      }
      slot := Some(a);
      Step(TakeSlot(a));
      r := InTurn(a, lease, old(st));
    }

    /** Waits while the slot is taken, for as long as the context lasts, or until what is admitted will do. */
    method InLine(ghost a: nat, lease: Until, ghost before: State) returns (shared: bool)
      requires Valid() && AdmissionIn(st, a, Queued) && st.admissions[a].lease == lease
      requires DoneKept(before, st) && NotEarly(before, st, a)
      modifies this
      ensures Valid() && AdmissionIn(st, a, Queued) && st.admissions[a].lease == lease
      ensures DoneKept(before, st) && NotEarly(before, st, a)
      ensures shared ==> held.Some? && !RenewsLease(held.value, lease)
    {
      shared := false;
      var patience: nat :| true;
      while slot.Some? && patience > 0 && !shared
        invariant Valid() && AdmissionIn(st, a, Queued) && st.admissions[a].lease == lease
        invariant DoneKept(before, st) && NotEarly(before, st, a)
        invariant shared ==> held.Some? && !RenewsLease(held.value, lease)
        decreases patience
      {
        var wait := slot;
        Others(Some(a), None);
        // `same`: neither the caller nor a fixed field would change.
        var same: bool := *;
        shared := slot != wait && held.Some? && !RenewsLease(held.value, lease) && same;
        patience := patience - 1;
      }
    }

    method InTurn(a: nat, lease: Until, ghost before: State) returns (r: Answer)
      requires Valid() && AdmissionIn(st, a, Slotted) && st.admissions[a].lease == lease
      requires DoneKept(before, st) && NotEarly(before, st, a)
      modifies this
      ensures Valid() && DoneKept(before, st) && !r.Shared?
      ensures r == Admitted ==> held == Some(lease) && StillHarmless(before, st, lease)
      ensures r == Barred ==> (CanGetIn(st, lease) <==> held == Some(lease) && !Over(lease, now))
    {
      Others(Some(a), None);
      var asked := Asked(entry, lease, now);
      entry := asked.1;
      ghost var s := st;
      Step(Check(a));
      if asked.0 {
        RefusedLeaves(s, a);
        slot := None;
        Step(Leave(a));
        return Barred;
      }
      Others(Some(a), None);
      var admitted := Land(a, lease);
      r := if admitted then Admitted else Refused;
    }

    /** Warming the template may fail; otherwise the ledger records the grant. */
    method Land(ghost a: nat, lease: Until) returns (admitted: bool)
      requires Valid() && AdmissionIn(st, a, Checked) && st.admissions[a].lease == lease
      modifies this
      ensures Valid() && AdmissionIn(st, a, Finished) && st.removals == old(st).removals && now == old(now)
      ensures held == if admitted then Some(lease) else old(held)
    {
      admitted := *;
      if admitted {
        held := Some(lease);
        Step(Record(a));
      } else {
        Step(Fail(a));
      }
      slot := None;
      Step(Leave(a));
    }
  }
}
