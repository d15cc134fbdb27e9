/**
 The ready gate: the warm templates, and the one bit published about them. The class
 holds what its mutex guards; the machine below interleaves any number of callers, one hold of the
 mutex or one effect of a publish at a time.
 */
module ReadyGates {
  import opened Common

  // ------------------------------------------------------------ under the mutex

  datatype Gate = Gate(warm: set<string>, decided: bool, known: bool, published: bool, inFlight: bool, lastErr: string)

  function Want(g: Gate): (b: bool) { g.warm != {} }

  /** Nothing to send: as far as the gate knows, the control plane holds what the warm set says. */
  predicate Settled(g: Gate) { g.known && g.published == Want(g) }

  function Marked(g: Gate, uid: string, ready: bool): (r: Gate) {
    g.(warm := if ready then g.warm + {uid} else g.warm - {uid}, decided := true)
  }

  function Succeeded(g: Gate, want: bool): (r: Gate) {
    g.(inFlight := false, known := true, published := want, lastErr := "")
  }

  function Failed(g: Gate, err: string): (r: Gate) {
    g.(inFlight := false, lastErr := err)
  }

  /** How one publish goes: what others mark meanwhile, and the error it comes back with, if any. */
  datatype Round = Round(marks: seq<(string, bool)>, err: Option<string>)

  /** The gate itself; each of Mark, Look and Settle is one hold of its mutex. */
  class ReadyGate {
    var warm: set<string>
    var decided: bool
    var known: bool
    var published: bool
    var inFlight: bool
    var lastErr: string

    ghost function View(): (g: Gate)
      reads this
    {
      Gate(warm, decided, known, published, inFlight, lastErr)
    }

    constructor ()
      ensures View() == Gate({}, false, false, false, false, "")
    {
      warm, decided, known, published, inFlight, lastErr := {}, false, false, false, false, "";
    }

    method Mark(uid: string, ready: bool)
      modifies this
      ensures View() == Marked(old(View()), uid, ready)
    {
      if ready {
        warm := warm + {uid};
      } else {
        warm := warm - {uid};
      }
      decided := true;
    }

    /** The top of the publishing loop: some warm set to publish, or none when this caller is done. */
    method Look() returns (send: Option<set<string>>)
      modifies this
      ensures send.None? <==> old(inFlight || Settled(View()))
      ensures send.None? ==> View() == old(View())
      ensures send.Some? ==> send.value == warm && View() == old(View()).(inFlight := true)
    {
      if inFlight {
        return None;
      }
      var want := warm != {};
      if known && published == want {
        return None;
      }
      inFlight := true;
      return Some(warm);
    }

    /** The bottom of the loop, after the publish of `sent` came back. */
    method Settle(sent: set<string>, err: Option<string>) returns (changed: bool)
      modifies this
      ensures View() == if err.Some? then Failed(old(View()), err.value) else Succeeded(old(View()), sent != {})
      ensures changed == if err.Some? then err.value != old(lastErr) else old(lastErr) != ""
    {
      inFlight := false;
      if err.Some? {
        changed := err.value != lastErr;
        lastErr := err.value;
        return;
      }
      known, published := true, sent != {};
      changed := lastErr != "";
      if changed {
        lastErr := "";
      }
    }

    /**
     One caller's publishing loop, given how each of its publishes goes. `done` is false when the
     rounds ran out with more to send.
     */
    method Flush(rounds: seq<Round>) returns (done: bool, changed: bool, err: Option<string>)
      modifies this
      ensures Flushing(View(), done, changed, err) == Flushed(old(View()), rounds, false)
    {
      assert rounds[0..] == rounds;
      changed := false;
      for i := 0 to |rounds|
        invariant Flushed(View(), rounds[i..], changed) == Flushed(old(View()), rounds, false)
      {
        assert rounds[i..][0] == rounds[i] && rounds[i..][1..] == rounds[i + 1..];
        var send := Look();
        if send.None? {
          return true, changed, None;
        }
        MarkAll(rounds[i].marks);
        var differs := Settle(send.value, rounds[i].err);
        if rounds[i].err.Some? {
          return true, differs, rounds[i].err;
        }
        changed := changed || differs;
      }
      done := inFlight || (known && published == (warm != {}));
      return done, changed, None;
    }

    /** What other callers mark while a publish is in flight; they see it and return. */
    method MarkAll(marks: seq<(string, bool)>)
      modifies this
      ensures View() == MarkedAll(old(View()), marks)
    {
      assert marks[0..] == marks;
      for i := 0 to |marks|
        invariant MarkedAll(View(), marks[i..]) == MarkedAll(old(View()), marks)
      {
        assert marks[i..][0] == marks[i] && marks[i..][1..] == marks[i + 1..];
        Mark(marks[i].0, marks[i].1);
      }
    }
  }

  function MarkedAll(g: Gate, marks: seq<(string, bool)>): (r: Gate)
    decreases |marks|
  {
    if marks == [] then g else MarkedAll(Marked(g, marks[0].0, marks[0].1), marks[1..])
  }

  /** Where a caller's loop ends: the gate, whether it returned, and what it reports. */
  datatype Flushing = Flushing(g: Gate, done: bool, changed: bool, err: Option<string>)

  function Flushed(g: Gate, rounds: seq<Round>, changed: bool): (r: Flushing)
    decreases |rounds|
  {
    if g.inFlight || Settled(g) then Flushing(g, true, changed, None)
    else if rounds == [] then Flushing(g, false, changed, None)
    else
      var g1 := MarkedAll(g.(inFlight := true), rounds[0].marks);
      if rounds[0].err.Some? then
        Flushing(Failed(g1, rounds[0].err.value), true, rounds[0].err.value != g1.lastErr, rounds[0].err)
      else Flushed(Succeeded(g1, Want(g)), rounds[1..], changed || g1.lastErr != "")
  }

  lemma {:induction false} MarksOnlyWarm(g: Gate, marks: seq<(string, bool)>)
    ensures MarkedAll(g, marks) == g.(warm := MarkedAll(g, marks).warm, decided := MarkedAll(g, marks).decided)
    decreases |marks|
  {
    if marks != [] {
      MarksOnlyWarm(Marked(g, marks[0].0, marks[0].1), marks[1..]);
    }
  }

  /** A caller that published returns nil only with the bit settled, whatever was marked meanwhile. */
  lemma {:induction false} FlushSettles(g: Gate, rounds: seq<Round>, changed: bool)
    requires !g.inFlight
    ensures
      var r := Flushed(g, rounds, changed);
      !r.g.inFlight && (r.done && r.err.None? ==> Settled(r.g)) &&
      (r.err.Some? ==> r.done && r.g.lastErr == r.err.value) &&
      (!r.done ==> !Settled(r.g) && forall k :: 0 <= k < |rounds| ==> rounds[k].err.None?)
    decreases |rounds|
  {
    if !Settled(g) && rounds != [] {
      var g1 := MarkedAll(g.(inFlight := true), rounds[0].marks);
      MarksOnlyWarm(g.(inFlight := true), rounds[0].marks);
      if rounds[0].err.None? {
        FlushSettles(Succeeded(g1, Want(g)), rounds[1..], changed || g1.lastErr != "");
        assert forall k :: 1 <= k < |rounds| ==> rounds[k] == rounds[1..][k - 1];
      }
    }
  }

  /** After a success nothing is left to recover from, so a nil result reports what was known by then. */
  lemma {:induction false} NothingToRecover(g: Gate, rounds: seq<Round>, changed: bool)
    requires !g.inFlight && g.lastErr == ""
    ensures
      var r := Flushed(g, rounds, changed);
      if r.err.None? then r.changed == changed else r.changed == (r.err.value != "")
    decreases |rounds|
  {
    if !Settled(g) && rounds != [] {
      var g1 := MarkedAll(g.(inFlight := true), rounds[0].marks);
      MarksOnlyWarm(g.(inFlight := true), rounds[0].marks);
      if rounds[0].err.None? {
        NothingToRecover(Succeeded(g1, Want(g)), rounds[1..], changed);
      }
    }
  }

  /**
   `changed` is the change of outcome: with nil, that this call published after a failure; with an
   error, that it is not the last outcome's error, which a publish before it in the call cleared.
   */
  lemma FlushReportsChange(g: Gate, rounds: seq<Round>)
    requires !g.inFlight
    ensures
      var r := Flushed(g, rounds, false);
      if r.err.None? then r.changed == (g.lastErr != "" && !Settled(g) && rounds != [])
      else rounds != [] && r.changed == (r.err.value != if rounds[0].err.Some? then g.lastErr else "")
  {
    if !Settled(g) && rounds != [] {
      var g1 := MarkedAll(g.(inFlight := true), rounds[0].marks);
      MarksOnlyWarm(g.(inFlight := true), rounds[0].marks);
      if rounds[0].err.None? {
        NothingToRecover(Succeeded(g1, Want(g)), rounds[1..], g1.lastErr != "");
      }
    }
  }

  // ------------------------------------------------------------ every interleaving

  /** Where a caller is: at the top of the loop, publishing, published but not back, or returned. */
  datatype Phase = Top | Publishing(warm: set<string>) | Sent(warm: set<string>) | Returned

  /** One publish: the state it sends, when that was read, and when it came back. */
  datatype Publish = Publish(warm: set<string>, read: nat, ended: Option<nat>)

  /**
   `remote` is the control plane. The rest is history: whether the last publish failed, who is
   publishing, every publish so far, and the warm set at each past instant.
   */
  datatype State = State(
    g: Gate, callers: seq<Phase>, remote: Option<bool>,
    failed: bool, flyer: Option<nat>, log: seq<Publish>, past: seq<set<string>>)

  datatype Label =
    | PublishReady(uid: string, ready: bool)
    | Republish
    | Look(c: nat)
    | Send(c: nat)
    | Return(c: nat)
    | Fail(c: nat, err: string)

  predicate Enabled(s: State, a: Label) {
    match a
    case PublishReady(_, _) => true
    case Republish => s.g.decided
    case Look(c) => c < |s.callers| && s.callers[c].Top?
    case Send(c) => c < |s.callers| && s.callers[c].Publishing?
    case Return(c) => c < |s.callers| && s.callers[c].Sent?
    // A publish may fail before it reaches the control plane, or after.
    case Fail(c, _) => c < |s.callers| && (s.callers[c].Publishing? || s.callers[c].Sent?)
  }

  function Ended(log: seq<Publish>, at: nat): (r: seq<Publish>) {
    if log == [] then [] else log[|log| - 1 := log[|log| - 1].(ended := Some(at))]
  }

  function Do(s: State, a: Label): (t: State)
    requires Enabled(s, a)
  {
    match a
    case PublishReady(uid, ready) => s.(g := Marked(s.g, uid, ready), callers := s.callers + [Top])
    case Republish => s.(callers := s.callers + [Top])
    case Look(c) =>
      if s.g.inFlight || Settled(s.g) then s.(callers := s.callers[c := Returned])
      else s.(g := s.g.(inFlight := true), callers := s.callers[c := Publishing(s.g.warm)], flyer := Some(c),
              log := s.log + [Publish(s.g.warm, |s.past|, None)])
    case Send(c) => s.(remote := Some(s.callers[c].warm != {}), callers := s.callers[c := Sent(s.callers[c].warm)])
    case Return(c) =>
      s.(g := Succeeded(s.g, s.callers[c].warm != {}), callers := s.callers[c := Top],
         failed := false, flyer := None, log := Ended(s.log, |s.past|))
    case Fail(c, err) =>
      s.(g := Failed(s.g, err), callers := s.callers[c := Returned],
         failed := true, flyer := None, log := Ended(s.log, |s.past|))
  }

  /** A step, and the clock. */
  function Apply(s: State, a: Label): (t: State)
    requires Enabled(s, a)
  {
    Do(s, a).(past := s.past + [s.g.warm])
  }

  const START := State(Gate({}, false, false, false, false, ""), [], None, false, None, [], [])

  ghost predicate IsRun(s: State, labels: seq<Label>, t: State)
    decreases |labels|
  {
    if labels == [] then s == t else Enabled(s, labels[0]) && IsRun(Apply(s, labels[0]), labels[1..], t)
  }

  // ------------------------------------------------------------ the invariant

  predicate Flying(p: Phase) { p.Publishing? || p.Sent? }

  ghost predicate FlightInv(inFlight: bool, flyer: Option<nat>, callers: seq<Phase>) {
    inFlight == flyer.Some? && (flyer.Some? ==> flyer.value < |callers|) &&
    forall c: nat :: c < |callers| ==> (Flying(callers[c]) <==> flyer == Some(c))
  }

  ghost predicate LogInv(log: seq<Publish>, past: seq<set<string>>, open: bool) {
    (open ==> log != []) &&
    (forall i :: 0 <= i < |log| ==> (log[i].ended.None? <==> open && i == |log| - 1)) &&
    (forall i :: 0 <= i < |log| ==> log[i].read < |past| && past[log[i].read] == log[i].warm) &&
    (forall i :: 0 <= i < |log| && log[i].ended.Some? ==> log[i].read < log[i].ended.value < |past|) &&
    (forall i, j :: 0 <= i < j < |log| && log[i].ended.Some? ==> log[i].ended.value < log[j].read)
  }

  ghost predicate FlyerInv(flyer: Option<nat>, callers: seq<Phase>, log: seq<Publish>) {
    flyer.Some? && flyer.value < |callers| && Flying(callers[flyer.value]) && log != [] ==>
      log[|log| - 1].warm == callers[flyer.value].warm
  }

  /**
   A publish that reached the control plane and has not come back is what it holds. Otherwise it holds
   what the gate believes, unless the last publish failed.
   */
  ghost predicate RemoteInv(g: Gate, callers: seq<Phase>, flyer: Option<nat>, remote: Option<bool>, failed: bool) {
    if flyer.Some? && flyer.value < |callers| && callers[flyer.value].Sent?
    then remote == Some(callers[flyer.value].warm != {})
    else failed || remote == if g.known then Some(g.published) else None
  }

  ghost predicate Active(callers: seq<Phase>) {
    exists c :: 0 <= c < |callers| && !callers[c].Returned?
  }

  /** A state that still has to be sent has somebody at work on it, unless the last publish failed. */
  ghost predicate LiveInv(g: Gate, callers: seq<Phase>, failed: bool) {
    g.decided && !failed && !Settled(g) ==> Active(callers)
  }

  ghost predicate Inv(s: State) {
    FlightInv(s.g.inFlight, s.flyer, s.callers) && LogInv(s.log, s.past, s.flyer.Some?) &&
    FlyerInv(s.flyer, s.callers, s.log) && RemoteInv(s.g, s.callers, s.flyer, s.remote, s.failed) &&
    LiveInv(s.g, s.callers, s.failed)
  }

  lemma LogClockTicks(log: seq<Publish>, past: seq<set<string>>, open: bool, now: set<string>)
    requires LogInv(log, past, open)
    ensures LogInv(log, past + [now], open)
  {
  }

  lemma LogStarts(log: seq<Publish>, past: seq<set<string>>, now: set<string>)
    requires LogInv(log, past, false)
    ensures LogInv(log + [Publish(now, |past|, None)], past + [now], true)
  {
  }

  lemma LogEnds(log: seq<Publish>, past: seq<set<string>>, now: set<string>)
    requires LogInv(log, past, true)
    ensures LogInv(Ended(log, |past|), past + [now], false)
  {
  }

  lemma CallKeepsInv(s: State, a: Label)
    requires Inv(s) && Enabled(s, a) && (a.PublishReady? || a.Republish?)
    ensures Inv(Apply(s, a))
  {
    var t := Apply(s, a);
    LogClockTicks(s.log, s.past, s.flyer.Some?, s.g.warm);
    assert t.callers[|s.callers|].Top?;
    assert forall c :: 0 <= c < |s.callers| ==> t.callers[c] == s.callers[c];
  }

  lemma LookKeepsInv(s: State, c: nat)
    requires Inv(s) && Enabled(s, Look(c))
    ensures Inv(Apply(s, Look(c)))
  {
    var t := Apply(s, Look(c));
    if s.g.inFlight || Settled(s.g) {
      LogClockTicks(s.log, s.past, s.flyer.Some?, s.g.warm);
      if s.g.inFlight {
        assert !t.callers[s.flyer.value].Returned?;
      }
    } else {
      LogStarts(s.log, s.past, s.g.warm);
      assert !t.callers[c].Returned?;
    }
  }

  lemma SendKeepsInv(s: State, c: nat)
    requires Inv(s) && Enabled(s, Send(c))
    ensures Inv(Apply(s, Send(c)))
  {
    LogClockTicks(s.log, s.past, s.flyer.Some?, s.g.warm);
    assert s.flyer == Some(c);
    assert !Apply(s, Send(c)).callers[c].Returned?;
  }

  lemma BackKeepsInv(s: State, a: Label)
    requires Inv(s) && Enabled(s, a) && (a.Return? || a.Fail?)
    ensures Inv(Apply(s, a))
  {
    assert s.flyer == Some(a.c);
    LogEnds(s.log, s.past, s.g.warm);
    if a.Return? {
      assert !Apply(s, a).callers[a.c].Returned?;
    }
  }

  lemma StepKeepsInv(s: State, a: Label)
    requires Inv(s) && Enabled(s, a)
    ensures Inv(Apply(s, a))
  {
    match a
    case PublishReady(_, _) => CallKeepsInv(s, a);
    case Republish => CallKeepsInv(s, a);
    case Look(c) => LookKeepsInv(s, c);
    case Send(c) => SendKeepsInv(s, c);
    case Return(_) => BackKeepsInv(s, a);
    case Fail(_, _) => BackKeepsInv(s, a);
  }

  lemma {:induction false} RunKeepsInv(s: State, labels: seq<Label>, t: State)
    requires Inv(s) && IsRun(s, labels, t)
    ensures Inv(t)
    decreases |labels|
  {
    if labels != [] {
      StepKeepsInv(s, labels[0]);
      RunKeepsInv(Apply(s, labels[0]), labels[1..], t);
    }
  }

  // ------------------------------------------------------------ what every run gives

  /** What the run last said about a template: the latest mark of its uid, or cold. */
  function LastMark(labels: seq<Label>, uid: string): (ready: bool)
    decreases |labels|
  {
    if labels == [] then false else
    var l := labels[|labels| - 1];
    if l.PublishReady? && l.uid == uid then l.ready else LastMark(labels[..|labels| - 1], uid)
  }

  lemma {:induction false} RunSplits(s: State, labels: seq<Label>, t: State) returns (u: State)
    requires IsRun(s, labels, t) && labels != []
    ensures
      var n := |labels| - 1;
      IsRun(s, labels[..n], u) && Enabled(u, labels[n]) && t == Apply(u, labels[n])
    decreases |labels|
  {
    if |labels| == 1 {
      u := s;
      assert IsRun(Apply(s, labels[0]), labels[1..], t) && labels[1..] == [];
    } else {
      u := RunSplits(Apply(s, labels[0]), labels[1..], t);
      assert labels[..|labels| - 1][1..] == labels[1..][..|labels| - 2];
    }
  }

  /** The warm set of every run is the templates last marked warm. */
  lemma {:induction false} WarmIsLastMarked(labels: seq<Label>, s: State, uid: string)
    requires IsRun(START, labels, s)
    ensures uid in s.g.warm <==> LastMark(labels, uid)
    decreases |labels|
  {
    if labels != [] {
      var u := RunSplits(START, labels, s);
      WarmIsLastMarked(labels[..|labels| - 1], u, uid);
    }
  }

  /** At most one publish is in flight. */
  lemma OnePublishInFlight(labels: seq<Label>, s: State, b: nat, c: nat)
    requires IsRun(START, labels, s)
    requires b < |s.callers| && c < |s.callers| && Flying(s.callers[b]) && Flying(s.callers[c])
    ensures b == c && s.g.inFlight
  {
    RunKeepsInv(START, labels, s);
  }

  /** Publishes follow one another, and each sends the warm set as it was after the one before came back. */
  lemma PublishesInOrder(labels: seq<Label>, s: State, i: nat, j: nat)
    requires IsRun(START, labels, s) && i < j < |s.log|
    ensures s.log[i].ended.Some? && s.log[i].ended.value < s.log[j].read < |s.past|
    ensures s.log[j].warm == s.past[s.log[j].read]
  {
    RunKeepsInv(START, labels, s);
  }

  /** Once every call has returned and the last publish succeeded, everyone agrees on the bit. */
  lemma GateConverges(labels: seq<Label>, s: State)
    requires IsRun(START, labels, s) && s.g.decided && !s.failed
    requires forall c :: 0 <= c < |s.callers| ==> s.callers[c].Returned?
    ensures s.g.known && s.g.published == Want(s.g) && s.remote == Some(Want(s.g)) && !s.g.inFlight
  {
    RunKeepsInv(START, labels, s);
  }

  /** The rest of caller c's loop when its publish, if it sends one, goes through. */
  function Through(s: State, c: nat): (t: State)
    requires c < |s.callers| && s.callers[c].Top?
  {
    var u := Apply(s, Look(c));
    if u.callers[c].Returned? then u else Apply(Apply(u, Send(c)), Return(c))
  }

  /**
   A republish that goes through leaves gate and control plane agreed on the bit if and only if it
   has something to send, or they agreed already.
   */
  lemma RepublishRepairsExactly(s: State)
    requires Inv(s) && s.g.decided && !s.g.inFlight
    ensures
      var t := Through(Apply(s, Republish), |s.callers|);
      (Settled(t.g) && t.remote == Some(Want(s.g)) <==> !Settled(s.g) || s.remote == Some(Want(s.g))) &&
      (!Settled(s.g) ==> !t.failed && t.g.lastErr == "") &&
      (Settled(s.g) ==> t.g == s.g && t.remote == s.remote && t.failed == s.failed)
  {
  }

  /** While the gate is settled nobody sends: whatever the control plane holds, it keeps until a template is marked. */
  lemma {:induction false} NobodySendsWhileSettled(s: State, labels: seq<Label>, t: State)
    requires Inv(s) && !s.g.inFlight && Settled(s.g) && IsRun(s, labels, t)
    requires forall i :: 0 <= i < |labels| ==> !labels[i].PublishReady?
    ensures t.g == s.g && t.remote == s.remote && t.failed == s.failed
    decreases |labels|
  {
    if labels != [] {
      StepKeepsInv(s, labels[0]);
      assert labels[0].Republish? || labels[0].Look?;
      NobodySendsWhileSettled(Apply(s, labels[0]), labels[1..], t);
    }
  }

  lemma {:induction false} JoinRuns(s: State, l1: seq<Label>, t: State, l2: seq<Label>, u: State)
    requires IsRun(s, l1, t) && IsRun(t, l2, u)
    ensures IsRun(s, l1 + l2, u)
    decreases |l1|
  {
    if l1 == [] {
      assert l1 + l2 == l2;
    } else {
      JoinRuns(Apply(s, l1[0]), l1[1..], t, l2, u);
      assert (l1 + l2)[1..] == l1[1..] + l2;
    }
  }

  lemma OneStep(s: State, a: Label)
    requires Enabled(s, a)
    ensures IsRun(s, [a], Apply(s, a))
  {
    assert IsRun(Apply(s, a), [a][1..], Apply(s, a));
  }

  lemma Onward(labels: seq<Label>, s: State, a: Label) returns (longer: seq<Label>)
    requires IsRun(START, labels, s) && Enabled(s, a)
    ensures IsRun(START, longer, Apply(s, a))
  {
    longer := labels + [a];
    OneStep(s, a);
    JoinRuns(START, labels, s, [a], Apply(s, a));
  }

  lemma OneTemplateWarm() returns (labels: seq<Label>, s: State)
    ensures IsRun(START, labels, s) && s.callers == [Top] && s.remote == Some(true)
    ensures s.g == Gate({"a"}, true, true, true, false, "")
  {
    var s1 := Apply(START, PublishReady("a", true));
    labels := Onward([], START, PublishReady("a", true));
    var s2 := Apply(s1, Look(0));
    labels := Onward(labels, s1, Look(0));
    var s3 := Apply(s2, Send(0));
    labels := Onward(labels, s2, Send(0));
    s := Apply(s3, Return(0));
    labels := Onward(labels, s3, Return(0));
  }

  lemma LandedPublishFails() returns (labels: seq<Label>, s: State)
    ensures IsRun(START, labels, s) && s.callers == [Top, Returned] && s.remote == Some(false) && s.failed
    ensures s.g == Gate({}, true, true, true, false, "timeout")
  {
    var s0;
    labels, s0 := OneTemplateWarm();
    var s1 := Apply(s0, PublishReady("a", false));
    labels := Onward(labels, s0, PublishReady("a", false));
    var s2 := Apply(s1, Look(1));
    labels := Onward(labels, s1, Look(1));
    var s3 := Apply(s2, Send(1));
    labels := Onward(labels, s2, Send(1));
    s := Apply(s3, Fail(1, "timeout"));
    labels := Onward(labels, s3, Fail(1, "timeout"));
  }

  /**
   Why that condition: a publish lands and still reports an error, and the template becomes warm
   again. The gate believes the control plane holds what it held before, so nobody sends, while the
   control plane holds the opposite.
   */
  lemma LandedFailureSticks() returns (labels: seq<Label>, s: State)
    ensures IsRun(START, labels, s) && s.g.decided && !s.g.inFlight && Settled(s.g) && s.remote == Some(!Want(s.g))
    ensures forall c :: 0 <= c < |s.callers| ==> s.callers[c].Returned?
  {
    var s0;
    labels, s0 := LandedPublishFails();
    var s1 := Apply(s0, PublishReady("a", true));
    labels := Onward(labels, s0, PublishReady("a", true));
    var s2 := Apply(s1, Look(0));
    labels := Onward(labels, s1, Look(0));
    s := Apply(s2, Look(2));
    labels := Onward(labels, s2, Look(2));
  }
}
