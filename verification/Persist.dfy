/**
 Persisting the ledger's snapshot. Concurrent calls share writes: a call that is already covered
 by a finished write returns its result. The machine interleaves any number of calls with changes
 of the ledger; `Store.Persist` is one call run against everything the others may do.
 */
module Persists {
  import opened Common

  // ------------------------------------------------------------ the machine

  /** A call: when it began, and once it has returned, which write it answers for and how that went. */
  datatype Caller = Caller(began: nat, result: Option<(nat, bool)>)

  /** Who holds the mutex to write, when the ledger was captured, and whether the file was replaced. */
  datatype Hold = Hold(c: nat, captured: Option<nat>, landed: bool)

  /** A finished write: when its capture was taken, and whether it reported success. */
  datatype Write = Write(at: nat, ok: bool)

  /**
   `past` has the ledger at each past instant. `file` is the instant whose ledger the file holds.
   The ticket of caller c is c + 1, so the tickets given out are the callers.
   */
  datatype State = State(
    ledger: int, past: seq<int>, callers: seq<Caller>, covered: nat, lastOk: bool,
    holder: Option<Hold>, file: Option<nat>, log: seq<Write>)

  datatype Label =
    | Change(ledger: int)
    | Call
    | Enter(c: nat)
    | Capture(c: nat)
    | Land(c: nat)
    | Finish(c: nat, ok: bool)

  predicate Holds(s: State, c: nat) { s.holder.Some? && s.holder.value.c == c }

  predicate Enabled(s: State, a: Label) {
    match a
    case Change(_) => true
    case Call => true
    case Enter(c) => c < |s.callers| && s.callers[c].result.None? && s.holder.None?
    case Capture(c) => Holds(s, c) && s.holder.value.captured.None?
    case Land(c) => Holds(s, c) && s.holder.value.captured.Some?
    // A write that succeeds has replaced the file; one that fails may have.
    case Finish(c, ok) => Holds(s, c) && s.holder.value.captured.Some? && (ok ==> s.holder.value.landed)
  }

  function Answered(callers: seq<Caller>, c: nat, w: nat, ok: bool): (r: seq<Caller>) {
    if c < |callers| then callers[c := callers[c].(result := Some((w, ok)))] else callers
  }

  function Do(s: State, a: Label): (t: State)
    requires Enabled(s, a)
  {
    match a
    case Change(ledger) => s.(ledger := ledger)
    case Call => s.(callers := s.callers + [Caller(|s.past|, None)])
    case Enter(c) =>
      if s.covered >= c + 1 then s.(callers := Answered(s.callers, c, if s.log == [] then 0 else |s.log| - 1, s.lastOk))
      else s.(covered := |s.callers|, holder := Some(Hold(c, None, false)))
    case Capture(c) => s.(holder := Some(s.holder.value.(captured := Some(|s.past|))))
    case Land(c) => s.(holder := Some(s.holder.value.(landed := true)), file := s.holder.value.captured)
    case Finish(c, ok) =>
      s.(holder := None, lastOk := ok, log := s.log + [Write(s.holder.value.captured.value, ok)],
         callers := Answered(s.callers, c, |s.log|, ok))
  }

  function Apply(s: State, a: Label): (t: State)
    requires Enabled(s, a)
  {
    Do(s, a).(past := s.past + [s.ledger])
  }

  ghost predicate IsRun(s: State, labels: seq<Label>, t: State)
    decreases |labels|
  {
    if labels == [] then s == t else Enabled(s, labels[0]) && IsRun(Apply(s, labels[0]), labels[1..], t)
  }

  ghost predicate IsStart(s: State) {
    s.past == [] && s.callers == [] && s.covered == 0 && s.holder == None && s.file == None && s.log == []
  }

  // ------------------------------------------------------------ the invariant

  /** Callers up to `covered` began before `at`. */
  ghost predicate Before(callers: seq<Caller>, covered: nat, at: nat) {
    forall i :: 0 <= i < |callers| && i < covered ==> callers[i].began < at
  }

  ghost predicate CallersInv(callers: seq<Caller>, covered: nat, now: nat) {
    covered <= |callers| && Before(callers, |callers|, now)
  }

  ghost predicate HoldInv(holder: Option<Hold>, callers: seq<Caller>, covered: nat, file: Option<nat>, log: seq<Write>,
                          now: nat) {
    holder.Some? ==>
      holder.value.c < covered &&
      (holder.value.landed ==> holder.value.captured.Some? && file == holder.value.captured) &&
      (holder.value.captured.Some? ==>
         Before(callers, covered, holder.value.captured.value) && holder.value.captured.value < now &&
         (file.Some? ==> file.value <= holder.value.captured.value))
  }

  /** A write that succeeded is still in the file, or a later one is. */
  ghost predicate FileInv(file: Option<nat>, log: seq<Write>, now: nat) {
    (file.Some? ==> file.value < now) &&
    forall w :: 0 <= w < |log| && log[w].ok ==> file.Some? && log[w].at <= file.value
  }

  /** The last finished write covers every ticket it says it does. */
  ghost predicate CoverInv(holder: Option<Hold>, callers: seq<Caller>, covered: nat, lastOk: bool, log: seq<Write>) {
    holder.None? && covered > 0 ==>
      log != [] && log[|log| - 1].ok == lastOk && Before(callers, covered, log[|log| - 1].at)
  }

  ghost predicate Answers(k: Caller, log: seq<Write>) {
    k.result.Some? ==>
      k.result.value.0 < |log| && log[k.result.value.0].ok == k.result.value.1 && k.began < log[k.result.value.0].at
  }

  ghost predicate ResultsInv(callers: seq<Caller>, log: seq<Write>) {
    forall i :: 0 <= i < |callers| ==> Answers(callers[i], log)
  }

  ghost predicate Inv(s: State) {
    CallersInv(s.callers, s.covered, |s.past|) && HoldInv(s.holder, s.callers, s.covered, s.file, s.log, |s.past|) &&
    FileInv(s.file, s.log, |s.past|) && CoverInv(s.holder, s.callers, s.covered, s.lastOk, s.log) &&
    ResultsInv(s.callers, s.log)
  }

  lemma StepKeepsInv(s: State, a: Label)
    requires Inv(s) && Enabled(s, a)
    ensures Inv(Apply(s, a))
  {
    match a
    case Change(_) =>
    case Call =>
    case Enter(c) =>
    case Capture(c) =>
    case Land(c) =>
    case Finish(c, ok) => FinishKeepsInv(s, c, ok);
  }

  lemma FinishKeepsInv(s: State, c: nat, ok: bool)
    requires Inv(s) && Enabled(s, Finish(c, ok))
    ensures Inv(Apply(s, Finish(c, ok)))
  {
    var t := Apply(s, Finish(c, ok));
    assert t.log[|s.log|] == Write(s.holder.value.captured.value, ok);
    assert s.callers[c].began < s.holder.value.captured.value;
    assert forall w :: 0 <= w < |s.log| ==> t.log[w] == s.log[w];
    forall i | 0 <= i < |t.callers|
      ensures Answers(t.callers[i], t.log)
    {
      assert Answers(s.callers[i], s.log);
    }
  }

  lemma StepKeepsFile(s: State, a: Label)
    requires Inv(s) && Enabled(s, a) && s.file.Some?
    ensures Apply(s, a).file.Some? && s.file.value <= Apply(s, a).file.value
  {
  }

  lemma {:induction false} RunKeepsInv(s: State, labels: seq<Label>, t: State)
    requires Inv(s) && IsRun(s, labels, t)
    ensures Inv(t)
    decreases |labels|
  {
    if labels != [] {
      StepKeepsInv(s, labels[0]);
      RunKeepsInv(Apply(s, labels[0]), labels[1..], t);
    }
  }

  // ------------------------------------------------------------ what every run gives

  /** A call that returned nil left in the file a capture of the ledger taken after the call began. */
  lemma PersistIsSound(s: State, labels: seq<Label>, t: State, c: nat)
    requires IsStart(s) && IsRun(s, labels, t) && c < |t.callers|
    requires t.callers[c].result.Some? && t.callers[c].result.value.1
    ensures t.file.Some? && t.callers[c].began < t.file.value < |t.past|
  {
    RunKeepsInv(s, labels, t);
    assert Answers(t.callers[c], t.log);
  }

  /** Whatever it returned, a call answers for a write whose capture came after it began. */
  lemma ResultIsItsOwn(s: State, labels: seq<Label>, t: State, c: nat)
    requires IsStart(s) && IsRun(s, labels, t) && c < |t.callers| && t.callers[c].result.Some?
    ensures
      var r := t.callers[c].result.value;
      r.0 < |t.log| && t.log[r.0].ok == r.1 && t.callers[c].began < t.log[r.0].at
  {
    RunKeepsInv(s, labels, t);
    assert Answers(t.callers[c], t.log);
  }

  /** The file never goes back to an older capture. */
  lemma {:induction false} FileNeverGoesBack(s: State, labels: seq<Label>, t: State)
    requires Inv(s) && IsRun(s, labels, t) && s.file.Some?
    ensures t.file.Some? && s.file.value <= t.file.value
    decreases |labels|
  {
    if labels != [] {
      StepKeepsFile(s, labels[0]);
      StepKeepsInv(s, labels[0]);
      FileNeverGoesBack(Apply(s, labels[0]), labels[1..], t);
    }
  }

  // ------------------------------------------------------------ one call among the others

  /** What the others did left caller c where it was, and kept the mutex from changing hands if c holds it. */
  ghost predicate Beside(s: State, t: State, c: nat) {
    c < |s.callers| <= |t.callers| && s.callers[c] == t.callers[c] && |s.past| <= |t.past| &&
    Holds(t, c) == Holds(s, c) && (Holds(s, c) ==> t.holder == s.holder && t.file == s.file && t.covered == s.covered)
  }

  predicate Own(a: Label, c: nat) { !a.Change? && !a.Call? && a.c == c }

  lemma {:induction false} OthersStayBeside(s: State, labels: seq<Label>, t: State, c: nat)
    requires Inv(s) && IsRun(s, labels, t) && c < |s.callers| && forall i :: 0 <= i < |labels| ==> !Own(labels[i], c)
    ensures Inv(t) && Beside(s, t, c)
    decreases |labels|
  {
    if labels != [] {
      var a := labels[0];
      StepKeepsInv(s, a);
      assert Beside(s, Apply(s, a), c);
      OthersStayBeside(Apply(s, a), labels[1..], t, c);
    }
  }

  class Store {
    var asked: nat
    var covered: nat
    var lastOk: bool
    var held: bool
    ghost var st: State

    ghost predicate Valid()
      reads this
    {
      Inv(st) && asked == |st.callers| && covered == st.covered && lastOk == st.lastOk && held == st.holder.Some?
    }

    /** Anything the others may do, and no step of caller c: see OthersStayBeside. */
    method Others(ghost c: nat)
      requires Valid() && c < |st.callers|
      modifies this
      ensures Valid() && Beside(old(st), st, c)
    {
      if * {
        asked := asked + 1;
        StepKeepsInv(st, Call);
        st := Apply(st, Call);
      } else {
        ghost var v := *;
        StepKeepsInv(st, Change(v));
        st := Apply(st, Change(v));
      }
    }

    /** Waits for the mutex; whoever has it finishes first. */
    method Acquire(ghost c: nat)
      requires Valid() && c < |st.callers| && !Holds(st, c)
      modifies this
      ensures Valid() && !held && Beside(old(st), st, c)
    {
      if held {
        ghost var h := st.holder.value.c;
        if st.holder.value.captured.None? {
          StepKeepsInv(st, Capture(h));
          st := Apply(st, Capture(h));
        }
        StepKeepsInv(st, Finish(h, false));
        st := Apply(st, Finish(h, false));
        held, lastOk := false, false;
      }
    }

    /** `write`: replaces the file or not, and says whether it went well. */
    method WriteFile(ghost c: nat) returns (ok: bool)
      requires Valid() && Holds(st, c) && st.holder.value.captured.Some?
      modifies this
      ensures Valid() && Holds(st, c) && st.holder.value.captured == old(st.holder.value.captured)
      ensures ok ==> st.holder.value.landed
      ensures c < |st.callers| && st.callers[c] == old(st.callers[c])
    {
      var landed: bool := *;
      ok := *;
      if landed {
        StepKeepsInv(st, Land(c));
        st := Apply(st, Land(c));
      }
      ok := ok && landed;
    }

    /** `Persist`: takes a ticket, waits for the mutex, and writes unless a write since then covers it. */
    method Persist() returns (ok: bool, ghost c: nat)
      requires Valid()
      modifies this
      ensures Valid() && c < |st.callers| && st.callers[c].began == |old(st.past)|
      ensures st.callers[c].result.Some? && st.callers[c].result.value.1 == ok
      ensures ok ==> st.file.Some? && |old(st.past)| < st.file.value
    {
      asked := asked + 1;
      var n := asked;
      c := |st.callers|;
      StepKeepsInv(st, Call);
      st := Apply(st, Call);
      Others(c);
      Acquire(c);
      ghost var enter := Enter(c);
      StepKeepsInv(st, enter);
      if covered >= n {
        ok := lastOk;
        st := Apply(st, enter);
      } else {
        covered := asked;
        held := true;
        st := Apply(st, enter);
        ok := WriteHeld(c);
      }
      assert Answers(st.callers[c], st.log);
    }

    /** The write itself, the mutex held: capture, write, note the result. */
    method WriteHeld(ghost c: nat) returns (ok: bool)
      requires Valid() && Holds(st, c) && st.holder.value.captured.None? && st.callers[c].result.None?
      modifies this
      ensures Valid() && c < |st.callers| && st.callers[c].began == old(st.callers[c].began)
      ensures st.callers[c].result.Some? && st.callers[c].result.value.1 == ok
    {
      Others(c);
      StepKeepsInv(st, Capture(c));
      st := Apply(st, Capture(c));
      Others(c);
      ok := WriteFile(c);
      lastOk, held := ok, false;
      StepKeepsInv(st, Finish(c, ok));
      st := Apply(st, Finish(c, ok));
    }
  }
}
