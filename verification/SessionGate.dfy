/**
 The per-session gates: a map of reference-counted mutexes, filled and emptied under the
 ledger's lock while each mutex is taken and let go outside it. A gate is dropped from the map
 when its last user leaves, so two clones of one session could end up on two gates if the
 count were wrong. Each step below is one lock operation.
 */
module SessionGate {
  import opened Common

  /** Where a caller stands: queued on its gate, past it, or past it and about to drop its reference. */
  datatype Caller = Waiting(key: string, gate: nat) | Holding(key: string, gate: nat) | Leaving(key: string, gate: nat)

  /** `key` is history: the session the gate was made for. */
  datatype Gate = Gate(key: string, refs: int, holder: Option<nat>)

  /** `gates` holds every gate ever allocated; `perSession` names the ones in use. */
  datatype State = State(perSession: map<string, nat>, gates: seq<Gate>, callers: map<nat, Caller>)

  datatype Label = Enter(c: nat, key: string) | Take(c: nat) | Let(c: nat) | Drop(c: nat)

  const Empty: State := State(map[], [], map[])

  predicate InRange(s: State) {
    (forall k :: k in s.perSession ==> s.perSession[k] < |s.gates|) &&
    (forall c :: c in s.callers ==> s.callers[c].gate < |s.gates|)
  }

  predicate Enabled(s: State, a: Label) {
    InRange(s) &&
    match a
    case Enter(c, _) => c !in s.callers
    case Take(c) => c in s.callers && s.callers[c].Waiting? && s.gates[s.callers[c].gate].holder.None?
    case Let(c) => c in s.callers && s.callers[c].Holding?
    case Drop(c) => c in s.callers && s.callers[c].Leaving?
  }

  function EnterStep(s: State, c: nat, key: string): (r: State)
    requires InRange(s)
  {
    if key in s.perSession then
      var g := s.perSession[key];
      State(s.perSession, s.gates[g := s.gates[g].(refs := s.gates[g].refs + 1)], s.callers[c := Waiting(key, g)])
    else
      State(s.perSession[key := |s.gates|], s.gates + [Gate(key, 1, None)], s.callers[c := Waiting(key, |s.gates|)])
  }

  function DropStep(s: State, c: nat): (r: State)
    requires Enabled(s, Drop(c))
  {
    var key, g := s.callers[c].key, s.callers[c].gate;
    var refs := s.gates[g].refs - 1;
    State(if refs == 0 then s.perSession - {key} else s.perSession,
          s.gates[g := s.gates[g].(refs := refs)], s.callers - {c})
  }

  function Apply(s: State, a: Label): (r: State)
    requires Enabled(s, a)
  {
    match a
    case Enter(c, key) => EnterStep(s, c, key)
    case Take(c) =>
      var w := s.callers[c];
      s.(gates := s.gates[w.gate := s.gates[w.gate].(holder := Some(c))],
         callers := s.callers[c := Holding(w.key, w.gate)])
    case Let(c) =>
      var w := s.callers[c];
      s.(gates := s.gates[w.gate := s.gates[w.gate].(holder := None)],
         callers := s.callers[c := Leaving(w.key, w.gate)])
    case Drop(c) => DropStep(s, c)
  }

  ghost function Users(s: State, g: nat): (r: set<nat>) {
    set c | c in s.callers && s.callers[c].gate == g
  }

  /** Every caller is on the gate its key has in the map, and a gate serves one key. */
  ghost predicate OnTheMap(s: State) {
    (forall c :: c in s.callers ==>
       s.callers[c].key in s.perSession && s.perSession[s.callers[c].key] == s.callers[c].gate) &&
    (forall k :: k in s.perSession ==> s.perSession[k] < |s.gates| && s.gates[s.perSession[k]].key == k)
  }

  ghost predicate RefsCount(s: State) {
    forall g :: 0 <= g < |s.gates| ==> s.gates[g].refs == |Users(s, g)|
  }

  /** A gate's mutex is held by exactly the caller that is past it. */
  ghost predicate HolderHolds(s: State) {
    (forall c :: c in s.callers && s.callers[c].Holding? ==>
       s.callers[c].gate < |s.gates| && s.gates[s.callers[c].gate].holder == Some(c)) &&
    (forall g :: 0 <= g < |s.gates| && s.gates[g].holder.Some? ==>
       s.gates[g].holder.value in s.callers &&
       s.callers[s.gates[g].holder.value] == Holding(s.callers[s.gates[g].holder.value].key, g))
  }

  /** The map names no gate without a user. */
  ghost predicate NoIdleGate(s: State) {
    forall k :: k in s.perSession ==> s.perSession[k] < |s.gates| && s.gates[s.perSession[k]].refs > 0
  }

  ghost predicate Inv(s: State) {
    InRange(s) && OnTheMap(s) && RefsCount(s) && HolderHolds(s) && NoIdleGate(s)
  }

  lemma UsersWith(s: State, t: State, c: nat, mine: nat, g: nat)
    requires c !in s.callers && c in t.callers && t.callers == s.callers[c := t.callers[c]] && t.callers[c].gate == mine
    ensures |Users(t, g)| == |Users(s, g)| + (if g == mine then 1 else 0)
  {
    if g == mine {
      assert Users(t, g) == Users(s, g) + {c};
    } else {
      assert Users(t, g) == Users(s, g);
    }
  }

  lemma UsersWithout(s: State, t: State, c: nat, g: nat)
    requires c in s.callers && t.callers == s.callers - {c}
    ensures |Users(t, g)| == |Users(s, g)| - (if g == s.callers[c].gate then 1 else 0)
  {
    if g == s.callers[c].gate {
      SizeWithout(Users(s, g), c);
      assert Users(t, g) == Users(s, g) - {c};
    } else {
      assert Users(t, g) == Users(s, g);
    }
  }

  lemma SameUsers(s: State, t: State, c: nat, g: nat)
    requires c in s.callers && c in t.callers && t.callers == s.callers[c := t.callers[c]]
    requires s.callers[c].gate == t.callers[c].gate
    ensures Users(t, g) == Users(s, g)
  {
  }

  lemma EnterCounts(s: State, c: nat, key: string)
    requires InRange(s) && RefsCount(s) && c !in s.callers
    ensures RefsCount(EnterStep(s, c, key))
  {
    var t := EnterStep(s, c, key);
    assert Users(s, |s.gates|) == {};
    forall g | 0 <= g < |t.gates|
      ensures t.gates[g].refs == |Users(t, g)|
    {
      UsersWith(s, t, c, t.callers[c].gate, g);
    }
  }

  lemma EnterKeepsInv(s: State, c: nat, key: string)
    requires Inv(s) && c !in s.callers
    ensures Inv(EnterStep(s, c, key))
  {
    EnterCounts(s, c, key);
    EnterKeepsMap(s, c, key);
    EnterKeepsHolders(s, c, key);
    EnterKeepsBusy(s, c, key);
  }

  lemma EnterKeepsBusy(s: State, c: nat, key: string)
    requires InRange(s) && NoIdleGate(s)
    ensures NoIdleGate(EnterStep(s, c, key))
  {
  }

  lemma EnterKeepsMap(s: State, c: nat, key: string)
    requires InRange(s) && OnTheMap(s) && c !in s.callers
    ensures InRange(EnterStep(s, c, key)) && OnTheMap(EnterStep(s, c, key))
  {
  }

  lemma EnterKeepsHolders(s: State, c: nat, key: string)
    requires InRange(s) && HolderHolds(s) && c !in s.callers
    ensures HolderHolds(EnterStep(s, c, key))
  {
  }

  lemma MoveCounts(s: State, a: Label)
    requires RefsCount(s) && Enabled(s, a) && (a.Take? || a.Let?)
    ensures RefsCount(Apply(s, a))
  {
    var t := Apply(s, a);
    forall g | 0 <= g < |t.gates|
      ensures t.gates[g].refs == |Users(t, g)|
    {
      SameUsers(s, t, a.c, g);
    }
  }

  lemma MoveKeepsHolders(s: State, a: Label)
    requires HolderHolds(s) && Enabled(s, a) && (a.Take? || a.Let?)
    ensures HolderHolds(Apply(s, a))
  {
  }

  /** A caller that moves past its gate or off it keeps its key and its gate. */
  lemma MoveKeepsMap(s: State, a: Label)
    requires OnTheMap(s) && NoIdleGate(s) && Enabled(s, a) && (a.Take? || a.Let?)
    ensures InRange(Apply(s, a)) && OnTheMap(Apply(s, a)) && NoIdleGate(Apply(s, a))
  {
  }

  lemma MoveKeepsInv(s: State, a: Label)
    requires Inv(s) && Enabled(s, a) && (a.Take? || a.Let?)
    ensures Inv(Apply(s, a))
  {
    MoveCounts(s, a);
    MoveKeepsHolders(s, a);
    MoveKeepsMap(s, a);
  }

  lemma DropCounts(s: State, c: nat)
    requires InRange(s) && RefsCount(s) && Enabled(s, Drop(c))
    ensures RefsCount(DropStep(s, c))
    ensures s.gates[s.callers[c].gate].refs >= 1
    ensures s.gates[s.callers[c].gate].refs == 1 ==> Users(s, s.callers[c].gate) == {c}
  {
    var t := DropStep(s, c);
    var mine := s.callers[c].gate;
    assert c in Users(s, mine);
    forall g | 0 <= g < |t.gates|
      ensures t.gates[g].refs == |Users(t, g)|
    {
      UsersWithout(s, t, c, g);
    }
    SizeWithout(Users(s, mine), c);
    if |Users(s, mine)| == 1 {
      assert Users(s, mine) - {c} == {};
    }
  }

  lemma DropKeepsMap(s: State, c: nat)
    requires InRange(s) && OnTheMap(s) && Enabled(s, Drop(c))
    requires s.gates[s.callers[c].gate].refs == 1 ==> Users(s, s.callers[c].gate) == {c}
    ensures InRange(DropStep(s, c)) && OnTheMap(DropStep(s, c))
  {
    var t := DropStep(s, c);
    forall o | o in t.callers
      ensures t.callers[o].key in t.perSession
    {
      if t.callers[o].key == s.callers[c].key { assert o in Users(s, s.callers[c].gate); }
    }
  }

  lemma DropKeepsRest(s: State, c: nat)
    requires InRange(s) && OnTheMap(s) && HolderHolds(s) && NoIdleGate(s) && Enabled(s, Drop(c))
    requires s.gates[s.callers[c].gate].refs >= 1
    ensures HolderHolds(DropStep(s, c)) && NoIdleGate(DropStep(s, c))
  {
  }

  lemma DropKeepsInv(s: State, c: nat)
    requires Inv(s) && Enabled(s, Drop(c))
    ensures Inv(DropStep(s, c))
  {
    DropCounts(s, c);
    DropKeepsMap(s, c);
    DropKeepsRest(s, c);
  }

  lemma StepKeepsInv(s: State, a: Label)
    requires Inv(s) && Enabled(s, a)
    ensures Inv(Apply(s, a))
  {
    match a
    case Enter(c, key) => EnterKeepsInv(s, c, key);
    case Take(_) => MoveKeepsInv(s, a);
    case Let(_) => MoveKeepsInv(s, a);
    case Drop(c) => DropKeepsInv(s, c);
  }

  ghost predicate IsRun(run: seq<State>, labels: seq<Label>) {
    |run| == |labels| + 1 && run[0] == Empty &&
    forall i :: 0 <= i < |labels| ==> Enabled(run[i], labels[i]) && run[i + 1] == Apply(run[i], labels[i])
  }

  lemma {:induction false} RunKeepsInv(run: seq<State>, labels: seq<Label>, i: nat)
    requires IsRun(run, labels) && i < |run|
    ensures Inv(run[i])
  {
    if i > 0 {
      RunKeepsInv(run, labels, i - 1);
      StepKeepsInv(run[i - 1], labels[i - 1]);
    }
  }

  /**
   In every state of every run no two callers are past the gate of one session, and the map
   names exactly the sessions some caller is using.
   */
  lemma GateIsExclusive(run: seq<State>, labels: seq<Label>, i: nat)
    requires IsRun(run, labels) && i < |run|
    ensures forall c, c' :: Past(run[i], c) && Past(run[i], c') && run[i].callers[c].key == run[i].callers[c'].key ==>
      c == c'
    ensures run[i].perSession.Keys == set c | c in run[i].callers :: run[i].callers[c].key
  {
    RunKeepsInv(run, labels, i);
    var s := run[i];
    forall k | k in s.perSession
      ensures exists c :: c in s.callers && s.callers[c].key == k
    {
      assert |Users(s, s.perSession[k])| > 0;
      var c :| c in Users(s, s.perSession[k]);
      assert c in s.callers && s.callers[c].key == k;
    }
  }

  predicate Past(s: State, c: nat) { c in s.callers && s.callers[c].Holding? }

  /** What callers may rely on: which session is taken, by whom. */
  ghost function Taken(s: State): (r: map<string, nat>)
    requires InRange(s)
  {
    map k | k in s.perSession && s.gates[s.perSession[k]].holder.Some? :: s.gates[s.perSession[k]].holder.value
  }

  lemma TakeClaims(s: State, c: nat)
    requires OnTheMap(s) && Enabled(s, Take(c))
    ensures InRange(Apply(s, Take(c))) && s.callers[c].key !in Taken(s)
    ensures Taken(Apply(s, Take(c))) == Taken(s)[s.callers[c].key := c]
  {
  }

  lemma LetFrees(s: State, c: nat)
    requires OnTheMap(s) && HolderHolds(s) && Enabled(s, Let(c))
    ensures InRange(Apply(s, Let(c))) && s.callers[c].key in Taken(s) && Taken(s)[s.callers[c].key] == c
    ensures Taken(Apply(s, Let(c))) == Taken(s) - {s.callers[c].key}
  {
  }

  lemma EnterIsSilent(s: State, c: nat, key: string)
    requires InRange(s) && c !in s.callers
    ensures InRange(EnterStep(s, c, key)) && Taken(EnterStep(s, c, key)) == Taken(s)
  {
  }

  lemma DropIsSilent(s: State, c: nat)
    requires InRange(s) && OnTheMap(s) && HolderHolds(s) && Enabled(s, Drop(c))
    requires s.gates[s.callers[c].gate].refs == 1 ==> Users(s, s.callers[c].gate) == {c}
    ensures InRange(DropStep(s, c)) && Taken(DropStep(s, c)) == Taken(s)
  {
    var g := s.callers[c].gate;
    if s.gates[g].holder.Some? {
      assert s.gates[g].holder.value in Users(s, g);
    }
  }

  /** The gates refine a plain lock table: a take claims a free session, a let frees it, the rest is silent. */
  lemma GatesRefineLockTable(s: State, a: Label)
    requires Inv(s) && Enabled(s, a)
    ensures InRange(Apply(s, a))
    ensures
      match a
      case Take(c) => s.callers[c].key !in Taken(s) && Taken(Apply(s, a)) == Taken(s)[s.callers[c].key := c]
      case Let(c) =>
        s.callers[c].key in Taken(s) && Taken(s)[s.callers[c].key] == c &&
        Taken(Apply(s, a)) == Taken(s) - {s.callers[c].key}
      case _ => Taken(Apply(s, a)) == Taken(s)
  {
    match a
    case Take(c) => TakeClaims(s, c);
    case Let(c) => LetFrees(s, c);
    case Enter(c, key) => EnterIsSilent(s, c, key);
    case Drop(c) =>
      DropCounts(s, c);
      DropIsSilent(s, c);
  }
}
