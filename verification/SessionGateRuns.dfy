/** Acquiring and releasing a session's gate as they run, against anything other callers may do. */
module SessionGateRuns {
  import opened Common
  import opened SessionGate

  ghost predicate EndsIn(run: seq<State>, labels: seq<Label>, s: State) {
    IsRun(run, labels) && run[|labels|] == s
  }

  /** Some interleaving of callers leads to s. */
  ghost predicate Reachable(s: State) { exists run, labels :: EndsIn(run, labels, s) }

  lemma ReachableInv(s: State)
    requires Reachable(s)
    ensures Inv(s)
  {
    var run, labels :| EndsIn(run, labels, s);
    RunKeepsInv(run, labels, |labels|);
  }

  lemma EmptyIsReachable()
    ensures Reachable(Empty)
  {
    assert EndsIn([Empty], [], Empty);
  }

  lemma StepReaches(s: State, a: Label)
    requires Reachable(s) && Enabled(s, a)
    ensures Reachable(Apply(s, a))
  {
    var run, labels :| EndsIn(run, labels, s);
    var r, l := run + [Apply(s, a)], labels + [a];
    forall i | 0 <= i < |l|
      ensures Enabled(r[i], l[i]) && r[i + 1] == Apply(r[i], l[i])
    {
      if i < |labels| {
        assert r[i] == run[i] && r[i + 1] == run[i + 1] && l[i] == labels[i];
      }
    }
    assert EndsIn(r, l, Apply(s, a));
  }

  /**
   What a caller needs of a reachable state: its gate exists and is the one in the map, and who
   holds it is past it.
   */
  lemma GateOf(s: State, c: nat)
    requires Reachable(s) && c in s.callers
    ensures InRange(s) && s.callers[c].gate < |s.gates|
    ensures s.callers[c].key in s.perSession && s.perSession[s.callers[c].key] == s.callers[c].gate
    ensures s.gates[s.callers[c].gate].holder.Some? ==>
              var h := s.gates[s.callers[c].gate].holder.value;
              h in s.callers && s.callers[h] == Holding(s.callers[h].key, s.callers[c].gate)
  {
    ReachableInv(s);
  }

  lemma MapInRange(s: State)
    requires Reachable(s)
    ensures InRange(s)
  {
    ReachableInv(s);
  }

  lemma OnePast(s: State, c: nat)
    requires Reachable(s) && Past(s, c)
    ensures forall o :: Past(s, o) && s.callers[o].key == s.callers[c].key ==> o == c
  {
    ReachableInv(s);
  }

  /** Any steps of other callers leave caller c where it stood. */
  lemma {:induction false} OthersLeaveMe(s: State, labels: seq<Label>, t: State, c: nat)
    requires RunOfOthers(s, labels, t, c) && Reachable(s) && c in s.callers
    ensures Reachable(t) && c in t.callers && t.callers[c] == s.callers[c]
    decreases |labels|
  {
    if labels != [] {
      StepReaches(s, labels[0]);
      OthersLeaveMe(Apply(s, labels[0]), labels[1..], t, c);
    }
  }

  ghost predicate RunOfOthers(s: State, labels: seq<Label>, t: State, c: nat)
    decreases |labels|
  {
    if labels == [] then s == t
    else Enabled(s, labels[0]) && labels[0].c != c && RunOfOthers(Apply(s, labels[0]), labels[1..], t, c)
  }

  class Gates {
    var perSession: map<string, nat>
    /** Gates ever allocated; a gate is its index. */
    var gates: seq<Gate>
    ghost var st: State

    ghost predicate Valid()
      reads this
    {
      Reachable(st) && InRange(st) && perSession == st.perSession && gates == st.gates
    }

    constructor ()
      ensures Valid() && st == Empty
    {
      perSession, gates, st := map[], [], Empty;
      EmptyIsReachable();
    }

    ghost method Step(a: Label)
      requires Reachable(st) && Enabled(st, a)
      modifies this`st
      ensures Reachable(st) && InRange(st) && st == Apply(old(st), a)
    {
      StepReaches(st, a);
      st := Apply(st, a);
      MapInRange(st);
    }

    /** Anything the others may do: see OthersLeaveMe. */
    method Others(ghost c: nat)
      requires Valid() && c in st.callers
      modifies this
      ensures Valid() && c in st.callers && st.callers[c] == old(st.callers[c])
    {
    }

    /** The first half of `acquireSession`, under the ledger's lock: find or make the gate, count in. */
    method Enter(key: string, ghost c: nat) returns (g: nat)
      requires Valid() && c !in st.callers
      modifies this
      ensures Valid() && st == Apply(old(st), Label.Enter(c, key)) && st.callers[c] == Waiting(key, g)
    {
      MapInRange(st);
      if key !in perSession {
        g := |gates|;
        perSession := perSession[key := g];
        gates := gates + [Gate(key, 1, None)];
      } else {
        g := perSession[key];
        gates := gates[g := gates[g].(refs := gates[g].refs + 1)];
      }
      Step(Label.Enter(c, key));
    }

    method Unlock(g: nat, ghost c: nat)
      requires Valid() && c in st.callers && st.callers[c].Holding? && st.callers[c].gate == g
      modifies this
      ensures Valid() && st == Apply(old(st), Let(c))
    {
      GateOf(st, c);
      gates := gates[g := gates[g].(holder := None)];
      Step(Let(c));
    }

    /** The gate's mutex: whoever holds it lets go first. */
    method Lock(g: nat, id: nat)
      requires Valid() && id in st.callers && st.callers[id].Waiting? && st.callers[id].gate == g
      modifies this
      ensures Valid() && id in st.callers && st.callers[id] == Holding(old(st.callers[id].key), g)
    {
      Others(id);
      GateOf(st, id);
      if gates[g].holder.Some? {
        Unlock(g, gates[g].holder.value);
      }
      GateOf(st, id);
      gates := gates[g := gates[g].(holder := Some(id))];
      Step(Take(id));
    }

    /** `acquireSession`: when it returns no other caller is past the session's gate. */
    method Acquire(key: string, id: nat) returns (g: nat)
      requires Valid() && id !in st.callers
      modifies this
      ensures Valid() && id in st.callers && st.callers[id] == Holding(key, g)
      ensures forall o :: Past(st, o) && st.callers[o].key == key ==> o == id
    {
      g := Enter(key, id);
      Lock(g, id);
      OnePast(st, id);
    }

    /** `releaseSession`: let the mutex go, count out, and drop the gate with its last user. */
    method Release(key: string, g: nat, ghost c: nat)
      requires Valid() && c in st.callers && st.callers[c] == Holding(key, g)
      modifies this
      ensures Valid() && c !in st.callers
    {
      Unlock(g, c);
      Others(c);
      Leave(key, g, c);
    }

    method Leave(key: string, g: nat, ghost c: nat)
      requires Valid() && c in st.callers && st.callers[c] == Leaving(key, g)
      modifies this
      ensures Valid() && st == Apply(old(st), Drop(c))
    {
      GateOf(st, c);
      gates := gates[g := gates[g].(refs := gates[g].refs - 1)];
      if gates[g].refs == 0 {
        perSession := perSession - {key};
      }
      Step(Drop(c));
    }
  }
}
