/**
 `restoreHeld` and `snapshot` once the home serves: the grants boot held, beside the ledger, with
 every other caller free to run between any two of their lock holds.
 */
module HeldRuns {
  import S = LedgerState
  import P = CloneProtocol
  import T = CloneTheorems
  import C = Cores
  import opened Reconciling
  import opened ReconcileTheorems

  function RestoreOf(x: SessionSnap): (a: P.Label) { P.Restore(x.grantUID, x.name, x.fence, x.deltaRef) }

  /** Between s and t the session was put back, and `ok` says whether the ledger took it. */
  ghost predicate RestoredAt(s: P.State, at: P.State, t: P.State, x: SessionSnap, ok: bool) {
    C.StepBetween(s, at, RestoreOf(x), t) && (ok <==> S.RestoreRefusal(at.l, x.grantUID, x.name).None?)
  }

  ghost predicate AllRestored(s: P.State, at: seq<P.State>, t: P.State, ss: seq<SessionSnap>, ok: seq<bool>) {
    |at| == |ss| == |ok| && forall i :: 0 <= i < |ss| ==> RestoredAt(s, at[i], t, ss[i], ok[i])
  }

  lemma RestoredStays(s: P.State, at: seq<P.State>, t: P.State, u: P.State, ss: seq<SessionSnap>, ok: seq<bool>)
    requires AllRestored(s, at, t, ss, ok) && T.Reaches(t, u)
    ensures AllRestored(s, at, u, ss, ok)
  {
    forall i | 0 <= i < |ss|
      ensures RestoredAt(s, at[i], u, ss[i], ok[i])
    {
      assert RestoredAt(s, at[i], t, ss[i], ok[i]);
      T.ReachesTransitive(P.Apply(at[i], RestoreOf(ss[i])), t, u);
    }
  }

  lemma OneMoreRestored(s: P.State, at: seq<P.State>, was: P.State, now: P.State, ss: seq<SessionSnap>, ok: seq<bool>,
                        x: SessionSnap, done: bool)
    requires P.Inv(now) && T.Reaches(s, was) && T.Reaches(was, now) && AllRestored(s, at, was, ss, ok)
    requires done <==> S.RestoreRefusal(now.l, x.grantUID, x.name).None?
    ensures var t := P.Apply(now, RestoreOf(x)); T.Reaches(s, t) && AllRestored(s, at + [now], t, ss + [x], ok + [done])
  {
    var t := P.Apply(now, RestoreOf(x));
    T.ReachesTransitive(s, was, now);
    T.StepReaches(now, RestoreOf(x), t);
    T.ReachesTransitive(s, now, t);
    T.ReachesTransitive(was, now, t);
    T.ReachesItself(t);
    RestoredStays(s, at, was, t, ss, ok);
  }

  lemma RestoreKeepsHome(h: Home, x: SessionSnap, t: Home)
    requires HomeInv(h) && t == Home(P.Apply(h.s, RestoreOf(x)), h.held)
    ensures HomeInv(t)
  {
    StepKeepsHome(h, Proto(RestoreOf(x)));
  }

  /** Held grants are only ever let go. */
  ghost predicate Fewer(held: map<string, HeldGrant>, was: map<string, HeldGrant>) {
    held.Keys <= was.Keys && forall u :: u in held ==> held[u] == was[u]
  }

  lemma {:induction false} RunKeepsKeys(run: seq<P.State>, labels: seq<P.Label>, i: nat)
    requires T.IsRun(run, labels) && KeysMatch(run[0].l) && i < |run|
    ensures KeysMatch(run[i].l)
  {
    if i > 0 {
      RunKeepsKeys(run, labels, i - 1);
      assert T.StepAt(run, labels, i - 1);
      StepKeepsKeys(run[i - 1], labels[i - 1]);
    }
  }

  lemma ReachesKeepsKeys(s: P.State, t: P.State)
    requires T.Reaches(s, t) && KeysMatch(s.l)
    ensures KeysMatch(t.l)
  {
    var run, labels :| T.RunsTo(run, labels, s, t);
    RunKeepsKeys(run, labels, |labels|);
  }

  class Keeper {
    const core: C.Core
    var held: map<string, HeldGrant>

    constructor (c: C.Core, h: map<string, HeldGrant>)
      ensures core == c && held == h
    {
      core, held := c, h;
    }

    ghost function At(): (h: Home)
      reads this, core, core.ledger
    {
      Home(core.St(), held)
    }

    /** Anything the others may do: any steps of the protocol, and held grants let go. */
    method Others()
      requires HomeInv(At())
      modifies this, core, core.ledger
      ensures HomeInv(At()) && T.Reaches(old(core.St()), core.St()) && Fewer(held, old(held))
    {
      ghost var s := core.St();
      core.Interference();
      ReachesKeepsKeys(s, core.St());
      var gone: string :| true;
      held := held - {gone};
    }

    /** One `RestoreParked` of the loop, after the others ran for a while. */
    method RestoreOne(x: SessionSnap) returns (ok: bool, ghost at: P.State)
      requires HomeInv(At())
      modifies this, core, core.ledger
      ensures HomeInv(At()) && Fewer(held, old(held)) && P.Inv(at) && T.Reaches(old(core.St()), at)
      ensures core.St() == P.Apply(at, RestoreOf(x)) && (ok <==> S.RestoreRefusal(at.l, x.grantUID, x.name).None?)
    {
      Others();
      ghost var h := At();
      at := h.s;
      var err := core.ledger.RestoreParked(x.grantUID, x.name, x.fence, x.deltaRef);
      RestoreKeepsHome(h, x, At());
      ok := err.None?;
    }

    /**
     `restoreHeld`: the entry is taken out under its own lock, then each of its sessions is put back
     in a hold of the ledger's. `ok` has, for each, whether the ledger took it at that moment.
     */
    method RestoreHeld(uid: string) returns (ok: seq<bool>, ghost at: seq<P.State>)
      requires HomeInv(At())
      modifies this, core, core.ledger
      ensures HomeInv(At()) && T.Reaches(old(core.St()), core.St()) && Fewer(held, old(held)) && uid !in held
      ensures AllRestored(old(core.St()), at, core.St(), if uid in old(held) then old(held)[uid].sessions else [], ok)
    {
      ghost var s := core.St();
      T.ReachesItself(s);
      var ss := if uid in held then held[uid].sessions else [];
      held := held - {uid};
      ok, at := [], [];
      for i := 0 to |ss|
        invariant HomeInv(At()) && T.Reaches(s, core.St()) && Fewer(held, old(held)) && uid !in held
        invariant AllRestored(s, at, core.St(), ss[..i], ok)
      {
        ghost var was := core.St();
        assert ss[..i + 1] == ss[..i] + [ss[i]];
        var done, now := RestoreOne(ss[i]);
        OneMoreRestored(s, at, was, now, ss[..i], ok, ss[i], done);
        ok, at := ok + [done], at + [now];
      }
      assert ss[..|ss|] == ss;
    }

    /** `snapshot`: the ledger is captured, others run, and then the held grants are added. */
    method Snapshot() returns (saved: Saved, ghost at: P.State)
      requires HomeInv(At())
      modifies this, core, core.ledger
      ensures HomeInv(At()) && at == old(core.St()) && T.Reaches(at, core.St()) && Fewer(held, old(held))
      ensures saved == NextSaved(at.l, held)
    {
      at := core.St();
      var c := Capture(core.ledger);
      Others();
      saved := WithHeld(c, at.l, held);
    }
  }
}
