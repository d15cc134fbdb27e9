/** `syncThrough` as it runs: one caller's loop against anything the writers and other callers may do. */
module GroupCommitRuns {
  import opened GroupCommit

  predicate Own(a: Label, c: nat) { (a.Look? || a.FsyncEnds?) && a.c == c }

  /** The broadcast moves a sleeper on; nothing else the others do moves caller c. */
  predicate Moved(w: Caller, v: Caller) {
    v == w || (w.Sleeping? && v == Looking(w.n, w.waits + 1))
  }

  /** What the others may have done by t. */
  ghost predicate Aside(s: State, t: State, c: nat) {
    c in s.callers && c in t.callers && Moved(s.callers[c], t.callers[c]) &&
    s.written <= t.written && s.synced <= t.synced && (s.poisoned ==> t.poisoned) && s.ended <= t.ended &&
    (s.callers[c].Leading? ==> t.upto == s.upto)
  }

  lemma StepAside(s: State, a: Label, c: nat)
    requires Inv(s) && Enabled(s, a) && !Own(a, c) && c in s.callers
    ensures Aside(s, Apply(s, a), c)
  {
  }

  lemma {:induction false} OthersStayAside(run: seq<State>, labels: seq<Label>, c: nat, i: nat)
    requires |run| == |labels| + 1 && Inv(run[0]) && c in run[0].callers && i < |run|
    requires forall k :: 0 <= k < |labels| ==>
      Enabled(run[k], labels[k]) && run[k + 1] == Apply(run[k], labels[k]) && !Own(labels[k], c)
    ensures Inv(run[i]) && Aside(run[0], run[i], c)
  {
    if i > 0 {
      OthersStayAside(run, labels, c, i - 1);
      StepKeepsInv(run[i - 1], labels[i - 1]);
      StepAside(run[i - 1], labels[i - 1], c);
    }
  }

  /** Without a write the count stays. */
  lemma {:induction false} NoneWritten(run: seq<State>, labels: seq<Label>, i: nat)
    requires |run| == |labels| + 1 && i < |run|
    requires forall k :: 0 <= k < |labels| ==>
      Enabled(run[k], labels[k]) && run[k + 1] == Apply(run[k], labels[k]) && !labels[k].WriteRecord?
    ensures run[i].written == run[0].written
  {
    if i > 0 {
      NoneWritten(run, labels, i - 1);
    }
  }

  /** The count of records only grows, and not at all once no more are taken. */
  predicate Counts(shut: bool, written: nat, shut': bool, written': nat) {
    written <= written' && (shut ==> shut' && written' == written)
  }

  class Syncer {
    var written: nat
    var synced: nat
    var syncing: bool
    var poisoned: bool
    /** The leader's local: how many records were written when its fsync began. */
    var upto: nat
    /** Whoever closed the spool has seen to it that no record follows. */
    var shut: bool
    ghost var st: State

    ghost predicate Valid()
      reads this
    {
      Inv(st) && written == st.written && synced == st.synced && syncing == st.syncing && poisoned == st.poisoned &&
      upto == st.upto
    }

    ghost method Step(a: Label)
      requires Inv(st) && Enabled(st, a)
      modifies this`st
      ensures Inv(st) && st == Apply(old(st), a)
    {
      StepKeepsInv(st, a);
      st := Apply(st, a);
    }

    /** Anything the others may do: see OthersStayAside and NoneWritten. */
    method Others(ghost c: nat)
      requires Valid() && c in st.callers
      modifies this
      ensures Valid() && Aside(old(st), st, c) && Counts(old(shut), old(written), shut, written)
    {
      if !shut {
        written := written + 1;
        StepAside(st, WriteRecord, c);
        Step(WriteRecord);
        shut := *;
      }
    }

    /** The condition variable: the caller sleeps until the fsync in flight ends. */
    method Wait(ghost c: nat)
      requires Valid() && c in st.callers && st.callers[c].Sleeping?
      modifies this
      ensures Valid() && c in st.callers && st.callers[c] == Looking(old(st.callers[c].n), old(st.callers[c].waits) + 1)
      ensures Counts(old(shut), old(written), shut, written)
    {
      Others(c);
      if syncing {
        var ok: bool := *;
        EndFsync(st.leader.value, ok);
      }
    }

    /** The leader's second hold of the sync lock: mark or poison, and wake everyone. */
    method EndFsync(ghost c: nat, ok: bool)
      requires Valid() && c in st.callers && st.callers[c].Leading?
      modifies this
      ensures Valid() && st == Apply(old(st), FsyncEnds(c, ok)) && shut == old(shut)
    {
      syncing := false;
      if !ok {
        poisoned := true;
      } else if upto > synced {
        synced := upto;
      }
      Step(FsyncEnds(c, ok));
    }

    /**
     `syncThrough`. In every interleaving the loop turns at most three times; nil means that a
     successful fsync began after the n-th write, an error that an fsync has failed.
     */
    method SyncThrough(n: nat, ghost c: nat) returns (ok: bool)
      requires Valid() && n <= written && c !in st.callers
      modifies this
      ensures Valid() && c in st.callers && st.callers[c].Returned? && st.callers[c].n == n && st.callers[c].ok == ok
      ensures ok && n > 0 ==> Durable(st, n)
      ensures !ok ==> poisoned
      ensures Counts(old(shut), old(written), shut, written)
    {
      Step(Arrive(c, n));
      ghost var turns := 0;
      var done := false;
      ok := false;
      while !done
        invariant Valid() && c in st.callers && Counts(old(shut), old(written), shut, written)
        invariant !done ==> st.callers[c] == Looking(n, turns)
        invariant done ==> st.callers[c] == Returned(n, turns, ok)
        decreases !done, 3 - turns
      {
        assert WaitBounded(st, st.callers[c]);
        done, ok := Turn(n, c);
        turns := if done then turns else turns + 1;
      }
    }

    /** One turn of the loop: return, wait for the fsync in flight, or lead one. */
    method Turn(n: nat, ghost c: nat) returns (done: bool, ok: bool)
      requires Valid() && c in st.callers && st.callers[c].Looking? && st.callers[c].n == n
      modifies this
      ensures Valid() && c in st.callers
      ensures st.callers[c] ==
        if done then Returned(n, old(st.callers[c].waits), ok) else Looking(n, old(st.callers[c].waits) + 1)
      ensures Counts(old(shut), old(written), shut, written)
    {
      done, ok := true, true;
      Others(c);
      if synced >= n {
        Step(Look(c));
      } else if poisoned {
        ok := false;
        Step(Look(c));
      } else if syncing {
        done := false;
        Step(Look(c));
        Wait(c);
      } else {
        done := false;
        Lead(c);
      }
    }

    /** Starts an fsync for all that is written; the fsync itself runs without the lock. */
    method Lead(ghost c: nat)
      requires Valid() && c in st.callers && st.callers[c].Looking? && synced < st.callers[c].n && !poisoned && !syncing
      modifies this
      ensures Valid() && c in st.callers && st.callers[c] == Looking(old(st.callers[c].n), old(st.callers[c].waits) + 1)
      ensures Counts(old(shut), old(written), shut, written)
    {
      syncing, upto := true, written;
      Step(Look(c));
      Others(c);
      var ok: bool := *;
      EndFsync(c, ok);
    }
  }
}
