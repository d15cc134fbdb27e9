/**
 Refilling the pools of warm sandboxes: one fill at a time, the grants taking turns in the order
 of their uids after the last one filled.
 */
module PoolRefill {
  import opened Common

  // ------------------------------------------------------------ the order of uids

  predicate Less(a: string, b: string) {
    b != "" && (a == "" || a[0] < b[0] || (a[0] == b[0] && Less(a[1..], b[1..])))
  }

  lemma {:induction false} LessIsAsymmetric(a: string, b: string)
    requires Less(a, b)
    ensures !Less(b, a) && a != b
  {
    if a != "" && a[0] == b[0] {
      LessIsAsymmetric(a[1..], b[1..]);
    }
  }

  /** What `Statuses` lists: the admitted grants in order. */
  ghost predicate Sorted(uids: seq<string>) {
    forall i, j :: 0 <= i < j < |uids| ==> Less(uids[i], uids[j])
  }

  // ------------------------------------------------------------ one pass

  /** What a pass finds about a grant: nothing to fill, held or rate limited until some time, or room. */
  datatype Verdict = Passed | Held(until: nat) | Room

  function FirstAbove(uids: seq<string>, last: string, i: nat): (r: nat)
    requires i <= |uids|
    ensures r <= |uids|
    decreases |uids| - i
  {
    if i == |uids| || Less(last, uids[i]) then i else FirstAbove(uids, last, i + 1)
  }

  /** Where the turn starts: the first uid above the last one filled, or the first of all. */
  function Start(uids: seq<string>, last: string): (r: nat)
    ensures uids != [] ==> r < |uids|
  {
    var i := FirstAbove(uids, last, 0);
    if i == |uids| then 0 else i
  }

  function After(i: nat, n: nat): (j: nat) { if i + 1 >= n then 0 else i + 1 }

  /** The first grant with room among the next `left`, in turn from `at`. */
  function Pick(uids: seq<string>, verdict: string -> Verdict, at: nat, left: nat): (r: Option<string>)
    requires at < |uids|
    decreases left
  {
    if left == 0 then None
    else if verdict(uids[at]).Room? then Some(uids[at])
    else Pick(uids, verdict, After(at, |uids|), left - 1)
  }

  function Sooner(a: Option<nat>, b: nat): (r: Option<nat>) {
    if a.None? || b < a.value then Some(b) else a
  }

  /** The earliest time a grant passed over before the pick is held until. */
  function Earliest(uids: seq<string>, verdict: string -> Verdict, at: nat, left: nat,
                    next: Option<nat>): (r: Option<nat>)
    requires at < |uids|
    decreases left
  {
    if left == 0 || verdict(uids[at]).Room? then next
    else
      var v := verdict(uids[at]);
      Earliest(uids, verdict, After(at, |uids|), left - 1, if v.Held? then Sooner(next, v.until) else next)
  }

  /** A turn's pick, and when to try again. */
  function TurnOutcome(uids: seq<string>, verdict: string -> Verdict, at: nat, left: nat, next: Option<nat>)
    : (r: (Option<string>, Option<nat>))
    requires at < |uids|
  {
    (Pick(uids, verdict, at, left), Earliest(uids, verdict, at, left, next))
  }

  function PassOutcome(uids: seq<string>, verdict: string -> Verdict, busy: bool, last: string)
    : (r: (Option<string>, Option<nat>))
  {
    if busy || uids == [] then (None, None) else TurnOutcome(uids, verdict, Start(uids, last), |uids|, None)
  }

  class Pool {
    var filling: bool
    var lastFill: string
    /** Fills in flight. */
    ghost var fills: nat

    ghost predicate Valid()
      reads this
    {
      fills == if filling then 1 else 0
    }

    constructor ()
      ensures Valid() && !filling && lastFill == ""
    {
      filling, lastFill, fills := false, "", 0;
    }

    /** The end of a fill. */
    method FillEnds()
      requires Valid() && filling
      modifies this
      ensures Valid() && !filling && lastFill == old(lastFill) && fills == old(fills) - 1
    {
      filling, fills := false, fills - 1;
    }

    /** A fill may end at any point of a pass. */
    method FillMayEnd()
      requires Valid()
      modifies this
      ensures Valid() && lastFill == old(lastFill) && (filling ==> old(filling))
    {
      var ends: bool := *;
      if filling && ends {
        FillEnds();
      }
    }

    /**
     `refillPass`: at most one fill is started, none while one runs, and it goes to the first
     grant with room in turn after the last one filled.
     */
    method RefillPass(uids: seq<string>, verdict: string -> Verdict, draining: bool)
      returns (started: Option<string>, next: Option<nat>)
      requires Valid()
      modifies this
      ensures Valid()
      ensures (started, next) == PassOutcome(uids, verdict, draining || old(filling), old(lastFill))
      ensures lastFill == if started.Some? then started.value else old(lastFill)
      ensures started.None? && filling ==> old(filling)
    {
      if draining {
        return None, None;
      }
      var last, busy := lastFill, filling;
      var start := FindStart(uids, last);
      started, next := None, None;
      ghost var outcome := PassOutcome(uids, verdict, busy, last);
      for i := 0 to |uids|
        invariant Valid() && (started.None? && filling ==> old(filling))
        invariant started.Some? ==> busy
        invariant lastFill == if started.Some? then started.value else last
        invariant outcome ==
          if busy || i == |uids| then (started, next)
          else TurnOutcome(uids, verdict, InTurn(start + i, |uids|), |uids| - i, next)
      {
        WrapsOnce(start + i, |uids|);
        var at := (start + i) % |uids|;
        var v := verdict(uids[at]);
        TurnStep(uids, verdict, at, |uids| - i, next);
        FillMayEnd();
        if busy || v.Passed? {
          continue;
        }
        if v.Held? {
          next := Sooner(next, v.until);
          continue;
        }
        StartFill(uids[at]);
        busy, started := true, Some(uids[at]);
      }
    }

    method StartFill(uid: string)
      requires Valid() && !filling
      modifies this
      ensures Valid() && filling && lastFill == uid && fills == old(fills) + 1
    {
      filling, lastFill, fills := true, uid, fills + 1;
    }

    /** The loop that finds where the turn starts. */
    static method FindStart(uids: seq<string>, last: string) returns (start: nat)
      ensures start == Start(uids, last)
    {
      for i := 0 to |uids|
        invariant FirstAbove(uids, last, 0) == FirstAbove(uids, last, i)
      {
        if Less(last, uids[i]) {
          return i;
        }
      }
      return 0;
    }
  }

  lemma TurnStep(uids: seq<string>, verdict: string -> Verdict, at: nat, left: nat, next: Option<nat>)
    requires at < |uids| && left > 0
    ensures
      var v := verdict(uids[at]);
      var later := if v.Held? then Sooner(next, v.until) else next;
      TurnOutcome(uids, verdict, at, left, next) ==
      if v.Room? then (Some(uids[at]), next)
      else if left == 1 then (None, later)
      else TurnOutcome(uids, verdict, After(at, |uids|), left - 1, later)
  {
    var v := verdict(uids[at]);
    var later := if v.Held? then Sooner(next, v.until) else next;
    var b := After(at, |uids|);
    assert !v.Room? ==> Earliest(uids, verdict, at, left, next) == Earliest(uids, verdict, b, left - 1, later);
  }

  /** k counted around a table of n. */
  function InTurn(k: nat, n: nat): (r: nat) { if k < n then k else k - n }

  lemma WrapsOnce(k: nat, n: nat)
    requires k < 2 * n
    ensures k % n == InTurn(k, n)
  {
  }

  // ------------------------------------------------------------ what a pass does

  /** The grant whose turn comes j-th from `at`. */
  function Turn(uids: seq<string>, at: nat, j: nat): (uid: string)
    requires at < |uids| && j < |uids|
  {
    uids[InTurn(at + j, |uids|)]
  }

  /** Of the first `left` turns the j-th is passed over: neither it nor any before it has room. */
  ghost predicate PassedOver(uids: seq<string>, verdict: string -> Verdict, at: nat, left: nat, j: nat)
    requires at < |uids| && left <= |uids|
  {
    j < left && forall m: nat :: m <= j ==> !verdict(Turn(uids, at, m)).Room?
  }

  lemma NextTurn(uids: seq<string>, at: nat, j: nat)
    requires at < |uids| && j + 1 < |uids|
    ensures Turn(uids, After(at, |uids|), j) == Turn(uids, at, j + 1)
  {
  }

  /** The pick is the first in turn with room, if any has. */
  lemma {:induction false} PicksFirst(uids: seq<string>, verdict: string -> Verdict, at: nat, left: nat)
    requires at < |uids| && left <= |uids|
    ensures
      match Pick(uids, verdict, at, left)
      case None => forall j: nat :: j < left ==> !verdict(Turn(uids, at, j)).Room?
      case Some(uid) =>
        exists j: nat :: j < left && Turn(uids, at, j) == uid && verdict(uid).Room? &&
                         forall m: nat :: m < j ==> !verdict(Turn(uids, at, m)).Room?
    decreases left
  {
    if left > 0 {
      assert Turn(uids, at, 0) == uids[at];
      if !verdict(uids[at]).Room? {
        PicksFirst(uids, verdict, After(at, |uids|), left - 1);
        forall j: nat | j + 1 < left
          ensures Turn(uids, After(at, |uids|), j) == Turn(uids, at, j + 1)
        {
          NextTurn(uids, at, j);
        }
        var picked := Pick(uids, verdict, After(at, |uids|), left - 1);
        if picked.Some? {
          var j: nat :| j < left - 1 && Turn(uids, After(at, |uids|), j) == picked.value &&
                        forall m: nat :: m < j ==> !verdict(Turn(uids, After(at, |uids|), m)).Room?;
          FirstShifts(uids, verdict, at, left, j);
        } else {
          NoneShifts(uids, verdict, at, left);
        }
      }
    }
  }

  lemma FirstShifts(uids: seq<string>, verdict: string -> Verdict, at: nat, left: nat, j: nat)
    requires at < |uids| && j + 1 < left <= |uids| && !verdict(uids[at]).Room?
    requires forall m: nat :: m < j ==> !verdict(Turn(uids, After(at, |uids|), m)).Room?
    ensures Turn(uids, at, j + 1) == Turn(uids, After(at, |uids|), j)
    ensures forall m: nat :: m < j + 1 ==> !verdict(Turn(uids, at, m)).Room?
  {
    NextTurn(uids, at, j);
    forall m: nat | m < j + 1
      ensures !verdict(Turn(uids, at, m)).Room?
    {
      if m > 0 {
        NextTurn(uids, at, m - 1);
      }
    }
  }

  lemma NoneShifts(uids: seq<string>, verdict: string -> Verdict, at: nat, left: nat)
    requires at < |uids| && 0 < left <= |uids| && !verdict(uids[at]).Room?
    requires forall m: nat :: m < left - 1 ==> !verdict(Turn(uids, After(at, |uids|), m)).Room?
    ensures forall m: nat :: m < left ==> !verdict(Turn(uids, at, m)).Room?
  {
    forall m: nat | m < left
      ensures !verdict(Turn(uids, at, m)).Room?
    {
      if m > 0 {
        NextTurn(uids, at, m - 1);
      }
    }
  }

  lemma PassedOverShifts(uids: seq<string>, verdict: string -> Verdict, at: nat, left: nat, j: nat)
    requires at < |uids| && 0 < left <= |uids| && !verdict(uids[at]).Room?
    ensures PassedOver(uids, verdict, at, left, j + 1) <==> PassedOver(uids, verdict, After(at, |uids|), left - 1, j)
    ensures PassedOver(uids, verdict, at, left, 0)
  {
    assert Turn(uids, at, 0) == uids[at];
    if j + 1 < left {
      forall m: nat | m <= j
        ensures Turn(uids, After(at, |uids|), m) == Turn(uids, at, m + 1)
      {
        NextTurn(uids, at, m);
      }
      if PassedOver(uids, verdict, After(at, |uids|), left - 1, j) {
        forall m: nat | m <= j + 1
          ensures !verdict(Turn(uids, at, m)).Room?
        {
          assert m > 0 ==> Turn(uids, After(at, |uids|), m - 1) == Turn(uids, at, m);
        }
      }
    }
  }

  /** No grant passed over and held is to be tried before `r`, or `r` is `next`. */
  ghost predicate NoneBefore(uids: seq<string>, verdict: string -> Verdict, at: nat, left: nat, r: Option<nat>)
    requires at < |uids| && left <= |uids|
  {
    forall j: nat :: PassedOver(uids, verdict, at, left, j) && verdict(Turn(uids, at, j)).Held? ==>
      r.Some? && r.value <= verdict(Turn(uids, at, j)).until
  }

  ghost predicate HeldUntil(uids: seq<string>, verdict: string -> Verdict, at: nat, left: nat, until: nat)
    requires at < |uids| && left <= |uids|
  {
    exists j: nat :: PassedOver(uids, verdict, at, left, j) && verdict(Turn(uids, at, j)) == Held(until)
  }

  /** The time to try again is the earliest of `next` and what the grants passed over are held until. */
  lemma {:induction false} RetriesAtEarliest(uids: seq<string>, verdict: string -> Verdict, at: nat, left: nat,
                                             next: Option<nat>)
    requires at < |uids| && left <= |uids|
    ensures
      var r := Earliest(uids, verdict, at, left, next);
      NoneBefore(uids, verdict, at, left, r) && (next.Some? ==> r.Some? && r.value <= next.value) &&
      (r.Some? ==> r == next || HeldUntil(uids, verdict, at, left, r.value))
    decreases left
  {
    if left > 0 && !verdict(uids[at]).Room? {
      var v, b := verdict(uids[at]), After(at, |uids|);
      var later := if v.Held? then Sooner(next, v.until) else next;
      RetriesAtEarliest(uids, verdict, b, left - 1, later);
      EarliestShifts(uids, verdict, at, left, next, Earliest(uids, verdict, b, left - 1, later));
    } else if left > 0 {
      assert Turn(uids, at, 0) == uids[at];
    }
  }

  lemma EarliestShifts(uids: seq<string>, verdict: string -> Verdict, at: nat, left: nat, next: Option<nat>,
                       r: Option<nat>)
    requires at < |uids| && 0 < left <= |uids| && !verdict(uids[at]).Room?
    requires
      var v := verdict(uids[at]);
      var later := if v.Held? then Sooner(next, v.until) else next;
      NoneBefore(uids, verdict, After(at, |uids|), left - 1, r) &&
      (later.Some? ==> r.Some? && r.value <= later.value) &&
      (r.Some? ==> r == later || HeldUntil(uids, verdict, After(at, |uids|), left - 1, r.value))
    ensures NoneBefore(uids, verdict, at, left, r) && (next.Some? ==> r.Some? && r.value <= next.value)
    ensures r.Some? ==> r == next || HeldUntil(uids, verdict, at, left, r.value)
  {
    PassedOverShifts(uids, verdict, at, left, 0);
    assert Turn(uids, at, 0) == uids[at];
    forall j: nat | PassedOver(uids, verdict, at, left, j) && verdict(Turn(uids, at, j)).Held?
      ensures r.Some? && r.value <= verdict(Turn(uids, at, j)).until
    {
      if j > 0 {
        PassedOverShifts(uids, verdict, at, left, j - 1);
        NextTurn(uids, at, j - 1);
      }
    }
    if r.Some? && HeldUntil(uids, verdict, After(at, |uids|), left - 1, r.value) {
      var j: nat :| PassedOver(uids, verdict, After(at, |uids|), left - 1, j) &&
                    verdict(Turn(uids, After(at, |uids|), j)) == Held(r.value);
      PassedOverShifts(uids, verdict, at, left, j);
      NextTurn(uids, at, j);
      assert PassedOver(uids, verdict, at, left, j + 1);
    }
  }

  lemma {:induction false} FirstAboveExactly(uids: seq<string>, last: string, i: nat)
    requires i <= |uids|
    ensures var r := FirstAbove(uids, last, i); i <= r && (r < |uids| ==> Less(last, uids[r]))
    ensures forall k :: i <= k < FirstAbove(uids, last, i) ==> !Less(last, uids[k])
    decreases |uids| - i
  {
    if i < |uids| && !Less(last, uids[i]) {
      FirstAboveExactly(uids, last, i + 1);
    }
  }

  /**
   A pass, with no fill running and the home not draining: turns start at the first uid above the
   last one filled, or at the first of all; the first grant with room is filled, if any has; and the
   pass is to be repeated at the earliest time a grant before it is held until, if one is.
   */
  lemma PassExactly(uids: seq<string>, verdict: string -> Verdict, last: string)
    requires uids != []
    ensures
      var (started, next) := PassOutcome(uids, verdict, false, last);
      var at := Start(uids, last);
      (forall k :: 0 <= k < at ==> !Less(last, uids[k])) &&
      (Less(last, uids[at]) || (at == 0 && forall k :: 0 <= k < |uids| ==> !Less(last, uids[k]))) &&
      (started.None? <==> forall j: nat :: j < |uids| ==> !verdict(Turn(uids, at, j)).Room?) &&
      (started.Some? ==>
         exists j: nat :: j < |uids| && Turn(uids, at, j) == started.value && verdict(started.value).Room? &&
                          forall m: nat :: m < j ==> !verdict(Turn(uids, at, m)).Room?) &&
      NoneBefore(uids, verdict, at, |uids|, next) &&
      (next.Some? ==> HeldUntil(uids, verdict, at, |uids|, next.value))
  {
    var at := Start(uids, last);
    FirstAboveExactly(uids, last, 0);
    PicksFirst(uids, verdict, at, |uids|);
    RetriesAtEarliest(uids, verdict, at, |uids|, None);
  }

  // ------------------------------------------------------------ nobody starves

  /** How many turns before uids[i], counting from `at`. */
  function Distance(n: nat, at: nat, i: nat): (d: nat)
    requires at < n && i < n
    ensures d < n
  {
    if i >= at then i - at else i + n - at
  }

  /** The pick comes no later in turn than any grant with room. */
  lemma {:induction false} PickIsNoLater(uids: seq<string>, verdict: string -> Verdict, at: nat, left: nat, i: nat)
    returns (k: nat)
    requires at < |uids| && i < |uids| && verdict(uids[i]).Room? && Distance(|uids|, at, i) < left
    ensures k < |uids| && Pick(uids, verdict, at, left) == Some(uids[k]) && verdict(uids[k]).Room?
    ensures Distance(|uids|, at, k) <= Distance(|uids|, at, i)
    decreases left
  {
    if verdict(uids[at]).Room? {
      k := at;
    } else {
      k := PickIsNoLater(uids, verdict, After(at, |uids|), left - 1, i);
    }
  }

  lemma {:induction false} FirstAboveFound(uids: seq<string>, last: string, k: nat, i: nat)
    requires Sorted(uids) && k < |uids| && last == uids[k] && i <= k + 1
    ensures FirstAbove(uids, last, i) == k + 1
    decreases k + 1 - i
  {
    if i <= k {
      if Less(last, uids[i]) {
        LessIsAsymmetric(last, uids[i]);
      }
      FirstAboveFound(uids, last, k, i + 1);
    }
  }

  /** After a fill the turn moves to the next uid. */
  lemma StartAfter(uids: seq<string>, k: nat)
    requires Sorted(uids) && k < |uids|
    ensures Start(uids, uids[k]) == After(k, |uids|)
  {
    FirstAboveFound(uids, uids[k], k, 0);
  }

  /** Every fill that passes a grant with room over brings its turn strictly nearer. */
  lemma TurnComesNearer(uids: seq<string>, last: string, verdict: string -> Verdict, i: nat)
    requires Sorted(uids) && i < |uids| && verdict(uids[i]).Room?
    ensures
      var picked := Pick(uids, verdict, Start(uids, last), |uids|);
      picked.Some? && (picked.value == uids[i] ||
                       Distance(|uids|, Start(uids, picked.value), i) < Distance(|uids|, Start(uids, last), i))
  {
    var at := Start(uids, last);
    var k := PickIsNoLater(uids, verdict, at, |uids|, i);
    StartAfter(uids, k);
    if k != i {
      NextIsNearer(|uids|, at, k, i);
    }
  }

  lemma NextIsNearer(n: nat, at: nat, k: nat, i: nat)
    requires at < n && k < n && i < n && k != i && Distance(n, at, k) <= Distance(n, at, i)
    ensures Distance(n, After(k, n), i) < Distance(n, at, i)
  {
  }

  /** Successive fills over one set of grants; what each pass finds may differ. */
  ghost predicate Fills(uids: seq<string>, last: string, verdicts: seq<string -> Verdict>, filled: seq<string>)
    decreases |filled|
  {
    |filled| == |verdicts| &&
    (filled == [] ||
     (uids != [] && Pick(uids, verdicts[0], Start(uids, last), |uids|) == Some(filled[0]) &&
      Fills(uids, filled[0], verdicts[1..], filled[1..])))
  }

  lemma {:induction false} FilledInTurn(uids: seq<string>, last: string, verdicts: seq<string -> Verdict>,
                                        filled: seq<string>, i: nat)
    requires Sorted(uids) && i < |uids| && Fills(uids, last, verdicts, filled)
    requires forall k :: 0 <= k < |verdicts| ==> verdicts[k](uids[i]).Room?
    requires Distance(|uids|, Start(uids, last), i) < |filled|
    ensures uids[i] in filled[..Distance(|uids|, Start(uids, last), i) + 1]
    decreases |filled|
  {
    TurnComesNearer(uids, last, verdicts[0], i);
    var d := Distance(|uids|, Start(uids, last), i);
    if filled[0] == uids[i] {
      assert filled[..d + 1][0] == uids[i];
    } else {
      var d' := Distance(|uids|, Start(uids, filled[0]), i);
      FilledInTurn(uids, filled[0], verdicts[1..], filled[1..], i);
      assert filled[1..][..d' + 1] == filled[..d + 1][1..d' + 2];
    }
  }

  /** A grant that keeps having room is filled within as many fills as there are grants. */
  lemma NobodyStarves(uids: seq<string>, last: string, verdicts: seq<string -> Verdict>, filled: seq<string>,
                      uid: string)
    requires Sorted(uids) && uid in uids && Fills(uids, last, verdicts, filled) && |filled| >= |uids|
    requires forall k :: 0 <= k < |verdicts| ==> verdicts[k](uid).Room?
    ensures uid in filled[..|uids|]
  {
    var i :| 0 <= i < |uids| && uids[i] == uid;
    FilledInTurn(uids, last, verdicts, filled, i);
    var d := Distance(|uids|, Start(uids, last), i) + 1;
    assert filled[..|uids|][..d] == filled[..d];
  }
}
