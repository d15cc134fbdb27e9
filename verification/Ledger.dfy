/** The ledger object. Each method is one hold of its lock, proved against the value-level step. */
module Ledgers {
  import opened Common
  import opened Fences
  import S = LedgerState

  class Ledger {
    var epoch: nat
    var grants: map<string, nat>
    var entries: seq<S.GrantEntry>
    var sessions: map<string, S.Session>
    var fibers: map<string, S.FiberRef>
    var seqHigh: map<string, nat>

    ghost function View(): (v: S.View)
      reads this
    {
      S.View(epoch, grants, entries, sessions, fibers, seqHigh)
    }

    constructor (epoch: nat)
      ensures View() == S.Init(epoch)
    {
      this.epoch := epoch;
      grants, entries, sessions, fibers, seqHigh := map[], [], map[], map[], map[];
    }

    method BumpEpoch(n: nat)
      modifies this
      ensures View() == S.BumpEpoch(old(View()), n)
    {
      if n > epoch {
        epoch := n;
      }
    }

    method AdmitGrant(g: S.Grant)
      requires S.WellFormed(View())
      modifies this
      ensures View() == S.AdmitGrant(old(View()), g) && S.WellFormed(View())
    {
      if g.uid in grants {
        var e := grants[g.uid];
        entries := entries[e := entries[e].(grant := g)];
      } else {
        var last := if g.uid in seqHigh then seqHigh[g.uid] else 0;
        grants := grants[g.uid := |entries|];
        entries := entries + [S.GrantEntry(g, last, 0, 0)];
      }
    }

    method RevokeGrant(uid: string)
      requires S.WellFormed(View())
      modifies this
      ensures View() == S.RevokeGrant(old(View()), uid) && S.WellFormed(View())
    {
      if uid in grants {
        seqHigh := seqHigh[uid := entries[grants[uid]].nextSeq];
        grants := grants - {uid};
      }
    }

    /** Take a slot of entry e, unless it is full. */
    method Reserve(e: nat) returns (ok: bool)
      requires e < |entries|
      modifies this
      ensures ok == !old(S.Full(entries[e]))
      ensures View() ==
        if ok then old(View()).(entries := old(entries[e := entries[e].(live := entries[e].live + 1)])) else old(View())
    {
      ok := !(entries[e].grant.fiberMax > 0 && entries[e].live >= entries[e].grant.fiberMax);
      if ok {
        entries := entries[e := entries[e].(live := entries[e].live + 1)];
      }
    }

    method Mint(e: nat) returns (f: Fence)
      requires e < |entries|
      modifies this
      ensures f == old(S.MintFence(View(), e))
      ensures View() == old(View()).(entries := old(entries[e := entries[e].(nextSeq := entries[e].nextSeq + 1)]))
    {
      entries := entries[e := entries[e].(nextSeq := entries[e].nextSeq + 1)];
      f := Fence(entries[e].grant.uid, epoch, entries[e].nextSeq);
    }

    /** Attach, resume or create, or the reason why not; the slot is reserved and the fence minted here. */
    method ResolveHeld(uid: string, name: string, tier: nat, now: int) returns (r: S.Resolution)
      requires S.WellFormed(View())
      modifies this
      ensures r == S.Decide(old(View()), uid, name, tier, now)
      ensures View() == S.Resolved(old(View()), r)
    {
      if uid !in grants {
        return S.Refused(S.GrantUnknown);
      }
      var e := grants[uid];
      var g := entries[e].grant;
      if S.Expired(g, now) {
        return S.Refused(S.GrantExpired);
      }
      if g.minTier > tier {
        return S.Refused(S.NeedsTier);
      }
      var key := S.SessionKey(uid, name);
      var action, ref := S.Create, "";
      if name != "" && key in sessions {
        var s := sessions[key];
        if s.state == S.Running {
          return S.Attach(s.fence, s.endpoint);
        }
        if tier < S.TIER_CHECKPOINT {
          return S.Refused(S.NeedsTier);
        }
        action, ref := S.Resume, s.deltaRef;
      }
      var ok := Reserve(e);
      if !ok {
        return S.Refused(S.GrantFull);
      }
      var f := Mint(e);
      r := S.Birth(action, e, f, ref);
    }

    /** Insert the fiber, unless its grant entry, its epoch or `refuse` forbids it. */
    method Commit(entry: nat, s: S.Session, refuse: bool) returns (ok: bool)
      modifies this
      ensures ok == S.MayCommit(old(View()), s.grantUID, entry, s.fence, refuse)
      ensures View() == if ok then S.Committed(old(View()), s) else old(View())
    {
      if s.grantUID !in grants || grants[s.grantUID] != entry || s.fence.epoch != epoch {
        return false;
      }
      if refuse {
        return false;
      }
      var key := S.SessionKey(s.grantUID, s.name);
      if s.handle != "" {
        fibers := fibers[s.handle := S.FiberRef(s.grantUID, if s.name != "" then key else "", s.fence)];
      }
      if s.name != "" {
        sessions := sessions[key := s];
      }
      ok := true;
    }

    /** unlock's return of a reservation that was never committed. */
    method Unreserve(e: nat)
      requires e < |entries|
      modifies this
      ensures View() == S.Unreserve(old(View()), e)
    {
      entries := entries[e := entries[e].(live := entries[e].live - 1)];
    }

    /** Returns the parked session's name and the delta this park supersedes. */
    method OnPark(id: string, deltaRef: string) returns (session: string, superseded: string)
      requires S.WellFormed(View())
      modifies this
      ensures View() == S.OnPark(old(View()), id, deltaRef)
      ensures if S.RunsSession(old(View()), id)
              then (session, superseded) == old(var x := sessions[fibers[id].sessionKey]; (x.name, x.deltaRef))
              else (session, superseded) == ("", "")
    {
      session, superseded := "", "";
      if id !in fibers {
        assert fibers - {id} == fibers;
        return;
      }
      var ref := fibers[id];
      fibers := fibers - {id};
      if ref.grantUID in grants {
        Unreserve(grants[ref.grantUID]);
      }
      if ref.sessionKey != "" && ref.sessionKey in sessions {
        var s := sessions[ref.sessionKey];
        session, superseded := s.name, s.deltaRef;
        var parked := s.(state := S.Parked, deltaRef := deltaRef, handle := "", endpoint := "");
        sessions := sessions[ref.sessionKey := parked];
      }
    }

    /** Release and exit. Returns the fence the fiber held (None if unknown), its session and the delta to discard. */
    method OnGone(id: string) returns (fence: Option<Fence>, session: string, deltaRef: string)
      requires S.WellFormed(View())
      modifies this
      ensures View() == S.OnGone(old(View()), id)
      ensures fence == if id in old(fibers) then Some(old(fibers[id].fence)) else None
      ensures if S.RunsSession(old(View()), id)
              then (session, deltaRef) == old(var x := sessions[fibers[id].sessionKey]; (x.name, x.deltaRef))
              else (session, deltaRef) == ("", "")
    {
      session, deltaRef := "", "";
      if id !in fibers {
        assert fibers - {id} == fibers;
        return None, "", "";
      }
      var ref := fibers[id];
      fence := Some(ref.fence);
      fibers := fibers - {id};
      if ref.grantUID in grants {
        Unreserve(grants[ref.grantUID]);
      }
      if ref.sessionKey != "" {
        if ref.sessionKey in sessions {
          session, deltaRef := sessions[ref.sessionKey].name, sessions[ref.sessionKey].deltaRef;
        }
        sessions := sessions - {ref.sessionKey};
      }
    }

    method ForgetSession(uid: string, name: string)
      modifies this
      ensures View() == S.ForgetSession(old(View()), S.SessionKey(uid, name))
      ensures uid + "/" + name in sessions ==> sessions[uid + "/" + name].state == S.Running
      ensures forall k :: k in old(sessions) && k != uid + "/" + name ==>
        k in sessions && sessions[k] == old(sessions[k])
    {
      var key := S.SessionKey(uid, name);
      assert key == uid + "/" + name;
      if key in sessions && sessions[key].state == S.Parked {
        sessions := sessions - {key};
      }
    }

    method RestoreParked(uid: string, name: string, fence: Fence, deltaRef: string) returns (err: Option<S.Error>)
      modifies this
      ensures err == S.RestoreRefusal(old(View()), uid, name)
      ensures View() == S.RestoreParked(old(View()), uid, name, fence, deltaRef)
    {
      if uid !in grants {
        return Some(S.GrantUnknown);
      }
      var key := S.SessionKey(uid, name);
      if key in sessions {
        return Some(S.SessionHeld);
      }
      sessions := sessions[key := S.Session(name, uid, S.Parked, fence, "", "", deltaRef)];
      err := None;
    }

    /** The ids of one grant's running fibers. */
    method ListFibers(uid: string) returns (ids: set<string>)
      ensures ids == S.FibersOf(View(), uid)
    {
      ids := set id | id in fibers && fibers[id].grantUID == uid;
    }
  }
}
