/** The home's deny-list: until when each removed grant is refused. */
module RevokedGrants {
  import opened Common

  /** A lease or the end of a denial. Go's zero time is Never: no lease, or denied for good. */
  datatype Until = Never | At(t: nat)

  predicate Outlasts(a: Until, b: Until) { b.At? && (a.Never? || a.t > b.t) }

  /** A lapsed denial or an expired lease. */
  predicate Over(u: Until, now: nat) { u.At? && u.t <= now }

  function Later(a: Until, b: Until): (r: Until) { if Outlasts(a, b) then a else b }

  /** `Add`: the later of the lease and now plus the ttl, unless the entry already runs longer. */
  function Added(entry: Option<Until>, lease: Until, now: nat, ttl: nat): (r: Until) {
    var until := Later(At(now + ttl), lease);
    if entry.None? then until else Later(until, entry.value)
  }

  /** `Denied`: whether the grant is refused now, and the entry afterwards. */
  function Asked(entry: Option<Until>, lease: Until, now: nat): (r: (bool, Option<Until>)) {
    if entry.None? || Over(entry.value, now) then (false, None)
    else (true, Some(Later(lease, entry.value)))
  }

  class Revoked {
    const ttl: nat
    var until: map<string, Until>

    /** `OpenRevoked`: what was stored, less what has lapsed. */
    constructor (stored: map<string, Until>, ttl: nat, now: nat)
      ensures this.ttl == ttl
      ensures forall u :: u in until <==> u in stored && !Over(stored[u], now)
      ensures forall u :: u in until ==> until[u] == stored[u]
    {
      this.ttl := ttl;
      this.until := map u | u in stored && !Over(stored[u], now) :: stored[u];
    }

    function Entry(uid: string): (r: Option<Until>)
      reads this
    {
      if uid in until then Some(until[uid]) else None
    }

    method Add(uid: string, lease: Until, now: nat)
      modifies this
      ensures until == old(until)[uid := Added(old(Entry(uid)), lease, now, ttl)]
    {
      var u := lease;
      if lease.At? && now + ttl > lease.t {
        u := At(now + ttl);
      }
      if uid !in until || Outlasts(u, until[uid]) {
        until := until[uid := u];
      }
    }

    method Denied(uid: string, lease: Until, now: nat) returns (denied: bool)
      modifies this
      ensures (denied, Entry(uid)) == Asked(old(Entry(uid)), lease, now)
      ensures denied <==> uid in old(until) && (old(until)[uid].At? ==> now < old(until)[uid].t)
      ensures denied ==> uid in until && !Outlasts(lease, until[uid]) && !Outlasts(old(until)[uid], until[uid])
      ensures until - {uid} == old(until) - {uid}
    {
      if uid !in until {
        return false;
      }
      var u := until[uid];
      if u.At? && now >= u.t {
        until := until - {uid};
        return false;
      }
      if Outlasts(lease, u) {
        until := until[uid := lease];
      }
      return true;
    }

    method Clear(uid: string) returns (had: bool)
      modifies this
      ensures had == (uid in old(until)) && until == old(until) - {uid}
    {
      had := uid in until;
      until := until - {uid};
    }
  }

  /**
   A refused lease stays refused: until it is over, asking again for it, or for any lease it
   outlasts, finds a denial that stands, whatever else was asked or denied in between.
   */
  lemma RefusedAgain(entry: Option<Until>, lease: Until, now: nat, later: Option<Until>, lease': Until, now': nat)
    requires Asked(entry, lease, now).0 && !Over(lease', now') && !Outlasts(lease', lease)
    requires later.Some? && Asked(entry, lease, now).1.Some? && !Outlasts(Asked(entry, lease, now).1.value, later.value)
    ensures Asked(later, lease', now').0
  {
  }

  /**
   A denial covers the lease it was added for and the ttl from then, whatever the entry was before,
   and lasts no longer than the longest of these.
   */
  lemma AddedCovers(entry: Option<Until>, lease: Until, now: nat, ttl: nat)
    ensures
      var r := Added(entry, lease, now, ttl);
      !Outlasts(lease, r) && !Outlasts(At(now + ttl), r) && (entry.Some? ==> !Outlasts(entry.value, r)) &&
      (r == lease || r == At(now + ttl) || Some(r) == entry)
  {
  }
}
