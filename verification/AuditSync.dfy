/** `Append` and `Close` to the end: the write under the spool's lock, then the shared fsync, among other writers. */
module AuditSync {
  import opened Common
  import S = AuditSpool
  import opened AuditWriter
  import opened GroupCommit
  import opened GroupCommitRuns

  /** NotWritten: the spool was closed or its write failed. NotSynced: the fsync failure came back. */
  datatype Answer = NotWritten | NotSynced | Accepted

  /** What another writer does to the spool in one hold of its lock. */
  datatype Turn = Appended(body: S.Body, o: S.Outcomes) | Closed(o: S.Outcomes)

  function After(c: S.Scheme, cp: Option<S.Checkpoints>, s: S.Spool, turns: seq<Turn>): (r: S.Spool)
    decreases |turns|
  {
    if turns == [] then s else
    var r := After(c, cp, s, turns[..|turns| - 1]);
    match turns[|turns| - 1]
    case Appended(body, o) => S.Append(c, cp, r, body, o)
    case Closed(o) => S.Close(c, cp, r, o)
  }

  /** The records the spool wrote are the ones the group commit counts, and none follows a close. */
  ghost predicate Joined(sp: Spool, sy: Syncer)
    reads sp, sy
  {
    sy.Valid() && sy.written == sp.written && sy.shut == sp.closed
  }

  method Count(sp: Spool, sy: Syncer)
    requires sy.Valid() && sy.written <= sp.written
    modifies sy
    ensures sy.Valid() && sy.written == sp.written && sy.st.callers == old(sy.st.callers) && sy.shut == old(sy.shut)
  {
    while sy.written < sp.written
      invariant sy.Valid() && sy.written <= sp.written && sy.st.callers == old(sy.st.callers) && sy.shut == old(sy.shut)
    {
      sy.written := sy.written + 1;
      sy.Step(WriteRecord);
    }
  }

  /** What the other writers did to the spool while this caller was at its fsync, as the count shows it. */
  method Others(sp: Spool, sy: Syncer) returns (ghost turns: seq<Turn>)
    requires sy.Valid() && !sp.closed && sp.written <= sy.written
    modifies sp
    ensures Joined(sp, sy) && sp.View() == After(sp.c, sp.cp, old(sp.View()), turns)
  {
    turns := [];
    var o := S.Outcomes(S.Nothing, S.Done, S.Nothing);
    var body := S.Body(0, S.Other(""), "", None, "", "", "");
    while sp.written < sy.written
      invariant !sp.closed && sp.written <= sy.written && sp.View() == After(sp.c, sp.cp, old(sp.View()), turns)
      decreases sy.written - sp.written
    {
      OneMoreTurn(sp.c, sp.cp, old(sp.View()), turns, Appended(body, o));
      var _ := sp.Append(body, o);
      turns := turns + [Appended(body, o)];
    }
    if sy.shut {
      o := S.Outcomes(S.Nothing, S.Nothing, S.Nothing);
      OneMoreTurn(sp.c, sp.cp, old(sp.View()), turns, Closed(o));
      var _ := sp.Close(o);
      turns := turns + [Closed(o)];
    }
  }

  lemma OneMoreTurn(c: S.Scheme, cp: Option<S.Checkpoints>, s: S.Spool, turns: seq<Turn>, x: Turn)
    ensures After(c, cp, s, turns + [x]) == After(c, cp, After(c, cp, s, turns), [x])
  {
    assert (turns + [x])[..|turns|] == turns && [x][..0] == [];
  }

  /**
   A Sync append is accepted only when its record is written and on disk; others when it is
   written. `turns` is what the other writers did before it returned.
   */
  method Append(sp: Spool, sy: Syncer, body: S.Body, o: S.Outcomes, sync: bool, ghost c: nat)
    returns (r: Answer, ghost turns: seq<Turn>)
    requires Joined(sp, sy) && c !in sy.st.callers
    modifies sp, sy
    ensures Joined(sp, sy) && sp.View() == After(sp.c, sp.cp, S.Append(sp.c, sp.cp, old(sp.View()), body, o), turns)
    ensures r.NotWritten? <==> old(sp.closed) || !o.rec.Done?
    ensures r.Accepted? && sync ==> Durable(sy.st, S.Append(sp.c, sp.cp, old(sp.View()), body, o).written)
    ensures r.NotSynced? ==> sync && sy.poisoned
  {
    turns := [];
    ghost var before := sp.View();
    var mark := sp.Append(body, o);
    AppendCounts(sp.c, sp.cp, before, body, o);
    Count(sp, sy);
    if mark.None? {
      return NotWritten, [];
    }
    if !sync {
      return Accepted, [];
    }
    var ok := sy.SyncThrough(mark.value, c);
    turns := Others(sp, sy);
    r := if ok then Accepted else NotSynced;
  }

  /** A close reports the fsync failure, or leaves every record of the opening on disk. */
  method Close(sp: Spool, sy: Syncer, o: S.Outcomes, ghost c: nat) returns (r: Answer)
    requires Joined(sp, sy) && c !in sy.st.callers
    modifies sp, sy
    ensures Joined(sp, sy) && sp.View() == S.Close(sp.c, sp.cp, old(sp.View()), o)
    ensures r.NotWritten? <==> old(sp.closed)
    ensures r.Accepted? && sp.written > 0 ==> Durable(sy.st, sp.written)
    ensures r.NotSynced? ==> sy.poisoned
  {
    var mark := sp.Close(o);
    Count(sp, sy);
    if mark.None? {
      return NotWritten;
    }
    sy.shut := true;
    var ok := sy.SyncThrough(mark.value, c);
    r := if ok then Accepted else NotSynced;
  }

  lemma AppendCounts(c: S.Scheme, cp: Option<S.Checkpoints>, s: S.Spool, body: S.Body, o: S.Outcomes)
    ensures S.Append(c, cp, s, body, o).written >= s.written && S.Append(c, cp, s, body, o).closed == s.closed
    ensures !s.closed && o.rec.Done? ==> S.Append(c, cp, s, body, o).written > 0
  {
  }
}
