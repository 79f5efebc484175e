/** The one-shot readiness transaction: the source checks as the loops that run
    them, and the publication of the readiness fact. */
module BatchReadinessGateway {
  import opened Common
  import opened Ordering
  import opened RunAggregate
  import opened RunTables
  import opened RunFinalizationSql
  import opened BatchTables
  import opened BatchReadinessSql
  import opened Database

  /** The resolution and handoff rows of one Run against its closure. */
  method CheckDetail(rows: RunRows, c: RunClosure) returns (ok: bool)
    ensures ok <==> DetailMatches(rows, c)
  {
    if |rows.resolutions| != |c.entries| {
      return false;
    }
    var i := 0;
    while i < |c.entries|
      invariant 0 <= i <= |c.entries|
      invariant forall j :: 0 <= j < i ==>
        && c.entries[j].item in rows.resolutions
        && var r := rows.resolutions[c.entries[j].item];
           && r.sourceVersion == c.basis.sourceVersion && r.entryDigest == EntryDigest(c.entries[j])
           && r.classification == c.entries[j].classification && r.payload == c.entries[j]
    {
      var e := c.entries[i];
      if e.item !in rows.resolutions {
        return false;
      }
      var r := rows.resolutions[e.item];
      if r.sourceVersion != c.basis.sourceVersion || r.entryDigest != EntryDigest(e)
         || r.classification != e.classification || r.payload != e
      {
        return false;
      }
      i := i + 1;
    }
    ok := |rows.handoffs| > 0 && rows.handoffs[0] == c.handoff;
  }

  /** The offered and claimed rows of the Batch, in order, against the candidate. */
  method CheckOpportunities(s: ReadinessSnapshot, runs: map<Id, RunRows>) returns (ok: bool)
    ensures ok <==> OpportunitiesMatch(s, runs)
  {
    var elements := OpportunityRanks(runs, s.batchId);
    var rows := Ascending(elements);
    AscendingLists(elements);
    if |rows| != |s.opportunities| {
      return false;
    }
    var i := 0;
    while i < |rows|
      invariant 0 <= i <= |rows|
      invariant forall j :: 0 <= j < i ==> OpportunityMatches(rows[j], s.opportunities[j], runs)
    {
      assert rows[i] in rows && rows[i] in elements;
      var r := runs[rows[i].major].assignments[rows[i].minor];
      if rows[i].major != s.opportunities[i].runId || r.attemptId.Some? || r.fence.Some?
         || Lookup(r.payload, OpportunityKindField) != Some(KindJson(s.opportunities[i].kind))
         || Lookup(r.payload, AuthorityDigestField) != Some(JDigest(s.opportunities[i].authority))
      {
        return false;
      }
      i := i + 1;
    }
    ok := true;
  }

  /** All source checks in the order of the queries, stopping at the first mismatch. */
  method ValidateSourceSnapshot(s: ReadinessSnapshot, source: BatchSource, runs: map<Id, RunRows>) returns (ok: bool)
    requires ValidReadiness(s)
    ensures ok <==>
      && SourceMatches(s, source) && RunsMatch(s, runs)
      && (forall i :: 0 <= i < |s.runIds| ==> DetailMatches(runs[s.runIds[i]], s.closures[i]))
      && OpportunitiesMatch(s, runs)
  {
    hide DetailMatches, OpportunitiesMatch, SourceMatches, ClosureOf, OwnsManifest, RunRowMatches;
    var expected := set id | id in s.runIds;
    if !SourceMatches(s, source) || expected != RunsOf(runs, s.batchId) {
      return false;
    }
    var i := 0;
    while i < |s.runIds|
      invariant 0 <= i <= |s.runIds|
      invariant forall j :: 0 <= j < i ==>
        && s.runIds[j] in runs && SeatMatches(runs[s.runIds[j]], s.plan, s.runIds[j])
        && RunRowMatches(runs[s.runIds[j]], s.closures[j])
        && DetailMatches(runs[s.runIds[j]], s.closures[j])
    {
      assert s.runIds[i] in expected;
      var rows := runs[s.runIds[i]];
      if !SeatMatches(rows, s.plan, s.runIds[i]) || !RunRowMatches(rows, s.closures[i]) {
        return false;
      }
      var detail := CheckDetail(rows, s.closures[i]);
      if !detail {
        return false;
      }
      i := i + 1;
    }
    ok := CheckOpportunities(s, runs);
  }

  class UnitOfWork {
    const db: Tables
    const candidate: ReadinessAuthority
    var active: bool
    var closed: bool
    var aborted: bool
    var authorized: bool
    var view: Option<BatchRows>

    ghost predicate Valid()
      reads this
    {
      && ValidReadiness(candidate.snapshot)
      && (authorized ==> view.Some?)
      && (active ==> !closed)
    }

    constructor (db: Tables, candidate: ReadinessAuthority)
      requires ValidReadiness(candidate.snapshot)
      ensures Valid() && this.db == db && this.candidate == candidate
      ensures !active && !closed && !aborted && !authorized && view.None?
    {
      this.db := db;
      this.candidate := candidate;
      active, closed, aborted, authorized := false, false, false, false;
      view := None;
    }

    method Enter() returns (r: Result<()>)
      requires Valid()
      modifies this
      ensures Valid() && (r.Ok? <==> !old(closed) && !old(active))
      ensures (r.Ok? ==> active) && (r.Err? ==> active == old(active))
      ensures closed == old(closed) && aborted == old(aborted) && authorized == old(authorized) && view == old(view)
    {
      if closed || active {
        return Err(PortContract);
      }
      active := true;
      r := Ok(());
    }

    method Exit(raised: bool) returns (r: Result<()>)
      requires Valid()
      modifies this, db`batches
      ensures Valid() && (r.Ok? <==> old(active))
      ensures r.Ok? ==> closed && !active && aborted == old(aborted)
      ensures db.batches == if old(active) && !raised && !old(aborted) && old(authorized)
                            then old(db.batches)[candidate.snapshot.batchId := old(view).value] else old(db.batches)
    {
      if !active {
        return Err(PortContract);
      }
      if !raised && !aborted && authorized {
        db.batches := db.batches[candidate.snapshot.batchId := view.value];
      }
      active, closed := false, true;
      r := Ok(());
    }

    /** `joined` is what the LEFT JOIN of the lock statement saw. */
    method RequireReadinessAuthority(batchId: Id, joined: Option<ReadinessFact>) returns (r: Result<()>)
      requires Valid()
      modifies this
      ensures Valid() && active == old(active) && closed == old(closed) && aborted == old(aborted)
      ensures old(active) && !old(aborted) && !old(authorized) && batchId == candidate.snapshot.batchId
              && batchId in db.batches ==>
        var rows, s := db.batches[batchId], candidate.snapshot;
        && (r.Ok? <==>
              && ReadinessLockPasses(rows.row, joined, candidate)
              && SourceMatches(s, rows.source) && RunsMatch(s, db.runs)
              && (forall i :: 0 <= i < |s.runIds| ==> DetailMatches(db.runs[s.runIds[i]], s.closures[i]))
              && OpportunitiesMatch(s, db.runs))
        && (if r.Ok? then authorized && view == Some(rows) else !authorized && r == Err(AuthorityStateConflict))
      ensures old(active) && !old(aborted) && !old(authorized) && batchId != candidate.snapshot.batchId ==>
        r == Err(AuthorityPermissionDenied) && !authorized
    {
      hide ValidReadiness, SourceMatches, RunsMatch, DetailMatches, OpportunitiesMatch, StoredBinding;
      if aborted || !active {
        return Err(PortContract);
      }
      if authorized {
        return if batchId == candidate.snapshot.batchId then Ok(()) else Err(PortContract);
      }
      if batchId != candidate.snapshot.batchId || batchId !in db.batches {
        return Err(AuthorityPermissionDenied);
      }
      var rows := db.batches[batchId];
      if rows.row.writeEpoch != candidate.writeEpoch {
        return Err(AuthorityStateConflict);
      }
      if joined.None? {
        if rows.row.state != RunningBatch || rows.row.version != candidate.snapshot.sourceVersion {
          return Err(AuthorityStateConflict);
        }
      } else if !StoredBinding(rows.row, joined.value, candidate) {
        return Err(AuthorityStateConflict);
      }
      var sound := ValidateSourceSnapshot(candidate.snapshot, rows.source, db.runs);
      if !sound {
        return Err(AuthorityStateConflict);
      }
      authorized, view := true, Some(rows);
      r := Ok(());
    }

    /** Replay the stored fact, or read the sources once more and write the fact,
        the Batch row and the event. */
    method PublishReadiness() returns (r: Result<Replay<ReadinessFact>>)
      requires Valid() && IsReady(candidate.snapshot)
      modifies this
      ensures Valid() && active == old(active) && closed == old(closed) && authorized == old(authorized)
      ensures r.Err? ==> aborted
      ensures r.Ok? ==>
        && old(active) && !aborted && old(authorized)
        && match ReplayReadiness(old(view).value, candidate)
           case Ok(Some(f)) => r.value == Replay(f, true) && view == old(view)
           case Ok(None) =>
             && r.value == Replay(FactOf(candidate), false)
             && view.Some? && WriteReadiness(old(view).value, candidate) == Ok(view.value)
             && SourceMatches(candidate.snapshot, old(view).value.source) && RunsMatch(candidate.snapshot, db.runs)
             && (forall i :: 0 <= i < |candidate.snapshot.runIds| ==>
                   DetailMatches(db.runs[candidate.snapshot.runIds[i]], candidate.snapshot.closures[i]))
             && OpportunitiesMatch(candidate.snapshot, db.runs)
           case Err(_) => false
    {
      hide ValidReadiness, SourceMatches, RunsMatch, DetailMatches, OpportunitiesMatch, PayloadOf;
      if aborted || !active || !authorized {
        aborted := true;
        return Err(PortContract);
      }
      var rows := view.value;
      var stored := ReplayReadiness(rows, candidate);
      if stored.Err? {
        aborted := true;
        return Err(stored.error);
      }
      if stored.value.Some? {
        return Ok(Replay(stored.value.value, true));
      }
      if rows.row.version != candidate.snapshot.sourceVersion {
        aborted := true;
        return Err(VersionConflict);
      }
      var sound := ValidateSourceSnapshot(candidate.snapshot, rows.source, db.runs);
      if !sound {
        aborted := true;
        return Err(AuthorityStateConflict);
      }
      // INSERT INTO qep_batch_finalization_readiness_facts
      var f := FactOf(candidate);
      assert rows.facts == [];
      rows := rows.(facts := rows.facts + [f]);
      view := Some(rows);
      // UPDATE qep_batches ... WHERE state = 'running' AND the fact is unset
      if rows.row.state != RunningBatch || rows.row.writeEpoch != candidate.writeEpoch || rows.row.readinessRef.Some? {
        aborted := true;
        return Err(VersionConflict);
      }
      rows := rows.(row := rows.row.(state := FinalizingBatch, version := rows.row.version + 1,
                                     readinessRef := Some(f.ref)));
      // INSERT INTO qep_outbox_events
      view := Some(rows.(events := rows.events + [FinalizationStarted(f.ref, candidate.writeEpoch)]));
      r := Ok(Replay(f, false));
    }
  }
}
