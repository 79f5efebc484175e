/** The one-shot Run finalization transaction, statement by statement. */
module RunFinalizationGateway {
  import opened Common
  import opened Ordering
  import opened RunTables
  import opened RunFinalizationSql
  import opened Database

  /** One INSERT per entry: the item must belong to the Run and have no row yet. */
  method InsertResolutions(rows: RunRows, entries: seq<ResolutionEntry>, sourceVersion: nat)
    returns (r: Result<map<ItemKey, ResolutionRow>>)
    requires ValidEntries(entries)
    ensures r.Ok? <==> forall e :: e in entries ==> e.item in rows.items && e.item !in rows.resolutions
    ensures r.Ok? ==> r.value == rows.resolutions + ResolutionMap(entries, sourceVersion)
    ensures r.Err? ==> r.error == ConstraintViolation
  {
    hide ResolutionMap, RowOfEntry;
    var resolutions := rows.resolutions;
    var i := 0;
    EmptyResolutions(sourceVersion);
    assert entries[..0] == [];
    while i < |entries|
      invariant 0 <= i <= |entries|
      invariant resolutions == rows.resolutions + ResolutionMap(entries[..i], sourceVersion)
      invariant forall j :: 0 <= j < i ==> entries[j].item in rows.items && entries[j].item !in rows.resolutions
    {
      var e := entries[i];
      NewItem(entries, i, sourceVersion);
      if e.item !in rows.items || e.item in resolutions {
        assert e in entries;
        return Err(ConstraintViolation);
      }
      ExtendResolutions(entries, i, sourceVersion);
      resolutions := resolutions[e.item := RowOfEntry(e, sourceVersion)];
      i := i + 1;
    }
    assert entries[..i] == entries;
    r := Ok(resolutions);
  }

  lemma EmptyResolutions(v: nat)
    ensures ResolutionMap([], v) == map[]
  {
  }

  lemma ExtendResolutions(entries: seq<ResolutionEntry>, i: nat, v: nat)
    requires i < |entries|
    ensures ResolutionMap(entries[..i + 1], v) == ResolutionMap(entries[..i], v)[entries[i].item := RowOfEntry(entries[i], v)]
  {
    assert entries[..i + 1][..i] == entries[..i];
  }

  /** Items are distinct, so an item has no row among those inserted before it. */
  lemma NewItem(entries: seq<ResolutionEntry>, i: nat, v: nat)
    requires i < |entries| && IsAscending(ItemKeys(entries))
    ensures entries[i].item !in ResolutionMap(entries[..i], v)
  {
    MappedItems(entries[..i], v);
    forall j | 0 <= j < i
      ensures entries[..i][j].item != entries[i].item
    {
      assert Less(ItemKeys(entries)[j], ItemKeys(entries)[i]);
    }
  }

  lemma {:induction false} MappedItems(entries: seq<ResolutionEntry>, v: nat)
    ensures forall k :: k in ResolutionMap(entries, v) ==> exists j :: 0 <= j < |entries| && entries[j].item == k
  {
    if |entries| > 0 {
      var front := entries[..|entries| - 1];
      MappedItems(front, v);
      forall k | k in ResolutionMap(entries, v)
        ensures exists j :: 0 <= j < |entries| && entries[j].item == k
      {
        if k in ResolutionMap(front, v) {
          var j :| 0 <= j < |front| && front[j].item == k;
          assert entries[j].item == k;
        }
      }
    }
  }

  class UnitOfWork {
    const db: Tables
    var active: bool
    var closed: bool
    var aborted: bool
    var view: Option<RunRows>
    var authority: Option<RunAuthority>
    var snapshot: Option<RunSnapshot>

    ghost predicate Valid()
      reads this
    {
      (authority.Some? ==> view.Some?) && (active ==> !closed)
    }

    constructor (db: Tables)
      ensures Valid() && this.db == db && !active && !closed && !aborted && authority.None? && view.None?
    {
      this.db := db;
      active, closed, aborted := false, false, false;
      view, authority, snapshot := None, None, None;
    }

    method Enter() returns (r: Result<()>)
      requires Valid()
      modifies this
      ensures Valid() && (r.Ok? <==> !old(closed) && !old(active))
      ensures (r.Ok? ==> active) && (r.Err? ==> active == old(active))
      ensures closed == old(closed) && aborted == old(aborted)
      ensures view == old(view) && authority == old(authority) && snapshot == old(snapshot)
    {
      if closed || active {
        return Err(PortContract);
      }
      active := true;
      r := Ok(());
    }

    /** Installs the view exactly when nothing was raised and no publication failed. */
    method Exit(raised: bool) returns (r: Result<()>)
      requires Valid()
      modifies this, db`runs
      ensures Valid() && (r.Ok? <==> old(active))
      ensures r.Ok? ==> closed && !active && aborted == old(aborted)
      ensures db.runs == if old(active) && !raised && !old(aborted) && old(authority).Some?
                         then old(db.runs)[old(authority).value.runId := old(view).value] else old(db.runs)
    {
      if !active {
        return Err(PortContract);
      }
      if !raised && !aborted && authority.Some? {
        db.runs := db.runs[authority.value.runId := view.value];
      }
      active, closed := false, true;
      r := Ok(());
    }

    /** Locks the Run, then reads its basis again with a fresh snapshot. */
    method RequireFinalizationAuthority(id: Id, writeEpoch: nat) returns (r: Result<RunAuthority>)
      requires Valid()
      modifies this
      ensures Valid() && active == old(active) && closed == old(closed) && aborted == old(aborted)
      ensures old(active) && !old(aborted) && old(authority).None? ==>
        if id !in db.runs then r == Err(AuthorityPermissionDenied) && authority.None?
        else
          && r == RequireAuthority(id, db.runs[id], writeEpoch)
          && (if r.Ok? then view == Some(db.runs[id]) && authority == Some(r.value) else authority.None?)
      ensures old(active) && !old(aborted) && old(authority).Some? ==>
        && view == old(view) && authority == old(authority)
        && r == if old(authority).value.runId == id then Ok(old(authority).value) else Err(PortContract)
      ensures !old(active) || old(aborted) ==> r == Err(PortContract) && view == old(view)
    {
      if aborted || !active {
        return Err(PortContract);
      }
      if authority.Some? {
        if authority.value.runId != id {
          return Err(PortContract);
        }
        return Ok(authority.value);
      }
      if id !in db.runs {
        return Err(AuthorityPermissionDenied);
      }
      var rows := db.runs[id];
      if writeEpoch < 1 {
        return Err(AuthorityStateConflict);
      }
      var terminalSource := if rows.basis.Some? then Some(rows.basis.value.sourceVersion) else None;
      if (rows.row.phase == ClosedPhase) != terminalSource.Some? {
        return Err(AuthorityStateConflict);
      }
      var source := if terminalSource.None? then rows.row.version else terminalSource.value;
      var granted := RunAuthority(id, rows.batchId, source, rows.row.fence, writeEpoch);
      view, authority := Some(rows), Some(granted);
      r := Ok(granted);
    }

    method GetMutationSnapshotForUpdate(id: Id) returns (r: Result<RunSnapshot>)
      requires Valid()
      modifies this`snapshot
      ensures Valid()
      ensures r.Ok? <==> old(active) && !old(aborted) && authority.Some? && authority.value.runId == id
      ensures r.Ok? ==> r.value == MutationSnapshot(id, view.value) && snapshot == Some(r.value)
      ensures r.Err? ==> snapshot == old(snapshot)
    {
      if aborted || !active || authority.None? || authority.value.runId != id {
        return Err(PortContract);
      }
      var rows := view.value;
      // SELECT ... JOIN assignment WHERE fence = current_fence AND assignment.attempt_id = attempt.id
      var found: Option<LockedAttempt> := None;
      var i := 0;
      while i < |rows.attempts| && found.None?
        invariant 0 <= i <= |rows.attempts|
        invariant found.None? ==> BoundAttemptIndex(rows, 0) == BoundAttemptIndex(rows, i)
        invariant found.Some? ==>
          && BoundAttemptIndex(rows, 0).Some?
          && found == Some(LockedAttempt(rows.attempts[BoundAttemptIndex(rows, 0).value].id,
                                         rows.attempts[BoundAttemptIndex(rows, 0).value].version))
        decreases |rows.attempts| - i, if found.None? then 1 else 0
      {
        var t := rows.attempts[i];
        if t.fence == rows.row.fence && t.assignmentId in rows.assignments
           && rows.assignments[t.assignmentId].attemptId == Some(t.id)
        {
          found := Some(LockedAttempt(t.id, t.version));
        } else {
          i := i + 1;
        }
      }
      snapshot := Some(RunSnapshot(id, rows.row.version, found));
      r := Ok(snapshot.value);
    }

    /** The stored basis is replayed; otherwise resolutions, basis, Attempt, Run
        and handoff are written one statement after the other. */
    method PublishFinalization(p: RunPublication) returns (r: Result<Replay<RunProjection>>)
      requires Valid() && ValidPublication(p)
      modifies this
      ensures Valid() && active == old(active) && closed == old(closed) && authority == old(authority)
      ensures old(active) && !old(aborted) && old(view).Some? ==>
        match FinalizeRows(old(view).value, old(authority), old(snapshot), p, db.evidence)
        case Ok(done) =>
          r == Ok(Replay(done.projection, done.replayed)) && view == Some(done.rows) && !aborted
        case Err(e) => r == Err(e) && aborted
      ensures !old(active) || old(aborted) ==> r == Err(PortContract) && aborted
    {
      if aborted || !active || authority.None? || authority.value.runId != p.projection.runId {
        aborted := true;
        return Err(PortContract);
      }
      if authority.value != p.authority {
        aborted := true;
        return Err(AuthorityStateConflict);
      }
      var rows := view.value;
      if rows.basis.Some? {
        var stored := rows.basis.value;
        if stored.sourceVersion != p.authority.sourceVersion || stored != p.basis {
          aborted := true;
          return Err(IdempotencyConflict);
        }
        var projection := LookupStored(p.projection.runId, rows, p.authority.sourceVersion);
        if projection.Err? || projection.value.None? {
          aborted := true;
          return Err(PortContract);
        }
        return Ok(Replay(projection.value.value, true));
      }
      var b := p.basis;
      if snapshot != Some(p.expected) {
        aborted := true;
        return Err(VersionConflict);
      }
      if !VerifiedInput(b.runId, rows, b, db.evidence) {
        aborted := true;
        return Err(AuthorityStateConflict);
      }
      // INSERT INTO qep_run_item_resolutions, one row per entry
      var inserted := InsertResolutions(rows, p.entries, b.sourceVersion);
      if inserted.Err? {
        aborted := true;
        return Err(inserted.error);
      }
      // INSERT INTO qep_run_finalization_bases
      if b.batchId != rows.batchId || (b.terminal.FinalAttempt? && b.terminal.fence == 0) {
        aborted := true;
        return Err(ConstraintViolation);
      }
      rows := rows.(resolutions := inserted.value, basis := Some(b));
      view := Some(rows);
      // UPDATE qep_attempts ... WHERE id, run, version and fence are the basis'
      if b.terminal.FinalAttempt? {
        rows := rows.(attempts := FinishAttempt(rows.attempts, b.runId, b.terminal));
        view := Some(rows);
      }
      // UPDATE qep_runs ... WHERE batch_id and version are the locked ones
      if rows.row.version != p.expected.version || rows.batchId != p.authority.batchId {
        aborted := true;
        return Err(VersionConflict);
      }
      rows := rows.(row := rows.row.(phase := ClosedPhase, disposition := Some(ClosedNoRetry),
                                     outcome := Some(p.projection.outcome),
                                     basisDigest := Some(p.projection.basisDigest),
                                     version := rows.row.version + 1));
      // INSERT INTO qep_outbox_events
      view := Some(rows.(handoffs := rows.handoffs + [p.handoff]));
      r := Ok(Replay(p.projection, false));
    }
  }
}
