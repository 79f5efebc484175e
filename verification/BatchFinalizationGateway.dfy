/** The one-shot Batch finalization transaction. The rebuild is written as the
    loops that fill the dictionary of entries and the lists of references, and
    equals the rebuild function. */
module BatchFinalizationGateway {
  import opened Common
  import opened Ordering
  import opened RunTables
  import opened BatchTables
  import opened BatchRebuild
  import opened BatchReadinessSql
  import opened BatchFinalizationSql
  import opened Database

  /** One terminal reference per Run row; any unsound row refuses the rebuild. */
  method CollectTerminalRefs(runs: seq<RunInput>, batchId: Id)
    returns (r: Result<seq<TerminalRef>>, byRun: map<Id, TerminalRef>)
    ensures r == TerminalRefs(runs, batchId)
    ensures r.Ok? ==> byRun == RefsByRun(r.value)
  {
    var refs: seq<TerminalRef> := [];
    byRun := map[];
    var i := 0;
    while i < |runs|
      invariant 0 <= i <= |runs|
      invariant TerminalRefs(runs[..i], batchId) == Ok(refs)
      invariant byRun == RefsByRun(refs)
    {
      assert runs[..i + 1][..i] == runs[..i];
      if !SoundTerminal(runs[i], batchId) {
        assert runs[i] in runs;
        return Err(AuthorityStateConflict), byRun;
      }
      var ref := TerminalOf(runs[i]);
      assert (refs + [ref])[..|refs|] == refs;
      refs := refs + [ref];
      byRun := byRun[ref.runId := ref];
      i := i + 1;
    }
    assert runs[..i] == runs;
    r := Ok(refs);
  }

  /** Fill the entries with the Run resolutions and collect the unknown lineages. */
  method FillRunEntries(rows: seq<ResolutionInput>, refs: map<Id, TerminalRef>) returns (r: Result<Folded>)
    ensures r == FoldRuns(rows, refs)
  {
    var entries: map<ItemKey, BatchItem> := map[];
    var unknown: seq<UnknownRef> := [];
    var i := 0;
    while i < |rows|
      invariant 0 <= i <= |rows|
      invariant FoldRuns(rows[..i], refs) == Ok(Folded(entries, unknown))
    {
      var row := rows[i];
      assert rows[..i + 1][..i] == rows[..i];
      if !SoundResolution(row, refs) {
        assert row in rows;
        return Err(AuthorityStateConflict);
      }
      entries := entries[row.item := ItemOf(row, refs[row.runId])];
      unknown := unknown + UnknownOf(row);
      i := i + 1;
    }
    assert rows[..i] == rows;
    r := Ok(Folded(entries, unknown));
  }

  /** Add the not-executed items and hold the fan-out items against the entries. */
  method AddScopeEntries(items: seq<ScopeItem>, start: map<ItemKey, BatchItem>) returns (r: Result<Scoped>)
    ensures r == FoldScope(items, start)
  {
    var entries := start;
    var nonRun: seq<NonRunRef> := [];
    var i := 0;
    while i < |items|
      invariant 0 <= i <= |items|
      invariant FoldScope(items[..i], start) == Ok(Scoped(entries, nonRun))
    {
      var item := items[i];
      assert items[..i + 1][..i] == items[..i];
      if item.kind.NotExecuted? {
        if item.item in entries {
          ScopeFailureSticks(items, start, i + 1);
          return Err(AuthorityStateConflict);
        }
        entries := entries[item.item := NotExecutedItemOf(item)];
        nonRun := nonRun + [NonRunRef(item.item, ScopeDigest(item))];
      } else if !FanoutAgrees(item, entries) {
        ScopeFailureSticks(items, start, i + 1);
        return Err(AuthorityStateConflict);
      }
      i := i + 1;
    }
    assert items[..i] == items;
    r := Ok(Scoped(entries, nonRun));
  }

  /** A scope fold that fails on a prefix fails on the whole. */
  lemma {:induction false} ScopeFailureSticks(items: seq<ScopeItem>, start: map<ItemKey, BatchItem>, i: nat)
    requires i <= |items| && FoldScope(items[..i], start).Err?
    ensures FoldScope(items, start) == Err(AuthorityStateConflict)
  {
    if i == |items| {
      assert items[..i] == items;
    } else {
      var front := items[..|items| - 1];
      assert front[..i] == items[..i];
      ScopeFailureSticks(front, start, i);
    }
  }

  method RebuildSourceSnapshot(e: SourceSnapshot, source: BatchSource, runs: seq<RunInput>,
                               resolutions: seq<ResolutionInput>) returns (r: Result<SourceSnapshot>)
    ensures r == Rebuild(e, source, runs, resolutions)
  {
    hide FoldRuns, FoldScope, TerminalRefs, RefsByRun, ScopeFor, SortBy, SoundResolution, Assemble;
    if !SourceFound(e, source) {
      return Err(AuthorityStateConflict);
    }
    var manifest, plan := source.manifest.value, source.plan.value;
    var runSet := RunSetDigest(e.envelope.batchId, RunIds(SortBy(runs, RunInputKey)));
    var refs, byRun := CollectTerminalRefs(runs, e.envelope.batchId);
    if refs.Err? {
      return Err(refs.error);
    }
    var scope := ScopeFor(e, source, manifest, plan, runSet);
    if scope.Err? {
      return Err(scope.error);
    }
    var folded := FillRunEntries(resolutions, byRun);
    if folded.Err? {
      return Err(folded.error);
    }
    var scoped := AddScopeEntries(scope.value.1, folded.value.entries);
    if scoped.Err? {
      return Err(scoped.error);
    }
    var policy := FindPolicy(source, e.policy.id, e.policy.version, source.suite);
    r := Assemble(e, manifest, plan, policy.value, runSet, scope.value.0, refs.value, folded.value.unknown,
                  scoped.value);
  }

  class UnitOfWork {
    const db: Tables
    const candidate: BatchAuthority
    var active: bool
    var closed: bool
    var aborted: bool
    var authorized: bool
    var snapshotted: bool
    var view: Option<BatchRows>

    ghost predicate Valid()
      reads this
    {
      && ValidBasis(candidate.basis)
      && (authorized ==> view.Some?)
      && (active ==> !closed)
    }

    function BatchId(): Id { candidate.basis.snapshot.envelope.batchId }

    constructor (db: Tables, candidate: BatchAuthority)
      requires ValidBasis(candidate.basis)
      ensures Valid() && this.db == db && this.candidate == candidate
      ensures !active && !closed && !aborted && !authorized && !snapshotted && view.None?
    {
      hide ValidBasis;
      this.db := db;
      this.candidate := candidate;
      active, closed, aborted, authorized, snapshotted := false, false, false, false, false;
      view := None;
    }

    method Enter() returns (r: Result<()>)
      requires Valid()
      modifies this
      ensures Valid() && (r.Ok? <==> !old(closed) && !old(active))
      ensures (r.Ok? ==> active) && (r.Err? ==> active == old(active))
      ensures closed == old(closed) && aborted == old(aborted) && authorized == old(authorized)
      ensures snapshotted == old(snapshotted) && view == old(view)
    {
      hide ValidBasis;
      if closed || active {
        return Err(PortContract);
      }
      active := true;
      r := Ok(());
    }

    method Exit(raised: bool) returns (r: Result<()>)
      requires Valid()
      modifies this, db`batches
      ensures Valid() && (r.Ok? <==> old(active))
      ensures r.Ok? ==> closed && !active && aborted == old(aborted)
      ensures db.batches == if old(active) && !raised && !old(aborted) && old(authorized)
                            then old(db.batches)[BatchId() := old(view).value] else old(db.batches)
    {
      hide ValidBasis;
      if !active {
        return Err(PortContract);
      }
      if !raised && !aborted && authorized {
        db.batches := db.batches[BatchId() := view.value];
      }
      active, closed := false, true;
      r := Ok(());
    }

    /** The rebuild from the tables as this transaction reads them. */
    method ReadSourceSnapshot(source: BatchSource) returns (r: Result<SourceSnapshot>)
      ensures r == Rebuild(candidate.basis.snapshot, source, RunQuery(db.runs, BatchId()),
                           ResolutionQuery(db.runs, BatchId()))
    {
      r := RebuildSourceSnapshot(candidate.basis.snapshot, source, RunQuery(db.runs, BatchId()),
                                 ResolutionQuery(db.runs, BatchId()));
    }

    /** Lock, fresh basis query, readiness binding, and a first rebuild that must
        give back the candidate. */
    method RequireFinalizationAuthority(batchId: Id, joined: Option<ReadinessFact>) returns (r: Result<()>)
      requires Valid()
      modifies this
      ensures Valid() && active == old(active) && closed == old(closed) && aborted == old(aborted)
      ensures old(active) && !old(aborted) && !old(authorized) && batchId == BatchId() && batchId in db.batches ==>
        var rows, e := db.batches[batchId], candidate.basis.snapshot;
        && (r.Ok? <==>
              && FinalizerLockPasses(rows, joined, candidate)
              && Rebuild(e, rows.source, RunQuery(db.runs, batchId), ResolutionQuery(db.runs, batchId)) == Ok(e))
        && (if r.Ok? then authorized && view == Some(rows) else !authorized && r == Err(AuthorityStateConflict))
      ensures old(active) && !old(aborted) && !old(authorized) && batchId != BatchId() ==>
        r == Err(AuthorityPermissionDenied) && !authorized
    {
      hide ValidBasis, Rebuild, RunQuery, ResolutionQuery, ReadinessBinding;
      if aborted || !active {
        return Err(PortContract);
      }
      if authorized {
        return if batchId == BatchId() then Ok(()) else Err(PortContract);
      }
      if batchId != BatchId() || batchId !in db.batches {
        return Err(AuthorityPermissionDenied);
      }
      var rows, e := db.batches[batchId], candidate.basis.snapshot;
      if rows.row.writeEpoch != candidate.writeEpoch {
        return Err(AuthorityStateConflict);
      }
      if rows.basis.None? {
        if rows.row.state != FinalizingBatch || rows.row.version != e.envelope.sourceVersion {
          return Err(AuthorityStateConflict);
        }
      } else {
        var stored := rows.basis.value;
        if stored.basis.snapshot.envelope.sourceVersion != e.envelope.sourceVersion
           || rows.row.version != e.envelope.sourceVersion + 1 || rows.row.state != stored.basis.outcome
           || !IsExecutionTerminal(rows.row.state) || stored.readinessRef != rows.row.readinessRef
        {
          return Err(AuthorityStateConflict);
        }
      }
      if !ReadinessBinding(rows.row, joined, e) {
        return Err(AuthorityStateConflict);
      }
      var actual := ReadSourceSnapshot(rows.source);
      if actual != Ok(e) {
        return Err(AuthorityStateConflict);
      }
      authorized, view := true, Some(rows);
      r := Ok(());
    }

    method GetMutationSnapshotForUpdate() returns (r: Result<()>)
      requires Valid()
      modifies this`snapshotted
      ensures Valid()
      ensures r.Ok? <==>
        && active && !aborted && authorized
        && Rebuild(candidate.basis.snapshot, view.value.source, RunQuery(db.runs, BatchId()),
                   ResolutionQuery(db.runs, BatchId())) == Ok(candidate.basis.snapshot)
        && view.value.row.version == candidate.basis.snapshot.envelope.sourceVersion
      ensures snapshotted == (r.Ok? || old(snapshotted))
    {
      hide Rebuild, RunQuery, ResolutionQuery, ValidBasis;
      if aborted || !active || !authorized {
        return Err(PortContract);
      }
      var actual := ReadSourceSnapshot(view.value.source);
      if actual != Ok(candidate.basis.snapshot) {
        return Err(AuthorityStateConflict);
      }
      if view.value.row.version != candidate.basis.snapshot.envelope.sourceVersion {
        return Err(PortContract);
      }
      snapshotted := true;
      r := Ok(());
    }

    /** Replay the stored basis, or rebuild once more and write items, basis, Batch
        row and event. */
    method PublishFinalization() returns (r: Result<Replay<BatchBasis>>)
      requires Valid()
      modifies this
      ensures Valid() && active == old(active) && closed == old(closed) && authorized == old(authorized)
      ensures r.Err? ==> aborted
      ensures r.Ok? ==>
        && old(active) && !aborted && old(authorized)
        && match ReplayFinalization(old(view).value, candidate)
           case Ok(Some(b)) => r.value == Replay(b, true) && view == old(view)
           case Ok(None) =>
             && r.value == Replay(candidate.basis, false)
             && view.Some? && WriteFinalization(old(view).value, candidate) == Ok(view.value)
             && Rebuild(candidate.basis.snapshot, old(view).value.source, RunQuery(db.runs, BatchId()),
                        ResolutionQuery(db.runs, BatchId())) == Ok(candidate.basis.snapshot)
           case Err(_) => false
    {
      hide ValidBasis, Rebuild, RunQuery, ResolutionQuery, ItemMap;
      if aborted || !active || !authorized {
        aborted := true;
        return Err(PortContract);
      }
      var rows, b := view.value, candidate.basis;
      var stored := ReplayFinalization(rows, candidate);
      if stored.Err? {
        aborted := true;
        return Err(stored.error);
      }
      if stored.value.Some? {
        return Ok(Replay(stored.value.value, true));
      }
      if !snapshotted {
        aborted := true;
        return Err(VersionConflict);
      }
      var actual := ReadSourceSnapshot(rows.source);
      if actual != Ok(b.snapshot) {
        aborted := true;
        return Err(AuthorityStateConflict);
      }
      // INSERT INTO qep_batch_item_resolutions, one row per entry, then count them
      var items := InsertItems(b.entries);
      if items.Err? || rows.items != map[] || |b.entries| == 0 {
        aborted := true;
        return Err(ConstraintViolation);
      }
      rows := rows.(items := items.value);
      // INSERT INTO qep_batch_finalization_bases
      rows := rows.(basis := Some(BatchBasisRow(b, rows.row.readinessRef)));
      view := Some(rows);
      // UPDATE qep_batches ... WHERE state = 'finalizing' AND version AND epoch
      if rows.row.state != FinalizingBatch || rows.row.version != b.snapshot.envelope.sourceVersion
         || rows.row.writeEpoch != candidate.writeEpoch
      {
        aborted := true;
        return Err(VersionConflict);
      }
      rows := rows.(row := rows.row.(state := b.outcome, version := rows.row.version + 1));
      // INSERT INTO qep_outbox_events
      view := Some(rows.(events := rows.events + [Finalized(BatchBasisDigest(b), candidate.writeEpoch)]));
      r := Ok(Replay(b, false));
    }
  }

  /** One row per entry under the primary key of the item. */
  method InsertItems(entries: seq<BatchItem>) returns (r: Result<map<ItemKey, BatchItem>>)
    ensures r.Ok? <==> forall i, j :: 0 <= i < j < |entries| ==> entries[i].item != entries[j].item
    ensures r.Ok? ==> r.value == ItemMap(entries)
  {
    var items: map<ItemKey, BatchItem> := map[];
    var i := 0;
    while i < |entries|
      invariant 0 <= i <= |entries|
      invariant items == ItemMap(entries[..i])
      invariant forall j :: 0 <= j < i ==> entries[j].item in items
      invariant forall k :: k in items ==> exists j :: 0 <= j < i && entries[j].item == k
      invariant forall j, k :: 0 <= j < k < i ==> entries[j].item != entries[k].item
    {
      if entries[i].item in items {
        var j :| 0 <= j < i && entries[j].item == entries[i].item;
        return Err(ConstraintViolation);
      }
      assert entries[..i + 1][..i] == entries[..i];
      items := items[entries[i].item := entries[i]];
      i := i + 1;
    }
    assert entries[..i] == entries;
    r := Ok(items);
  }
}
