/** The invariant of the interleaved control plane and its preservation by
    every step: lock exclusivity, closed Runs that never change again, and
    readiness facts and Batch bases that stay true of the tables they were
    checked against. */
module ControlPlaneInvariant {
  import opened Common
  import opened Ordering
  import opened RunAggregate
  import opened RunTables
  import opened AssignmentSql
  import opened AssignmentLifecycle
  import opened RunFinalizationSql
  import opened RunLifecycle
  import opened BatchTables
  import opened BatchRebuild
  import opened BatchReadinessSql
  import opened BatchFinalizationSql
  import opened ControlPlane

  // ----- Runs only move forward -------------------------------------------

  /** How a Run may differ later: same Batch and items, never a lower version,
      changed only while it was open, and then to a higher version. */
  predicate Moved(before: RunRows, after: RunRows) {
    && after.batchId == before.batchId && after.items == before.items && after.place == before.place
    && (after == before || (before.basis.None? && before.row.version < after.row.version))
  }

  predicate RunsMoved(before: map<Id, RunRows>, after: map<Id, RunRows>) {
    before.Keys == after.Keys && forall r :: r in before ==> Moved(before[r], after[r])
  }

  predicate BatchClosed(runs: map<Id, RunRows>, b: Id) {
    forall r :: r in RunsOf(runs, b) ==> runs[r].basis.Some?
  }

  /** Once all Runs of a Batch are closed, its Run rows are frozen. */
  lemma ClosedBatchFrozen(before: map<Id, RunRows>, after: map<Id, RunRows>, b: Id)
    requires RunsMoved(before, after) && BatchClosed(before, b)
    ensures RunsOf(after, b) == RunsOf(before, b) && BatchClosed(after, b)
    ensures forall r :: r in RunsOf(before, b) ==> after[r] == before[r]
  {
    forall r
      ensures r in RunsOf(after, b) <==> r in RunsOf(before, b)
    {
      if r in before {
        assert Moved(before[r], after[r]);
      }
    }
  }

  predicate SameBatchRuns(s: map<Id, RunRows>, t: map<Id, RunRows>, b: Id) {
    RunsOf(s, b) == RunsOf(t, b) && forall r :: r in RunsOf(s, b) ==> s[r] == t[r]
  }

  /** Every query over the Runs of a Batch depends only on those Runs. */
  lemma SameQueries(s: map<Id, RunRows>, t: map<Id, RunRows>, b: Id)
    requires SameBatchRuns(s, t, b)
    ensures RunIdList(s, b) == RunIdList(t, b)
    ensures RunQuery(s, b) == RunQuery(t, b)
    ensures ResolutionQuery(s, b) == ResolutionQuery(t, b)
    ensures OpportunityRanks(s, b) == OpportunityRanks(t, b)
  {
    assert RunRanks(s, b) == RunRanks(t, b);
    var ids := RunIdList(s, b);
    assert RunQuery(s, b) == RunQuery(t, b);
    SameListing(s, t, ids);
  }

  lemma {:induction false} SameListing(s: map<Id, RunRows>, t: map<Id, RunRows>, ids: seq<Id>)
    requires forall i :: 0 <= i < |ids| ==> ids[i] in s && ids[i] in t && s[ids[i]] == t[ids[i]]
    ensures ListResolutions(s, ids) == ListResolutions(t, ids)
  {
    if |ids| > 0 {
      SameListing(s, t, ids[..|ids| - 1]);
    }
  }

  // ----- What checks and facts say about the tables -----------------------

  /** The readiness checks, all at once on one state of the tables. */
  predicate ReadyNow(s: ReadinessSnapshot, source: BatchSource, runs: map<Id, RunRows>) {
    && SourceMatches(s, source)
    && RunsMatch(s, runs)
    && (forall i :: 0 <= i < |s.runIds| ==> DetailMatches(runs[s.runIds[i]], s.closures[i]))
    && OpportunitiesMatch(s, runs)
  }

  /** The rebuild, all at once on one state of the tables. */
  predicate RebuildsNow(e: SourceSnapshot, source: BatchSource, runs: map<Id, RunRows>) {
    Rebuild(e, source, RunQuery(runs, e.envelope.batchId), ResolutionQuery(runs, e.envelope.batchId)) == Ok(e)
  }

  /** A readiness payload is true of the tables: it lists the Batch's Runs in
      order with their bases, all are closed, and no start is on offer. */
  predicate FactHolds(p: ReadinessPayload, runs: map<Id, RunRows>) {
    && p.runIds == RunIdList(runs, p.batchId)
    && BatchClosed(runs, p.batchId)
    && |p.runBases| == |p.runIds|
    && (forall i :: 0 <= i < |p.runIds| ==> runs[p.runIds[i]].basis == Some(p.runBases[i].preimage))
    && OpportunityRanks(runs, p.batchId) == {}
    && p.retries == [] && p.opportunities == []
  }

  predicate SoundFact(b: Id, rows: BatchRows) {
    && |rows.facts| == 1
    && var f := rows.facts[0];
       && rows.row.readinessRef == Some(f.ref)
       && f.ref == ReadinessDigest(f.payload)
       && f.batchVersion == f.sourceVersion + 1
       && f.payload.sourceVersion == f.sourceVersion && f.payload.batchId == b
  }

  predicate NoFact(rows: BatchRows) {
    rows.facts == [] && rows.basis.None? && rows.row.readinessRef.None? && rows.items == map[]
  }

  predicate FinalizedAs(b: Id, rows: BatchRows, stored: BatchBasisRow) {
    var e := stored.basis.snapshot;
    && |rows.facts| == 1
    && e.envelope.batchId == b
    && e.envelope.sourceVersion == rows.facts[0].batchVersion
    && rows.row.version == e.envelope.sourceVersion + 1
    && rows.row.state == stored.basis.outcome && IsExecutionTerminal(rows.row.state)
    && stored.readinessRef == rows.row.readinessRef
    && ReadinessBinding(rows.row, Some(rows.facts[0]), e)
  }

  /** State, version, fact and basis of one Batch agree. */
  predicate BatchShape(b: Id, rows: BatchRows) {
    if rows.row.state == FinalizingBatch then
      SoundFact(b, rows) && rows.basis.None? && rows.items == map[] && rows.row.version == rows.facts[0].batchVersion
    else if rows.basis.Some? then
      SoundFact(b, rows) && FinalizedAs(b, rows, rows.basis.value)
    else NoFact(rows)
  }

  /** ... and the fact and the basis are true of the Run tables. */
  predicate BatchInv(b: Id, rows: BatchRows, runs: map<Id, RunRows>) {
    && BatchShape(b, rows)
    && (rows.facts != [] ==> FactHolds(rows.facts[0].payload, runs))
    && (rows.basis.Some? ==> RebuildsNow(rows.basis.value.basis.snapshot, rows.source, runs))
  }

  lemma RankedIds(ids: seq<Id>, runs: map<Id, RunRows>, b: Id)
    requires StrictlyIncreasing(ids) && (set i | i in ids) == RunsOf(runs, b)
    ensures ids == RunIdList(runs, b)
  {
    var ranks := seq(|ids|, i requires 0 <= i < |ids| => RunRank(ids[i]));
    var elements := RunRanks(runs, b);
    forall r
      ensures r in ranks <==> r in elements
    {
      if r in ranks {
        var i :| 0 <= i < |ranks| && ranks[i] == r;
        assert ids[i] in (set i | i in ids);
      }
      if r in elements {
        var id :| id in RunsOf(runs, b) && r == RunRank(id);
        assert id in (set i | i in ids);
        var i :| 0 <= i < |ids| && ids[i] == id;
        assert ranks[i] == r;
      }
    }
    AscendingLists(elements);
    AscendingUnique(ranks, Ascending(elements), elements);
    forall i | 0 <= i < |ids|
      ensures RunIdList(runs, b)[i] == ids[i]
    {
      assert Ascending(elements)[i] == ranks[i];
    }
  }

  /** Passing the checks with a ready candidate makes its payload true. */
  lemma ReadyMeansFact(s: ReadinessSnapshot, source: BatchSource, runs: map<Id, RunRows>)
    requires ValidReadiness(s) && IsReady(s) && ReadyNow(s, source, runs)
    ensures FactHolds(PayloadOf(s), runs)
  {
    hide DetailMatches, SourceMatches, ClosureOf, OwnsManifest;
    RankedIds(s.runIds, runs, s.batchId);
    AscendingLists(OpportunityRanks(runs, s.batchId));
    forall r | r in RunsOf(runs, s.batchId)
      ensures runs[r].basis.Some?
    {
      assert r in (set i | i in s.runIds);
      var i :| 0 <= i < |s.runIds| && s.runIds[i] == r;
      assert RunRowMatches(runs[s.runIds[i]], s.closures[i]);
    }
  }

  /** Facts and bases outlive every later change of the Run tables. */
  lemma BatchInvStable(b: Id, rows: BatchRows, before: map<Id, RunRows>, after: map<Id, RunRows>)
    requires BatchInv(b, rows, before) && RunsMoved(before, after)
    ensures BatchInv(b, rows, after)
  {
    hide ReadinessBinding, Rebuild, ResolutionQuery, RunQuery, RunIdList, OpportunityRanks;
    if rows.facts != [] {
      ClosedBatchFrozen(before, after, b);
      SameQueries(before, after, b);
    }
  }

  // ----- Transactions ------------------------------------------------------

  /** The rows of an open transaction on a Run. */
  predicate OnRunInv(runs: map<Id, RunRows>, tx: Tx)
    requires tx.OnRun?
  {
    && tx.runId in runs && runs[tx.runId] == tx.base
    && RunTxInv(tx.runId, tx.tx)
    && Moved(tx.base, tx.tx.view)
  }

  /** What the statements run so far have established about the current tables. */
  predicate BeginRead(s: ReadinessSnapshot, source: BatchSource, runs: map<Id, RunRows>, pass: nat, next: nat) {
    if pass > 0 then ReadyNow(s, source, runs)
    else if next > 0 then
      && SourceMatches(s, source) && RunsMatch(s, runs)
      && forall i :: 0 <= i < next - 1 && i < |s.runIds| ==> DetailMatches(runs[s.runIds[i]], s.closures[i])
    else true
  }

  /** Captured rows are never wrong about a closed Run. */
  predicate SeenSound(seen: map<Id, RunRows>, runs: map<Id, RunRows>) {
    seen.Keys == runs.Keys && forall r :: r in seen ==> Moved(seen[r], runs[r])
  }

  predicate FinishRead(e: SourceSnapshot, source: BatchSource, runs: map<Id, RunRows>, seen: map<Id, RunRows>,
                       pass: nat, next: nat)
  {
    && (pass > 0 ==> RebuildsNow(e, source, runs) && BatchClosed(runs, e.envelope.batchId))
    && (next > 0 ==> SeenSound(seen, runs))
  }

  predicate OnBatchInv(db: Db, tx: Tx)
    requires tx.OnBatch?
  {
    && tx.goal.Valid()
    && tx.goal.Batch() in db.batches
    && (tx.joined.Some? ==> tx.joined.value in db.batches[tx.goal.Batch()].facts)
    && (tx.stage != Waiting ==>
          && db.batches[tx.goal.Batch()] == tx.locked
          && LockPasses(tx.locked, tx.joined, tx.goal))
    && (tx.stage.Reading? ==>
          && tx.view == tx.locked
          && tx.stage.pass <= 2 && tx.stage.next <= tx.goal.LastStatement()
          && (tx.stage.pass > 0 ==> NothingStored(tx.locked, tx.goal))
          && match tx.goal
             case Begin(a) =>
               && BeginRead(a.snapshot, tx.locked.source, db.runs, tx.stage.pass, tx.stage.next)
               && (tx.stage.pass == 2 ==> IsReady(a.snapshot))
             case Finish(a) =>
               FinishRead(a.basis.snapshot, tx.locked.source, db.runs, tx.seen, tx.stage.pass, tx.stage.next))
    && (tx.stage == Replayed ==> tx.view == tx.locked && StoredAlready(tx.locked, tx.goal))
    && (tx.stage == Written ==> CheckedNow(db, tx.locked, tx.view, tx.goal))
  }

  /** No result is stored for this goal. */
  predicate NothingStored(rows: BatchRows, goal: Goal) {
    if goal.Begin? then rows.facts == [] else rows.basis.None?
  }

  /** The stored result is the candidate's. */
  predicate StoredAlready(rows: BatchRows, goal: Goal) {
    match goal
    case Begin(a) => |rows.facts| > 0 && rows.facts[0].ref == ReadinessDigest(PayloadOf(a.snapshot))
                     && rows.facts[0].sourceVersion == a.snapshot.sourceVersion
    case Finish(a) => rows.basis.Some? && rows.basis.value.basis == a.basis
  }

  /** The atomic meaning of a write: run at one instant on these tables, every
      check passes and the write produces exactly `after`. */
  predicate CheckedNow(db: Db, before: BatchRows, after: BatchRows, goal: Goal) {
    match goal
    case Begin(a) =>
      && ReadinessLockPasses(before.row, None, a)
      && before.facts == []
      && IsReady(a.snapshot) && ReadyNow(a.snapshot, before.source, db.runs)
      && WriteReadiness(before, a) == Ok(after)
    case Finish(a) =>
      && before.basis.None?
      && |before.facts| > 0 && FinalizerLockPasses(before, Some(before.facts[0]), a)
      && RebuildsNow(a.basis.snapshot, before.source, db.runs)
      && BatchClosed(db.runs, a.basis.snapshot.envelope.batchId)
      && WriteFinalization(before, a) == Ok(after)
  }

  predicate TxInv(db: Db, tx: Tx) {
    if tx.OnRun? then OnRunInv(db.runs, tx) else OnBatchInv(db, tx)
  }

  predicate SameLock(a: Tx, b: Tx) {
    || (a.OnRun? && b.OnRun? && a.runId == b.runId)
    || (a.OnBatch? && b.OnBatch? && a.stage != Waiting && b.stage != Waiting && a.goal.Batch() == b.goal.Batch())
  }

  predicate RunsInv(runs: map<Id, RunRows>) {
    forall r :: r in runs ==> RunInv(r, runs[r])
  }

  predicate BatchesInv(db: Db) {
    forall b :: b in db.batches ==> BatchInv(b, db.batches[b], db.runs)
  }

  predicate TxsInv(db: Db, txs: map<Id, Tx>) {
    && (forall t :: t in txs ==> TxInv(db, txs[t]))
    && (forall t, u :: t in txs && u in txs && t != u ==> !SameLock(txs[t], txs[u]))
  }

  predicate SysInv(sys: Sys) {
    RunsInv(sys.db.runs) && BatchesInv(sys.db) && TxsInv(sys.db, sys.txs)
  }

  // ----- Checks survive changes of the Run tables -------------------------

  lemma MatchedRunsClosed(s: ReadinessSnapshot, runs: map<Id, RunRows>)
    requires RunsMatch(s, runs)
    ensures BatchClosed(runs, s.batchId)
  {
    forall r | r in RunsOf(runs, s.batchId)
      ensures runs[r].basis.Some?
    {
      assert r in (set i | i in s.runIds);
      var i :| 0 <= i < |s.runIds| && s.runIds[i] == r;
      assert RunRowMatches(runs[s.runIds[i]], s.closures[i]);
    }
  }

  lemma MatchedRunsStay(s: ReadinessSnapshot, before: map<Id, RunRows>, after: map<Id, RunRows>)
    requires RunsMatch(s, before) && RunsMoved(before, after)
    ensures SameBatchRuns(before, after, s.batchId)
    ensures forall i :: 0 <= i < |s.runIds| ==> s.runIds[i] in after && after[s.runIds[i]] == before[s.runIds[i]]
    ensures RunsMatch(s, after)
  {
    hide RunRowMatches;
    MatchedRunsClosed(s, before);
    ClosedBatchFrozen(before, after, s.batchId);
    forall i | 0 <= i < |s.runIds|
      ensures s.runIds[i] in after && after[s.runIds[i]] == before[s.runIds[i]]
    {
      assert s.runIds[i] in (set i | i in s.runIds);
    }
  }

  lemma BeginReadStable(s: ReadinessSnapshot, source: BatchSource, before: map<Id, RunRows>, after: map<Id, RunRows>,
                        pass: nat, next: nat)
    requires BeginRead(s, source, before, pass, next) && RunsMoved(before, after)
    ensures BeginRead(s, source, after, pass, next)
  {
    hide RunsMatch, DetailMatches, SourceMatches, RunsMoved, Ascending;
    if pass > 0 || next > 0 {
      MatchedRunsStay(s, before, after);
      SameQueries(before, after, s.batchId);
      if pass > 0 {
        OpportunitiesStay(s, before, after);
      }
    }
  }

  lemma OpportunitiesStay(s: ReadinessSnapshot, before: map<Id, RunRows>, after: map<Id, RunRows>)
    requires RunsMatch(s, before) && SameBatchRuns(before, after, s.batchId)
    requires OpportunitiesMatch(s, before)
    ensures OpportunitiesMatch(s, after)
  {
    hide RunsMatch, RunIdList, RunQuery, ResolutionQuery, Lookup;
    SameQueries(before, after, s.batchId);
    var elements := OpportunityRanks(before, s.batchId);
    var rows := Ascending(elements);
    AscendingLists(elements);
    forall i | 0 <= i < |rows|
      ensures rows[i].major in after && rows[i].major in before && before[rows[i].major] == after[rows[i].major]
    {
      assert rows[i] in rows && rows[i] in elements;
    }
  }

  lemma FinishReadStable(e: SourceSnapshot, source: BatchSource, before: map<Id, RunRows>, after: map<Id, RunRows>,
                         seen: map<Id, RunRows>, pass: nat, next: nat)
    requires FinishRead(e, source, before, seen, pass, next) && RunsMoved(before, after)
    ensures FinishRead(e, source, after, seen, pass, next)
  {
    hide Rebuild, RunQuery, ResolutionQuery, RunIdList, OpportunityRanks;
    if pass > 0 {
      ClosedBatchFrozen(before, after, e.envelope.batchId);
      SameQueries(before, after, e.envelope.batchId);
    }
    if next > 0 {
      forall r | r in seen
        ensures Moved(seen[r], after[r])
      {
        assert Moved(seen[r], before[r]) && Moved(before[r], after[r]);
      }
    }
  }

  lemma CheckedNowStable(db: Db, after: map<Id, RunRows>, rows: BatchRows, view: BatchRows, goal: Goal)
    requires CheckedNow(db, rows, view, goal) && RunsMoved(db.runs, after)
    ensures CheckedNow(db.(runs := after), rows, view, goal)
  {
    hide WriteReadiness, WriteFinalization, Rebuild, RunsMoved, FinalizerLockPasses, ReadinessLockPasses, RunQuery,
         ResolutionQuery, ReadyNow, BatchClosed;
    match goal
    case Begin(a) => BeginReadStable(a.snapshot, rows.source, db.runs, after, 1, 0);
    case Finish(a) => FinishReadStable(a.basis.snapshot, rows.source, db.runs, after, db.runs, 1, 0);
  }

  lemma OnBatchInvStable(db: Db, after: map<Id, RunRows>, tx: Tx)
    requires tx.OnBatch? && OnBatchInv(db, tx) && RunsMoved(db.runs, after)
    ensures OnBatchInv(db.(runs := after), tx)
  {
    hide BeginRead, FinishRead, CheckedNow, RunsMoved, LockPasses, NothingStored, StoredAlready;
    if tx.stage.Reading? {
      match tx.goal
      case Begin(a) =>
        BeginReadStable(a.snapshot, tx.locked.source, db.runs, after, tx.stage.pass, tx.stage.next);
      case Finish(a) =>
        FinishReadStable(a.basis.snapshot, tx.locked.source, db.runs, after, tx.seen, tx.stage.pass, tx.stage.next);
    } else if tx.stage == Written {
      CheckedNowStable(db, after, tx.locked, tx.view, tx.goal);
    }
  }

  // ----- Reading and writing one Batch ------------------------------------

  /** A rebuild that mixes Run rows captured earlier with resolutions read now
      is a rebuild of the present: it only passes when the captured Runs were
      closed, and closed Runs do not change. */
  lemma RebuiltFromSeen(e: SourceSnapshot, source: BatchSource, seen: map<Id, RunRows>, runs: map<Id, RunRows>)
    requires SeenSound(seen, runs)
    requires var b := e.envelope.batchId;
             Rebuild(e, source, RunQuery(seen, b), ResolutionQuery(runs, b)) == Ok(e)
    ensures BatchClosed(runs, e.envelope.batchId) && RebuildsNow(e, source, runs)
  {
    var b := e.envelope.batchId;
    assert TerminalRefs(RunQuery(seen, b), b).Ok?;
    QueriedRunsClosed(seen, b);
    hide Rebuild, RunQuery, ResolutionQuery, RunIdList, OpportunityRanks, TerminalRefs;
    ClosedBatchFrozen(seen, runs, b);
    SameQueries(seen, runs, b);
  }

  lemma RunListed(runs: map<Id, RunRows>, b: Id, r: Id)
    requires r in RunsOf(runs, b)
    ensures r in RunIdList(runs, b)
  {
    var elements := RunRanks(runs, b);
    AscendingLists(elements);
    assert RunRank(r) in elements && RunRank(r) in Ascending(elements);
    var i :| 0 <= i < |Ascending(elements)| && Ascending(elements)[i] == RunRank(r);
    assert RunIdList(runs, b)[i] == r;
  }

  lemma QueriedRunsClosed(runs: map<Id, RunRows>, b: Id)
    requires TerminalRefs(RunQuery(runs, b), b).Ok?
    ensures BatchClosed(runs, b)
  {
    hide RunIdList;
    var query := RunQuery(runs, b);
    forall r | r in RunsOf(runs, b)
      ensures runs[r].basis.Some?
    {
      RunListed(runs, b, r);
      var i :| 0 <= i < |RunIdList(runs, b)| && RunIdList(runs, b)[i] == r;
      assert query[i] in query && SoundTerminal(query[i], b);
    }
  }

  lemma BeginStatement(db: Db, tx: Tx)
    requires tx.OnBatch? && OnBatchInv(db, tx) && tx.stage.Reading? && tx.goal.Begin?
    requires StatementPasses(db, tx)
    ensures var s := tx.goal.ready.snapshot;
            if tx.stage.next < tx.goal.LastStatement() then
              BeginRead(s, tx.locked.source, db.runs, tx.stage.pass, tx.stage.next + 1)
            else ReadyNow(s, tx.locked.source, db.runs)
  {
    hide RunsMatch, DetailMatches, SourceMatches, OpportunitiesMatch, ClosureOf, OwnsManifest, LockPasses;
    assert |tx.goal.ready.snapshot.closures| == |tx.goal.ready.snapshot.runIds|;
  }

  lemma BeginPass(db: Db, tx: Tx)
    requires BatchesInv(db) && tx.OnBatch? && OnBatchInv(db, tx) && tx.stage.Reading? && tx.goal.Begin?
    requires ReadyNow(tx.goal.ready.snapshot, tx.locked.source, db.runs)
    requires FinishPass(tx).Ok?
    ensures OnBatchInv(db, FinishPass(tx).value)
  {
    hide ReadyNow, ValidReadiness, PayloadOf, RebuildsNow, FactHolds, ReadinessBinding;
  }

  lemma FinishStatement(db: Db, tx: Tx)
    requires tx.OnBatch? && OnBatchInv(db, tx) && tx.stage.Reading? && tx.goal.Finish?
    requires StatementPasses(db, tx)
    ensures var e := tx.goal.final.basis.snapshot;
            if tx.stage.next < tx.goal.LastStatement() then
              FinishRead(e, tx.locked.source, db.runs, db.runs, tx.stage.pass, tx.stage.next + 1)
            else RebuildsNow(e, tx.locked.source, db.runs) && BatchClosed(db.runs, e.envelope.batchId)
  {
    hide RebuildsNow, BatchClosed, Rebuild, RunQuery, ResolutionQuery, LockPasses, ValidBasis;
    if tx.stage.next >= 1 {
      RebuiltFromSeen(tx.goal.final.basis.snapshot, tx.locked.source, tx.seen, db.runs);
    }
  }

  lemma FinishReadsOn(db: Db, tx: Tx)
    requires tx.OnBatch? && OnBatchInv(db, tx) && tx.stage.Reading? && tx.goal.Finish? && tx.stage.pass < 2
    requires var e := tx.goal.final.basis.snapshot;
             RebuildsNow(e, tx.locked.source, db.runs) && BatchClosed(db.runs, e.envelope.batchId)
    requires FinishPass(tx).Ok?
    ensures OnBatchInv(db, FinishPass(tx).value)
  {
    hide RebuildsNow, BatchClosed, LockPasses, CheckedNow, ValidBasis, ReplayFinalization, BeginRead;
    if tx.stage.pass == 0 {
      StoredOrNothing(tx.locked, tx.goal.final);
    }
  }

  lemma FinishWrites(db: Db, tx: Tx)
    requires BatchesInv(db) && tx.OnBatch? && OnBatchInv(db, tx) && tx.stage.Reading? && tx.goal.Finish?
    requires tx.stage.pass >= 2
    requires var e := tx.goal.final.basis.snapshot;
             RebuildsNow(e, tx.locked.source, db.runs) && BatchClosed(db.runs, e.envelope.batchId)
    requires FinishPass(tx).Ok?
    ensures OnBatchInv(db, FinishPass(tx).value)
  {
    hide RebuildsNow, BatchClosed, BatchesInv, FinalizerLockPasses, CheckedNow, WriteFinalization, ValidBasis,
         BeginRead, FinishRead;
    var a := tx.goal.final;
    BatchInvAt(db, tx.goal.Batch());
    JoinedIsTheFact(tx.locked, tx.joined, a, db.runs);
    WrittenIsChecked(db, tx.locked, tx.joined, a);
  }

  lemma BatchInvAt(db: Db, b: Id)
    requires BatchesInv(db) && b in db.batches
    ensures BatchInv(b, db.batches[b], db.runs)
  {
  }

  lemma StoredOrNothing(rows: BatchRows, a: BatchAuthority)
    requires ReplayFinalization(rows, a).Ok?
    ensures ReplayFinalization(rows, a).value.Some? <==> rows.basis.Some?
    ensures rows.basis.Some? ==> rows.basis.value.basis == a.basis
  {
  }

  /** While a Batch is finalizing, the joined fact is its one fact. */
  lemma JoinedIsTheFact(rows: BatchRows, joined: Option<ReadinessFact>, a: BatchAuthority, runs: map<Id, RunRows>)
    requires BatchInv(a.basis.snapshot.envelope.batchId, rows, runs) && rows.basis.None?
    requires FinalizerLockPasses(rows, joined, a) && (joined.Some? ==> joined.value in rows.facts)
    ensures |rows.facts| == 1 && joined == Some(rows.facts[0])
  {
    hide FactHolds, RebuildsNow;
  }

  lemma WrittenIsChecked(db: Db, rows: BatchRows, joined: Option<ReadinessFact>, a: BatchAuthority)
    requires rows.basis.None? && |rows.facts| == 1 && joined == Some(rows.facts[0])
    requires FinalizerLockPasses(rows, joined, a)
    requires RebuildsNow(a.basis.snapshot, rows.source, db.runs)
    requires BatchClosed(db.runs, a.basis.snapshot.envelope.batchId)
    requires WriteFinalization(rows, a).Ok?
    ensures CheckedNow(db, rows, WriteFinalization(rows, a).value, Finish(a))
  {
    hide WriteFinalization, FinalizerLockPasses, RebuildsNow, BatchClosed;
  }

  lemma ReadBeginKeeps(db: Db, tx: Tx)
    requires tx.OnBatch? && tx.stage.Reading? && tx.goal.Begin? && ReadOne(db, tx).Ok?
    requires BatchesInv(db) && OnBatchInv(db, tx)
    ensures ReadOne(db, tx).value.OnBatch?
    ensures OnBatchInv(db, ReadOne(db, tx).value)
  {
    hide StatementPasses, BeginRead, ReadyNow, FinishPass, LockPasses, BatchesInv, NothingStored, CheckedNow,
         StoredAlready;
    BeginStatement(db, tx);
    ReadKeepsGoal(db, tx);
    if tx.stage.next >= tx.goal.LastStatement() {
      BeginPass(db, tx);
    }
  }

  lemma ReadFinishKeeps(db: Db, tx: Tx)
    requires tx.OnBatch? && tx.stage.Reading? && tx.goal.Finish? && ReadOne(db, tx).Ok?
    requires BatchesInv(db) && OnBatchInv(db, tx)
    ensures ReadOne(db, tx).value.OnBatch?
    ensures OnBatchInv(db, ReadOne(db, tx).value)
  {
    hide StatementPasses, FinishRead, RebuildsNow, BatchClosed, FinishPass, LockPasses, BatchesInv, NothingStored,
         CheckedNow, StoredAlready, ValidBasis;
    FinishStatement(db, tx);
    ReadKeepsGoal(db, tx);
    CaptureKeeps(db, tx);
    if tx.stage.next >= tx.goal.LastStatement() {
      if tx.stage.pass < 2 {
        FinishReadsOn(db, tx);
      } else {
        FinishWrites(db, tx);
      }
    }
  }

  lemma CaptureKeeps(db: Db, tx: Tx)
    requires tx.OnBatch? && OnBatchInv(db, tx) && tx.stage.Reading? && tx.goal.Finish?
    ensures tx.stage.next == 0 ==> OnBatchInv(db, tx.(seen := db.runs))
    ensures tx.stage.next == 1 ==>
      FinishRead(tx.goal.final.basis.snapshot, tx.locked.source, db.runs, tx.seen, tx.stage.pass, 1)
  {
    hide RebuildsNow, BatchClosed, LockPasses, ValidBasis;
  }

  // ----- Committing one Batch ---------------------------------------------

  lemma BeginCommits(b: Id, db: Db, before: BatchRows, after: BatchRows, a: ReadinessAuthority)
    requires BatchInv(b, before, db.runs) && a.snapshot.batchId == b && ValidReadiness(a.snapshot)
    requires CheckedNow(db, before, after, Begin(a))
    ensures BatchInv(b, after, db.runs)
    ensures before.row.state == RunningBatch && after.row.state == FinalizingBatch
    ensures after.row.version == before.row.version + 1 && after.facts == [FactOf(a)] && after.basis.None?
    ensures after.source == before.source && ReadyNow(a.snapshot, before.source, db.runs)
  {
    hide ReadyNow, ValidReadiness, RebuildsNow, FactHolds, ReadinessBinding;
    ReadyMeansFact(a.snapshot, before.source, db.runs);
    assert after.facts == [FactOf(a)];
  }

  lemma FinishCommits(b: Id, db: Db, before: BatchRows, after: BatchRows, a: BatchAuthority)
    requires BatchInv(b, before, db.runs) && a.basis.snapshot.envelope.batchId == b && ValidBasis(a.basis)
    requires CheckedNow(db, before, after, Finish(a))
    ensures BatchInv(b, after, db.runs)
    ensures before.row.state == FinalizingBatch && IsExecutionTerminal(after.row.state)
    ensures after.row.version == before.row.version + 1 && after.facts == before.facts
    ensures before.basis.None? && after.basis == Some(BatchBasisRow(a.basis, before.row.readinessRef))
    ensures after.source == before.source
  {
    hide RebuildsNow, FactHolds, BatchClosed, ValidBasis;
    OutcomeIsTerminal(a.basis);
    assert ReadinessBinding(after.row, Some(before.facts[0]), a.basis.snapshot);
    hide ReadinessBinding;
  }

  // ----- Every step keeps the invariant -----------------------------------

  lemma PutKeeps(sys: Sys, t: Id, r: Result<Tx>)
    requires SysInv(sys)
    requires r.Ok? ==> TxInv(sys.db, r.value) && forall u :: u in sys.txs && u != t ==> !SameLock(r.value, sys.txs[u])
    ensures SysInv(Put(sys, t, r))
  {
    hide TxInv, BatchInv, RunInv, SameLock;
    var next := Put(sys, t, r);
    if r.Ok? {
      forall u, w | u in next.txs && w in next.txs && u != w
        ensures !SameLock(next.txs[u], next.txs[w])
      {
        if u == t {
        } else if w == t {
          LockSymmetric(r.value, sys.txs[u]);
        } else {
          assert !SameLock(sys.txs[u], sys.txs[w]);
        }
      }
    }
  }

  lemma LockSymmetric(a: Tx, b: Tx)
    ensures SameLock(a, b) <==> SameLock(b, a)
  {
  }

  /** A transaction that only moves on inside its own lock keeps its place. */
  lemma AdvanceKeeps(sys: Sys, t: Id, r: Result<Tx>)
    requires SysInv(sys) && t in sys.txs
    requires r.Ok? ==> TxInv(sys.db, r.value) && SameHold(sys.txs[t], r.value)
    ensures SysInv(Put(sys, t, r))
  {
    hide TxInv, BatchInv, RunInv;
    forall u | u in sys.txs && u != t && r.Ok?
      ensures !SameLock(r.value, sys.txs[u])
    {
      assert !SameLock(sys.txs[t], sys.txs[u]);
    }
    PutKeeps(sys, t, r);
  }

  predicate SameHold(a: Tx, b: Tx) {
    || (a.OnRun? && b.OnRun? && a.runId == b.runId)
    || (a.OnBatch? && b.OnBatch? && a.goal == b.goal && a.stage != Waiting)
  }

  lemma BeginRunKeeps(sys: Sys, t: Id, r: Id)
    requires SysInv(sys)
    ensures SysInv(DoBeginRun(sys, t, r))
  {
    if t !in sys.txs && r in sys.db.runs && !RunLocked(sys, r) {
      var tx := OnRun(r, sys.db.runs[r], RunTx(sys.db.runs[r], None));
      forall u | u in sys.txs
        ensures !SameLock(tx, sys.txs[u])
      {
        assert !HoldsRun(sys.txs[u], r);
      }
      assert RunInv(r, sys.db.runs[r]);
      hide RunInv, BatchInv, OnBatchInv;
      PutKeeps(sys, t, Ok(tx));
    }
  }

  lemma MovedTwice(a: RunRows, b: RunRows, c: RunRows)
    requires Moved(a, b) && RowStep(b, c)
    ensures Moved(a, c)
  {
  }

  lemma CallRunKeeps(sys: Sys, t: Id, c: RunCommand)
    requires SysInv(sys)
    ensures SysInv(DoCallRun(sys, t, c))
  {
    if DoCallRun(sys, t, c) != sys {
      var tx := sys.txs[t];
      assert TxInv(sys.db, tx);
      var called := Perform(tx.runId, tx.tx, c, TakenBy(sys, tx.runId));
      hide Perform, BatchInv, RunInv, OnBatchInv, RunTxInv;
      if called.Ok? {
        PerformKeepsInv(tx.runId, tx.tx, c, TakenBy(sys, tx.runId));
        MovedTwice(tx.base, tx.tx.view, called.value.view);
        AdvanceKeeps(sys, t, Ok(tx.(tx := called.value)));
      } else {
        AdvanceKeeps(sys, t, Err(called.error));
      }
    }
  }

  lemma RequestKeeps(sys: Sys, t: Id, goal: Goal)
    requires SysInv(sys)
    ensures SysInv(DoRequestBatch(sys, t, goal))
  {
    if t !in sys.txs && goal.Batch() in sys.db.batches && goal.Valid() {
      var rows := sys.db.batches[goal.Batch()];
      var tx := OnBatch(goal, JoinedFact(rows.row, rows.facts), Waiting, rows, rows, map[]);
      hide RunInv, BatchInv, CheckedNow, LockPasses;
      PutKeeps(sys, t, Ok(tx));
    }
  }

  lemma AcquireKeeps(sys: Sys, t: Id)
    requires SysInv(sys)
    ensures SysInv(DoAcquireBatch(sys, t))
  {
    hide RunsInv, BatchesInv, OnRunInv, CheckedNow, LockPasses, ReadyNow, RebuildsNow, NothingStored, StoredAlready;
    if t in sys.txs && sys.txs[t].OnBatch? && sys.txs[t].stage == Waiting
       && !BatchLocked(sys, sys.txs[t].goal.Batch()) && sys.txs[t].goal.Batch() in sys.db.batches
    {
      var tx := sys.txs[t];
      var b := tx.goal.Batch();
      var rows := sys.db.batches[b];
      var joined := RecheckJoin(tx.joined, rows.row);
      assert TxInv(sys.db, tx);
      if LockPasses(rows, joined, tx.goal) {
        var held := tx.(joined := joined, stage := Reading(0, 0), locked := rows, view := rows);
        forall u | u in sys.txs && u != t
          ensures !SameLock(held, sys.txs[u])
        {
          assert !HoldsBatch(sys.txs[u], b);
        }
        PutKeeps(sys, t, Ok(held));
      } else {
        PutKeeps(sys, t, Err(AuthorityStateConflict));
      }
    }
  }

  lemma ReadKeeps(sys: Sys, t: Id)
    requires SysInv(sys)
    ensures SysInv(DoReadBatch(sys, t))
  {
    if t in sys.txs && sys.txs[t].OnBatch? && sys.txs[t].stage.Reading? {
      var tx := sys.txs[t];
      assert TxInv(sys.db, tx);
      hide RunInv, BatchInv, OnBatchInv, RunTxInv;
      var r := ReadOne(sys.db, tx);
      ReadKeepsGoal(sys.db, tx);
      hide ReadOne;
      if r.Ok? {
        if tx.goal.Begin? {
          ReadBeginKeeps(sys.db, tx);
        } else {
          ReadFinishKeeps(sys.db, tx);
        }
      }
      AdvanceKeeps(sys, t, r);
    }
  }

  lemma ReadKeepsGoal(db: Db, tx: Tx)
    requires tx.OnBatch? && tx.stage.Reading?
    ensures ReadOne(db, tx).Ok? ==> SameHold(tx, ReadOne(db, tx).value)
  {
    hide StatementPasses, ReplayReadiness, ReplayFinalization, WriteReadiness, WriteFinalization;
  }

  lemma RollbackKeeps(sys: Sys, t: Id)
    requires SysInv(sys)
    ensures SysInv(sys.(txs := sys.txs - {t}))
  {
    hide TxInv, BatchInv, RunInv, SameLock;
  }

  /** Replacing the rows of one unlocked Run by rows it may move to. */
  lemma RunChangeKeeps(sys: Sys, r: Id, after: RunRows)
    requires SysInv(sys) && r in sys.db.runs && RunInv(r, after) && Moved(sys.db.runs[r], after)
    requires forall t :: t in sys.txs ==> !HoldsRun(sys.txs[t], r)
    ensures SysInv(sys.(db := sys.db.(runs := sys.db.runs[r := after])))
  {
    hide RunInv, BatchInv, OnBatchInv, RunTxInv;
    var db := sys.db;
    var runs := db.runs[r := after];
    assert RunsMoved(db.runs, runs);
    forall b | b in db.batches
      ensures BatchInv(b, db.batches[b], runs)
    {
      BatchInvStable(b, db.batches[b], db.runs, runs);
    }
    forall t | t in sys.txs
      ensures TxInv(db.(runs := runs), sys.txs[t])
    {
      assert TxInv(db, sys.txs[t]) && !HoldsRun(sys.txs[t], r);
      if sys.txs[t].OnBatch? {
        OnBatchInvStable(db, runs, sys.txs[t]);
      }
    }
  }

  /** Replacing the rows of one Batch that no remaining transaction has locked. */
  lemma BatchChangeKeeps(sys: Sys, b: Id, after: BatchRows)
    requires SysInv(sys) && b in sys.db.batches && BatchInv(b, after, sys.db.runs)
    requires forall f :: f in sys.db.batches[b].facts ==> f in after.facts
    requires forall t :: t in sys.txs ==> !HoldsBatch(sys.txs[t], b)
    ensures SysInv(sys.(db := sys.db.(batches := sys.db.batches[b := after])))
  {
    hide RunInv, BatchInv, RunTxInv, LockPasses, BeginRead, FinishRead, NothingStored, StoredAlready;
    var db := sys.db;
    var changed := db.(batches := db.batches[b := after]);
    forall t | t in sys.txs
      ensures TxInv(changed, sys.txs[t])
    {
      assert TxInv(db, sys.txs[t]) && !HoldsBatch(sys.txs[t], b);
    }
  }

  lemma CommitRunKeeps(sys: Sys, t: Id)
    requires SysInv(sys) && t in sys.txs && sys.txs[t].OnRun?
    ensures SysInv(DoCommit(sys, t))
  {
    var tx := sys.txs[t];
    assert TxInv(sys.db, tx);
    RollbackKeeps(sys, t);
    hide RunInv, BatchInv, OnBatchInv, RunsInv, BatchesInv;
    var rest := sys.(txs := sys.txs - {t});
    forall u | u in rest.txs
      ensures !HoldsRun(rest.txs[u], tx.runId)
    {
      assert !SameLock(tx, sys.txs[u]);
    }
    RunChangeKeeps(rest, tx.runId, tx.tx.view);
  }

  /** What a Batch transaction is about to install keeps the Batch invariant. */
  lemma ViewKeepsBatch(db: Db, tx: Tx)
    requires BatchesInv(db) && tx.OnBatch? && OnBatchInv(db, tx)
    requires tx.stage == Written || tx.stage == Replayed
    ensures BatchInv(tx.goal.Batch(), tx.view, db.runs)
    ensures forall f :: f in tx.locked.facts ==> f in tx.view.facts
  {
    hide BatchInv, CheckedNow, BatchesInv, LockPasses, ValidReadiness, ValidBasis, StoredAlready;
    var b := tx.goal.Batch();
    BatchInvAt(db, b);
    if tx.stage == Written {
      match tx.goal
      case Begin(a) => CommitsBegin(b, db, tx.locked, tx.view, a);
      case Finish(a) => CommitsFinish(b, db, tx.locked, tx.view, a);
    }
  }

  lemma CommitBatchKeeps(sys: Sys, t: Id)
    requires SysInv(sys) && t in sys.txs && sys.txs[t].OnBatch?
    ensures SysInv(DoCommit(sys, t))
  {
    var tx := sys.txs[t];
    if tx.stage == Written || tx.stage == Replayed {
      hide RunInv, BatchInv, RunsInv, BatchesInv, CheckedNow, LockPasses, StoredAlready;
      var b := tx.goal.Batch();
      assert TxInv(sys.db, tx);
      ViewKeepsBatch(sys.db, tx);
      RollbackKeeps(sys, t);
      var rest := sys.(txs := sys.txs - {t});
      NobodyElseHolds(sys, t, b);
      hide TxsInv, OnBatchInv;
      BatchChangeKeeps(rest, b, tx.view);
    }
  }

  lemma NobodyElseHolds(sys: Sys, t: Id, b: Id)
    requires SysInv(sys) && t in sys.txs && HoldsBatch(sys.txs[t], b)
    ensures forall u :: u in sys.txs && u != t ==> !HoldsBatch(sys.txs[u], b)
  {
    hide TxInv, BatchInv, RunInv;
    forall u | u in sys.txs && u != t
      ensures !HoldsBatch(sys.txs[u], b)
    {
      assert !SameLock(sys.txs[t], sys.txs[u]);
    }
  }

  lemma CommitsFinish(b: Id, db: Db, before: BatchRows, after: BatchRows, a: BatchAuthority)
    requires BatchInv(b, before, db.runs) && a.basis.snapshot.envelope.batchId == b && ValidBasis(a.basis)
    requires CheckedNow(db, before, after, Finish(a))
    ensures BatchInv(b, after, db.runs) && after.facts == before.facts
  {
    hide BatchInv, CheckedNow;
    FinishCommits(b, db, before, after, a);
  }

  lemma CommitsBegin(b: Id, db: Db, before: BatchRows, after: BatchRows, a: ReadinessAuthority)
    requires BatchInv(b, before, db.runs) && a.snapshot.batchId == b && ValidReadiness(a.snapshot)
    requires CheckedNow(db, before, after, Begin(a))
    ensures BatchInv(b, after, db.runs) && before.facts == []
  {
    hide BatchInv;
    BeginCommits(b, db, before, after, a);
  }

  lemma EpochKeeps(b: Id, rows: BatchRows, epoch: nat, runs: map<Id, RunRows>)
    requires BatchInv(b, rows, runs)
    ensures BatchInv(b, rows.(row := rows.row.(writeEpoch := epoch)), runs)
  {
    hide FactHolds, RebuildsNow;
  }

  lemma BumpKeeps(sys: Sys, b: Id, epoch: nat)
    requires SysInv(sys)
    ensures SysInv(DoBumpEpoch(sys, b, epoch))
  {
    if b in sys.db.batches && !BatchLocked(sys, b) {
      BatchInvAt(sys.db, b);
      EpochKeeps(b, sys.db.batches[b], epoch, sys.db.runs);
      hide BatchInv, RunsInv, BatchesInv, TxsInv;
      BatchChangeKeeps(sys, b, sys.db.batches[b].(row := sys.db.batches[b].row.(writeEpoch := epoch)));
    }
  }

  lemma ActivatedInv(r: Id, rows: RunRows, after: RunRows)
    requires RunInv(r, rows) && rows.row.phase == PlannedPhase
    requires after == rows.(row := rows.row.(phase := QueuedPhase, version := rows.row.version + 1))
    ensures RunInv(r, after) && Moved(rows, after)
  {
    hide ClosedAs;
  }

  lemma ActivateKeeps(sys: Sys, r: Id)
    requires SysInv(sys)
    ensures SysInv(DoActivateRun(sys, r))
  {
    hide RunInv, BatchesInv, TxsInv;
    if r in sys.db.runs && !RunLocked(sys, r) && sys.db.runs[r].row.phase == PlannedPhase {
      var rows := sys.db.runs[r];
      var after := rows.(row := rows.row.(phase := QueuedPhase, version := rows.row.version + 1));
      assert RunInv(r, rows);
      ActivatedInv(r, rows, after);
      hide RunsInv;
      RunChangeKeeps(sys, r, after);
    }
  }

  lemma EvidenceKeeps(sys: Sys, attemptId: Id, e: Evidence)
    requires SysInv(sys)
    ensures SysInv(DoRecordEvidence(sys, attemptId, e))
  {
    hide RunInv, BatchInv, RunTxInv, LockPasses, BeginRead, FinishRead, NothingStored, StoredAlready;
  }

  lemma CommitNothing(sys: Sys, t: Id)
    ensures t !in sys.txs ==> DoCommit(sys, t) == sys
  {
  }

  /** Every step of every transaction, in any interleaving, keeps the invariant. */
  lemma NextKeepsInv(sys: Sys, step: Step)
    requires SysInv(sys)
    ensures SysInv(Next(sys, step))
  {
    hide SysInv, DoBeginRun, DoCallRun, DoRequestBatch, DoAcquireBatch, DoReadBatch, DoCommit, DoRecordEvidence,
         DoBumpEpoch, DoActivateRun;
    match step
    case BeginRun(t, r) => BeginRunKeeps(sys, t, r);
    case CallRun(t, c) => CallRunKeeps(sys, t, c);
    case RequestBatch(t, goal) => RequestKeeps(sys, t, goal);
    case AcquireBatch(t) => AcquireKeeps(sys, t);
    case ReadBatch(t) => ReadKeeps(sys, t);
    case CommitTx(t) =>
      if t in sys.txs {
        if sys.txs[t].OnRun? {
          CommitRunKeeps(sys, t);
        } else {
          CommitBatchKeeps(sys, t);
        }
      } else {
        CommitNothing(sys, t);
      }
    case RollbackTx(t) => RollbackKeeps(sys, t);
    case RecordEvidence(attemptId, e) => EvidenceKeeps(sys, attemptId, e);
    case BumpEpoch(b, epoch) => BumpKeeps(sys, b, epoch);
    case ActivateRun(r) => ActivateKeeps(sys, r);
  }

  lemma {:induction false} RunKeepsInv(sys: Sys, steps: seq<Step>)
    requires SysInv(sys)
    ensures SysInv(After(sys, steps))
  {
    if |steps| > 0 {
      RunKeepsInv(sys, steps[..|steps| - 1]);
      NextKeepsInv(After(sys, steps[..|steps| - 1]), steps[|steps| - 1]);
    }
  }
}
