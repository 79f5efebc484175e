/** What the interleaved control plane guarantees over whole runs. Every theorem
    holds for all step sequences from any state satisfying the invariant. */
module ControlPlaneTheorems {
  import opened Common
  import opened Ordering
  import opened RunAggregate
  import opened RunTables
  import opened AssignmentSql
  import opened AssignmentLifecycle
  import opened RunFinalizationSql
  import opened RunLifecycle
  import opened BatchTables
  import opened BatchRebuild
  import opened BatchRebuildLaws
  import opened BatchReadinessSql
  import opened BatchFinalizationSql
  import opened ControlPlane
  import opened ControlPlaneInvariant

  // ----- Runs --------------------------------------------------------------

  lemma StepMovesRuns(sys: Sys, step: Step)
    requires SysInv(sys)
    ensures RunsMoved(sys.db.runs, Next(sys, step).db.runs)
  {
    hide BatchesInv, RunsInv, RunInv, OnBatchInv, RunTxInv, Perform, ReadOne, LockPasses;
    if step.CommitTx? && step.t in sys.txs {
      assert TxInv(sys.db, sys.txs[step.t]);
    } else if step.ActivateRun? && step.runId in sys.db.runs {
      PlannedIsOpen(sys.db.runs, step.runId);
    }
  }

  lemma PlannedIsOpen(runs: map<Id, RunRows>, r: Id)
    requires RunsInv(runs) && r in runs
    ensures runs[r].row.phase == PlannedPhase ==> runs[r].basis.None?
  {
    assert RunInv(r, runs[r]);
  }

  lemma {:induction false} RunsOnlyMove(sys: Sys, steps: seq<Step>)
    requires SysInv(sys)
    ensures RunsMoved(sys.db.runs, After(sys, steps).db.runs)
  {
    if |steps| > 0 {
      var front := steps[..|steps| - 1];
      RunsOnlyMove(sys, front);
      RunKeepsInv(sys, front);
      StepMovesRuns(After(sys, front), steps[|steps| - 1]);
      hide SysInv, Next;
      MovedTransitively(sys.db.runs, After(sys, front).db.runs, After(sys, steps).db.runs);
    }
  }

  lemma MovedTransitively(a: map<Id, RunRows>, b: map<Id, RunRows>, c: map<Id, RunRows>)
    requires RunsMoved(a, b) && RunsMoved(b, c)
    ensures RunsMoved(a, c)
  {
    forall r | r in a
      ensures Moved(a[r], c[r])
    {
      assert Moved(a[r], b[r]) && Moved(b[r], c[r]);
    }
  }

  /** In every reachable state a Run is closed exactly when it has a basis, its
      version is then one past the basis source, and whatever happens next
      leaves the rows of a closed Run exactly as they are. */
  lemma ClosedRunsAreFinal(sys: Sys, steps: seq<Step>, more: seq<Step>, r: Id)
    requires SysInv(sys) && r in sys.db.runs
    ensures r in After(sys, steps).db.runs
    ensures var rows := After(sys, steps).db.runs[r];
            && (rows.row.phase == ClosedPhase <==> rows.basis.Some?)
            && (rows.basis.Some? ==>
                  && rows.row.version == rows.basis.value.sourceVersion + 1
                  && rows.row.basisDigest == Some(BasisDigest(rows.basis.value))
                  && r in After(After(sys, steps), more).db.runs
                  && After(After(sys, steps), more).db.runs[r] == rows)
  {
    RunsOnlyMove(sys, steps);
    RunKeepsInv(sys, steps);
    var mid := After(sys, steps);
    assert r in mid.db.runs && RunInv(r, mid.db.runs[r]);
    RunsOnlyMove(mid, more);
    assert Moved(mid.db.runs[r], After(mid, more).db.runs[r]);
  }

  /** Of any contenders on one version of a Run at most one commits: when two
      steps of a run both change the rows of `r`, the later one starts from a
      higher version. */
  lemma OneCommitPerVersion(sys: Sys, steps: seq<Step>, i: nat, j: nat, r: Id)
    requires SysInv(sys) && r in sys.db.runs
    requires i < j < |steps|
    ensures r in After(sys, steps[..i]).db.runs && r in After(sys, steps[..i + 1]).db.runs
    ensures r in After(sys, steps[..j]).db.runs
    ensures After(sys, steps[..i]).db.runs[r] != After(sys, steps[..i + 1]).db.runs[r] ==>
      After(sys, steps[..i]).db.runs[r].row.version < After(sys, steps[..j]).db.runs[r].row.version
  {
    hide SysInv, Next, After;
    var before, after, later := After(sys, steps[..i]), After(sys, steps[..i + 1]), After(sys, steps[..j]);
    RunsOnlyMove(sys, steps[..i]);
    RunKeepsInv(sys, steps[..i]);
    RunKeepsInv(sys, steps[..i + 1]);
    AfterOneMore(sys, steps, i);
    StepMovesRuns(before, steps[i]);
    AfterSplit(sys, steps[..j], i + 1);
    assert steps[..j][..i + 1] == steps[..i + 1];
    RunsOnlyMove(after, steps[..j][i + 1..]);
    assert Moved(before.db.runs[r], after.db.runs[r]) && Moved(after.db.runs[r], later.db.runs[r]);
  }

  lemma AfterOneMore(sys: Sys, steps: seq<Step>, i: nat)
    requires i < |steps|
    ensures After(sys, steps[..i + 1]) == Next(After(sys, steps[..i]), steps[i])
  {
    assert steps[..i + 1][..i] == steps[..i];
  }

  lemma {:induction false} AfterSplit(sys: Sys, steps: seq<Step>, i: nat)
    requires i <= |steps|
    ensures After(sys, steps) == After(After(sys, steps[..i]), steps[i..])
  {
    hide Next;
    if i == |steps| {
      assert steps[..i] == steps && steps[i..] == [];
    } else {
      var front, tail := steps[..|steps| - 1], steps[i..];
      AfterSplit(sys, front, i);
      assert front[..i] == steps[..i];
      assert tail == front[i..] + [steps[|steps| - 1]];
      assert tail[..|tail| - 1] == front[i..];
    }
  }

  // ----- Batches -----------------------------------------------------------

  /** 0 before a readiness fact, 1 while finalizing, 2 once finalized. */
  function Progress(rows: BatchRows): nat {
    if rows.basis.Some? then 2 else if rows.row.state == FinalizingBatch then 1 else 0
  }

  /** A Batch moves from RUNNING at v to FINALIZING at v+1 to one terminal at
      v+2, and what it has stored stays stored. */
  predicate Advanced(before: BatchRows, after: BatchRows) {
    && after.source == before.source
    && Progress(before) <= Progress(after)
    && after.row.version == before.row.version + (Progress(after) - Progress(before))
    && (Progress(before) == Progress(after) ==>
          after == before.(row := before.row.(writeEpoch := after.row.writeEpoch)))
    && (before.facts != [] ==> after.facts == before.facts)
    && (before.basis.Some? ==> after.basis == before.basis)
    && (Progress(before) == 0 && Progress(after) > 0 ==> before.row.state == RunningBatch)
  }

  lemma AdvancedTransitively(b: Id, x: BatchRows, y: BatchRows, z: BatchRows)
    requires BatchShape(b, x) && BatchShape(b, y) && BatchShape(b, z)
    requires Advanced(x, y) && Advanced(y, z)
    ensures Advanced(x, z)
  {
    hide ReadinessBinding;
  }

  predicate BatchesAdvanced(before: map<Id, BatchRows>, after: map<Id, BatchRows>) {
    before.Keys == after.Keys && forall b :: b in before ==> Advanced(before[b], after[b])
  }

  lemma ViewAdvances(db: Db, tx: Tx)
    requires BatchesInv(db) && tx.OnBatch? && OnBatchInv(db, tx)
    requires tx.stage == Written || tx.stage == Replayed
    ensures Advanced(tx.locked, tx.view)
  {
    hide BatchInv, CheckedNow, BatchesInv, LockPasses, ValidReadiness, ValidBasis, StoredAlready;
    var b := tx.goal.Batch();
    BatchInvAt(db, b);
    if tx.stage == Written {
      match tx.goal
      case Begin(a) => BeginAdvances(b, db, tx.locked, tx.view, a);
      case Finish(a) => FinishAdvances(b, db, tx.locked, tx.view, a);
    }
  }

  lemma BeginAdvances(b: Id, db: Db, before: BatchRows, after: BatchRows, a: ReadinessAuthority)
    requires BatchInv(b, before, db.runs) && a.snapshot.batchId == b && ValidReadiness(a.snapshot)
    requires CheckedNow(db, before, after, Begin(a))
    ensures Advanced(before, after)
  {
    BeginCommits(b, db, before, after, a);
    hide ReadyNow, ValidReadiness, RebuildsNow, FactHolds, ReadinessBinding, PayloadOf;
  }

  lemma FinishAdvances(b: Id, db: Db, before: BatchRows, after: BatchRows, a: BatchAuthority)
    requires BatchInv(b, before, db.runs) && a.basis.snapshot.envelope.batchId == b && ValidBasis(a.basis)
    requires CheckedNow(db, before, after, Finish(a))
    ensures Advanced(before, after)
  {
    hide BatchInv, CheckedNow, ValidBasis;
    FinishCommits(b, db, before, after, a);
    OutcomeIsTerminal(a.basis);
  }

  lemma StepAdvancesBatches(sys: Sys, step: Step)
    requires SysInv(sys)
    ensures BatchesAdvanced(sys.db.batches, Next(sys, step).db.batches)
  {
    hide BatchesInv, RunsInv, RunInv, OnRunInv, Perform, ReadOne, LockPasses, CheckedNow, Advanced, ReadyNow, ValidBasis;
    forall b | b in sys.db.batches
      ensures Advanced(sys.db.batches[b], sys.db.batches[b])
    {
      AdvancedToSelf(sys.db.batches[b], sys.db.batches[b].row.writeEpoch);
    }
    if step.CommitTx? && step.t in sys.txs && sys.txs[step.t].OnBatch? {
      var tx := sys.txs[step.t];
      assert TxInv(sys.db, tx);
      if tx.stage == Written || tx.stage == Replayed {
        ViewAdvances(sys.db, tx);
      }
    } else if step.BumpEpoch? && step.batchId in sys.db.batches {
      AdvancedToSelf(sys.db.batches[step.batchId], step.epoch);
    }
  }

  lemma AdvancedToSelf(rows: BatchRows, epoch: nat)
    ensures Advanced(rows, rows.(row := rows.row.(writeEpoch := epoch)))
  {
  }

  lemma {:induction false} BatchesOnlyAdvance(sys: Sys, steps: seq<Step>)
    requires SysInv(sys)
    ensures BatchesAdvanced(sys.db.batches, After(sys, steps).db.batches)
  {
    if |steps| == 0 {
      forall b | b in sys.db.batches
        ensures Advanced(sys.db.batches[b], sys.db.batches[b])
      {
        AdvancedToSelf(sys.db.batches[b], sys.db.batches[b].row.writeEpoch);
      }
    } else {
      var front := steps[..|steps| - 1];
      BatchesOnlyAdvance(sys, front);
      RunKeepsInv(sys, front);
      RunKeepsInv(sys, steps);
      StepAdvancesBatches(After(sys, front), steps[|steps| - 1]);
      hide Next, Advanced, BatchShape, RunsInv, TxsInv, FactHolds, RebuildsNow;
      var x, y, z := sys.db.batches, After(sys, front).db.batches, After(sys, steps).db.batches;
      forall b | b in x
        ensures Advanced(x[b], z[b])
      {
        assert BatchInv(b, x[b], sys.db.runs);
        assert BatchInv(b, y[b], After(sys, front).db.runs);
        assert BatchInv(b, z[b], After(sys, steps).db.runs);
        AdvancedTransitively(b, x[b], y[b], z[b]);
      }
    }
  }

  /** From RUNNING at version v, after any interleaving the Batch is still
      RUNNING at v with nothing stored, or FINALIZING at v+1 with one fact, or in
      one execution terminal at v+2 with that fact and one basis. */
  lemma BatchPath(sys: Sys, steps: seq<Step>, b: Id)
    requires SysInv(sys) && b in sys.db.batches
    requires sys.db.batches[b].row.state == RunningBatch
    ensures b in After(sys, steps).db.batches
    ensures var rows, v := After(sys, steps).db.batches[b], sys.db.batches[b].row.version;
            || (rows.row.state == RunningBatch && rows.row.version == v && rows.facts == [] && rows.basis.None?)
            || (rows.row.state == FinalizingBatch && rows.row.version == v + 1
                && |rows.facts| == 1 && rows.facts[0].sourceVersion == v && rows.basis.None?)
            || (IsExecutionTerminal(rows.row.state) && rows.row.version == v + 2
                && |rows.facts| == 1 && rows.facts[0].sourceVersion == v
                && rows.basis.Some? && rows.basis.value.basis.outcome == rows.row.state
                && rows.basis.value.basis.snapshot.envelope.sourceVersion == v + 1)
  {
    hide RunsInv, TxsInv, BatchesInv, FactHolds, RebuildsNow, After, ReadinessBinding;
    BatchesOnlyAdvance(sys, steps);
    RunKeepsInv(sys, steps);
    BatchInvAt(sys.db, b);
    BatchInvAt(After(sys, steps).db, b);
    assert Advanced(sys.db.batches[b], After(sys, steps).db.batches[b]);
  }

  /** Readiness is stable: from the commit of a readiness fact on, at every later
      point, every Run of the Batch has the rows it had, the fact's list of bases
      is the list the tables hold, and the Run part of the finalizer's rebuild
      agrees with the fact. */
  lemma ReadinessIsStable(sys: Sys, steps: seq<Step>, b: Id)
    requires SysInv(sys) && b in sys.db.batches && sys.db.batches[b].facts != []
    ensures b in After(sys, steps).db.batches
    ensures var f, later := sys.db.batches[b].facts[0], After(sys, steps).db;
            && later.batches[b].facts == [f]
            && SameBatchRuns(sys.db.runs, later.runs, b)
            && FactHolds(f.payload, later.runs)
            && TerminalRefs(RunQuery(later.runs, b), b).Ok?
            && RunIds(RunQuery(later.runs, b)) == f.payload.runIds
            && TerminalBases(TerminalRefs(RunQuery(later.runs, b), b).value) == f.payload.runBases
  {
    hide TxsInv, RebuildsNow, BatchesInv, BatchShape, RunQuery, TerminalRefs, OpportunityRanks, RunIdList, RunsInv, After;
    var later := After(sys, steps);
    BatchesOnlyAdvance(sys, steps);
    RunsOnlyMove(sys, steps);
    RunKeepsInv(sys, steps);
    BatchInvAt(sys.db, b);
    BatchInvAt(later.db, b);
    FinalizingOrFinalized(b, sys.db.batches[b]);
    assert Advanced(sys.db.batches[b], later.db.batches[b]);
    ClosedBatchFrozen(sys.db.runs, later.db.runs, b);
    FactRefs(sys.db.batches[b].facts[0].payload, later.db.runs, b);
  }

  lemma FactRefs(p: ReadinessPayload, runs: map<Id, RunRows>, b: Id)
    requires RunsInv(runs) && FactHolds(p, runs) && p.batchId == b
    ensures TerminalRefs(RunQuery(runs, b), b).Ok?
    ensures RunIds(RunQuery(runs, b)) == p.runIds
    ensures TerminalBases(TerminalRefs(RunQuery(runs, b), b).value) == p.runBases
  {
    hide RunIdList, OpportunityRanks, AssignmentInv, ValidEntries, ResolutionMap;
    var query := RunQuery(runs, b);
    forall i | 0 <= i < |query|
      ensures SoundTerminal(query[i], b)
    {
      assert RunInv(p.runIds[i], runs[p.runIds[i]]);
    }
    assert RunIds(query) == p.runIds;
    var refs := TerminalRefs(query, b).value;
    forall i | 0 <= i < |p.runIds|
      ensures TerminalBases(refs)[i] == p.runBases[i]
    {
      assert refs[i] == TerminalOf(query[i]);
    }
  }

  /** Isolation: the only step that changes a Batch beyond its epoch is the
      commit of a transaction that wrote, and at that instant all the checks it
      ran statement by statement hold at once, so the whole transaction takes
      effect as if run alone on the committed tables. */
  lemma CommitsAreAtomic(sys: Sys, step: Step, b: Id)
    requires SysInv(sys) && b in sys.db.batches
    ensures b in Next(sys, step).db.batches
    ensures var before, after := sys.db.batches[b], Next(sys, step).db.batches[b];
            after != before.(row := before.row.(writeEpoch := after.row.writeEpoch)) ==>
              && step.CommitTx? && step.t in sys.txs && sys.txs[step.t].OnBatch?
              && sys.txs[step.t].goal.Batch() == b
              && CheckedNow(sys.db, before, after, sys.txs[step.t].goal)
              && Next(sys, step).db.runs == sys.db.runs
  {
    hide BatchesInv, RunsInv, RunInv, OnRunInv, Perform, ReadOne, LockPasses, CheckedNow, BeginRead, FinishRead;
    if step.CommitTx? && step.t in sys.txs {
      assert TxInv(sys.db, sys.txs[step.t]);
    }
  }

  /** A transaction that commits without writing found its own candidate stored. */
  lemma ReplaysStoredResult(sys: Sys, t: Id)
    requires SysInv(sys) && t in sys.txs && sys.txs[t].OnBatch? && sys.txs[t].stage == Replayed
    ensures Next(sys, CommitTx(t)).db == sys.db
    ensures StoredAlready(sys.db.batches[sys.txs[t].goal.Batch()], sys.txs[t].goal)
  {
    hide BatchesInv, RunsInv, RunInv, OnRunInv, LockPasses, CheckedNow, StoredAlready, ValidBasis;
    assert TxInv(sys.db, sys.txs[t]);
    assert sys.db.batches == sys.db.batches[sys.txs[t].goal.Batch() := sys.txs[t].view];
  }

  // ----- Transactions that wait -------------------------------------------

  /** The lock statement of a Batch transaction joins the fact that is committed
      when the statement starts, and nothing else. */
  lemma JoinedAtRequest(sys: Sys, t: Id, goal: Goal)
    requires SysInv(sys) && t !in sys.txs && goal.Batch() in sys.db.batches && goal.Valid()
    ensures t in Next(sys, RequestBatch(t, goal)).txs
    ensures var rows, tx := sys.db.batches[goal.Batch()], Next(sys, RequestBatch(t, goal)).txs[t];
            tx.OnBatch? && tx.stage == Waiting
            && tx.joined == if rows.facts == [] then None else Some(rows.facts[0])
  {
    hide RunsInv, TxsInv, FactHolds, RebuildsNow, ReadinessBinding, ValidBasis;
    BatchInvAt(sys.db, goal.Batch());
  }

  /** A readiness transaction that gets the lock while a fact is stored goes on,
      to replay it, exactly when its lock statement started after that fact was
      committed and its own candidate is the stored one; otherwise it fails. */
  lemma ReadinessWaiter(sys: Sys, t: Id)
    requires SysInv(sys) && t in sys.txs && sys.txs[t].OnBatch? && sys.txs[t].stage == Waiting
    requires sys.txs[t].goal.Begin? && !BatchLocked(sys, sys.txs[t].goal.Batch())
    requires sys.txs[t].goal.Batch() in sys.db.batches
    requires sys.db.batches[sys.txs[t].goal.Batch()].facts != []
    ensures var tx := sys.txs[t];
            var a, rows := tx.goal.ready, sys.db.batches[tx.goal.Batch()];
            t in Next(sys, AcquireBatch(t)).txs <==>
              && tx.joined == Some(rows.facts[0])
              && rows.facts[0] == FactOf(a) && rows.row.writeEpoch == a.writeEpoch
              && rows.basis.None?
  {
    hide RunsInv, FactHolds, RebuildsNow, BatchesInv, PayloadOf, ValidReadiness, ValidBasis, BatchShape, DoBeginRun, DoCallRun,
         DoRequestBatch, DoReadBatch, DoCommit, BeginRead, FinishRead, CheckedNow, StoredAlready, OnRunInv, FinalizerLockPasses;
    var tx := sys.txs[t];
    assert TxInv(sys.db, tx);
    BatchInvAt(sys.db, tx.goal.Batch());
    FinalizingOrFinalized(tx.goal.Batch(), sys.db.batches[tx.goal.Batch()]);
  }

  predicate Undisturbed(steps: seq<Step>, t: Id) {
    forall i :: 0 <= i < |steps| ==> steps[i] != AcquireBatch(t) && steps[i] != RollbackTx(t)
  }

  lemma WaiterStep(sys: Sys, step: Step, t: Id)
    requires t in sys.txs && sys.txs[t].OnBatch? && sys.txs[t].stage == Waiting
    requires step != AcquireBatch(t) && step != RollbackTx(t)
    ensures t in Next(sys, step).txs && Next(sys, step).txs[t] == sys.txs[t]
  {
    hide Perform, ReadOne, LockPasses, TakenBy, Waits, BatchLocked, RunLocked;
  }

  lemma {:induction false} WaiterStays(sys: Sys, steps: seq<Step>, t: Id)
    requires t in sys.txs && sys.txs[t].OnBatch? && sys.txs[t].stage == Waiting && Undisturbed(steps, t)
    ensures t in After(sys, steps).txs && After(sys, steps).txs[t] == sys.txs[t]
  {
    if |steps| > 0 {
      hide Next;
      WaiterStays(sys, steps[..|steps| - 1], t);
      WaiterStep(After(sys, steps[..|steps| - 1]), steps[|steps| - 1], t);
    }
  }

  /** The readiness race, from the lock statement to the lock, over any run in
      between: a transaction that finds a fact when it gets the lock goes on, to
      replay it, if and only if the fact was there when its lock statement
      started and is its own candidate. */
  lemma ReadinessRace(sys: Sys, t: Id, goal: Goal, steps: seq<Step>)
    requires SysInv(sys) && t !in sys.txs && goal.Batch() in sys.db.batches && goal.Valid() && goal.Begin?
    requires Undisturbed(steps, t)
    ensures goal.Batch() in After(Next(sys, RequestBatch(t, goal)), steps).db.batches
    ensures var now := After(Next(sys, RequestBatch(t, goal)), steps);
            var rows := now.db.batches[goal.Batch()];
            rows.facts != [] && !BatchLocked(now, goal.Batch()) ==>
              (t in Next(now, AcquireBatch(t)).txs <==>
                 && sys.db.batches[goal.Batch()].facts != []
                 && rows.facts[0] == FactOf(goal.ready) && rows.row.writeEpoch == goal.ready.writeEpoch
                 && rows.basis.None?)
  {
    hide SysInv, Next, After, FactOf, ValidReadiness, ValidBasis;
    var b := goal.Batch();
    RequestWaits(sys, t, goal);
    JoinedAtRequest(sys, t, goal);
    var asked := Next(sys, RequestBatch(t, goal));
    NextKeepsInv(sys, RequestBatch(t, goal));
    WaiterStays(asked, steps, t);
    RunKeepsInv(asked, steps);
    BatchesOnlyAdvance(asked, steps);
    var now := After(asked, steps);
    FactStays(asked.db.batches[b], now.db.batches[b]);
    if now.db.batches[b].facts != [] && !BatchLocked(now, b) {
      ReadinessWaiter(now, t);
    }
  }

  lemma RequestWaits(sys: Sys, t: Id, goal: Goal)
    requires t !in sys.txs && goal.Batch() in sys.db.batches && goal.Valid()
    ensures var asked := Next(sys, RequestBatch(t, goal));
            asked.db == sys.db && t in asked.txs && asked.txs[t].OnBatch? && asked.txs[t].goal == goal
            && asked.txs[t].stage == Waiting
  {
  }

  lemma FactStays(before: BatchRows, after: BatchRows)
    requires Advanced(before, after)
    ensures before.facts != [] ==> after.facts == before.facts
  {
  }

  lemma FinalizingOrFinalized(b: Id, rows: BatchRows)
    requires BatchShape(b, rows) && rows.facts != []
    ensures |rows.facts| == 1 && rows.row.readinessRef == Some(rows.facts[0].ref)
    ensures rows.row.state == FinalizingBatch <==> rows.basis.None?
    ensures rows.row.state != RunningBatch
    ensures rows.basis.None? ==> rows.row.version == rows.facts[0].sourceVersion + 1
    ensures rows.facts[0].ref == ReadinessDigest(rows.facts[0].payload)
    ensures rows.facts[0].batchVersion == rows.facts[0].sourceVersion + 1
    ensures rows.facts[0].payload.batchId == b
  {
    hide ReadinessBinding;
  }

  // ----- Runs closed before their start was withdrawn ---------------------

  /** No candidate can describe an offered or claimed row: the payloads this
      protocol writes carry no opportunity kind. */
  lemma OpportunitiesNeverMatch(s: ReadinessSnapshot, runs: map<Id, RunRows>)
    requires forall r :: r in runs ==> AssignmentInv(r, runs[r])
    ensures OpportunitiesMatch(s, runs) <==> OpportunityRanks(runs, s.batchId) == {} && s.opportunities == []
  {
    var elements := OpportunityRanks(runs, s.batchId);
    var rows := Ascending(elements);
    AscendingLists(elements);
    forall r, a | r in runs && a in runs[r].assignments
      ensures Lookup(runs[r].assignments[a].payload, OpportunityKindField).None?
    {
      assert AssignmentInv(r, runs[r]);
      assert RowInv(a, runs[r].assignments[a]);
    }
    hide AssignmentInv;
  }

  lemma BasisNeedsFact(b: Id, rows: BatchRows)
    requires BatchShape(b, rows)
    ensures rows.basis.Some? ==> rows.facts != []
  {
    hide ReadinessBinding;
  }

  /** A Run may be closed by prestart cancellation while an assignment is still
      offered or claimed; from then on its Batch never gets a readiness fact. */
  lemma OpenOfferBlocksBatch(sys: Sys, steps: seq<Step>, r: Id, aid: Id)
    requires SysInv(sys) && r in sys.db.runs && sys.db.runs[r].basis.Some?
    requires aid in sys.db.runs[r].assignments && IsPrecommit(sys.db.runs[r].assignments[aid].state)
    requires sys.db.runs[r].batchId in sys.db.batches
    ensures var b := sys.db.runs[r].batchId;
            b in After(sys, steps).db.batches && After(sys, steps).db.batches[b].facts == []
            && After(sys, steps).db.batches[b].basis.None?
  {
    hide RunsInv, TxsInv, BatchesInv, RebuildsNow, BatchShape, After, RunIdList, Advanced;
    var b, later := sys.db.runs[r].batchId, After(sys, steps);
    RunsOnlyMove(sys, steps);
    BatchesOnlyAdvance(sys, steps);
    RunKeepsInv(sys, steps);
    BatchInvAt(later.db, b);
    BasisNeedsFact(b, later.db.batches[b]);
    if later.db.batches[b].facts != [] {
      FinalizingOrFinalized(b, later.db.batches[b]);
    }
    assert Moved(sys.db.runs[r], later.db.runs[r]);
    var rank := Rank(r, aid);
    assert r in RunsOf(later.db.runs, b);
    assert rank in OpportunityRanks(later.db.runs, b);
  }

  /** Such a close is accepted: the prestart-cancel basis of an assigned Run. */
  lemma AssignedRunCanClose(id: Id, rows: RunRows, b: RunBasis, entries: seq<ResolutionEntry>, writeEpoch: nat,
                            evidence: map<Id, Evidence>)
    requires RunInv(id, rows) && rows.row.phase == AssignedPhase && writeEpoch >= 1
    requires b.terminal.PrestartCancel? && b.outcome == CancelledRun == AuditOutcome(entries)
    requires b.runId == id && b.batchId == rows.batchId && b.sourceVersion == rows.row.version
    requires b.itemSet == EntrySetDigest(id, b.sourceVersion, entries) && ValidEntries(entries)
    requires forall e :: e in entries ==> e.item in rows.items
    ensures var r := FinalizeRun(id, rows, writeEpoch, evidence, b, entries, None, rows.row.version);
            && r.Ok? && r.value.rows.basis == Some(b)
            && exists k :: k in r.value.rows.assignments && IsPrecommit(r.value.rows.assignments[k].state)
  {
    FinalizeRunOutcome(id, rows, writeEpoch, evidence, b, entries, None, rows.row.version);
    hide FinalizeRun, ValidEntries, RowInv;
    assert rows.attempts == [];
  }

  // ----- Resolved items ----------------------------------------------------

  /** Passing readiness means every manifest item is resolved by some Run. */
  lemma ReadyResolvesManifest(s: ReadinessSnapshot, source: BatchSource, runs: map<Id, RunRows>, k: ItemKey)
    requires ValidReadiness(s) && ReadyNow(s, source, runs) && k in s.manifest.items
    ensures exists r :: r in RunsOf(runs, s.batchId) && k in runs[r].resolutions
  {
    hide SourceMatches, OpportunitiesMatch, ValidEntries, RunRowMatches;
    var r :| r in s.plan.shards && k in s.plan.shards[r];
    assert r in (set i | i in s.runIds);
    var i :| 0 <= i < |s.runIds| && s.runIds[i] == r;
    assert ClosureOf(s.closures[i], s.runIds[i], s);
    var j :| 0 <= j < |ItemKeys(s.closures[i].entries)| && ItemKeys(s.closures[i].entries)[j] == k;
    assert s.closures[i].entries[j].item == k;
  }

  lemma FinalizedNamesBatch(b: Id, rows: BatchRows)
    requires BatchShape(b, rows) && rows.basis.Some?
    ensures rows.basis.value.basis.snapshot.envelope.batchId == b
  {
    hide ReadinessBinding;
  }

  /** A resolved item stays resolved by the same Run of the same Batch. */
  lemma ResolvedRunStays(sys: Sys, steps: seq<Step>, b: Id, r: Id)
    requires SysInv(sys) && r in RunsOf(sys.db.runs, b) && sys.db.runs[r].resolutions != map[]
    ensures r in RunsOf(After(sys, steps).db.runs, b) && After(sys, steps).db.runs[r] == sys.db.runs[r]
  {
    RunsOnlyMove(sys, steps);
    assert RunInv(r, sys.db.runs[r]);
    assert Moved(sys.db.runs[r], After(sys, steps).db.runs[r]);
  }
}
