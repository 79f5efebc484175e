/** Two more facts about all interleavings: keys that are unique in the schema
    never belong to two Runs, and a Run closed by an Attempt is backed by the
    evidence row it was verified against. */
module ControlPlaneKeys {
  import opened Common
  import opened RunAggregate
  import opened RunTables
  import opened AssignmentSql
  import opened AssignmentLifecycle
  import opened RunFinalizationSql
  import opened RunLifecycle
  import opened BatchTables
  import opened BatchReadinessSql
  import opened ControlPlane
  import opened ControlPlaneInvariant

  // ----- Keys --------------------------------------------------------------

  function AttemptIds(rows: RunRows): set<Id> {
    set i | 0 <= i < |rows.attempts| :: rows.attempts[i].id
  }

  function StartKeys(rows: RunRows): set<Id> {
    set i | 0 <= i < |rows.attempts| :: rows.attempts[i].startKey
  }

  predicate Apart(x: RunRows, y: RunRows) {
    && x.assignments.Keys !! y.assignments.Keys
    && AttemptIds(x) !! AttemptIds(y)
    && StartKeys(x) !! StartKeys(y)
  }

  predicate KeysInv(sys: Sys) {
    && (forall r, q :: r in sys.db.runs && q in sys.db.runs && r != q ==> Apart(sys.db.runs[r], sys.db.runs[q]))
    && (forall t, q :: t in sys.txs && sys.txs[t].OnRun? && q in sys.db.runs && q != sys.txs[t].runId ==>
          Apart(sys.txs[t].tx.view, sys.db.runs[q]))
    && (forall t, u :: t in sys.txs && u in sys.txs && sys.txs[t].OnRun? && sys.txs[u].OnRun?
                       && sys.txs[t].runId != sys.txs[u].runId ==>
          Apart(sys.txs[t].tx.view, sys.txs[u].tx.view))
  }

  /** A call adds only keys that are not taken. */
  lemma PerformAddsFreeKeys(id: Id, tx: RunTx, c: RunCommand, taken: Taken)
    requires Perform(id, tx, c, taken).Ok?
    ensures var view := Perform(id, tx, c, taken).value.view;
            && (forall k :: k in view.assignments && k !in tx.view.assignments ==> k !in taken.assignments)
            && (forall k :: k in AttemptIds(view) && k !in AttemptIds(tx.view) ==> k !in taken.attempts)
            && (forall k :: k in StartKeys(view) && k !in StartKeys(tx.view) ==> k !in taken.startKeys)
  {
    hide ValidRun, Rehydrate, Offer, Claim, CommitStart, ClosePrecommit, FinalizeRun;
    if c.FinalizeCommand? {
      FinalizeKeepsKeys(id, tx.view, c);
    } else if c.CommitCommand? && tx.run.Some? {
      var commit := CommitStart(tx.run.value, c.aid, c.worker, c.startKey, c.spec, c.attemptId, c.observedAt, c.expected)
                    .value;
      CommitAddsKeys(tx.view, tx.run, commit, tx.run.value, taken);
    }
  }

  lemma CommitAddsKeys(rows: RunRows, snapshot: Option<RunAggregate.Run>, commit: CommitResult,
                       expected: RunAggregate.Run, taken: Taken)
    requires CommitRows(rows, snapshot, commit, expected, taken).Ok?
    ensures var view := CommitRows(rows, snapshot, commit, expected, taken).value;
            && view.assignments.Keys == rows.assignments.Keys
            && (forall k :: k in AttemptIds(view) && k !in AttemptIds(rows) ==> k !in taken.attempts)
            && (forall k :: k in StartKeys(view) && k !in StartKeys(rows) ==> k !in taken.startKeys)
  {
    var view := CommitRows(rows, snapshot, commit, expected, taken).value;
    if !commit.replayed {
      assert view.attempts == rows.attempts + [AttemptRowOf(commit.attempt)];
      assert view.assignments.Keys == rows.assignments.Keys;
      forall i | 0 <= i < |rows.attempts|
        ensures view.attempts[i] == rows.attempts[i]
      {
      }
    }
  }

  lemma FinalizeKeepsKeys(id: Id, rows: RunRows, c: RunCommand)
    requires c.FinalizeCommand?
    requires FinalizeRun(id, rows, c.writeEpoch, c.evidence, c.basis, c.entries, c.expectedAttempt, c.expected).Ok?
    ensures var view := FinalizeRun(id, rows, c.writeEpoch, c.evidence, c.basis, c.entries, c.expectedAttempt,
                                    c.expected).value.rows;
            view.assignments == rows.assignments && AttemptIds(view) == AttemptIds(rows)
            && StartKeys(view) == StartKeys(rows)
  {
    hide VerifiedInput, MutationSnapshot, ValidPublication, ResolutionMap;
    var view := FinalizeRun(id, rows, c.writeEpoch, c.evidence, c.basis, c.entries, c.expectedAttempt, c.expected)
                .value.rows;
    assert |view.attempts| == |rows.attempts|;
    forall i | 0 <= i < |rows.attempts|
      ensures view.attempts[i].id == rows.attempts[i].id && view.attempts[i].startKey == rows.attempts[i].startKey
    {
    }
  }

  lemma TakenApart(sys: Sys, t: Id, c: RunCommand, q: Id)
    requires KeysInv(sys) && t in sys.txs && sys.txs[t].OnRun? && q in sys.db.runs && q != sys.txs[t].runId
    requires Perform(sys.txs[t].runId, sys.txs[t].tx, c, TakenBy(sys, sys.txs[t].runId)).Ok?
    ensures Apart(Perform(sys.txs[t].runId, sys.txs[t].tx, c, TakenBy(sys, sys.txs[t].runId)).value.view,
                  sys.db.runs[q])
  {
    hide Perform;
    PerformAddsFreeKeys(sys.txs[t].runId, sys.txs[t].tx, c, TakenBy(sys, sys.txs[t].runId));
    assert Apart(sys.txs[t].tx.view, sys.db.runs[q]);
    var taken, other := TakenBy(sys, sys.txs[t].runId), sys.db.runs[q];
    assert other.assignments.Keys <= taken.assignments;
    assert AttemptIds(other) <= taken.attempts;
    assert StartKeys(other) <= taken.startKeys;
  }

  lemma PendingApart(sys: Sys, t: Id, c: RunCommand, u: Id)
    requires KeysInv(sys) && t in sys.txs && u in sys.txs && sys.txs[t].OnRun? && sys.txs[u].OnRun?
    requires sys.txs[t].runId != sys.txs[u].runId
    requires Perform(sys.txs[t].runId, sys.txs[t].tx, c, TakenBy(sys, sys.txs[t].runId)).Ok?
    requires !Waits(sys, sys.txs[t], c)
    ensures Apart(Perform(sys.txs[t].runId, sys.txs[t].tx, c, TakenBy(sys, sys.txs[t].runId)).value.view,
                  sys.txs[u].tx.view)
  {
    var tx := sys.txs[t];
    PerformAddsFreeKeys(tx.runId, tx.tx, c, PendingBy(sys, tx.runId));
    PerformIgnoresTaken(tx.runId, tx.tx, c, TakenBy(sys, tx.runId), PendingBy(sys, tx.runId));
    hide Perform;
    assert Apart(tx.tx.view, sys.txs[u].tx.view);
    var pending, other := PendingBy(sys, tx.runId), sys.txs[u].tx.view;
    assert other.assignments.Keys <= pending.assignments;
    assert AttemptIds(other) <= pending.attempts;
    assert StartKeys(other) <= pending.startKeys;
  }

  /** Taken keys decide whether a call succeeds, not what it writes. */
  lemma PerformIgnoresTaken(id: Id, tx: RunTx, c: RunCommand, a: Taken, b: Taken)
    requires Perform(id, tx, c, a).Ok? && Perform(id, tx, c, b).Ok?
    ensures Perform(id, tx, c, a) == Perform(id, tx, c, b)
  {
    hide ValidRun, Rehydrate, Offer, Claim, CommitStart, ClosePrecommit, FinalizeRun, AttemptKeysFree, HasActive;
  }

  lemma ApartSymmetric(x: RunRows, y: RunRows)
    ensures Apart(x, y) <==> Apart(y, x)
  {
  }

  lemma CallKeepsKeys(sys: Sys, t: Id, c: RunCommand)
    requires SysInv(sys) && KeysInv(sys)
    ensures KeysInv(DoCallRun(sys, t, c))
  {
    hide SysInv, Perform, Waits, Apart;
    if t in sys.txs && sys.txs[t].OnRun? && (c.FinalizeCommand? ==> c.evidence == sys.db.evidence)
       && !Waits(sys, sys.txs[t], c) {
      var tx := sys.txs[t];
      var called := Perform(tx.runId, tx.tx, c, TakenBy(sys, tx.runId));
      if called.Ok? {
        var view := called.value.view;
        forall q | q in sys.db.runs && q != tx.runId
          ensures Apart(view, sys.db.runs[q])
        {
          TakenApart(sys, t, c, q);
        }
        forall u | u in sys.txs && sys.txs[u].OnRun? && sys.txs[u].runId != tx.runId
          ensures Apart(view, sys.txs[u].tx.view) && Apart(sys.txs[u].tx.view, view)
        {
          PendingApart(sys, t, c, u);
          ApartSymmetric(view, sys.txs[u].tx.view);
        }
      }
    }
  }

  lemma CommitKeepsKeys(sys: Sys, t: Id)
    requires SysInv(sys) && KeysInv(sys)
    ensures KeysInv(DoCommit(sys, t))
  {
    hide Apart, RunsInv, BatchesInv, RunTxInv, OnBatchInv, Moved;
    if t in sys.txs && sys.txs[t].OnRun? {
      var tx := sys.txs[t];
      assert TxInv(sys.db, tx);
      var next := DoCommit(sys, t);
      forall q | q in sys.db.runs && q != tx.runId
        ensures Apart(tx.tx.view, sys.db.runs[q]) && Apart(sys.db.runs[q], tx.tx.view)
      {
        ApartSymmetric(tx.tx.view, sys.db.runs[q]);
      }
      forall u | u in next.txs && next.txs[u].OnRun?
        ensures next.txs[u].runId != tx.runId && Apart(next.txs[u].tx.view, tx.tx.view)
      {
        assert !SameLock(tx, sys.txs[u]);
      }
    }
  }

  /** No unique key ever belongs to two Runs, committed or pending. */
  lemma NextKeepsKeys(sys: Sys, step: Step)
    requires SysInv(sys) && KeysInv(sys)
    ensures KeysInv(Next(sys, step))
  {
    hide SysInv, Apart, Perform, ReadOne, Waits, LockPasses;
    match step
    case BeginRun(t, r) => BeginKeepsKeys(sys, t, r);
    case CallRun(t, c) => CallKeepsKeys(sys, t, c);
    case CommitTx(t) => CommitKeepsKeys(sys, t);
    case ActivateRun(r) => ActivateKeepsKeys(sys, r);
    case _ =>
      BatchStepsLeaveRuns(sys, step);
      hide Next;
  }

  /** Steps of Batch transactions, and ending any transaction without a commit,
      leave Run rows and the remaining Run transactions as they are. */
  lemma BatchStepsLeaveRuns(sys: Sys, step: Step)
    requires !step.BeginRun? && !step.CallRun? && !step.CommitTx? && !step.ActivateRun?
    ensures Next(sys, step).db.runs == sys.db.runs
    ensures forall t :: t in Next(sys, step).txs && Next(sys, step).txs[t].OnRun? ==>
      t in sys.txs && sys.txs[t] == Next(sys, step).txs[t]
  {
    hide ReadOne, LockPasses, RecheckJoin;
    if step.ReadBatch? && step.t in sys.txs && sys.txs[step.t].OnBatch? && sys.txs[step.t].stage.Reading? {
      ReadKeepsGoal(sys.db, sys.txs[step.t]);
    }
  }

  lemma BeginKeepsKeys(sys: Sys, t: Id, r: Id)
    requires KeysInv(sys)
    ensures KeysInv(DoBeginRun(sys, t, r))
  {
    hide Apart;
    if r in sys.db.runs {
      forall u | u in sys.txs && sys.txs[u].OnRun? && sys.txs[u].runId != r
        ensures Apart(sys.db.runs[r], sys.txs[u].tx.view)
      {
        ApartSymmetric(sys.db.runs[r], sys.txs[u].tx.view);
      }
    }
  }

  lemma SameKeysApart(x: RunRows, y: RunRows, other: RunRows)
    requires x.assignments == y.assignments && x.attempts == y.attempts
    ensures Apart(x, other) <==> Apart(y, other)
    ensures Apart(other, x) <==> Apart(other, y)
  {
    assert AttemptIds(x) == AttemptIds(y) && StartKeys(x) == StartKeys(y);
  }

  lemma ActivateKeepsKeys(sys: Sys, r: Id)
    requires KeysInv(sys)
    ensures KeysInv(DoActivateRun(sys, r))
  {
    hide Apart;
    if r in sys.db.runs {
      var rows := sys.db.runs[r];
      var after := rows.(row := rows.row.(phase := QueuedPhase, version := rows.row.version + 1));
      forall q | q in sys.db.runs && q != r
        ensures Apart(after, sys.db.runs[q]) && Apart(sys.db.runs[q], after)
      {
        SameKeysApart(rows, after, sys.db.runs[q]);
        ApartSymmetric(rows, sys.db.runs[q]);
      }
      forall t | t in sys.txs && sys.txs[t].OnRun? && sys.txs[t].runId != r
        ensures Apart(sys.txs[t].tx.view, after)
      {
        SameKeysApart(rows, after, sys.txs[t].tx.view);
        ApartSymmetric(rows, sys.txs[t].tx.view);
      }
    }
  }

  lemma {:induction false} KeysStayUnique(sys: Sys, steps: seq<Step>)
    requires SysInv(sys) && KeysInv(sys)
    ensures KeysInv(After(sys, steps))
  {
    if |steps| > 0 {
      hide SysInv, KeysInv, Next;
      KeysStayUnique(sys, steps[..|steps| - 1]);
      RunKeepsInv(sys, steps[..|steps| - 1]);
      NextKeepsKeys(After(sys, steps[..|steps| - 1]), steps[|steps| - 1]);
    }
  }

  // ----- Evidence ----------------------------------------------------------

  predicate Backed(rows: RunRows, evidence: map<Id, Evidence>) {
    rows.basis.Some? && rows.basis.value.terminal.FinalAttempt? ==>
      var f := rows.basis.value.terminal;
      f.evidenceRoot.Some? && f.attemptId in evidence && evidence[f.attemptId] == Evidence(f.fence, f.evidenceRoot.value)
  }

  predicate EvidenceInv(sys: Sys) {
    && (forall r :: r in sys.db.runs ==> Backed(sys.db.runs[r], sys.db.evidence))
    && (forall t :: t in sys.txs && sys.txs[t].OnRun? ==> Backed(sys.txs[t].tx.view, sys.db.evidence))
  }

  lemma PerformKeepsBacked(id: Id, tx: RunTx, c: RunCommand, taken: Taken, evidence: map<Id, Evidence>)
    requires RunInv(id, tx.view) && Backed(tx.view, evidence) && Perform(id, tx, c, taken).Ok?
    requires c.FinalizeCommand? ==> c.evidence == evidence
    ensures Backed(Perform(id, tx, c, taken).value.view, evidence)
  {
    hide ValidRun, Rehydrate, Offer, Claim, CommitStart, ClosePrecommit, FinalizeRun, RunInv, AttemptKeysFree, HasActive;
    if c.FinalizeCommand? {
      FinalizeRunOutcome(id, tx.view, c.writeEpoch, c.evidence, c.basis, c.entries, c.expectedAttempt, c.expected);
      hide MutationSnapshot, ValidEntries;
    }
  }

  lemma CallKeepsEvidence(sys: Sys, t: Id, c: RunCommand)
    requires SysInv(sys) && EvidenceInv(sys)
    ensures EvidenceInv(DoCallRun(sys, t, c))
  {
    hide RunsInv, BatchesInv, RunInv, Perform, Waits, OnBatchInv, Moved, TakenBy, Backed, Represents, ValidRun;
    if t in sys.txs && sys.txs[t].OnRun? && (c.FinalizeCommand? ==> c.evidence == sys.db.evidence) {
      var tx := sys.txs[t];
      assert TxInv(sys.db, tx);
      if Perform(tx.runId, tx.tx, c, TakenBy(sys, tx.runId)).Ok? {
        PerformKeepsBacked(tx.runId, tx.tx, c, TakenBy(sys, tx.runId), sys.db.evidence);
      }
    }
  }

  lemma EvidenceOnlyGrows(sys: Sys, step: Step)
    ensures forall a :: a in sys.db.evidence ==>
      a in Next(sys, step).db.evidence && Next(sys, step).db.evidence[a] == sys.db.evidence[a]
  {
    hide Perform, ReadOne, Waits, LockPasses, TakenBy;
  }

  lemma NextKeepsEvidence(sys: Sys, step: Step)
    requires SysInv(sys) && EvidenceInv(sys)
    ensures EvidenceInv(Next(sys, step))
  {
    hide SysInv, Perform, ReadOne, Waits, LockPasses, TakenBy;
    match step
    case CallRun(t, c) => CallKeepsEvidence(sys, t, c);
    case BeginRun(_, _) =>
    case CommitTx(_) =>
    case ActivateRun(_) =>
    case _ =>
      BatchStepsLeaveRuns(sys, step);
      EvidenceOnlyGrows(sys, step);
      hide Next;
  }

  /** In every reachable state a Run closed by an Attempt has its evidence row. */
  lemma {:induction false} ClosedRunsAreBacked(sys: Sys, steps: seq<Step>)
    requires SysInv(sys) && EvidenceInv(sys)
    ensures EvidenceInv(After(sys, steps))
  {
    if |steps| > 0 {
      hide SysInv, EvidenceInv, Next;
      ClosedRunsAreBacked(sys, steps[..|steps| - 1]);
      RunKeepsInv(sys, steps[..|steps| - 1]);
      NextKeepsEvidence(After(sys, steps[..|steps| - 1]), steps[|steps| - 1]);
    }
  }

  // ----- Where runs begin --------------------------------------------------

  /** A Run as planning leaves it: nothing offered, nothing executed, nothing closed. */
  predicate FreshRun(rows: RunRows) {
    && (rows.row.phase == PlannedPhase || rows.row.phase == QueuedPhase)
    && rows.assignments == map[] && NoAttempt(rows) && rows.basis.None? && Unclosed(rows)
  }

  /** A Batch before its readiness: no fact, no basis, no items. */
  predicate FreshBatch(rows: BatchRows) { NoFact(rows) && rows.row.state != FinalizingBatch }

  /** The invariants hold where a control plane starts, so what they say holds of
      every state it can reach from there. */
  lemma FreshControlPlane(db: Db, steps: seq<Step>)
    requires forall r :: r in db.runs ==> FreshRun(db.runs[r])
    requires forall b :: b in db.batches ==> FreshBatch(db.batches[b])
    ensures SysInv(After(Sys(db, map[]), steps))
    ensures KeysInv(After(Sys(db, map[]), steps)) && EvidenceInv(After(Sys(db, map[]), steps))
  {
    var sys := Sys(db, map[]);
    FreshInv(sys);
    hide SysInv, KeysInv, EvidenceInv, After;
    RunKeepsInv(sys, steps);
    KeysStayUnique(sys, steps);
    ClosedRunsAreBacked(sys, steps);
  }

  lemma FreshInv(sys: Sys)
    requires sys.txs == map[]
    requires forall r :: r in sys.db.runs ==> FreshRun(sys.db.runs[r])
    requires forall b :: b in sys.db.batches ==> FreshBatch(sys.db.batches[b])
    ensures SysInv(sys) && KeysInv(sys) && EvidenceInv(sys)
  {
    forall r | r in sys.db.runs
      ensures RunInv(r, sys.db.runs[r]) && AttemptIds(sys.db.runs[r]) == {} && StartKeys(sys.db.runs[r]) == {}
    {
      FreshRunInv(r, sys.db.runs[r]);
    }
    forall b | b in sys.db.batches
      ensures BatchInv(b, sys.db.batches[b], sys.db.runs)
    {
      FreshBatchInv(b, sys.db.batches[b], sys.db.runs);
    }
    hide RunInv, BatchInv, AttemptIds, StartKeys, FreshBatch;
  }

  lemma FreshRunInv(r: Id, rows: RunRows)
    requires FreshRun(rows)
    ensures RunInv(r, rows) && AttemptIds(rows) == {} && StartKeys(rows) == {}
  {
  }

  lemma FreshBatchInv(b: Id, rows: BatchRows, runs: map<Id, RunRows>)
    requires FreshBatch(rows)
    ensures BatchInv(b, rows, runs)
  {
    hide FactHolds, RebuildsNow, FinalizedAs, SoundFact;
  }
}
