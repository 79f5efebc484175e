/** Any number of assignment, Run finalization, readiness and Batch finalization
    transactions, interleaved statement by statement under READ COMMITTED. A
    transaction owns the row lock of its own aggregate and sees that aggregate
    through its private view; rows of other aggregates it reads as they are
    committed when the statement runs. Committing installs the view, failing
    drops it. */
module ControlPlane {
  import opened Common
  import opened RunAggregate
  import opened RunTables
  import opened AssignmentSql
  import opened RunFinalizationSql
  import opened RunLifecycle
  import opened BatchTables
  import opened BatchRebuild
  import opened BatchReadinessSql
  import opened BatchFinalizationSql

  datatype Db = Db(runs: map<Id, RunRows>, batches: map<Id, BatchRows>, evidence: map<Id, Evidence>)

  /** What a Batch transaction was opened to do, with its candidate. */
  datatype Goal = Begin(ready: ReadinessAuthority) | Finish(final: BatchAuthority) {
    function Batch(): Id {
      match this
      case Begin(a) => a.snapshot.batchId
      case Finish(a) => a.basis.snapshot.envelope.batchId
    }

    predicate Valid() {
      match this
      case Begin(a) => ValidReadiness(a.snapshot) && a.writeEpoch >= 1
      case Finish(a) => ValidBasis(a.basis) && a.writeEpoch >= 1
    }

    /** The number of the last read statement of one pass. */
    function LastStatement(): nat {
      match this
      case Begin(a) => |a.snapshot.runIds| + 1
      case Finish(_) => 1
    }
  }

  /** The sources are read three times: for the authority, for the mutation
      snapshot, and once more inside the publication. */
  datatype Stage = Waiting | Reading(pass: nat, next: nat) | Written | Replayed

  datatype Tx =
    | OnRun(runId: Id, base: RunRows, tx: RunTx)
    | OnBatch(goal: Goal, joined: Option<ReadinessFact>, stage: Stage, locked: BatchRows, view: BatchRows,
              seen: map<Id, RunRows>)

  datatype Sys = Sys(db: Db, txs: map<Id, Tx>)

  datatype Step =
    | BeginRun(t: Id, runId: Id)
    | CallRun(t: Id, c: RunCommand)
    | RequestBatch(t: Id, goal: Goal)
    | AcquireBatch(t: Id)
    | ReadBatch(t: Id)
    | CommitTx(t: Id)
    | RollbackTx(t: Id)
    | RecordEvidence(attemptId: Id, e: Evidence)
    | BumpEpoch(batchId: Id, epoch: nat)
    | ActivateRun(runId: Id)

  predicate HoldsRun(tx: Tx, r: Id) { tx.OnRun? && tx.runId == r }

  predicate HoldsBatch(tx: Tx, b: Id) { tx.OnBatch? && tx.stage != Waiting && tx.goal.Batch() == b }

  predicate RunLocked(sys: Sys, r: Id) { exists t :: t in sys.txs && HoldsRun(sys.txs[t], r) }

  predicate BatchLocked(sys: Sys, b: Id) { exists t :: t in sys.txs && HoldsBatch(sys.txs[t], b) }

  /** Unique keys in the committed rows of other Runs. */
  function TakenBy(sys: Sys, r: Id): Taken {
    var runs := sys.db.runs;
    Taken(set o, k | o in runs && o != r && k in runs[o].assignments :: k,
          set o, i | o in runs && o != r && 0 <= i < |runs[o].attempts| :: runs[o].attempts[i].id,
          set o, i | o in runs && o != r && 0 <= i < |runs[o].attempts| :: runs[o].attempts[i].startKey)
  }

  /** Unique keys in the uncommitted rows of other open transactions. */
  function PendingBy(sys: Sys, r: Id): Taken {
    var txs := sys.txs;
    Taken(set t, k | t in txs && txs[t].OnRun? && txs[t].runId != r && k in txs[t].tx.view.assignments :: k,
          set t, i | t in txs && txs[t].OnRun? && txs[t].runId != r && 0 <= i < |txs[t].tx.view.attempts|
            :: txs[t].tx.view.attempts[i].id,
          set t, i | t in txs && txs[t].OnRun? && txs[t].runId != r && 0 <= i < |txs[t].tx.view.attempts|
            :: txs[t].tx.view.attempts[i].startKey)
  }

  /** An insert that collides with an uncommitted row waits for its owner. */
  predicate Waits(sys: Sys, tx: Tx, c: RunCommand)
    requires tx.OnRun?
  {
    && Perform(tx.runId, tx.tx, c, TakenBy(sys, tx.runId)).Ok?
    && Perform(tx.runId, tx.tx, c, PendingBy(sys, tx.runId)).Err?
  }

  // ----- One statement of a Batch transaction -----------------------------

  function CandidateRebuild(a: BatchAuthority, source: BatchSource, seen: map<Id, RunRows>, runs: map<Id, RunRows>)
    : Result<SourceSnapshot>
  {
    var e := a.basis.snapshot;
    Rebuild(e, source, RunQuery(seen, e.envelope.batchId), ResolutionQuery(runs, e.envelope.batchId))
  }

  /** Whether the next read statement finds what the candidate says. */
  predicate StatementPasses(db: Db, tx: Tx)
    requires tx.OnBatch? && tx.stage.Reading?
  {
    var n := tx.stage.next;
    match tx.goal
    case Begin(a) =>
      var s := a.snapshot;
      if n == 0 then SourceMatches(s, tx.view.source) && RunsMatch(s, db.runs)
      else if n <= |s.runIds| && n <= |s.closures| then
        s.runIds[n - 1] in db.runs && DetailMatches(db.runs[s.runIds[n - 1]], s.closures[n - 1])
      else OpportunitiesMatch(s, db.runs)
    case Finish(a) =>
      n == 0 || CandidateRebuild(a, tx.view.source, tx.seen, db.runs) == Ok(a.basis.snapshot)
  }

  /** What the last statement of a pass leads to: replay the stored result, read
      on, write, or fail. */
  function FinishPass(tx: Tx): Result<Tx>
    requires tx.OnBatch? && tx.stage.Reading?
  {
    match tx.goal
    case Begin(a) =>
      if tx.stage.pass == 0 then
        var stored :- ReplayReadiness(tx.view, a);
        Ok(tx.(stage := if stored.Some? then Replayed else Reading(1, 0)))
      else if tx.stage.pass == 1 then
        :- Need(tx.view.row.version == a.snapshot.sourceVersion && IsReady(a.snapshot), PortContract);
        Ok(tx.(stage := Reading(2, 0)))
      else
        var view :- WriteReadiness(tx.view, a);
        Ok(tx.(stage := Written, view := view))
    case Finish(a) =>
      if tx.stage.pass == 0 then
        var stored :- ReplayFinalization(tx.view, a);
        Ok(tx.(stage := if stored.Some? then Replayed else Reading(1, 0)))
      else if tx.stage.pass == 1 then
        :- Need(tx.view.row.version == a.basis.snapshot.envelope.sourceVersion, PortContract);
        Ok(tx.(stage := Reading(2, 0)))
      else
        var view :- WriteFinalization(tx.view, a);
        Ok(tx.(stage := Written, view := view))
  }

  function ReadOne(db: Db, tx: Tx): Result<Tx>
    requires tx.OnBatch? && tx.stage.Reading?
  {
    if !StatementPasses(db, tx) then Err(AuthorityStateConflict)
    else
      var captured := if tx.stage.next == 0 then tx.(seen := db.runs) else tx;
      if tx.stage.next >= tx.goal.LastStatement() then FinishPass(captured)
      else Ok(captured.(stage := Reading(tx.stage.pass, tx.stage.next + 1)))
  }

  predicate LockPasses(rows: BatchRows, joined: Option<ReadinessFact>, goal: Goal) {
    match goal
    case Begin(a) => ReadinessLockPasses(rows.row, joined, a)
    case Finish(a) => FinalizerLockPasses(rows, joined, a)
  }

  /** The LEFT JOIN is evaluated when the lock statement starts; after a wait
      only the Batch row itself is read again, and a joined fact survives only if
      the new row still points at it. */
  function RecheckJoin(joined: Option<ReadinessFact>, row: BatchRow): Option<ReadinessFact> {
    if joined.Some? && row.readinessRef == Some(joined.value.ref) then joined else None
  }

  // ----- Steps -------------------------------------------------------------

  function Put(sys: Sys, t: Id, r: Result<Tx>): Sys {
    if r.Ok? then sys.(txs := sys.txs[t := r.value]) else sys.(txs := sys.txs - {t})
  }

  /** Lock a Run and see its committed rows. */
  function DoBeginRun(sys: Sys, t: Id, r: Id): Sys {
    if t !in sys.txs && r in sys.db.runs && !RunLocked(sys, r) then
      sys.(txs := sys.txs[t := OnRun(r, sys.db.runs[r], RunTx(sys.db.runs[r], None))])
    else sys
  }

  /** One gateway call on a locked Run; finalization reads the evidence rows
      committed now. A failed call ends in a rollback. */
  function DoCallRun(sys: Sys, t: Id, c: RunCommand): Sys {
    if t in sys.txs && sys.txs[t].OnRun? && (c.FinalizeCommand? ==> c.evidence == sys.db.evidence)
       && !Waits(sys, sys.txs[t], c) then
      var tx := sys.txs[t];
      var called := Perform(tx.runId, tx.tx, c, TakenBy(sys, tx.runId));
      Put(sys, t, if called.Ok? then Ok(tx.(tx := called.value)) else Err(called.error))
    else sys
  }

  /** The lock statement of a Batch transaction starts. */
  function DoRequestBatch(sys: Sys, t: Id, goal: Goal): Sys {
    if t !in sys.txs && goal.Batch() in sys.db.batches && goal.Valid() then
      var rows := sys.db.batches[goal.Batch()];
      sys.(txs := sys.txs[t := OnBatch(goal, JoinedFact(rows.row, rows.facts), Waiting, rows, rows, map[])])
    else sys
  }

  /** The lock statement gets the row and checks it. */
  function DoAcquireBatch(sys: Sys, t: Id): Sys {
    if t in sys.txs && sys.txs[t].OnBatch? && sys.txs[t].stage == Waiting
       && !BatchLocked(sys, sys.txs[t].goal.Batch()) && sys.txs[t].goal.Batch() in sys.db.batches then
      var tx := sys.txs[t];
      var rows := sys.db.batches[tx.goal.Batch()];
      var joined := RecheckJoin(tx.joined, rows.row);
      Put(sys, t, if LockPasses(rows, joined, tx.goal)
                  then Ok(tx.(joined := joined, stage := Reading(0, 0), locked := rows, view := rows))
                  else Err(AuthorityStateConflict))
    else sys
  }

  function DoReadBatch(sys: Sys, t: Id): Sys {
    if t in sys.txs && sys.txs[t].OnBatch? && sys.txs[t].stage.Reading? then Put(sys, t, ReadOne(sys.db, sys.txs[t]))
    else sys
  }

  /** Commit installs the view; a Batch transaction commits once it has written
      or replayed. */
  function DoCommit(sys: Sys, t: Id): Sys {
    if t !in sys.txs then sys
    else if sys.txs[t].OnRun? then
      var tx := sys.txs[t];
      Sys(sys.db.(runs := sys.db.runs[tx.runId := tx.tx.view]), sys.txs - {t})
    else if sys.txs[t].stage == Written || sys.txs[t].stage == Replayed then
      var tx := sys.txs[t];
      Sys(sys.db.(batches := sys.db.batches[tx.goal.Batch() := tx.view]), sys.txs - {t})
    else sys
  }

  /** Evidence rows are written once, by someone else. */
  function DoRecordEvidence(sys: Sys, attemptId: Id, e: Evidence): Sys {
    if attemptId in sys.db.evidence then sys
    else sys.(db := sys.db.(evidence := sys.db.evidence[attemptId := e]))
  }

  /** The write epoch of an unlocked Batch may change at any time. */
  function DoBumpEpoch(sys: Sys, b: Id, epoch: nat): Sys {
    if b in sys.db.batches && !BatchLocked(sys, b) then
      var rows := sys.db.batches[b];
      sys.(db := sys.db.(batches := sys.db.batches[b := rows.(row := rows.row.(writeEpoch := epoch))]))
    else sys
  }

  /** A planned Run is queued, by someone else. */
  function DoActivateRun(sys: Sys, r: Id): Sys {
    if r in sys.db.runs && !RunLocked(sys, r) && sys.db.runs[r].row.phase == PlannedPhase then
      var rows := sys.db.runs[r];
      sys.(db := sys.db.(runs := sys.db.runs[r := rows.(row := rows.row.(phase := QueuedPhase,
                                                                         version := rows.row.version + 1))]))
    else sys
  }

  /** The effect of one step; a step that cannot happen changes nothing. */
  function Next(sys: Sys, step: Step): Sys {
    match step
    case BeginRun(t, r) => DoBeginRun(sys, t, r)
    case CallRun(t, c) => DoCallRun(sys, t, c)
    case RequestBatch(t, goal) => DoRequestBatch(sys, t, goal)
    case AcquireBatch(t) => DoAcquireBatch(sys, t)
    case ReadBatch(t) => DoReadBatch(sys, t)
    case CommitTx(t) => DoCommit(sys, t)
    case RollbackTx(t) => sys.(txs := sys.txs - {t})
    case RecordEvidence(attemptId, e) => DoRecordEvidence(sys, attemptId, e)
    case BumpEpoch(b, epoch) => DoBumpEpoch(sys, b, epoch)
    case ActivateRun(r) => DoActivateRun(sys, r)
  }

  /** The state after a whole interleaving. */
  function After(sys: Sys, steps: seq<Step>): Sys {
    if |steps| == 0 then sys else Next(After(sys, steps[..|steps| - 1]), steps[|steps| - 1])
  }
}
