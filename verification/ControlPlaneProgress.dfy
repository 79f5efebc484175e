/** What the control plane can reach: which Batches can become ready, which ready
    Batches can be finalized, and what a waiting finalizer finds. */
module ControlPlaneProgress {
  import opened Common
  import opened Ordering
  import opened RunAggregate
  import opened RunTables
  import opened AssignmentSql
  import opened AssignmentLifecycle
  import opened RunFinalizationSql
  import opened RunLifecycle
  import opened BatchTables
  import opened BatchRebuild
  import opened BatchRebuildLaws
  import opened BatchReadinessSql
  import opened BatchFinalizationSql
  import opened ControlPlane
  import opened ControlPlaneInvariant
  import opened ControlPlaneTheorems
  import opened ControlPlaneKeys
  import opened BatchProgress
  import opened BatchOutcome
  import opened BatchVerdict

  // ----- Facts stay grounded in their sources -----------------------------

  /** A readiness fact agrees with sources that fit the Runs, and a basis is one
      that can be constructed. */
  predicate Grounded(rows: BatchRows, runs: map<Id, RunRows>) {
    && (rows.facts != [] ==>
          ReadySource(rows.facts[0].payload.batchId, rows.source, runs) && AgreesWith(rows.facts[0].payload, rows.source))
    && (rows.basis.Some? ==> ValidBasis(rows.basis.value.basis))
  }

  predicate GroundedInv(sys: Sys) {
    forall b :: b in sys.db.batches ==> Grounded(sys.db.batches[b], sys.db.runs)
  }

  lemma SameRunsFit(b: Id, source: BatchSource, before: map<Id, RunRows>, after: map<Id, RunRows>)
    requires SameBatchRuns(before, after, b) && ReadySource(b, source, before)
    ensures ReadySource(b, source, after)
  {
    hide SoundManifest, OwnsManifest, SoundIntent, OpportunityRanks, RunIdList, RunQuery, ResolutionQuery;
    SameQueries(before, after, b);
  }

  lemma GroundedStays(b: Id, rows: BatchRows, before: map<Id, RunRows>, after: map<Id, RunRows>)
    requires BatchInv(b, rows, before) && RunsMoved(before, after) && Grounded(rows, before)
    ensures Grounded(rows, after)
  {
    hide ReadySource, RebuildsNow, ReadinessBinding, OpportunityRanks, RunIdList, AgreesWith, ValidBasis;
    if rows.facts != [] {
      FinalizingOrFinalized(b, rows);
      ClosedBatchFrozen(before, after, b);
      SameRunsFit(b, rows.source, before, after);
    }
  }

  lemma GroundedCommit(db: Db, b: Id, before: BatchRows, after: BatchRows, goal: Goal)
    requires RunsInv(db.runs) && BatchInv(b, before, db.runs) && goal.Valid() && goal.Batch() == b
    requires CheckedNow(db, before, after, goal) && Grounded(before, db.runs)
    ensures Grounded(after, db.runs)
  {
    hide RunsInv, BatchInv, ReadySource, ReadyNow, ValidReadiness, AgreesWith, PayloadOf, RebuildsNow, BatchClosed,
         ReadinessLockPasses, FinalizerLockPasses, WriteReadiness, WriteFinalization, ValidBasis, IsReady;
    match goal
    case Begin(a) =>
      BeginCommits(b, db, before, after, a);
      ReadyMeansFits(a.snapshot, before.source, db.runs);
      PayloadNames(a.snapshot);
    case Finish(a) => FinishCommits(b, db, before, after, a);
  }

  lemma PayloadNames(s: ReadinessSnapshot)
    ensures PayloadOf(s).batchId == s.batchId
  {
  }

  lemma NextKeepsGrounded(sys: Sys, step: Step)
    requires SysInv(sys) && GroundedInv(sys)
    ensures GroundedInv(Next(sys, step))
  {
    hide SysInv, Next, Grounded, CheckedNow, RunsMoved;
    StepMovesRuns(sys, step);
    BatchesStay(sys, step);
    forall b | b in sys.db.batches
      ensures b in Next(sys, step).db.batches && Grounded(Next(sys, step).db.batches[b], Next(sys, step).db.runs)
    {
      StepKeepsGrounded(sys, step, b);
    }
  }

  lemma BatchesStay(sys: Sys, step: Step)
    requires SysInv(sys)
    ensures Next(sys, step).db.batches.Keys == sys.db.batches.Keys
  {
    hide Perform, ReadOne, Waits, LockPasses, TakenBy, BatchInv, RunsInv, OnRunInv, CheckedNow, BeginRead, FinishRead;
    if step.CommitTx? && step.t in sys.txs {
      assert TxInv(sys.db, sys.txs[step.t]);
    }
  }

  lemma SysParts(sys: Sys, b: Id)
    requires SysInv(sys) && b in sys.db.batches
    ensures RunsInv(sys.db.runs) && BatchInv(b, sys.db.batches[b], sys.db.runs)
    ensures forall t :: t in sys.txs && sys.txs[t].OnBatch? ==> sys.txs[t].goal.Valid()
  {
    hide RunInv, BatchInv, BeginRead, FinishRead, CheckedNow, LockPasses;
    forall t | t in sys.txs && sys.txs[t].OnBatch?
      ensures sys.txs[t].goal.Valid()
    {
      assert TxInv(sys.db, sys.txs[t]);
    }
  }

  lemma SameBeyondEpoch(before: BatchRows, after: BatchRows, runs: map<Id, RunRows>)
    requires Grounded(before, runs) && after == before.(row := before.row.(writeEpoch := after.row.writeEpoch))
    ensures Grounded(after, runs)
  {
    hide ReadySource, AgreesWith, ValidBasis;
  }

  lemma StepKeepsGrounded(sys: Sys, step: Step, b: Id)
    requires SysInv(sys) && GroundedInv(sys) && b in sys.db.batches
    requires RunsMoved(sys.db.runs, Next(sys, step).db.runs)
    requires b in Next(sys, step).db.batches
    ensures Grounded(Next(sys, step).db.batches[b], Next(sys, step).db.runs)
  {
    hide SysInv, Next, Grounded, CheckedNow, RunsMoved, BatchInv, RunsInv;
    SysParts(sys, b);
    CommitsAreAtomic(sys, step, b);
    var before, after := sys.db.batches[b], Next(sys, step).db.batches[b];
    if after == before.(row := before.row.(writeEpoch := after.row.writeEpoch)) {
      GroundedStays(b, before, sys.db.runs, Next(sys, step).db.runs);
      SameBeyondEpoch(before, after, Next(sys, step).db.runs);
    } else {
      GroundedCommit(sys.db, b, before, after, sys.txs[step.t].goal);
    }
  }

  lemma {:induction false} RunKeepsGrounded(sys: Sys, steps: seq<Step>)
    requires SysInv(sys) && GroundedInv(sys)
    ensures GroundedInv(After(sys, steps))
  {
    if |steps| > 0 {
      hide SysInv, GroundedInv, Next;
      RunKeepsGrounded(sys, steps[..|steps| - 1]);
      RunKeepsInv(sys, steps[..|steps| - 1]);
      NextKeepsGrounded(After(sys, steps[..|steps| - 1]), steps[|steps| - 1]);
    }
  }

  /** From a control plane with nothing executed, every reachable state is grounded. */
  lemma FreshIsGrounded(db: Db, steps: seq<Step>)
    requires forall r :: r in db.runs ==> FreshRun(db.runs[r])
    requires forall b :: b in db.batches ==> FreshBatch(db.batches[b])
    ensures SysInv(After(Sys(db, map[]), steps)) && GroundedInv(After(Sys(db, map[]), steps))
  {
    hide SysInv, GroundedInv, After, FreshRun, FreshBatch;
    var sys := Sys(db, map[]);
    FreshInv(sys);
    FreshGrounded(sys);
    RunKeepsInv(sys, steps);
    RunKeepsGrounded(sys, steps);
  }

  lemma FreshGrounded(sys: Sys)
    requires forall b :: b in sys.db.batches ==> FreshBatch(sys.db.batches[b])
    ensures GroundedInv(sys)
  {
    hide ReadySource, AgreesWith, ValidBasis;
  }

  // ----- Running one Batch transaction to its end -------------------------

  /** Every check of the goal passes on the tables as they are. */
  predicate Passes(db: Db, goal: Goal, source: BatchSource) {
    match goal
    case Begin(a) => ReadyNow(a.snapshot, source, db.runs)
    case Finish(a) => RebuildsNow(a.basis.snapshot, source, db.runs)
  }

  /** Reading, with what the first statement of a pass captured still current. */
  predicate ReadsNow(db: Db, tx: Tx, pass: nat, next: nat) {
    && tx.OnBatch? && tx.goal.Valid() && tx.stage == Reading(pass, next) && next <= tx.goal.LastStatement()
    && (next > 0 ==> tx.seen == db.runs)
    && Passes(db, tx.goal, tx.view.source)
  }

  lemma StatementsPass(db: Db, tx: Tx, pass: nat, next: nat)
    requires ReadsNow(db, tx, pass, next)
    ensures StatementPasses(db, tx)
  {
    hide RunRowMatches, DetailMatches, SourceMatches, OpportunitiesMatch, SoundManifest, OwnsManifest, ClosureOf, Rebuild,
         RunQuery, ResolutionQuery;
  }

  lemma ReadMoves(db: Db, tx: Tx, pass: nat, next: nat)
    requires ReadsNow(db, tx, pass, next)
    ensures ReadOne(db, tx) == if next >= tx.goal.LastStatement() then FinishPass(tx.(seen := db.runs))
                               else Ok(tx.(seen := db.runs, stage := Reading(pass, next + 1)))
    ensures next < tx.goal.LastStatement() ==>
              ReadsNow(db, tx.(seen := db.runs, stage := Reading(pass, next + 1)), pass, next + 1)
  {
    hide StatementPasses, Passes, FinishPass, ValidReadiness, ValidBasis;
    StatementsPass(db, tx, pass, next);
    if next > 0 {
      assert tx.(seen := db.runs) == tx;
    }
  }

  function Reads(t: Id, n: nat): seq<Step> { seq(n, _ => ReadBatch(t)) }

  function With(sys: Sys, t: Id, tx: Tx): Sys { sys.(txs := sys.txs[t := tx]) }

  lemma ReadStep(sys: Sys, t: Id)
    ensures Next(sys, ReadBatch(t)) == DoReadBatch(sys, t)
  {
  }

  lemma MoreReads(sys: Sys, t: Id, n: nat)
    ensures After(sys, Reads(t, n + 1)) == DoReadBatch(After(sys, Reads(t, n)), t)
    ensures After(sys, Reads(t, 0)) == sys
  {
    hide Next, DoReadBatch;
    assert Reads(t, n + 1)[..n] == Reads(t, n);
    ReadStep(After(sys, Reads(t, n)), t);
  }

  lemma OneRead(sys: Sys, t: Id, r: Result<Tx>)
    requires t in sys.txs && sys.txs[t].OnBatch? && sys.txs[t].stage.Reading? && ReadOne(sys.db, sys.txs[t]) == r
    ensures DoReadBatch(sys, t) == Put(sys, t, r)
  {
    hide ReadOne;
  }

  /** The first `n` statements of a pass. */
  lemma {:induction false} ReadsInPass(sys: Sys, t: Id, tx: Tx, pass: nat, n: nat)
    requires t in sys.txs && sys.txs[t] == tx && ReadsNow(sys.db, tx, pass, 0) && n <= tx.goal.LastStatement()
    ensures tx.OnBatch?
    ensures n == 0 ==> After(sys, Reads(t, n)) == sys
    ensures n > 0 ==> After(sys, Reads(t, n)) == With(sys, t, tx.(seen := sys.db.runs, stage := Reading(pass, n)))
    ensures n > 0 ==> ReadsNow(sys.db, tx.(seen := sys.db.runs, stage := Reading(pass, n)), pass, n)
  {
    hide After, DoReadBatch, ReadOne, ReadsNow, Reads;
    if n > 0 {
      MoreReads(sys, t, n - 1);
      ReadsInPass(sys, t, tx, pass, n - 1);
      NowReading(sys.db, tx, pass, 0);
      var before := After(sys, Reads(t, n - 1));
      NowReading(sys.db, if n == 1 then tx else tx.(seen := sys.db.runs, stage := Reading(pass, n - 1)), pass, n - 1);
      ReadMoves(sys.db, before.txs[t], pass, n - 1);
      OneRead(before, t, ReadOne(sys.db, before.txs[t]));
    } else {
      NowReading(sys.db, tx, pass, 0);
      MoreReads(sys, t, 0);
    }
  }

  lemma NowReading(db: Db, tx: Tx, pass: nat, next: nat)
    requires ReadsNow(db, tx, pass, next)
    ensures tx.OnBatch? && tx.stage == Reading(pass, next)
  {
  }

  /** A whole pass ends in what its last statement leads to. */
  lemma WholePass(sys: Sys, t: Id, tx: Tx, pass: nat)
    requires t in sys.txs && sys.txs[t] == tx && ReadsNow(sys.db, tx, pass, 0)
    ensures var last := tx.goal.LastStatement();
            After(sys, Reads(t, last + 1))
            == Put(sys, t, FinishPass(tx.(seen := sys.db.runs, stage := Reading(pass, last))))
  {
    hide After, DoReadBatch, ReadOne, Reads, FinishPass, Passes, ValidReadiness, ValidBasis;
    var last := tx.goal.LastStatement();
    assert last > 0;
    var end := tx.(seen := sys.db.runs, stage := Reading(pass, last));
    ReadsInPass(sys, t, tx, pass, last);
    MoreReads(sys, t, last);
    ReadMoves(sys.db, end, pass, last);
    OneRead(With(sys, t, end), t, ReadOne(sys.db, end));
    assert end.(seen := sys.db.runs) == end;
  }

  // ----- Publishing --------------------------------------------------------

  function Written(rows: BatchRows, goal: Goal): Result<BatchRows> {
    match goal
    case Begin(a) => WriteReadiness(rows, a)
    case Finish(a) => WriteFinalization(rows, a)
  }

  /** The locked rows let the goal write. */
  predicate Publishable(rows: BatchRows, goal: Goal) {
    && Written(rows, goal).Ok?
    && match goal
       case Begin(a) => rows.facts == [] && IsReady(a.snapshot)
       case Finish(_) => rows.basis.None?
  }

  lemma PassOutcome(tx: Tx, pass: nat)
    requires tx.OnBatch? && tx.stage.Reading? && tx.stage.pass == pass && Publishable(tx.view, tx.goal)
    ensures pass == 0 ==> FinishPass(tx) == Ok(tx.(stage := Reading(1, 0)))
    ensures pass == 1 ==> FinishPass(tx) == Ok(tx.(stage := Reading(2, 0)))
    ensures pass == 2 ==>
      FinishPass(tx) == Ok(tx.(stage := Stage.Written, view := Written(tx.view, tx.goal).value))
  {
    hide FactOf, ItemMap, PayloadOf;
  }

  function Passage(t: Id, goal: Goal): seq<Step> { Reads(t, goal.LastStatement() + 1) }

  function PublishSteps(t: Id, goal: Goal): seq<Step> {
    [RequestBatch(t, goal), AcquireBatch(t)] + Passage(t, goal) + Passage(t, goal) + Passage(t, goal) + [CommitTx(t)]
  }

  /** From the lock on: three passes and the commit install the written rows. */
  lemma ThreePasses(sys: Sys, t: Id, tx: Tx)
    requires t in sys.txs && sys.txs[t] == tx && ReadsNow(sys.db, tx, 0, 0) && Publishable(tx.view, tx.goal)
    ensures var end := After(After(After(sys, Passage(t, tx.goal)), Passage(t, tx.goal)), Passage(t, tx.goal));
            && end.db == sys.db && t in end.txs && end.txs.Keys == sys.txs.Keys
            && end.txs[t] == tx.(seen := sys.db.runs, stage := Stage.Written, view := Written(tx.view, tx.goal).value)
            && end == With(sys, t, end.txs[t])
  {
    hide After, Reads, FinishPass, Passes, ValidReadiness, ValidBasis, Publishable, Written;
    var last := tx.goal.LastStatement();
    WholePass(sys, t, tx, 0);
    PassOutcome(tx.(seen := sys.db.runs, stage := Reading(0, last)), 0);
    var tx1 := tx.(seen := sys.db.runs, stage := Reading(1, 0));
    var sys1 := With(sys, t, tx1);
    WholePass(sys1, t, tx1, 1);
    PassOutcome(tx1.(stage := Reading(1, last)), 1);
    var tx2 := tx1.(stage := Reading(2, 0));
    var sys2 := With(sys1, t, tx2);
    WholePass(sys2, t, tx2, 2);
    PassOutcome(tx2.(stage := Reading(2, last)), 2);
    assert sys2 == With(sys, t, tx2);
  }

  lemma AfterConcat(sys: Sys, a: seq<Step>, b: seq<Step>)
    ensures After(sys, a + b) == After(After(sys, a), b)
  {
    hide Next;
    AfterSplit(sys, a + b, |a|);
    assert (a + b)[..|a|] == a && (a + b)[|a|..] == b;
  }

  lemma OneStep(sys: Sys, step: Step)
    ensures After(sys, [step]) == Next(sys, step)
  {
    hide Next;
    assert [step][..0] == [];
  }

  /** The transaction once it has the lock. */
  function Holding(rows: BatchRows, goal: Goal): Tx {
    OnBatch(goal, JoinedFact(rows.row, rows.facts), Reading(0, 0), rows, rows, map[])
  }

  lemma AcquireStep(sys: Sys, t: Id)
    ensures After(sys, [AcquireBatch(t)]) == DoAcquireBatch(sys, t)
  {
    OneStep(sys, AcquireBatch(t));
    hide After;
  }

  lemma LockSteps(sys: Sys, t: Id, goal: Goal)
    ensures After(sys, [RequestBatch(t, goal), AcquireBatch(t)]) == DoAcquireBatch(DoRequestBatch(sys, t, goal), t)
  {
    OneStep(sys, RequestBatch(t, goal));
    OneStep(DoRequestBatch(sys, t, goal), AcquireBatch(t));
    hide After, DoAcquireBatch, DoRequestBatch;
    AfterConcat(sys, [RequestBatch(t, goal)], [AcquireBatch(t)]);
    assert [RequestBatch(t, goal)] + [AcquireBatch(t)] == [RequestBatch(t, goal), AcquireBatch(t)];
  }

  lemma LockTaken(sys: Sys, t: Id, goal: Goal)
    requires sys.txs == map[] && goal.Batch() in sys.db.batches && goal.Valid()
    requires var rows := sys.db.batches[goal.Batch()]; LockPasses(rows, JoinedFact(rows.row, rows.facts), goal)
    ensures After(sys, [RequestBatch(t, goal), AcquireBatch(t)]) == With(sys, t, Holding(sys.db.batches[goal.Batch()], goal))
  {
    hide LockPasses, ValidReadiness, ValidBasis, After, Next;
    LockSteps(sys, t, goal);
    var asked := DoRequestBatch(sys, t, goal);
    assert !BatchLocked(asked, goal.Batch());
    assert asked.txs[t := Holding(sys.db.batches[goal.Batch()], goal)]
           == sys.txs[t := Holding(sys.db.batches[goal.Batch()], goal)];
  }

  lemma WrittenCommits(sys: Sys, t: Id)
    requires t in sys.txs && sys.txs[t].OnBatch? && sys.txs[t].stage == Stage.Written
    ensures After(sys, [CommitTx(t)])
            == Sys(sys.db.(batches := sys.db.batches[sys.txs[t].goal.Batch() := sys.txs[t].view]), sys.txs - {t})
  {
    OneStep(sys, CommitTx(t));
    hide After;
  }

  /** With no transaction open, a goal whose checks all pass is carried out by the
      steps of its transaction. */
  lemma PublishRun(sys: Sys, t: Id, goal: Goal)
    requires sys.txs == map[] && goal.Batch() in sys.db.batches && goal.Valid()
    requires var rows := sys.db.batches[goal.Batch()];
             && LockPasses(rows, JoinedFact(rows.row, rows.facts), goal)
             && Publishable(rows, goal) && Passes(sys.db, goal, rows.source)
    ensures After(sys, PublishSteps(t, goal))
            == Sys(sys.db.(batches := sys.db.batches[goal.Batch() := Written(sys.db.batches[goal.Batch()], goal).value]),
                   map[])
  {
    hide After, LockPasses, ValidReadiness, ValidBasis, Publishable, Passes, Passage, Written;
    var rows, first, pass := sys.db.batches[goal.Batch()], [RequestBatch(t, goal), AcquireBatch(t)], Passage(t, goal);
    LockTaken(sys, t, goal);
    var held := With(sys, t, Holding(rows, goal));
    ThreePasses(held, t, Holding(rows, goal));
    AfterConcat(sys, first, pass);
    AfterConcat(sys, first + pass, pass);
    AfterConcat(sys, first + pass + pass, pass);
    var end := After(sys, first + pass + pass + pass);
    AfterConcat(sys, first + pass + pass + pass, [CommitTx(t)]);
    WrittenCommits(end, t);
    assert end.txs - {t} == map[];
  }

  // ----- Clearing the way --------------------------------------------------

  /** Every open transaction can be rolled back, and others may raise the epoch. */
  lemma {:induction false} RollBackAll(sys: Sys) returns (steps: seq<Step>)
    ensures After(sys, steps) == Sys(sys.db, map[])
    decreases |sys.txs|
  {
    hide Next, After;
    if sys.txs == map[] {
      steps := [];
      NoSteps(sys);
    } else {
      var t :| t in sys.txs;
      var next := sys.(txs := sys.txs - {t});
      RolledBack(sys, t);
      assert |next.txs.Keys| < |sys.txs.Keys| by { assert next.txs.Keys == sys.txs.Keys - {t}; }
      var rest := RollBackAll(next);
      steps := [RollbackTx(t)] + rest;
      AfterConcat(sys, [RollbackTx(t)], rest);
    }
  }

  lemma NoSteps(sys: Sys)
    ensures After(sys, []) == sys
  {
  }

  lemma RolledBack(sys: Sys, t: Id)
    ensures After(sys, [RollbackTx(t)]) == sys.(txs := sys.txs - {t})
  {
    OneStep(sys, RollbackTx(t));
    hide After;
  }

  function WithEpoch(rows: BatchRows, epoch: nat): BatchRows { rows.(row := rows.row.(writeEpoch := epoch)) }

  lemma EpochRaised(sys: Sys, b: Id, epoch: nat)
    requires sys.txs == map[] && b in sys.db.batches
    ensures After(sys, [BumpEpoch(b, epoch)])
            == Sys(sys.db.(batches := sys.db.batches[b := WithEpoch(sys.db.batches[b], epoch)]), map[])
  {
    hide After, DoBeginRun, DoCallRun, DoRequestBatch, DoAcquireBatch, DoReadBatch, DoCommit, DoRecordEvidence,
         DoActivateRun;
    OneStep(sys, BumpEpoch(b, epoch));
  }

  /** Some run leaves no transaction open and the Batch in write epoch one. */
  lemma ClearTheWay(sys: Sys, b: Id) returns (steps: seq<Step>)
    requires b in sys.db.batches
    ensures After(sys, steps)
            == Sys(sys.db.(batches := sys.db.batches[b := WithEpoch(sys.db.batches[b], 1)]), map[])
  {
    hide After;
    var first := RollBackAll(sys);
    EpochRaised(Sys(sys.db, map[]), b, 1);
    steps := first + [BumpEpoch(b, 1)];
    AfterConcat(sys, first, [BumpEpoch(b, 1)]);
  }

  // ----- Which Batches become ready, and which of those finish ------------

  predicate ReadiedBy(sys: Sys, steps: seq<Step>, b: Id) {
    b in After(sys, steps).db.batches && After(sys, steps).db.batches[b].facts != []
  }

  predicate FinalizedBy(sys: Sys, steps: seq<Step>, b: Id) {
    b in After(sys, steps).db.batches && After(sys, steps).db.batches[b].basis.Some?
  }

  /** The policy that the readiness fact names. */
  function PolicyOf(rows: BatchRows): Policy
    requires rows.facts != []
  {
    rows.facts[0].payload.policyDigest.preimage
  }

  /** What lets a Batch of closed Runs be finalized under a policy. */
  predicate Finishable(b: Id, source: BatchSource, policy: Policy, runs: map<Id, RunRows>)
    requires source.manifest.Some? && source.plan.Some?
  {
    SoundScope(b, source, source.manifest.value, source.plan.value, runs) && Evaluable(b, source, policy, runs)
  }

  function FinalGoal(e: SourceSnapshot, outcome: BatchState): Goal {
    Finish(BatchAuthority(BatchBasis(e, e.resolutionSet.entries, outcome), Digest(0), 1))
  }

  /** The rebuilt snapshot, with its outcome, makes a goal that the finalizing rows
      let through. */
  lemma FinalGoalFits(b: Id, rows: BatchRows, e: SourceSnapshot, outcome: BatchState, runs: map<Id, RunRows>)
    requires RunsInv(runs) && BatchInv(b, rows, runs) && Grounded(rows, runs)
    requires rows.row.state == FinalizingBatch && rows.row.writeEpoch == 1
    requires rows.facts != [] && PolicyOf(rows).suite == rows.source.suite && SourcesApproved(rows.source)
    requires RebuiltAs(Named(b, rows.facts[0].batchVersion, rows.source, PolicyOf(rows)), e, rows.source, runs)
    requires ValidBasis(BatchBasis(e, e.resolutionSet.entries, outcome))
    ensures FinalGoal(e, outcome).Valid() && FinalGoal(e, outcome).Batch() == b
    ensures LockPasses(rows, JoinedFact(rows.row, rows.facts), FinalGoal(e, outcome))
    ensures Publishable(rows, FinalGoal(e, outcome))
    ensures Written(rows, FinalGoal(e, outcome)).Ok? && Written(rows, FinalGoal(e, outcome)).value.basis.Some?
  {
    hide RunsInv, IntentFits, ShardsFit, SoundManifest, OpportunityRanks, FactHolds, RebuildsNow, RunIdList, RunQuery,
         TerminalRefs, AgreesWith, ReadinessBinding, ItemMap, ValidBasis, ItemsOfRuns, UnknownsOfRuns, CoherentSources,
         FindPolicy, SortedBy;
    FinalizingOrFinalized(b, rows);
    FactRefs(rows.facts[0].payload, runs, b);
    RebuiltIsBound(b, rows, e, runs);
    assert JoinedFact(rows.row, rows.facts) == Some(rows.facts[0]);
    DistinctEntries(rows.source.manifest.value, e.resolutionSet.entries);
  }

  lemma DistinctEntries(m: Manifest, entries: seq<BatchItem>)
    requires SoundManifest(m) && |entries| == |m.items| && forall i :: 0 <= i < |m.items| ==> entries[i].item == m.items[i]
    ensures forall i, j :: 0 <= i < j < |entries| ==> entries[i].item != entries[j].item
  {
  }

  lemma EpochKeepsBatch(b: Id, rows: BatchRows, epoch: nat, runs: map<Id, RunRows>)
    requires BatchInv(b, rows, runs) && Grounded(rows, runs)
    ensures BatchInv(b, WithEpoch(rows, epoch), runs) && Grounded(WithEpoch(rows, epoch), runs)
  {
    hide BatchInv, Grounded;
    EpochKeepsShape(b, rows, epoch, runs);
    SameBeyondEpoch(rows, WithEpoch(rows, epoch), runs);
  }

  /** A ready Batch that is finishable is finalized by some run. */
  lemma FinalizeFrom(sys: Sys, b: Id) returns (steps: seq<Step>)
    requires SysInv(sys) && GroundedInv(sys) && b in sys.db.batches
    requires sys.db.batches[b].row.state == FinalizingBatch && sys.db.batches[b].facts != []
    requires ReadySource(b, sys.db.batches[b].source, sys.db.runs)
    requires Finishable(b, sys.db.batches[b].source, PolicyOf(sys.db.batches[b]), sys.db.runs)
    ensures FinalizedBy(sys, steps, b)
  {
    hide SysInv, After, RunsInv, BatchInv, Grounded, IntentFits, ShardsFit, SoundManifest, OpportunityRanks, SoundScope,
         LockPasses, Publishable, RebuildsNow, Written, RebuiltAs, Evaluate, NothingCancelled, CountsOf, ValidBasis, Filed;
    SysParts(sys, b);
    var rows := WithEpoch(sys.db.batches[b], 1);
    var cleared := Sys(sys.db.(batches := sys.db.batches[b := rows]), map[]);
    var first := ClearTheWay(sys, b);
    EpochKeepsBatch(b, sys.db.batches[b], 1, sys.db.runs);
    FactNamesPolicy(rows, sys.db.runs);
    var version, policy := rows.facts[0].batchVersion, PolicyOf(rows);
    SnapshotExactlyWhen(b, version, rows.source, policy, sys.db.runs);
    var e :| RebuildsNow(e, rows.source, sys.db.runs)
             && RebuiltAs(Named(b, version, rows.source, policy), e, rows.source, sys.db.runs);
    var named := Named(b, version, rows.source, policy);
    RebuiltPolicy(named, e, rows.source, sys.db.runs);
    EvaluableExactlyWhen(named, e, rows.source, sys.db.runs);
    var outcome := Evaluate(CountsOf(e.resolutionSet.entries), e.policy, e.intent).value;
    ValidExactlyWithOutcome(named, e, rows.source, sys.db.runs, outcome);
    FinalGoalFits(b, rows, e, outcome, sys.db.runs);
    PublishRun(cleared, 0, FinalGoal(e, outcome));
    steps := first + PublishSteps(0, FinalGoal(e, outcome));
    AfterConcat(sys, first, PublishSteps(0, FinalGoal(e, outcome)));
  }

  lemma FactNamesPolicy(rows: BatchRows, runs: map<Id, RunRows>)
    requires Grounded(rows, runs) && rows.facts != []
    ensures Filed(rows.source, PolicyOf(rows)) && SourcesApproved(rows.source)
  {
    hide IntentFits, ShardsFit, OpportunityRanks, ValidBasis, SoundManifest, Filed;
  }

  lemma RebuiltPolicy(named: SourceSnapshot, e: SourceSnapshot, source: BatchSource, runs: map<Id, RunRows>)
    requires SourcesApproved(source) && RebuiltAs(named, e, source, runs)
    requires Filed(source, named.policy) && named.policy.suite == source.suite
    ensures e.policy == named.policy
  {
    hide SoundManifest, ItemsOfRuns, UnknownsOfRuns, CoherentSources, SortedBy, TerminalRefs, RunQuery, RunIdList;
  }

  lemma SameScope(b: Id, source: BatchSource, manifest: Manifest, plan: Plan, before: map<Id, RunRows>, after: map<Id, RunRows>)
    requires SameBatchRuns(before, after, b)
    ensures SoundScope(b, source, manifest, plan, before) <==> SoundScope(b, source, manifest, plan, after)
  {
    hide RowsSound, CoversOnce;
  }

  lemma SameFinishable(b: Id, source: BatchSource, policy: Policy, before: map<Id, RunRows>, after: map<Id, RunRows>)
    requires SameBatchRuns(before, after, b) && source.manifest.Some? && source.plan.Some?
    ensures Finishable(b, source, policy, before) <==> Finishable(b, source, policy, after)
  {
    hide SoundScope;
    SameScope(b, source, source.manifest.value, source.plan.value, before, after);
  }

  /** What later states keep of the sources and of closed Runs. */
  lemma LaterTables(sys: Sys, steps: seq<Step>, b: Id)
    requires SysInv(sys) && GroundedInv(sys) && b in sys.db.batches
    ensures var later := After(sys, steps);
            && SysInv(later) && GroundedInv(later) && b in later.db.batches
            && later.db.batches[b].source == sys.db.batches[b].source
            && RunsMoved(sys.db.runs, later.db.runs)
            && Advanced(sys.db.batches[b], later.db.batches[b])
  {
    hide SysInv, GroundedInv, After, RunsMoved;
    RunKeepsInv(sys, steps);
    RunKeepsGrounded(sys, steps);
    BatchesOnlyAdvance(sys, steps);
    RunsOnlyMove(sys, steps);
  }

  lemma FactFits(b: Id, rows: BatchRows, runs: map<Id, RunRows>)
    requires BatchInv(b, rows, runs) && Grounded(rows, runs) && rows.facts != []
    ensures ReadySource(b, rows.source, runs) && BatchClosed(runs, b)
  {
    hide ReadySource, RebuildsNow, AgreesWith, OpportunityRanks, RunIdList;
    FinalizingOrFinalized(b, rows);
  }

  /** A basis is only ever stored over a finishable Batch, under the policy of its
      fact, and its outcome is the evaluation of the resolution rows. */
  lemma BasisNeedsFinishable(b: Id, rows: BatchRows, runs: map<Id, RunRows>)
    requires RunsInv(runs) && BatchInv(b, rows, runs) && Grounded(rows, runs) && rows.basis.Some?
    ensures rows.facts != [] && ReadySource(b, rows.source, runs)
    ensures Finishable(b, rows.source, PolicyOf(rows), runs)
    ensures Evaluate(RowCounts(rows.source, runs, b), PolicyOf(rows), IntentOf(rows.source)) == Ok(rows.row.state)
  {
    hide RunsInv, RebuildsNow, Grounded, FactHolds, ReadySource, SoundScope, RebuiltAs, ValidBasis, Evaluate, RowCounts,
         NothingCancelled, CountsOf, FinalizedAs;
    BasisNeedsFact(b, rows);
    FinalizedNamesBatch(b, rows);
    FactFits(b, rows, runs);
    var stored := rows.basis.value.basis;
    var e := stored.snapshot;
    BasisBinds(b, rows, runs);
    SnapshotExactlyWhen(b, 0, rows.source, e.policy, runs);
    EvaluableExactlyWhen(e, e, rows.source, runs);
    CountsAreRows(e, e, rows.source, runs);
    assert RebuildsNow(e, rows.source, runs);
    RebuiltIntent(b, e, rows.source, runs);
  }

  lemma RebuiltIntent(b: Id, e: SourceSnapshot, source: BatchSource, runs: map<Id, RunRows>)
    requires ReadySource(b, source, runs) && RebuiltAs(e, e, source, runs)
    ensures e.intent == IntentOf(source)
  {
    hide IntentFits, ShardsFit, OpportunityRanks, SoundManifest, ItemsOfRuns, UnknownsOfRuns, CoherentSources, SortedBy,
         TerminalRefs, RunQuery, RunIdList;
  }

  lemma BasisBinds(b: Id, rows: BatchRows, runs: map<Id, RunRows>)
    requires BatchShape(b, rows) && Grounded(rows, runs) && rows.basis.Some? && rows.facts != []
    ensures var stored := rows.basis.value.basis;
            && stored.snapshot.policy == PolicyOf(rows) && rows.row.state == stored.outcome
            && stored == BatchBasis(stored.snapshot, stored.snapshot.resolutionSet.entries, stored.outcome)
            && Evaluate(CountsOf(stored.snapshot.resolutionSet.entries), stored.snapshot.policy, stored.snapshot.intent)
               == Ok(stored.outcome)
  {
    hide ReadySource, AgreesWith, Evaluate, CountsOf, CoherentSources, RefsFit, ItemsFit, UnknownsFit, NonRunsFit;
  }

  /** The exact condition for the end of a Batch: one that has its readiness fact
      can be finalized, by some run of any transactions, if and only if
      - its cancellation scope is empty without an intent, and with one says of
        every manifest item, once and soundly, which closed Run resolved it,
      - the policy the fact names is of the Batch's suite and is supported, and
      - an intent is recorded or no item was resolved as cancelled. */
  lemma FinalizableExactlyWhen(sys: Sys, b: Id)
    requires SysInv(sys) && GroundedInv(sys) && b in sys.db.batches
    requires sys.db.batches[b].row.state == FinalizingBatch
    ensures sys.db.batches[b].facts != [] && ReadySource(b, sys.db.batches[b].source, sys.db.runs)
    ensures (exists steps :: FinalizedBy(sys, steps, b))
            <==> Finishable(b, sys.db.batches[b].source, PolicyOf(sys.db.batches[b]), sys.db.runs)
  {
    hide SysInv, After, RunsInv, BatchInv, Grounded, IntentFits, ShardsFit, SoundManifest, OpportunityRanks, Finishable,
         RunsMoved, Advanced;
    SysParts(sys, b);
    var rows := sys.db.batches[b];
    FinalizingHasFact(b, rows, sys.db.runs);
    FactFits(b, rows, sys.db.runs);
    if Finishable(b, rows.source, PolicyOf(rows), sys.db.runs) {
      var steps := FinalizeFrom(sys, b);
    }
    forall steps | FinalizedBy(sys, steps, b)
      ensures Finishable(b, rows.source, PolicyOf(rows), sys.db.runs)
    {
      FinalizedNeedsFinishable(sys, steps, b);
    }
  }

  lemma FinalizedNeedsFinishable(sys: Sys, steps: seq<Step>, b: Id)
    requires SysInv(sys) && GroundedInv(sys) && b in sys.db.batches && BatchClosed(sys.db.runs, b)
    requires FinalizedBy(sys, steps, b)
    ensures ReadySource(b, sys.db.batches[b].source, sys.db.runs)
    ensures var source, later := sys.db.batches[b].source, After(sys, steps).db.batches[b];
            && later.facts != [] && Filed(source, PolicyOf(later)) && Finishable(b, source, PolicyOf(later), sys.db.runs)
            && Evaluate(RowCounts(source, sys.db.runs, b), PolicyOf(later), IntentOf(source)) == Ok(later.row.state)
            && (sys.db.batches[b].facts != [] ==> PolicyOf(later) == PolicyOf(sys.db.batches[b]))
  {
    hide SysInv, After, RunsInv, BatchInv, Grounded, IntentFits, ShardsFit, SoundManifest, OpportunityRanks, Finishable,
         RunsMoved, BatchClosed, SameBatchRuns, Evaluate, RowCounts, Filed;
    LaterTables(sys, steps, b);
    var later, rows := After(sys, steps).db.runs, After(sys, steps).db.batches[b];
    SysParts(After(sys, steps), b);
    GroundedAt(After(sys, steps), b);
    ClosedBatchFrozen(sys.db.runs, later, b);
    SameRuns(sys.db.runs, later, b);
    BasisNeedsFinishable(b, rows, later);
    FactNamesPolicy(rows, later);
    SameRunsFit(b, rows.source, later, sys.db.runs);
    SameFinishable(b, rows.source, PolicyOf(rows), later, sys.db.runs);
    SameCounts(rows.source, later, sys.db.runs, b);
  }

  lemma SameCounts(source: BatchSource, before: map<Id, RunRows>, after: map<Id, RunRows>, b: Id)
    requires SourcesApproved(source) && SameBatchRuns(before, after, b)
    ensures RowCounts(source, before, b) == RowCounts(source, after, b)
  {
    hide SoundManifest;
    forall c
      ensures Classed(before, b, c) == Classed(after, b, c)
    {
    }
  }

  lemma FinalizingHasFact(b: Id, rows: BatchRows, runs: map<Id, RunRows>)
    requires BatchInv(b, rows, runs) && rows.row.state == FinalizingBatch
    ensures rows.facts != []
  {
    hide FactHolds, RebuildsNow, ReadinessBinding;
  }

  lemma SameRuns(before: map<Id, RunRows>, after: map<Id, RunRows>, b: Id)
    requires RunsOf(after, b) == RunsOf(before, b) && forall r :: r in RunsOf(before, b) ==> after[r] == before[r]
    ensures SameBatchRuns(before, after, b) && SameBatchRuns(after, before, b)
  {
  }

  lemma GroundedAt(sys: Sys, b: Id)
    requires GroundedInv(sys) && b in sys.db.batches
    ensures Grounded(sys.db.batches[b], sys.db.runs)
  {
  }

  lemma RebuiltOf(b: Id, rows: BatchRows, runs: map<Id, RunRows>)
    requires BatchInv(b, rows, runs) && rows.basis.Some?
    ensures RebuildsNow(rows.basis.value.basis.snapshot, rows.source, runs)
    ensures rows.basis.value.basis.snapshot.envelope.batchId == b
  {
    hide FactHolds, RebuildsNow, ReadinessBinding;
    FinalizedNamesBatch(b, rows);
  }

  lemma SoundIsExecuted(b: Id, source: BatchSource, runs: map<Id, RunRows>)
    requires source.manifest.Some? && source.plan.Some?
    requires SoundScope(b, source, source.manifest.value, source.plan.value, runs)
    ensures NotExecutedItems(source.scope) == {}
  {
    hide RowsSound, CoversOnce;
  }

  lemma AllResolved(manifest: seq<ItemKey>, resolved: set<ItemKey>, count: nat)
    requires SplitsManifest(manifest, resolved, {}, count)
    ensures forall i :: 0 <= i < |manifest| ==> manifest[i] in resolved
  {
    assert forall k :: k in manifest ==> k in ItemSet(manifest);
  }

  lemma DistinctQuery(b: Id, source: BatchSource, runs: map<Id, RunRows>)
    requires RunsInv(runs) && ReadySource(b, source, runs)
    ensures DistinctBy(ResolutionQuery(runs, b), InputKey)
  {
    hide RunsInv, IntentFits, ShardsFit, SoundManifest, OpportunityRanks, ResolutionQuery, ResolvedApart, BatchClosed;
    ShardsResolve(b, source.manifest.value, source.plan.value, runs, map[]);
    QueryLists(runs, b);
  }

  lemma RunsOnlyRebuild(b: Id, e: SourceSnapshot, source: BatchSource, runs: map<Id, RunRows>)
    requires RunsInv(runs) && ReadySource(b, source, runs) && e.envelope.batchId == b && RebuildsNow(e, source, runs)
    requires SoundScope(b, source, source.manifest.value, source.plan.value, runs)
    ensures var items, entries := source.manifest.value.items, e.resolutionSet.entries;
            && |entries| == |items|
            && forall i :: 0 <= i < |items| ==> entries[i].item == items[i] && entries[i].source.FromRun?
  {
    hide RunsInv, IntentFits, ShardsFit, SoundManifest, OpportunityRanks, Rebuild, RunQuery, ResolutionQuery, RowsSound,
         CoversOnce, SoundScope, SplitsManifest, ResolvedItems, NotExecutedItems, ResolvedBy;
    DistinctQuery(b, source, runs);
    RebuildPartitions(e, source, RunQuery(runs, b), ResolutionQuery(runs, b));
    SoundIsExecuted(b, source, runs);
    AllResolved(source.manifest.value.items, ResolvedItems(ResolutionQuery(runs, b)), e.itemCount);
  }

  /** So a stored basis never holds a not-executed item: its entries are the
      manifest's items, in order, each from the closed Run that resolved it. */
  lemma BasisHoldsRunsOnly(sys: Sys, b: Id)
    requires SysInv(sys) && GroundedInv(sys) && b in sys.db.batches && sys.db.batches[b].basis.Some?
    ensures sys.db.batches[b].source.manifest.Some?
    ensures var items, entries := sys.db.batches[b].source.manifest.value.items,
                                  sys.db.batches[b].basis.value.basis.snapshot.resolutionSet.entries;
            && |entries| == |items|
            && forall i :: 0 <= i < |items| ==> entries[i].item == items[i] && entries[i].source.FromRun?
  {
    hide SysInv, RunsInv, BatchInv, Grounded, IntentFits, ShardsFit, SoundManifest, OpportunityRanks, SoundScope,
         RebuildsNow, GroundedInv;
    SysParts(sys, b);
    GroundedAt(sys, b);
    BasisNeedsFinishable(b, sys.db.batches[b], sys.db.runs);
    RebuiltOf(b, sys.db.batches[b], sys.db.runs);
    RunsOnlyRebuild(b, sys.db.batches[b].basis.value.basis.snapshot, sys.db.batches[b].source, sys.db.runs);
  }

  // ----- Becoming ready ----------------------------------------------------

  function ReadyGoal(b: Id, rows: BatchRows, policy: Policy, runs: map<Id, RunRows>): Goal
    requires SourcesApproved(rows.source)
    requires forall r :: r in RunsOf(runs, b) ==> runs[r].basis.Some? && |runs[r].handoffs| > 0
  {
    Begin(ReadinessAuthority(Standing(b, rows.row.version, rows.source, policy, runs), Digest(0), 1))
  }

  lemma ReadyGoalFits(b: Id, rows: BatchRows, policy: Policy, runs: map<Id, RunRows>)
    requires RunsInv(runs) && BatchInv(b, rows, runs) && ReadySource(b, rows.source, runs) && Filed(rows.source, policy)
    requires rows.row.state == RunningBatch && rows.row.writeEpoch == 1
    ensures forall r :: r in RunsOf(runs, b) ==> runs[r].basis.Some? && |runs[r].handoffs| > 0
    ensures var goal := ReadyGoal(b, rows, policy, runs);
            && goal.Valid() && goal.Batch() == b
            && LockPasses(rows, JoinedFact(rows.row, rows.facts), goal) && Publishable(rows, goal)
            && ReadyNow(goal.ready.snapshot, rows.source, runs)
            && Written(rows, goal).Ok? && Written(rows, goal).value.facts != []
            && PolicyOf(Written(rows, goal).value) == policy
            && Written(rows, goal).value.row.state == FinalizingBatch && Written(rows, goal).value.source == rows.source
  {
    hide RunsInv, IntentFits, ShardsFit, SoundManifest, OpportunityRanks, FactHolds, RebuildsNow, RunIdList, ReadyNow,
         ValidReadiness, ReadinessBinding, ClosureFor, Filed, ValidBasis;
    StandingPasses(b, rows.row.version, rows.source, policy, runs);
  }

  lemma BecomeReady(sys: Sys, b: Id, policy: Policy) returns (steps: seq<Step>)
    requires SysInv(sys) && b in sys.db.batches && sys.db.batches[b].row.state == RunningBatch
    requires ReadySource(b, sys.db.batches[b].source, sys.db.runs) && Filed(sys.db.batches[b].source, policy)
    ensures ReadiedBy(sys, steps, b)
    ensures var now := After(sys, steps).db;
            now.runs == sys.db.runs && now.batches[b].row.state == FinalizingBatch
            && now.batches[b].source == sys.db.batches[b].source && PolicyOf(now.batches[b]) == policy
  {
    hide SysInv, After, RunsInv, BatchInv, IntentFits, ShardsFit, SoundManifest, OpportunityRanks, LockPasses, Publishable,
         ReadyNow, Written, Standing, Filed, PolicyOf;
    SysParts(sys, b);
    var rows := WithEpoch(sys.db.batches[b], 1);
    var cleared := Sys(sys.db.(batches := sys.db.batches[b := rows]), map[]);
    var first := ClearTheWay(sys, b);
    EpochKeepsShape(b, sys.db.batches[b], 1, sys.db.runs);
    ReadyGoalFits(b, rows, policy, sys.db.runs);
    var goal := ReadyGoal(b, rows, policy, sys.db.runs);
    PublishRun(cleared, 0, goal);
    steps := first + PublishSteps(0, goal);
    AfterConcat(sys, first, PublishSteps(0, goal));
  }

  lemma EpochKeepsShape(b: Id, rows: BatchRows, epoch: nat, runs: map<Id, RunRows>)
    requires BatchInv(b, rows, runs)
    ensures BatchInv(b, WithEpoch(rows, epoch), runs)
  {
    hide FactHolds, RebuildsNow;
  }

  /** The exact condition for readiness: a running Batch whose Runs are all closed
      becomes ready, by some run, if and only if it has Runs, nothing of it is
      offered or claimed, and its approved sources fit: every shard is what its Run
      resolved, and an intent, if any, is over this plan and these Runs. */
  lemma ReadyExactlyWhen(sys: Sys, b: Id)
    requires SysInv(sys) && GroundedInv(sys) && b in sys.db.batches
    requires sys.db.batches[b].row.state == RunningBatch && BatchClosed(sys.db.runs, b)
    ensures (exists steps :: ReadiedBy(sys, steps, b)) <==> ReadySource(b, sys.db.batches[b].source, sys.db.runs)
  {
    hide SysInv, After, ReadySource, BatchClosed;
    if ReadySource(b, sys.db.batches[b].source, sys.db.runs) {
      var policy := SomePolicy(b, sys.db.batches[b].source, sys.db.runs);
      var steps := BecomeReady(sys, b, policy);
    }
    forall steps | ReadiedBy(sys, steps, b)
      ensures ReadySource(b, sys.db.batches[b].source, sys.db.runs)
    {
      ReadyNeedsFit(sys, steps, b);
    }
  }

  lemma SomePolicy(b: Id, source: BatchSource, runs: map<Id, RunRows>) returns (policy: Policy)
    requires ReadySource(b, source, runs)
    ensures Filed(source, policy)
  {
    hide IntentFits, ShardsFit, OpportunityRanks, SourcesApproved;
    var key :| key in source.policies && Filed(source, source.policies[key]);
    policy := source.policies[key];
  }

  lemma ReadyNeedsFit(sys: Sys, steps: seq<Step>, b: Id)
    requires SysInv(sys) && GroundedInv(sys) && b in sys.db.batches && BatchClosed(sys.db.runs, b)
    requires ReadiedBy(sys, steps, b)
    ensures ReadySource(b, sys.db.batches[b].source, sys.db.runs)
  {
    hide SysInv, After, RunsInv, BatchInv, Grounded, ReadySource, RunsMoved, Advanced, BatchClosed, SameBatchRuns;
    LaterTables(sys, steps, b);
    var later, rows := After(sys, steps).db.runs, After(sys, steps).db.batches[b];
    SysParts(After(sys, steps), b);
    ClosedBatchFrozen(sys.db.runs, later, b);
    SameRuns(sys.db.runs, later, b);
    FactFits(b, rows, later);
    SameRunsFit(b, rows.source, later, sys.db.runs);
  }

  /** Both stages together: a running Batch whose Runs are all closed is finalized,
      by some run, if and only if its sources fit and it is finishable under some
      policy that is there. */
  lemma FinishesExactlyWhen(sys: Sys, b: Id)
    requires SysInv(sys) && GroundedInv(sys) && b in sys.db.batches
    requires sys.db.batches[b].row.state == RunningBatch && BatchClosed(sys.db.runs, b)
    ensures var source := sys.db.batches[b].source;
            (exists steps :: FinalizedBy(sys, steps, b))
            <==> ReadySource(b, source, sys.db.runs)
                 && exists p :: Filed(source, p) && Finishable(b, source, p, sys.db.runs)
  {
    hide SysInv, After, BatchClosed, IntentFits, ShardsFit, SoundManifest, OpportunityRanks, Finishable, GroundedInv, Filed,
         PolicyOf;
    var source := sys.db.batches[b].source;
    if ReadySource(b, source, sys.db.runs) {
      if p :| Filed(source, p) && Finishable(b, source, p, sys.db.runs) {
        var first := BecomeReady(sys, b, p);
        RunKeepsInv(sys, first);
        RunKeepsGrounded(sys, first);
        var rest := FinalizeFrom(After(sys, first), b);
        AfterConcat(sys, first, rest);
        assert FinalizedBy(sys, first + rest, b);
      }
    }
    forall steps | FinalizedBy(sys, steps, b)
      ensures ReadySource(b, source, sys.db.runs)
      ensures exists p :: Filed(source, p) && Finishable(b, source, p, sys.db.runs)
    {
      FinalizedNeedsFinishable(sys, steps, b);
    }
  }

  /** The other side of the condition: a ready Batch that is not finishable stays
      FINALIZING, without a basis, over every run. */
  lemma StuckOtherwise(sys: Sys, steps: seq<Step>, b: Id)
    requires SysInv(sys) && GroundedInv(sys) && b in sys.db.batches
    requires sys.db.batches[b].row.state == FinalizingBatch && sys.db.batches[b].facts != []
    requires ReadySource(b, sys.db.batches[b].source, sys.db.runs)
    requires !Finishable(b, sys.db.batches[b].source, PolicyOf(sys.db.batches[b]), sys.db.runs)
    ensures Stuck(sys, steps, b)
  {
    hide SysInv, After, BatchInv, GroundedInv, ReadySource, RunsMoved, Finishable;
    FinalizableExactlyWhen(sys, b);
    LaterTables(sys, steps, b);
    SysParts(After(sys, steps), b);
    assert !FinalizedBy(sys, steps, b);
    StillFinalizing(b, sys.db.batches[b], After(sys, steps).db.batches[b], After(sys, steps).db.runs);
  }

  predicate Stuck(sys: Sys, steps: seq<Step>, b: Id) {
    && b in After(sys, steps).db.batches
    && After(sys, steps).db.batches[b].row.state == FinalizingBatch && After(sys, steps).db.batches[b].basis.None?
  }

  lemma FinalizingIsReady(sys: Sys, b: Id)
    requires SysInv(sys) && GroundedInv(sys) && b in sys.db.batches
    requires sys.db.batches[b].row.state == FinalizingBatch
    ensures sys.db.batches[b].facts != [] && ReadySource(b, sys.db.batches[b].source, sys.db.runs)
  {
    hide SysInv, BatchInv, GroundedInv, ReadySource;
    FinalizableExactlyWhen(sys, b);
  }

  /** An item resolved as cancelled keeps a ready Batch without an intent where it
      is for ever: the evaluation of its outcome demands the intent. */
  lemma CancelledBlocksFinalization(sys: Sys, steps: seq<Step>, b: Id, r: Id, k: ItemKey)
    requires SysInv(sys) && GroundedInv(sys) && b in sys.db.batches
    requires sys.db.batches[b].row.state == FinalizingBatch && sys.db.batches[b].source.intents == []
    requires r in RunsOf(sys.db.runs, b) && k in sys.db.runs[r].resolutions
    requires sys.db.runs[r].resolutions[k].classification == CancelledItem
    ensures Stuck(sys, steps, b)
  {
    hide SysInv, After, GroundedInv, ReadySource, SoundScope, Stuck;
    FinalizingIsReady(sys, b);
    StuckOtherwise(sys, steps, b);
  }

  /** So does a policy of another suite, which the readiness check accepts. */
  lemma ForeignPolicyBlocksFinalization(sys: Sys, steps: seq<Step>, b: Id)
    requires SysInv(sys) && GroundedInv(sys) && b in sys.db.batches
    requires sys.db.batches[b].row.state == FinalizingBatch && sys.db.batches[b].facts != []
    requires PolicyOf(sys.db.batches[b]).suite != sys.db.batches[b].source.suite || !Supported(PolicyOf(sys.db.batches[b]))
    ensures Stuck(sys, steps, b)
  {
    hide SysInv, After, GroundedInv, ReadySource, SoundScope, Stuck;
    FinalizingIsReady(sys, b);
    StuckOtherwise(sys, steps, b);
  }

  /** So does a not-executed scope row for any item. */
  lemma NotExecutedBlocksFinalization(sys: Sys, steps: seq<Step>, b: Id, k: ItemKey)
    requires SysInv(sys) && GroundedInv(sys) && b in sys.db.batches
    requires sys.db.batches[b].row.state == FinalizingBatch && k in NotExecutedItems(sys.db.batches[b].source.scope)
    ensures Stuck(sys, steps, b)
  {
    hide SysInv, After, GroundedInv, ReadySource, Stuck, RowsSound, CoversOnce;
    FinalizingIsReady(sys, b);
    var x :| x in sys.db.batches[b].source.scope && x.kind.NotExecuted? && x.item == k;
    assert !FanoutOf(sys.db.runs, b, x);
    StuckOtherwise(sys, steps, b);
  }

  /** The end is a function of the tables: whatever run stores a basis for a ready
      Batch, the terminal state is the evaluation of the resolution rows as they are
      now, under the policy of the fact and the recorded intent. */
  lemma OutcomeIsDetermined(sys: Sys, steps: seq<Step>, b: Id)
    requires SysInv(sys) && GroundedInv(sys) && b in sys.db.batches
    requires sys.db.batches[b].row.state == FinalizingBatch && FinalizedBy(sys, steps, b)
    ensures sys.db.batches[b].facts != [] && SourcesApproved(sys.db.batches[b].source)
    ensures var rows := sys.db.batches[b];
            Evaluate(RowCounts(rows.source, sys.db.runs, b), PolicyOf(rows), IntentOf(rows.source))
            == Ok(After(sys, steps).db.batches[b].row.state)
  {
    hide SysInv, After, BatchInv, GroundedInv, Finishable, Evaluate, RowCounts, IntentFits, ShardsFit, OpportunityRanks, Filed;
    SysParts(sys, b);
    FinalizingIsReady(sys, b);
    GroundedAt(sys, b);
    FactFits(b, sys.db.batches[b], sys.db.runs);
    FinalizedNeedsFinishable(sys, steps, b);
  }

  /** The same of a basis that is stored already. */
  lemma StoredOutcomeIsEvaluation(sys: Sys, b: Id)
    requires SysInv(sys) && GroundedInv(sys) && b in sys.db.batches && sys.db.batches[b].basis.Some?
    ensures sys.db.batches[b].facts != [] && SourcesApproved(sys.db.batches[b].source)
    ensures var rows := sys.db.batches[b];
            Evaluate(RowCounts(rows.source, sys.db.runs, b), PolicyOf(rows), IntentOf(rows.source)) == Ok(rows.row.state)
  {
    hide SysInv, BatchInv, GroundedInv, Finishable, Evaluate, RowCounts, IntentFits, ShardsFit, OpportunityRanks, RunsInv,
         Grounded;
    SysParts(sys, b);
    GroundedAt(sys, b);
    BasisNeedsFinishable(b, sys.db.batches[b], sys.db.runs);
  }

  lemma StillFinalizing(b: Id, before: BatchRows, after: BatchRows, runs: map<Id, RunRows>)
    requires BatchInv(b, after, runs) && Advanced(before, after) && before.facts != [] && after.basis.None?
    ensures after.row.state == FinalizingBatch
  {
    hide FactHolds, RebuildsNow, ReadinessBinding;
  }

  // ----- Closing one Run ---------------------------------------------------

  function CloseSteps(t: Id, r: Id, c: RunCommand): seq<Step> { [BeginRun(t, r), CallRun(t, c), CommitTx(t)] }

  function Closed(id: Id, rows: RunRows, c: RunCommand): Result<RunPublished>
    requires c.FinalizeCommand?
  {
    FinalizeRun(id, rows, c.writeEpoch, c.evidence, c.basis, c.entries, c.expectedAttempt, c.expected)
  }

  lemma CallCloses(sys: Sys, t: Id, c: RunCommand)
    requires t in sys.txs && sys.txs[t].OnRun? && c.FinalizeCommand? && c.evidence == sys.db.evidence
    requires Closed(sys.txs[t].runId, sys.txs[t].tx.view, c).Ok?
    ensures DoCallRun(sys, t, c)
            == With(sys, t, sys.txs[t].(tx := RunTx(Closed(sys.txs[t].runId, sys.txs[t].tx.view, c).value.rows, None)))
  {
    hide FinalizeRun, TakenBy, PendingBy;
  }

  /** Finalizing an unlocked Run, as a transaction of its own. */
  lemma RunCloses(sys: Sys, t: Id, r: Id, c: RunCommand)
    requires t !in sys.txs && r in sys.db.runs && !RunLocked(sys, r)
    requires c.FinalizeCommand? && c.evidence == sys.db.evidence && Closed(r, sys.db.runs[r], c).Ok?
    ensures After(sys, CloseSteps(t, r, c))
            == sys.(db := sys.db.(runs := sys.db.runs[r := Closed(r, sys.db.runs[r], c).value.rows]))
  {
    hide Perform, Closed, TakenBy, PendingBy, Waits, RunLocked;
    var steps := CloseSteps(t, r, c);
    var begun := With(sys, t, OnRun(r, sys.db.runs[r], RunTx(sys.db.runs[r], None)));
    assert Next(sys, BeginRun(t, r)) == begun;
    CallCloses(begun, t, c);
    var called := DoCallRun(begun, t, c);
    assert Next(begun, CallRun(t, c)) == called;
    assert Next(called, CommitTx(t)).txs == sys.txs;
    hide Next, After;
    AfterOneMore(sys, steps, 0);
    AfterOneMore(sys, steps, 1);
    AfterOneMore(sys, steps, 2);
    NoSteps(sys);
    assert steps[..0] == [] && steps[..3] == steps;
  }

  /** What the gateway asks of a prestart-cancel close of an assigned Run. */
  predicate PrestartClose(id: Id, rows: RunRows, c: RunCommand) {
    && c.FinalizeCommand? && c.writeEpoch >= 1 && c.expectedAttempt.None?
    && c.basis.terminal.PrestartCancel? && c.basis.outcome == CancelledRun == AuditOutcome(c.entries)
    && c.basis.runId == id && c.basis.batchId == rows.batchId && c.basis.sourceVersion == rows.row.version == c.expected
    && c.basis.itemSet == EntrySetDigest(id, c.basis.sourceVersion, c.entries) && ValidEntries(c.entries)
    && forall e :: e in c.entries ==> e.item in rows.items
  }

  /** An assigned Run that is closed so while its offer stands keeps its Batch from
      ever becoming ready: three steps, and then any run. */
  lemma AssignedCloseBlocksBatch(sys: Sys, t: Id, r: Id, c: RunCommand, more: seq<Step>)
    requires SysInv(sys) && t !in sys.txs && r in sys.db.runs && !RunLocked(sys, r)
    requires sys.db.runs[r].row.phase == AssignedPhase && sys.db.runs[r].batchId in sys.db.batches
    requires PrestartClose(r, sys.db.runs[r], c) && c.evidence == sys.db.evidence
    ensures var closed := After(sys, CloseSteps(t, r, c));
            && r in closed.db.runs && closed.db.runs[r].basis == Some(c.basis)
            && var b, end := sys.db.runs[r].batchId, After(closed, more);
               b in end.db.batches && end.db.batches[b].facts == [] && end.db.batches[b].basis.None?
  {
    hide SysInv, After, RunInv, FinalizeRun, RunLocked, ValidEntries;
    SysParts(sys, sys.db.runs[r].batchId);
    assert RunInv(r, sys.db.runs[r]);
    AssignedRunCanClose(r, sys.db.runs[r], c.basis, c.entries, c.writeEpoch, c.evidence);
    ClosedKeepsBatch(r, sys.db.runs[r], c);
    RunCloses(sys, t, r, c);
    RunKeepsInv(sys, CloseSteps(t, r, c));
    var closed := After(sys, CloseSteps(t, r, c));
    var aid :| aid in closed.db.runs[r].assignments && IsPrecommit(closed.db.runs[r].assignments[aid].state);
    OpenOfferBlocksBatch(closed, more, r, aid);
  }

  lemma ClosedKeepsBatch(id: Id, rows: RunRows, c: RunCommand)
    requires c.FinalizeCommand? && Closed(id, rows, c).Ok?
    ensures Closed(id, rows, c).value.rows.batchId == rows.batchId
  {
    hide RequireAuthority, LookupStored, MutationSnapshot, ValidPublication, VerifiedInput, ResolutionMap, FinishAttempt;
  }

  // ----- What a waiting finalizer finds -----------------------------------

  /** A finalizer that gets the lock goes on exactly when the fact it joined is the
      stored one and the locked rows let its candidate through. */
  lemma FinalizerAcquires(sys: Sys, t: Id)
    requires SysInv(sys) && t in sys.txs && sys.txs[t].OnBatch? && sys.txs[t].stage == Waiting
    requires sys.txs[t].goal.Finish? && sys.txs[t].goal.Batch() in sys.db.batches
    requires !BatchLocked(sys, sys.txs[t].goal.Batch())
    ensures var tx, rows := sys.txs[t], sys.db.batches[sys.txs[t].goal.Batch()];
            && (t in DoAcquireBatch(sys, t).txs <==>
                  && rows.facts != [] && tx.joined == Some(rows.facts[0])
                  && FinalizerLockPasses(rows, Some(rows.facts[0]), tx.goal.final))
            && (t in DoAcquireBatch(sys, t).txs ==>
                  DoAcquireBatch(sys, t)
                  == With(sys, t, tx.(stage := Reading(0, 0), locked := rows, view := rows)))
  {
    hide RunsInv, FactHolds, RebuildsNow, BatchesInv, ReadinessBinding, BeginRead, FinishRead, CheckedNow, BatchShape,
         ValidBasis, ValidReadiness, FinalizerLockPasses, StoredAlready, OnRunInv;
    var tx := sys.txs[t];
    var rows := sys.db.batches[tx.goal.Batch()];
    assert TxInv(sys.db, tx);
    BatchInvAt(sys.db, tx.goal.Batch());
    if rows.facts != [] {
      FinalizingOrFinalized(tx.goal.Batch(), rows);
    }
    NoFactNoPass(tx.goal.Batch(), rows, tx.goal.final);
  }

  lemma NoFactNoPass(b: Id, rows: BatchRows, a: BatchAuthority)
    requires BatchShape(b, rows)
    ensures !FinalizerLockPasses(rows, None, a)
    ensures rows.facts == [] ==> rows.row.readinessRef.None?
  {
  }

  /** The lock condition over a stored basis, for the candidate that is stored. */
  lemma StoredPassesItself(b: Id, rows: BatchRows, a: BatchAuthority)
    requires BatchShape(b, rows) && rows.basis.Some? && rows.basis.value.basis == a.basis && rows.row.writeEpoch == a.writeEpoch
    requires rows.row.state != FinalizingBatch
    ensures rows.facts != [] && FinalizerLockPasses(rows, Some(rows.facts[0]), a)
    ensures ReplayFinalization(rows, a) == Ok(Some(a.basis))
  {
  }

  lemma BasisIsTerminal(b: Id, rows: BatchRows)
    requires BatchShape(b, rows) && rows.basis.Some?
    ensures rows.row.state != FinalizingBatch && rows.facts != []
  {
    hide ReadinessBinding;
  }

  lemma OtherBasisRefused(rows: BatchRows, a: BatchAuthority)
    requires rows.basis.Some? && rows.basis.value.basis != a.basis
    ensures ReplayFinalization(rows, a).Err?
  {
  }

  predicate StepOf(step: Step, t: Id) {
    match step
    case BeginRun(u, _) => u == t
    case CallRun(u, _) => u == t
    case RequestBatch(u, _) => u == t
    case AcquireBatch(u) => u == t
    case ReadBatch(u) => u == t
    case CommitTx(u) => u == t
    case RollbackTx(u) => u == t
    case _ => false
  }

  /** Steps of any other transactions, and of nobody. */
  predicate Elsewhere(steps: seq<Step>, t: Id) { forall i :: 0 <= i < |steps| ==> !StepOf(steps[i], t) }

  predicate SameTx(before: Sys, after: Sys, t: Id) {
    (t in before.txs <==> t in after.txs) && (t in before.txs ==> after.txs[t] == before.txs[t])
  }

  lemma OtherStep(sys: Sys, step: Step, t: Id)
    requires !StepOf(step, t)
    ensures SameTx(sys, Next(sys, step), t)
  {
    hide Perform, ReadOne, LockPasses, TakenBy, Waits, BatchLocked, RunLocked, ValidReadiness, ValidBasis;
  }

  /** What others do leaves a transaction as it is, present or absent. */
  lemma {:induction false} OthersLeaveTx(sys: Sys, steps: seq<Step>, t: Id)
    requires Elsewhere(steps, t)
    ensures SameTx(sys, After(sys, steps), t)
  {
    if |steps| > 0 {
      hide Next, StepOf;
      OthersLeaveTx(sys, steps[..|steps| - 1], t);
      OtherStep(After(sys, steps[..|steps| - 1]), steps[|steps| - 1], t);
    }
  }

  /** ... and with it the rows of the Batch it has locked. */
  lemma HeldRowsStay(sys: Sys, steps: seq<Step>, t: Id)
    requires SysInv(sys) && Elsewhere(steps, t)
    requires t in sys.txs && sys.txs[t].OnBatch? && sys.txs[t].stage != Waiting
    ensures var later, tx := After(sys, steps), sys.txs[t];
            && SysInv(later) && t in later.txs && later.txs[t] == tx && RunsMoved(sys.db.runs, later.db.runs)
            && tx.goal.Batch() in later.db.batches && later.db.batches[tx.goal.Batch()] == tx.locked
  {
    hide After, RunsInv, BatchesInv, LockPasses, BeginRead, FinishRead, CheckedNow, RunsMoved, ValidReadiness, ValidBasis,
         StoredAlready;
    RunKeepsInv(sys, steps);
    RunsOnlyMove(sys, steps);
    OthersLeaveTx(sys, steps, t);
    assert TxInv(After(sys, steps).db, After(sys, steps).txs[t]);
  }

  /** The first read statement of a finalizer captures the Run rows. */
  lemma FirstRead(sys: Sys, t: Id)
    requires t in sys.txs && sys.txs[t].OnBatch? && sys.txs[t].goal.Finish? && sys.txs[t].stage == Reading(0, 0)
    ensures Next(sys, ReadBatch(t)) == With(sys, t, sys.txs[t].(seen := sys.db.runs, stage := Reading(0, 1)))
  {
  }

  /** The second, over a stored basis, ends in a replay of its own basis, or in a
      failure. */
  lemma SecondRead(sys: Sys, t: Id)
    requires t in sys.txs && sys.txs[t].OnBatch? && sys.txs[t].goal.Finish? && sys.txs[t].stage == Reading(0, 1)
    requires sys.txs[t].view.basis.Some?
    ensures var tx, a, next := sys.txs[t], sys.txs[t].goal.final, Next(sys, ReadBatch(t));
            && (ReplayFinalization(tx.view, a) == Ok(Some(a.basis))
                && CandidateRebuild(a, tx.view.source, tx.seen, sys.db.runs) == Ok(a.basis.snapshot) ==>
                  next == With(sys, t, tx.(stage := Replayed)))
            && (tx.view.basis.value.basis != a.basis ==> t !in next.txs)
  {
    hide CandidateRebuild, ReplayFinalization;
    var tx, a := sys.txs[t], sys.txs[t].goal.final;
    ReadStep(sys, t);
    if tx.view.basis.value.basis != a.basis {
      OtherBasisRefused(tx.view, a);
    }
  }

  /** Whatever happened to the Run tables since the first statement, a stored basis
      is rebuilt by the second. */
  lemma StoredRebuilds(b: Id, rows: BatchRows, a: BatchAuthority, seen: map<Id, RunRows>, runs: map<Id, RunRows>)
    requires BatchInv(b, rows, seen) && RunsMoved(seen, runs) && rows.basis.Some? && rows.basis.value.basis == a.basis
    ensures CandidateRebuild(a, rows.source, seen, runs) == Ok(a.basis.snapshot)
  {
    hide Rebuild, RunQuery, ResolutionQuery, RunIdList, OpportunityRanks, RunsMoved, BatchClosed;
    FinalizedNamesBatch(b, rows);
    BasisNeedsFact(b, rows);
    ClosedBatchFrozen(seen, runs, b);
    SameRuns(seen, runs, b);
    SameQueries(seen, runs, b);
  }

  function ReplaySteps(t: Id, between: seq<Step>, more: seq<Step>): seq<Step> {
    [AcquireBatch(t)] + between + [ReadBatch(t)] + more + [ReadBatch(t)]
  }

  lemma ReplayStages(sys: Sys, t: Id, between: seq<Step>, more: seq<Step>)
    ensures var first := After(DoAcquireBatch(sys, t), between);
            After(sys, ReplaySteps(t, between, more)) == Next(After(Next(first, ReadBatch(t)), more), ReadBatch(t))
  {
    hide Next, After, DoAcquireBatch;
    AcquireStep(sys, t);
    AfterConcat(sys, [AcquireBatch(t)], between);
    AfterConcat(sys, [AcquireBatch(t)] + between, [ReadBatch(t)]);
    AfterConcat(sys, [AcquireBatch(t)] + between + [ReadBatch(t)], more);
    AfterConcat(sys, [AcquireBatch(t)] + between + [ReadBatch(t)] + more, [ReadBatch(t)]);
    OneStep(After(DoAcquireBatch(sys, t), between), ReadBatch(t));
    OneStep(After(Next(After(DoAcquireBatch(sys, t), between), ReadBatch(t)), more), ReadBatch(t));
  }

  /** The finalizer race, from the lock statement to the lock, over any run in
      between: a finalizer goes on if and only if the readiness fact was there when
      its lock statement started and the rows, as they are by the time it has the
      lock, let its candidate through. */
  lemma FinalizerRace(sys: Sys, t: Id, goal: Goal, steps: seq<Step>)
    requires SysInv(sys) && t !in sys.txs && goal.Batch() in sys.db.batches && goal.Valid() && goal.Finish?
    requires Undisturbed(steps, t)
    ensures goal.Batch() in After(Next(sys, RequestBatch(t, goal)), steps).db.batches
    ensures var now := After(Next(sys, RequestBatch(t, goal)), steps);
            var rows := now.db.batches[goal.Batch()];
            !BatchLocked(now, goal.Batch()) ==>
              (t in After(now, [AcquireBatch(t)]).txs <==>
                 && sys.db.batches[goal.Batch()].facts != []
                 && rows.facts != [] && FinalizerLockPasses(rows, Some(rows.facts[0]), goal.final))
  {
    hide SysInv, Next, After, FinalizerLockPasses, BatchLocked;
    var now := After(Next(sys, RequestBatch(t, goal)), steps);
    FinalizerWaits(sys, t, goal, steps);
    if !BatchLocked(now, goal.Batch()) {
      FinalizerAcquires(now, t);
      AcquireStep(now, t);
    }
  }

  lemma FinalizerWaits(sys: Sys, t: Id, goal: Goal, steps: seq<Step>)
    requires SysInv(sys) && t !in sys.txs && goal.Batch() in sys.db.batches && goal.Valid() && goal.Finish?
    requires Undisturbed(steps, t)
    ensures var now := After(Next(sys, RequestBatch(t, goal)), steps);
            && SysInv(now) && goal.Batch() in now.db.batches
            && t in now.txs && now.txs[t].OnBatch? && now.txs[t].stage == Waiting && now.txs[t].goal == goal
            && var was, rows := sys.db.batches[goal.Batch()], now.db.batches[goal.Batch()];
               && now.txs[t].joined == (if was.facts == [] then None else Some(was.facts[0]))
               && (was.facts != [] ==> rows.facts == was.facts)
  {
    hide SysInv, Next, After, ValidReadiness, ValidBasis;
    RequestWaits(sys, t, goal);
    JoinedAtRequest(sys, t, goal);
    var asked := Next(sys, RequestBatch(t, goal));
    NextKeepsInv(sys, RequestBatch(t, goal));
    WaiterStays(asked, steps, t);
    RunKeepsInv(asked, steps);
    BatchesOnlyAdvance(asked, steps);
    FactStays(asked.db.batches[goal.Batch()], After(asked, steps).db.batches[goal.Batch()]);
  }

  /** And if another finalizer was first, with any steps of others before the lock
      and between all statements: it reaches the replay, which changes nothing, if
      and only if the fact was there at its lock statement, the epoch is its own, and
      the stored basis is its own; otherwise it has failed by then. */
  lemma FinalizerReplay(sys: Sys, t: Id, goal: Goal, steps: seq<Step>, between: seq<Step>, more: seq<Step>)
    requires SysInv(sys) && t !in sys.txs && goal.Batch() in sys.db.batches && goal.Valid() && goal.Finish?
    requires Undisturbed(steps, t) && Elsewhere(between, t) && Elsewhere(more, t)
    ensures goal.Batch() in After(Next(sys, RequestBatch(t, goal)), steps).db.batches
    ensures var now := After(Next(sys, RequestBatch(t, goal)), steps);
            var rows, end := now.db.batches[goal.Batch()], After(now, ReplaySteps(t, between, more));
            rows.basis.Some? && !BatchLocked(now, goal.Batch()) ==>
              && (t in end.txs <==> && sys.db.batches[goal.Batch()].facts != []
                                    && rows.row.writeEpoch == goal.final.writeEpoch
                                    && rows.basis.value.basis == goal.final.basis)
              && (t in end.txs ==>
                    && end.txs[t].OnBatch? && end.txs[t].stage == Replayed
                    && goal.Batch() in end.db.batches && end.db.batches[goal.Batch()] == rows
                    && Next(end, CommitTx(t)).db == end.db)
  {
    hide SysInv, Next, After, BatchLocked, FinalizerLockPasses, ReplayFinalization, BatchShape, Elsewhere, ReplaySteps;
    var now := After(Next(sys, RequestBatch(t, goal)), steps);
    FinalizerWaits(sys, t, goal, steps);
    if now.db.batches[goal.Batch()].basis.Some? && !BatchLocked(now, goal.Batch()) {
      ReplayFromLock(now, t, between, more);
      var end := After(now, ReplaySteps(t, between, more));
      if t in end.txs {
        RunKeepsInv(now, ReplaySteps(t, between, more));
        ReplaysStoredResult(end, t);
      }
    }
  }

  /** What the lock of a waiting finalizer over a stored basis lets through. */
  lemma ReplayAtLock(sys: Sys, t: Id)
    requires SysInv(sys) && t in sys.txs && sys.txs[t].OnBatch? && sys.txs[t].stage == Waiting
    requires sys.txs[t].goal.Finish? && sys.txs[t].goal.Batch() in sys.db.batches
    requires !BatchLocked(sys, sys.txs[t].goal.Batch()) && sys.db.batches[sys.txs[t].goal.Batch()].basis.Some?
    ensures var tx, rows, got := sys.txs[t], sys.db.batches[sys.txs[t].goal.Batch()], DoAcquireBatch(sys, t);
            && rows.facts != []
            && (t in got.txs ==>
                  && got == With(sys, t, tx.(stage := Reading(0, 0), locked := rows, view := rows))
                  && tx.joined == Some(rows.facts[0]) && rows.row.writeEpoch == tx.goal.final.writeEpoch)
            && (rows.basis.value.basis == tx.goal.final.basis && tx.joined == Some(rows.facts[0])
                && rows.row.writeEpoch == tx.goal.final.writeEpoch ==>
                  t in got.txs && ReplayFinalization(rows, tx.goal.final) == Ok(Some(tx.goal.final.basis)))
  {
    hide SysInv, BatchLocked, ReplayFinalization, BatchShape, DoAcquireBatch, FactHolds, RebuildsNow, RunsInv,
         FinalizerLockPasses;
    var tx := sys.txs[t];
    var b, a := tx.goal.Batch(), tx.goal.final;
    var rows := sys.db.batches[b];
    SysParts(sys, b);
    BasisIsTerminal(b, rows);
    FinalizerAcquires(sys, t);
    if t in DoAcquireBatch(sys, t).txs {
      LockNeedsEpoch(rows, Some(rows.facts[0]), a);
    }
    if rows.basis.value.basis == a.basis && rows.row.writeEpoch == a.writeEpoch {
      StoredPassesItself(b, rows, a);
    }
  }

  lemma ReplayFromLock(sys: Sys, t: Id, between: seq<Step>, more: seq<Step>)
    requires SysInv(sys) && t in sys.txs && sys.txs[t].OnBatch? && sys.txs[t].stage == Waiting
    requires sys.txs[t].goal.Finish? && sys.txs[t].goal.Batch() in sys.db.batches
    requires !BatchLocked(sys, sys.txs[t].goal.Batch()) && sys.db.batches[sys.txs[t].goal.Batch()].basis.Some?
    requires Elsewhere(between, t) && Elsewhere(more, t)
    ensures var tx, rows := sys.txs[t], sys.db.batches[sys.txs[t].goal.Batch()];
            var end := After(sys, ReplaySteps(t, between, more));
            && rows.facts != []
            && (t in end.txs <==> tx.joined == Some(rows.facts[0])
                                  && rows.row.writeEpoch == tx.goal.final.writeEpoch
                                  && rows.basis.value.basis == tx.goal.final.basis)
            && (t in end.txs ==> end.txs[t].OnBatch? && end.txs[t].stage == Replayed
                                 && tx.goal.Batch() in end.db.batches && end.db.batches[tx.goal.Batch()] == rows)
  {
    hide SysInv, Next, After, BatchLocked, ReplayFinalization, DoAcquireBatch, ReplaySteps, Elsewhere;
    ReplayAtLock(sys, t);
    ReplayStages(sys, t, between, more);
    var got := DoAcquireBatch(sys, t);
    if t in got.txs {
      AcquireKeepsInv(sys, t);
      ReadsReplay(got, t, between, more);
    } else {
      GoneStaysGone(got, t, between, more);
    }
  }

  lemma AcquireKeepsInv(sys: Sys, t: Id)
    requires SysInv(sys)
    ensures SysInv(DoAcquireBatch(sys, t))
  {
    hide SysInv, DoAcquireBatch;
    NextKeepsInv(sys, AcquireBatch(t));
  }

  /** From the lock on, with others at work around both reads. */
  lemma ReadsReplay(sys: Sys, t: Id, between: seq<Step>, more: seq<Step>)
    requires SysInv(sys) && t in sys.txs && sys.txs[t].OnBatch? && sys.txs[t].goal.Finish?
    requires sys.txs[t].stage == Reading(0, 0) && sys.txs[t].view == sys.txs[t].locked && sys.txs[t].locked.basis.Some?
    requires Elsewhere(between, t) && Elsewhere(more, t)
    ensures var tx, first := sys.txs[t], After(sys, between);
            var end := Next(After(Next(first, ReadBatch(t)), more), ReadBatch(t));
            && (tx.view.basis.value.basis == tx.goal.final.basis
                && ReplayFinalization(tx.view, tx.goal.final) == Ok(Some(tx.goal.final.basis)) ==>
                  && t in end.txs && end.txs[t].OnBatch? && end.txs[t].stage == Replayed
                  && tx.goal.Batch() in end.db.batches && end.db.batches[tx.goal.Batch()] == tx.locked)
            && (tx.view.basis.value.basis != tx.goal.final.basis ==> t !in end.txs)
  {
    hide SysInv, Next, After, ReplayFinalization, Elsewhere, CandidateRebuild, BatchInv, RunsMoved;
    var tx := sys.txs[t];
    HeldRowsStay(sys, between, t);
    var first := After(sys, between);
    FirstRead(first, t);
    NextKeepsInv(first, ReadBatch(t));
    var second := Next(first, ReadBatch(t));
    HeldRowsStay(second, more, t);
    var last := After(second, more);
    SecondRead(last, t);
    SysParts(first, tx.goal.Batch());
    if tx.view.basis.value.basis == tx.goal.final.basis {
      StoredRebuilds(tx.goal.Batch(), tx.view, tx.goal.final, first.db.runs, last.db.runs);
    }
  }

  lemma LockNeedsEpoch(rows: BatchRows, joined: Option<ReadinessFact>, a: BatchAuthority)
    requires FinalizerLockPasses(rows, joined, a)
    ensures rows.row.writeEpoch == a.writeEpoch
  {
  }

  lemma GoneStaysGone(sys: Sys, t: Id, between: seq<Step>, more: seq<Step>)
    requires t !in sys.txs && Elsewhere(between, t) && Elsewhere(more, t)
    ensures t !in Next(After(Next(After(sys, between), ReadBatch(t)), more), ReadBatch(t)).txs
  {
    hide After, Elsewhere;
    OthersLeaveTx(sys, between, t);
    OthersLeaveTx(After(sys, between), more, t);
  }
}
