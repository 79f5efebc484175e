/** One small Batch from its first step on: with its item passed it runs through
    to SUCCEEDED, with its Run cancelled before the start it gets stuck. */
module ControlPlaneWitness {
  import opened Common
  import opened Ordering
  import opened RunAggregate
  import opened RunTables
  import opened AssignmentSql
  import opened AssignmentLifecycle
  import opened AssignmentReload
  import opened RunFinalizationSql
  import opened RunLifecycle
  import opened BatchTables
  import opened BatchRebuild
  import opened BatchReadinessSql
  import opened BatchFinalizationSql
  import opened BatchOutcome
  import opened ControlPlane
  import opened ControlPlaneInvariant
  import opened ControlPlaneTheorems
  import opened ControlPlaneKeys
  import opened BatchProgress
  import opened BatchVerdict
  import opened ControlPlaneProgress

  // ----- The tables --------------------------------------------------------

  const OneItem: ItemKey := Rank(1, 0)

  function SmallPolicy(): Policy { Policy(1, 1, 1, 0, false, None, Digest(3)) }

  function SmallSource(): BatchSource {
    BatchSource(Some(Manifest(1, Digest(1), 1, true, [OneItem])),
                Some(Plan(1, Digest(2), 1, true, map[1 := [OneItem]], map[1 := Seat(0, 0)])),
                1, map[PolicyKey(1, 1) := SmallPolicy()], [], [])
  }

  function QueuedRows(): RunRows {
    RunRows(1, {OneItem}, Place(1, Seat(0, 0), Digest(6)), RunRow(QueuedPhase, None, None, 0, 0, 0, None), map[], [], None,
            map[], [])
  }

  /** One running Batch with one queued Run over one item, nothing executed yet. */
  function SmallDb(): Db {
    Db(map[1 := QueuedRows()],
       map[1 := BatchRows(BatchRow(RunningBatch, 0, 1, None), SmallSource(), [], None, map[], [])], map[])
  }

  function Start(): Sys { Sys(SmallDb(), map[]) }

  lemma StartIsFresh()
    ensures FreshRun(QueuedRows()) && SysInv(Start()) && GroundedInv(Start())
  {
    hide SysInv, GroundedInv, After;
    assert FreshBatch(SmallDb().batches[1]);
    FreshInv(Start());
    FreshGrounded(Start());
  }

  lemma SmallTables()
    ensures SmallDb().batches == map[1 := SmallDb().batches[1]] && SmallDb().batches[1].row.state == RunningBatch
    ensures SmallDb().batches[1].source == SmallSource() && SmallDb().runs == map[1 := QueuedRows()]
    ensures Filed(SmallSource(), SmallPolicy())
  {
  }

  // ----- A closed Run over the one item -----------------------------------

  function SmallEntry(outcome: RunOutcome): ResolutionEntry
    requires outcome == PassedRun || outcome == CancelledRun
  {
    ResolutionEntry(OneItem, outcome, if outcome == PassedRun then PassedItem else CancelledItem, None, None)
  }

  function SmallBasis(version: nat, terminal: TerminalInput, outcome: RunOutcome): RunBasis
    requires outcome == PassedRun || outcome == CancelledRun
  {
    RunBasis(1, 1, version, Frame(Digest(1), Digest(2), Digest(6)), terminal,
             EntrySetDigest(1, version, [SmallEntry(outcome)]), outcome)
  }

  lemma EntryIsValid(outcome: RunOutcome)
    requires outcome == PassedRun || outcome == CancelledRun
    ensures ValidEntries([SmallEntry(outcome)]) && AuditOutcome([SmallEntry(outcome)]) == outcome
    ensures ItemKeys([SmallEntry(outcome)]) == [OneItem]
  {
    var entries := [SmallEntry(outcome)];
    assert IsAscending(ItemKeys(entries));
    assert entries[..0] == [];
    assert AuditOutcome(entries[..0]) == PassedRun;
  }

  /** The closed Run fits the sources. */
  lemma ClosedFits(rows: RunRows, version: nat, terminal: TerminalInput, outcome: RunOutcome)
    requires outcome == PassedRun || outcome == CancelledRun
    requires rows.batchId == 1 && rows.place == QueuedRows().place
    requires rows.basis == Some(SmallBasis(version, terminal, outcome))
    requires forall k :: k in rows.assignments ==> !IsPrecommit(rows.assignments[k].state)
    ensures ReadySource(1, SmallSource(), map[1 := rows])
    ensures SoundScope(1, SmallSource(), SmallSource().manifest.value, SmallSource().plan.value, map[1 := rows])
  {
    EntryIsValid(outcome);
    hide ValidEntries, AuditOutcome;
    var runs := map[1 := rows];
    assert 1 in RunsOf(runs, 1);
    assert RunsOf(runs, 1) == {1} == SmallSource().plan.value.shards.Keys;
    assert OpportunityRanks(runs, 1) == {};
    SmallTables();
    assert PolicyKey(1, 1) in SmallSource().policies;
  }

  lemma ClosedResolution(rows: RunRows, version: nat, terminal: TerminalInput, outcome: RunOutcome)
    requires outcome == PassedRun || outcome == CancelledRun
    requires RunInv(1, rows) && rows.basis == Some(SmallBasis(version, terminal, outcome))
    ensures rows.resolutions == map[OneItem := RowOfEntry(SmallEntry(outcome), version)]
  {
    hide AssignmentInv, ValidTerminal, ValidEntries, AuditOutcome;
    var entries := [SmallEntry(outcome)];
    assert entries[..0] == [];
    assert ResolutionMap(entries[..0], version) == map[];
  }

  // ----- One worker takes the Run and starts it ---------------------------

  function SmallAssignment(state: AssignmentState, claimedAt: Option<Time>, committedAt: Option<Time>): Assignment {
    Assignment(1, WorkerRef(1, 1), Digest(7), state, 0, 10, claimedAt, committedAt, None)
  }

  function SmallAttempt(): Attempt { Attempt(1, 1, 1, 1, 1, WorkerRef(1, 1), Digest(7), 1, StartCommitted, 0) }

  function QueuedRun(): Run { Run(1, Queued, 0, 0, [], None, []) }

  function OfferedRun(): Run { Run(1, Assigned, 1, 0, [SmallAssignment(Offered, None, None)], Some(1), []) }

  function ClaimedRun(): Run { Run(1, Assigned, 2, 0, [SmallAssignment(Claimed, Some(1), None)], Some(1), []) }

  function StartedRun(): Run {
    Run(1, Running, 3, 1, [SmallAssignment(Committed, Some(1), Some(2))], Some(1), [SmallAttempt()])
  }

  function Calls(): seq<RunCommand> {
    [LoadCommand, OfferCommand(1, WorkerRef(1, 1), Digest(7), 0, 10, 0), ClaimCommand(1, WorkerRef(1, 1), 1, 1),
     CommitCommand(1, WorkerRef(1, 1), 1, Digest(7), 1, 2, 2)]
  }

  const Nobody := Taken({}, {}, {})

  lemma LoadPasses()
    requires RunInv(1, QueuedRows())
    ensures Perform(1, RunTx(QueuedRows(), None), LoadCommand, Nobody) == Ok(RunTx(QueuedRows(), Some(QueuedRun())))
  {
    hide Rehydrate;
    RehydrationInverts(1, QueuedRows(), QueuedRun());
  }

  lemma LastOfOne(run: Run)
    requires |run.assignments| == 1 && run.current == Some(run.assignments[0].id)
    ensures run.CurrentAssignment() == Some(run.assignments[0])
  {
  }

  lemma OfferedNext()
    ensures Offer(QueuedRun(), 1, WorkerRef(1, 1), Digest(7), 0, 10, 0) == Ok(OfferedRun())
  {
    LastOfOne(OfferedRun());
    assert ValidRun(OfferedRun());
    hide ValidRun;
    var a := SmallAssignment(Offered, None, None);
    assert QueuedRun().assignments + [a] == [a];
  }

  lemma ClaimedNext()
    ensures Claim(OfferedRun(), 1, WorkerRef(1, 1), 1, 1) == Ok(ClaimedRun())
  {
    LastOfOne(OfferedRun());
    LastOfOne(ClaimedRun());
    assert ValidRun(ClaimedRun());
    hide ValidRun;
    var claimed := SmallAssignment(Claimed, Some(1), None);
    assert ReplaceById(OfferedRun().assignments, claimed) == [claimed];
  }

  lemma StartedIsValid()
    ensures ValidRun(StartedRun())
  {
    LastOfOne(StartedRun());
    hide FindLast;
    assert ValidAssignment(StartedRun().assignments[0]);
    hide ValidAssignment;
    assert ValidHistory(StartedRun());
    hide ValidHistory;
  }

  lemma StartedNext()
    ensures CommitStart(ClaimedRun(), 1, WorkerRef(1, 1), 1, Digest(7), 1, 2, 2)
            == Ok(CommitResult(StartedRun(), SmallAttempt(), 1, false))
  {
    hide ValidRun;
    LastOfOne(ClaimedRun());
    StartedIsValid();
    var committed := SmallAssignment(Committed, Some(1), Some(2));
    assert ReplaceById(ClaimedRun().assignments, committed) == [committed];
    assert ClaimedRun().attempts + [SmallAttempt()] == [SmallAttempt()];
  }

  lemma OfferPasses(view: RunRows)
    requires RunTxInv(1, RunTx(view, Some(QueuedRun())))
    ensures var r := Perform(1, RunTx(view, Some(QueuedRun())), Calls()[1], Nobody);
            r.Ok? && r.value.run == Some(OfferedRun())
  {
    hide AssignmentInv, Represents, OfferRows, ValidRun, Offer;
    OfferedNext();
    OfferPublishes(1, view, QueuedRun(), 1, WorkerRef(1, 1), Digest(7), 0, 10, 0, OfferedRun(), Nobody);
  }

  lemma ClaimPasses(view: RunRows)
    requires RunTxInv(1, RunTx(view, Some(OfferedRun())))
    ensures var r := Perform(1, RunTx(view, Some(OfferedRun())), Calls()[2], Nobody);
            r.Ok? && r.value.run == Some(ClaimedRun())
  {
    hide AssignmentInv, Represents, ClaimRows, ValidRun, Claim;
    ClaimedNext();
    ClaimPublishes(1, view, OfferedRun(), 1, WorkerRef(1, 1), 1, 1, ClaimedRun());
  }

  lemma CommitPasses(view: RunRows)
    requires RunTxInv(1, RunTx(view, Some(ClaimedRun())))
    ensures var r := Perform(1, RunTx(view, Some(ClaimedRun())), Calls()[3], Nobody);
            r.Ok? && r.value.run == Some(StartedRun()) && r.value.view.attempts == [AttemptRowOf(SmallAttempt())]
  {
    hide AssignmentInv, Represents, CommitRows, ValidRun, CommitStart;
    StartedNext();
    var commit := CommitResult(StartedRun(), SmallAttempt(), 1, false);
    CommitPublishes(1, view, ClaimedRun(), 1, WorkerRef(1, 1), 1, Digest(7), 1, 2, 2, commit, Nobody);
  }

  /** The transaction of the worker's calls, which nobody disturbs. */
  function Held(tx: RunTx): Sys { Sys(SmallDb(), map[0 := OnRun(1, QueuedRows(), tx)]) }

  lemma NobodyElse(tx: RunTx)
    ensures TakenBy(Held(tx), 1) == Nobody && PendingBy(Held(tx), 1) == Nobody
  {
  }

  lemma CallStep(tx: RunTx, c: RunCommand)
    requires !c.FinalizeCommand? && Perform(1, tx, c, Nobody).Ok?
    ensures Next(Held(tx), CallRun(0, c)) == Held(Perform(1, tx, c, Nobody).value)
  {
    hide Perform, TakenBy, PendingBy, QueuedRows, SmallDb;
    NobodyElse(tx);
    var next := OnRun(1, QueuedRows(), Perform(1, tx, c, Nobody).value);
    assert Held(tx).txs[0 := next] == map[0 := next];
  }

  lemma OneMore(sys: Sys, steps: seq<Step>, step: Step)
    ensures After(sys, steps + [step]) == Next(After(sys, steps), step)
  {
    hide Next, After;
    AfterConcat(sys, steps, [step]);
    OneStep(After(sys, steps), step);
  }

  /** One more call of the worker, after which the rows are still consistent and at
      their place. */
  lemma Calling(steps: seq<Step>, tx: RunTx, c: RunCommand) returns (to: RunTx)
    requires After(Start(), steps) == Held(tx) && RunTxInv(1, tx) && RowsKept(tx.view)
    requires !c.FinalizeCommand? && Perform(1, tx, c, Nobody).Ok?
    ensures to == Perform(1, tx, c, Nobody).value && RunTxInv(1, to) && RowsKept(to.view)
    ensures After(Start(), steps + [CallRun(0, c)]) == Held(to)
  {
    hide Next, After, Perform, Held, RunTxInv, Start;
    to := Perform(1, tx, c, Nobody).value;
    PerformKeepsInv(1, tx, c, Nobody);
    OneMore(Start(), steps, CallRun(0, c));
    CallStep(tx, c);
  }

  predicate RowsKept(rows: RunRows) {
    rows.batchId == 1 && rows.items == {OneItem} && rows.place == QueuedRows().place
  }

  lemma Begun()
    ensures After(Start(), [BeginRun(0, 1)]) == Held(RunTx(QueuedRows(), None))
  {
    OneStep(Start(), BeginRun(0, 1));
    hide After;
    assert !RunLocked(Start(), 1);
    var tx := OnRun(1, QueuedRows(), RunTx(QueuedRows(), None));
    assert Start().txs[0 := tx] == map[0 := tx];
  }

  lemma Ended(tx: RunTx)
    ensures Next(Held(tx), CommitTx(0)) == Sys(SmallDb().(runs := map[1 := tx.view]), map[])
  {
    assert SmallDb().runs[1 := tx.view] == map[1 := tx.view];
    assert Held(tx).txs - {0} == map[];
  }

  /** A run in which the Run is offered, claimed and started. */
  lemma RunStarts() returns (steps: seq<Step>, rows: RunRows)
    ensures After(Start(), steps) == Sys(SmallDb().(runs := map[1 := rows]), map[])
    ensures RunInv(1, rows) && RowsKept(rows) && Represents(rows, StartedRun())
    ensures rows.attempts == [AttemptRowOf(SmallAttempt())]
  {
    hide Next, After, Perform, Held, Start, RunInv, ValidRun, Represents, QueuedRun, OfferedRun, ClaimedRun, StartedRun,
         AttemptRowOf;
    StartIsFresh();
    FreshRunInv(1, QueuedRows());
    Begun();
    LoadPasses();
    var first := [BeginRun(0, 1)];
    var loaded := Calling(first, RunTx(QueuedRows(), None), Calls()[0]);
    OfferPasses(loaded.view);
    var second := first + [CallRun(0, Calls()[0])];
    var offered := Calling(second, loaded, Calls()[1]);
    ClaimPasses(offered.view);
    var third := second + [CallRun(0, Calls()[1])];
    var claimed := Calling(third, offered, Calls()[2]);
    CommitPasses(claimed.view);
    var fourth := third + [CallRun(0, Calls()[2])];
    var started := Calling(fourth, claimed, Calls()[3]);
    var fifth := fourth + [CallRun(0, Calls()[3])];
    OneMore(Start(), fifth, CommitTx(0));
    Ended(started);
    steps, rows := fifth + [CommitTx(0)], started.view;
  }

  // ----- The Run is closed -------------------------------------------------

  function PassedTerminal(): TerminalInput {
    FinalAttempt(1, 0, 1, WorkerRef(1, 1), Digest(7), AttemptPassed, Some(Digest(8)))
  }

  function SmallEvidence(): Evidence { Evidence(1, Digest(8)) }

  function PassedClose(): RunCommand {
    FinalizeCommand(1, map[1 := SmallEvidence()], SmallBasis(3, PassedTerminal(), PassedRun), [SmallEntry(PassedRun)],
                    Some(0), 3)
  }

  function CancelTerminal(): TerminalInput { PrestartCancel(Digest(4), Digest(5)) }

  function CancelClose(): RunCommand {
    FinalizeCommand(1, map[], SmallBasis(0, CancelTerminal(), CancelledRun), [SmallEntry(CancelledRun)], None, 0)
  }

  lemma StartedIsBound(rows: RunRows)
    requires RunInv(1, rows) && Represents(rows, StartedRun()) && rows.attempts == [AttemptRowOf(SmallAttempt())]
    ensures MutationSnapshot(1, rows) == RunSnapshot(1, 3, Some(LockedAttempt(1, 0)))
    ensures rows.basis.None? && forall k :: k in rows.assignments ==> !IsPrecommit(rows.assignments[k].state)
  {
    hide RowInv, ClosedAs, Stored;
  }

  lemma PassedRunCloses(rows: RunRows)
    requires RunInv(1, rows) && Represents(rows, StartedRun()) && rows.attempts == [AttemptRowOf(SmallAttempt())]
    requires RowsKept(rows)
    ensures Closed(1, rows, PassedClose()).Ok?
    ensures var to := Closed(1, rows, PassedClose()).value.rows;
            && RunInv(1, to) && RowsKept(to) && to.basis == Some(SmallBasis(3, PassedTerminal(), PassedRun))
            && forall k :: k in to.assignments ==> !IsPrecommit(to.assignments[k].state)
  {
    hide RunInv, MutationSnapshot, FinalizeRun, ValidEntries, AuditOutcome;
    StartedIsBound(rows);
    EntryIsValid(PassedRun);
    assert rows.row.version == 3;
    assert rows.attempts[0] in rows.attempts;
    var c := PassedClose();
    FinalizeRunOutcome(1, rows, c.writeEpoch, c.evidence, c.basis, c.entries, c.expectedAttempt, c.expected);
    FinalizeRunKeepsInv(1, rows, c.writeEpoch, c.evidence, c.basis, c.entries, c.expectedAttempt, c.expected);
    ClosingKeeps(rows, c);
  }

  lemma CancelledRunCloses()
    requires RunInv(1, QueuedRows())
    ensures Closed(1, QueuedRows(), CancelClose()).Ok?
    ensures var to := Closed(1, QueuedRows(), CancelClose()).value.rows;
            && RunInv(1, to) && RowsKept(to) && to.basis == Some(SmallBasis(0, CancelTerminal(), CancelledRun))
            && to.assignments == map[]
  {
    hide RunInv, FinalizeRun, ValidEntries, AuditOutcome;
    EntryIsValid(CancelledRun);
    var c := CancelClose();
    FinalizeRunOutcome(1, QueuedRows(), c.writeEpoch, c.evidence, c.basis, c.entries, c.expectedAttempt, c.expected);
    FinalizeRunKeepsInv(1, QueuedRows(), c.writeEpoch, c.evidence, c.basis, c.entries, c.expectedAttempt, c.expected);
    ClosingKeeps(QueuedRows(), c);
  }

  lemma ClosingKeeps(rows: RunRows, c: RunCommand)
    requires c.FinalizeCommand? && Closed(1, rows, c).Ok? && RowsKept(rows) && RunInv(1, rows)
    ensures RowsKept(Closed(1, rows, c).value.rows)
  {
    hide RunInv, FinalizeRun, QueuedRows;
    PerformKeepsInv(1, RunTx(rows, None), c, Nobody);
  }

  // ----- To the end --------------------------------------------------------

  /** From the closed Run on: the state after its closing step sequence. */
  function ClosedSys(rows: RunRows, evidence: map<Id, Evidence>): Sys {
    Sys(Db(map[1 := rows], SmallDb().batches, evidence), map[])
  }

  /** With its Run closed, the Batch becomes ready under its one policy. */
  lemma ReadyFrom(steps: seq<Step>, rows: RunRows, evidence: map<Id, Evidence>, version: nat, terminal: TerminalInput,
                  outcome: RunOutcome)
    returns (ready: seq<Step>)
    requires outcome == PassedRun || outcome == CancelledRun
    requires After(Start(), steps) == ClosedSys(rows, evidence)
    requires RowsKept(rows) && rows.basis == Some(SmallBasis(version, terminal, outcome))
    requires forall k :: k in rows.assignments ==> !IsPrecommit(rows.assignments[k].state)
    ensures steps <= ready && ReadiedBy(Start(), ready, 1)
    ensures var now := After(Start(), ready);
            && SysInv(now) && GroundedInv(now) && now.db.runs == map[1 := rows]
            && now.db.batches[1].row.state == FinalizingBatch && now.db.batches[1].source == SmallSource()
            && PolicyOf(now.db.batches[1]) == SmallPolicy()
  {
    hide SysInv, GroundedInv, After, ReadySource, SoundScope, PolicyOf, SmallBasis, Filed, SmallSource, Start, SmallPolicy;
    StartIsFresh();
    SmallTables();
    var closed := ClosedSys(rows, evidence);
    RunKeepsInv(Start(), steps);
    RunKeepsGrounded(Start(), steps);
    ClosedFits(rows, version, terminal, outcome);
    var more := BecomeReady(closed, 1, SmallPolicy());
    ready := steps + more;
    AfterConcat(Start(), steps, more);
    RunKeepsInv(closed, more);
    RunKeepsGrounded(closed, more);
  }

  lemma CloseAfter(steps: seq<Step>, rows: RunRows, evidence: map<Id, Evidence>, c: RunCommand)
    requires After(Start(), steps) == ClosedSys(rows, evidence)
    requires c.FinalizeCommand? && c.evidence == evidence && Closed(1, rows, c).Ok?
    ensures After(Start(), steps + CloseSteps(0, 1, c)) == ClosedSys(Closed(1, rows, c).value.rows, evidence)
  {
    hide After, Closed, Start, SmallDb;
    RunCloses(ClosedSys(rows, evidence), 0, 1, c);
    AfterConcat(Start(), steps, CloseSteps(0, 1, c));
    assert map[1 := rows][1 := Closed(1, rows, c).value.rows] == map[1 := Closed(1, rows, c).value.rows];
  }

  /** Cancelling the only Run before its start leads to a Batch that is ready, and
      that every further run leaves FINALIZING without a basis. */
  lemma CancelledBatchIsStuck() returns (ready: seq<Step>)
    ensures ReadiedBy(Start(), ready, 1) && forall more :: Stuck(After(Start(), ready), more, 1)
  {
    hide SysInv, GroundedInv, After, Closed, SmallBasis, RunInv, Stuck, SmallPolicy, PolicyOf;
    StartIsFresh();
    FreshRunInv(1, QueuedRows());
    CancelledRunCloses();
    var rows := Closed(1, QueuedRows(), CancelClose()).value.rows;
    NoSteps(Start());
    CloseAfter([], QueuedRows(), map[], CancelClose());
    ready := ReadyFrom([] + CloseSteps(0, 1, CancelClose()), rows, map[], 0, CancelTerminal(), CancelledRun);
    ClosedResolution(rows, 0, CancelTerminal(), CancelledRun);
    assert 1 in RunsOf(map[1 := rows], 1);
    forall more
      ensures Stuck(After(Start(), ready), more, 1)
    {
      CancelledBlocksFinalization(After(Start(), ready), more, 1, 1, OneItem);
    }
  }

  lemma OnePassed(rows: RunRows)
    requires rows.batchId == 1 && rows.resolutions == map[OneItem := RowOfEntry(SmallEntry(PassedRun), 3)]
    ensures NothingCancelled(1, map[1 := rows])
    ensures RowCounts(SmallSource(), map[1 := rows], 1) == Counts(1, 1, 0, 0, 0, 0, 0)
  {
    var runs := map[1 := rows];
    assert RunsOf(runs, 1) == {1};
    assert Classed(runs, 1, PassedItem) == {OneItem} by {
      assert 1 in RunsOf(runs, 1) && OneItem in runs[1].resolutions;
    }
    forall c | c != PassedItem
      ensures Classed(runs, 1, c) == {}
    {
    }
  }

  lemma RecordedStep(steps: seq<Step>, rows: RunRows)
    requires After(Start(), steps) == ClosedSys(rows, map[])
    ensures After(Start(), steps + [RecordEvidence(1, SmallEvidence())]) == ClosedSys(rows, map[1 := SmallEvidence()])
  {
    OneMore(Start(), steps, RecordEvidence(1, SmallEvidence()));
    hide After;
    assert map[][1 := SmallEvidence()] == map[1 := SmallEvidence()];
  }

  /** From a Batch with nothing executed there is a run to FINALIZING and on to
      SUCCEEDED: a worker is offered the only Run, claims and starts it, its evidence
      is recorded, the Run is closed with its item passed, and the Batch follows. */
  lemma SmallBatchFinishes() returns (ready: seq<Step>, done: seq<Step>)
    ensures ReadiedBy(Start(), ready, 1) && After(Start(), ready).db.batches[1].row.state == FinalizingBatch
    ensures FinalizedBy(Start(), ready + done, 1)
    ensures After(Start(), ready + done).db.batches[1].row.state == SucceededBatch
  {
    hide SysInv, GroundedInv, After, Closed, SmallBasis, RunInv, PolicyOf, ReadySource, RowCounts, NothingCancelled, Start;
    var started, running := RunStarts();
    RecordedStep(started, running);
    PassedRunCloses(running);
    var rows := Closed(1, running, PassedClose()).value.rows;
    CloseAfter(started + [RecordEvidence(1, SmallEvidence())], running, map[1 := SmallEvidence()], PassedClose());
    ready := ReadyFrom(started + [RecordEvidence(1, SmallEvidence())] + CloseSteps(0, 1, PassedClose()), rows,
                       map[1 := SmallEvidence()], 3, PassedTerminal(), PassedRun);
    ClosedFits(rows, 3, PassedTerminal(), PassedRun);
    ClosedResolution(rows, 3, PassedTerminal(), PassedRun);
    OnePassed(rows);
    done := FinalizeFrom(After(Start(), ready), 1);
    AfterConcat(Start(), ready, done);
    OutcomeIsDetermined(After(Start(), ready), done, 1);
  }
}
