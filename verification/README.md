# The control-plane transaction protocol

qarunner drives test runs from a PostgreSQL control plane. A *Batch* is split into *Runs*; a Run is
offered to a worker, claimed, committed to an *Attempt* and in the end closed by a finalization *basis*; a
Batch whose Runs are all closed gets a *readiness fact* and then a *basis* of its own, which makes it
terminal. Each of these moves is one short transaction under READ COMMITTED that locks only its own
aggregate row, guards its updates with versions, replays exact repeats, and refuses to commit once a call
has raised. Around it stand a versioned fact log, Batch cancellation and rejection, an outbox, a scheduler
over a run queue, the suite history, Batch creation and the bounded log tail.

This project models those gateways and proves what they keep over every interleaving, which cannot be read
off any one of them.

## How it is built

* **Tables and statements.** `RunTables`, `BatchTables`, `FactTables`, `Preexecution`, `SuiteAggregate`
  and `RunQueue` hold the rows and their codecs. `AssignmentSql`, `RunFinalizationSql`, `BatchReadinessSql`,
  `BatchFinalizationSql` and `BatchRebuild` say what each operation reads, checks and writes, error by
  error. `RunAggregate` is the Run value with its domain commands.
* **Laws of single operations.** `AssignmentLifecycle`, `AssignmentReload`, `RunLifecycle`,
  `BatchRebuildLaws`; `BatchOutcome` counts resolutions and reads the outcome off the counts; `BatchProgress` says
  over which tables each Batch check can pass, `BatchVerdict` which basis, if any, they allow.
* **Interleavings.** `ControlPlane` is the step machine of assignment, Run finalization, readiness and Batch
  finalization transactions: a lock request joins what is committed when it starts, a lock waits, each read
  statement sees the tables of its own moment, a commit installs the private view.
  `ControlPlaneInvariant` proves its invariant, `ControlPlaneTheorems` and `ControlPlaneKeys` what no run can
  do, `ControlPlaneProgress` what some run can do, `ControlPlaneWitness` follows one small Batch to its end and
  into a dead end. `FactLog`, `UnitOfWork`, `CancellationProtocol`, `Outbox`, `Scheduler`, `InflightCap`,
  `SuiteProtocol` and `BatchCreate` are the step machines of their parts.
* **Gateway objects.** `AssignmentGateway`, `RunFinalizationGateway`, `BatchReadinessGateway`,
  `BatchFinalizationGateway`, `UnitOfWork`, `CancellationGateway`, `OutboxPublisher`, `SchedulerLoop`,
  `RunQueue`, `StreamTail`, `SuiteGateway` and `BatchCreateGateway` are the classes and loops of the program,
  with its fields, each method tied to the function that the theorems are about.

`dafny verify dfyconfig.toml` checks everything.

## What the proofs found

Where a promise fails, the model follows the code and the exact condition is proved.

* **An offer can make a Run unloadable.** Assignments are loaded in (offered_at, id) order, and the Run value
  demands that the current one is last. An offer made at the very instant of an earlier one, with a smaller
  id, is accepted and published, and no gateway can load the Run again. A published offer reloads if and only
  if it sorts after the latest one (`AssignmentReload.OfferThenReload`, `SameInstantReofferIsStuck`).
* **A Run closed with an open offer blocks its Batch.** Prestart cancellation closes an assigned Run and leaves
  its offered or claimed row. The readiness check compares such rows with an opportunity kind that assignment
  payloads never carry, so the Batch never becomes ready (`ControlPlaneTheorems.OpenOfferBlocksBatch`,
  `ControlPlaneProgress.AssignedCloseBlocksBatch`). Which Batches of closed Runs can become ready is an
  if-and-only-if (`ReadyExactlyWhen`). Only the gateway accepts such a close: `Run.request_cancel`
  (`src/qarunner/domain/run.py:721-760`) would have closed the assignment first.
* **A cancelled item leaves its Batch FINALIZING for ever.** Readiness accepts a Run that was cancelled, but the
  evaluation of the outcome demands an intent for a cancelled item
  (`tests/unit/domain/test_batch_finalization.py:131-139`), and an intent is recorded only before any Run starts
  and blocks every later transition (`src/qarunner/domain/batch.py:210-217`, `:757`, `:810`). So a Batch that ran
  without one becomes ready and can never be finalized (`ControlPlaneProgress.CancelledBlocksFinalization`,
  `ControlPlaneWitness.CancelledBatchIsStuck`).
* **Readiness and finalization look a policy up under different suites.** Readiness takes the suite of the
  candidate's policy, finalization that of the Batch's revision. A fact with a policy of another suite is stored and
  the Batch can never be finalized (`ControlPlaneProgress.ForeignPolicyBlocksFinalization`); nor can it with a
  policy the evaluation does not support.
* **The not-executed branch of the rebuild never reaches a basis.** Readiness demands every manifest item
  resolved by a Run; the rebuild refuses a not-executed row for a resolved item (`BasisHoldsRunsOnly`,
  `NotExecutedBlocksFinalization`). No code of the repository inserts such a row.
* **When a ready Batch can be finalized** is an if-and-only-if of these three: sound scope, own supported policy,
  and an intent or nothing cancelled (`ControlPlaneProgress.FinalizableExactlyWhen`). Its terminal state is then
  decided by the frozen Runs (`OutcomeIsDetermined`).
* **A waiting transaction need not replay.** A readiness transaction does if and only if its lock statement
  started after the stored fact was committed (`ControlPlaneTheorems.ReadinessRace`). A finalizer goes on if
  and only if the readiness fact was there when its lock statement started and the rows let its candidate
  through; a basis committed while it waited it does see, by its second query
  (`ControlPlaneProgress.FinalizerRace`, `FinalizerReplay`).
* **One log file for both streams shows the chunks.** Each stream's own bytes never do, but a file that takes
  both gets them chunk by chunk (`StreamTail.ChunkingIsInvisible`).
* **Outbox attempts can drop** when a lease is repaired under a live publisher
  (`Outbox.SlowPublisherLowersAttempts`), and then only by a failure
  recorded from a count left behind (`AttemptsDropExactlyWhen`, `AttemptsOnlyGrow`).
* **A shutdown can lose a slot.** The poller's error handler does not see cancellation, so a shutdown during a
  dequeue keeps the slot, and a scheduler started again has one less (`Scheduler.SlotsLostByShutdownOnly`).
* **A registration stops replaying once a second revision is published**, and a registration that races
  with its twin raises (`SuiteAggregate.RegistrationReplays`, `SuiteProtocol.LateRegistrationLoses`).
* **A Batch create stops replaying once its suite is retired** (`BatchCreate.RetiredSuiteStopsReplay`).

## Model

| member | source | states |
|---|---|---|
| ControlPlaneTheorems.BatchPath | src/qarunner/adapters/postgres_batch_finalization.py:692-723 | From RUNNING at version v, after any interleaving of any number of transactions, a Batch is RUNNING at v with nothing stored, FINALIZING at v+1 with exactly one fact, or in one execution terminal at v+2 with that fact and exactly one basis whose outcome is its state |
| ControlPlaneTheorems.BatchesOnlyAdvance | src/qarunner/adapters/postgres_batch_finalization_readiness.py:308-335 | No step moves a Batch back or takes away a fact or basis once stored |
| ControlPlaneTheorems.ReadinessIsStable | src/qarunner/adapters/postgres_batch_finalization_readiness.py:556-626 | From the commit of a readiness fact on, at every later point, no Run row of the Batch differs and the Run part of the finalizer's rebuild equals the fact's lists, although neither Batch transaction locks a Run |
| ControlPlaneTheorems.CommitsAreAtomic | src/qarunner/adapters/postgres_batch_finalization.py:252-316 | Every change of a Batch beyond its write epoch is the commit of one transaction, and at that instant every check it made statement by statement holds at once of the committed tables: READ COMMITTED with one row lock is enough for isolation here |
| ControlPlaneTheorems.ReplaysStoredResult | src/qarunner/adapters/postgres_batch_finalization.py:252-316 | A transaction that commits without winning changes nothing, and the stored projection is its own candidate |
| ControlPlaneTheorems.ReadinessRace | src/qarunner/adapters/postgres_batch_finalization_readiness.py:104-147 | From the lock statement to the lock, over any run of anything in between: a readiness transaction that finds a fact when it gets the lock goes on to a replay if and only if the fact was already there when its lock statement started and is its own candidate; otherwise it fails |
| ControlPlaneTheorems.ReadinessWaiter | src/qarunner/adapters/postgres_batch_finalization_readiness.py:104-147 | At the moment it gets the lock it goes on exactly when the fact it joined is the stored one and its own |
| ControlPlaneTheorems.ClosedRunsAreFinal | src/qarunner/adapters/postgres_run_finalization.py:405-435 | In every reachable state a Run is closed exactly when it has a basis, its version is the basis source plus one, and no later step of any transaction changes any of its rows |
| ControlPlaneTheorems.OneCommitPerVersion | src/qarunner/adapters/postgres_assignment.py:287-366 | Of all contenders on one version of a Run at most one commits |
| ControlPlaneTheorems.RunsOnlyMove | src/qarunner/adapters/postgres_assignment.py:591-700 | A Run keeps its Batch and items, and its rows change only while it is open and only to a higher version |
| ControlPlaneTheorems.OpportunitiesNeverMatch | src/qarunner/adapters/postgres_batch_finalization_readiness.py:703-727 | The opportunity check passes exactly when nothing of the Batch is offered or claimed and none is claimed to be, because the payloads written for assignments carry no opportunity kind |
| ControlPlaneTheorems.OpenOfferBlocksBatch | src/qarunner/adapters/postgres_batch_finalization_readiness.py:703-727 | A Run that was closed with an offered or claimed assignment keeps its Batch from ever getting a readiness fact or a basis |
| ControlPlaneTheorems.ReadyResolvesManifest | src/qarunner/adapters/postgres_batch_finalization_readiness.py:556-626 | A Batch that passes readiness has every manifest item resolved by one of its Runs |
| ControlPlaneProgress.FinalizableExactlyWhen | src/qarunner/adapters/postgres_batch_finalization.py:332-615 | In every reachable state a FINALIZING Batch can be finalized, that is some run of steps stores a basis for it, if and only if three things hold of the tables: its cancellation scope is sound (no row without an intent, and otherwise one sound row per manifest item, each a fan-out fact naming the closed Run and version that resolved it), the policy its fact names is of its suite and supported, and an intent is recorded or no item was resolved as cancelled |
| ControlPlaneProgress.StuckOtherwise | src/qarunner/adapters/postgres_batch_finalization.py:252-316 | If one of the three fails, the Batch stays FINALIZING without a basis over every run |
| ControlPlaneProgress.CancelledBlocksFinalization | src/qarunner/domain/batch_finalization.py:1161-1163 | One item resolved as cancelled keeps a FINALIZING Batch without an intent there for ever, over every run |
| ControlPlaneProgress.ForeignPolicyBlocksFinalization | src/qarunner/adapters/postgres_batch_finalization.py:367-386 | So does a policy of another suite, which the readiness check lets pass because it looks the policy up under the candidate's own suite, and so does an unsupported one |
| ControlPlaneProgress.NotExecutedBlocksFinalization | src/qarunner/adapters/postgres_batch_finalization.py:558-575 | So does a not-executed scope row for any item |
| ControlPlaneProgress.ReadyExactlyWhen | src/qarunner/adapters/postgres_batch_finalization_readiness.py:421-727 | A RUNNING Batch whose Runs are all closed can become ready, that is some run of steps stores a readiness fact for it, if and only if its sources are there and approved, some policy is there, a recorded intent fits them, the plan's shards are the Runs' entries and cover the manifest once, every Run sits where the plan put it and its basis is about this manifest, this plan and its own items, and nothing of the Batch is offered or claimed |
| ControlPlaneProgress.FinishesExactlyWhen | src/qarunner/adapters/postgres_batch_finalization.py:252-316 | ... and can reach an execution terminal if and only if in addition, under some policy that is there, the three conditions hold |
| ControlPlaneProgress.OutcomeIsDetermined | src/qarunner/domain/batch_finalization.py:606-613 | Whatever run stores the basis of a FINALIZING Batch, the terminal state is the evaluation of the resolution rows as they are now, counted by class, under the policy of the fact and the recorded intent: the frozen Runs decide between SUCCEEDED, PARTIAL, FAILED and CANCELLED |
| ControlPlaneProgress.StoredOutcomeIsEvaluation | src/qarunner/domain/batch_finalization.py:606-613 | In every reachable state a Batch with a basis is in exactly that state |
| ControlPlaneProgress.BasisHoldsRunsOnly | src/qarunner/adapters/postgres_batch_finalization.py:558-575 | Every stored basis lists the manifest's items in order, and every entry comes from a Run: the not-executed branch of the rebuild never reaches a basis |
| ControlPlaneProgress.AssignedCloseBlocksBatch | src/qarunner/adapters/postgres_run_finalization.py:405-435 | Three steps close an assigned Run by prestart cancellation, which leaves its offered row; after them, over any run, its Batch never gets a readiness fact or a basis |
| ControlPlaneProgress.FinalizerRace | src/qarunner/adapters/postgres_batch_finalization.py:102-185 | From the lock statement to the lock, over any run of anything in between: a finalizer goes on if and only if the readiness fact was already there when its lock statement started and the rows, as they are by then, let its candidate through |
| ControlPlaneProgress.FinalizerReplay | src/qarunner/adapters/postgres_batch_finalization.py:252-316 | ... and if another finalizer was first, then over any run before the lock and any steps of others between the lock and each read it reaches the replay, which changes nothing, if and only if the fact was there at its lock statement and the epoch and the stored basis are its own; otherwise it has failed by then |
| ControlPlaneProgress.FreshIsGrounded | src/qarunner/adapters/postgres_batch_finalization_readiness.py:213-269 | From a control plane that has executed nothing, in every reachable state every readiness fact agrees with sources that fit the closed Runs, and every stored basis is one that can be constructed |
| ControlPlaneWitness.SmallBatchFinishes | src/qarunner/adapters/postgres_batch_finalization.py:692-723 | A concrete Batch with nothing executed, and a run from it to FINALIZING and on to SUCCEEDED: its Run is offered, claimed, started, and closed by recorded evidence with its item passed |
| ControlPlaneWitness.CancelledBatchIsStuck | tests/unit/domain/test_batch_finalization.py:131-139 | The same Batch with its Run cancelled before the start: a run leads to FINALIZING, and from there every run leaves it FINALIZING without a basis |
| ControlPlaneTheorems.ResolvedRunStays | src/qarunner/adapters/postgres_run_finalization.py:319-347 | A resolved item stays resolved by the same Run of the same Batch, with the same rows |
| ControlPlaneInvariant.NextKeepsInv | src/qarunner/adapters/postgres_batch_finalization.py:102-185 | Every statement of every transaction keeps lock exclusivity, the Run invariant, and the truth of every stored fact and basis |
| ControlPlaneInvariant.RunKeepsInv | src/qarunner/adapters/postgres_batch_finalization.py:252-316 | ... over every interleaving |
| ControlPlaneInvariant.RebuiltFromSeen | src/qarunner/adapters/postgres_batch_finalization.py:397-426 | A rebuild over Run rows captured earlier and resolutions read now, when it gives back the candidate, is a rebuild of the present tables: it can only pass if the captured Runs were closed |
| ControlPlaneInvariant.BatchInvStable | src/qarunner/adapters/postgres_batch_finalization.py:990-1048 | Stored facts and bases stay true of the Run tables under every later change of Runs |
| ControlPlaneInvariant.ClosedBatchFrozen | src/qarunner/adapters/postgres_batch_finalization_readiness.py:556-626 | Once all Runs of a Batch are closed their rows never change, and no Run joins or leaves it by the moves of this machine |
| ControlPlaneKeys.KeysStayUnique | src/qarunner/adapters/postgres_assignment.py:453-589 | Assignment ids, Attempt ids and start keys never belong to two Runs, in the tables or in any pending view, over every interleaving |
| ControlPlaneKeys.ClosedRunsAreBacked | src/qarunner/adapters/postgres_run_finalization.py:281-317 | In every reachable state a Run closed by an Attempt has the evidence row with the fence and root it was verified against |
| ControlPlaneKeys.FreshControlPlane | src/qarunner/adapters/postgres_batch_finalization.py:102-185 | All invariants hold of a control plane that has executed nothing, so of every state reachable from one |
| BatchRebuildLaws.RebuildPartitions | src/qarunner/adapters/postgres_batch_finalization.py:426-612 | When no item is resolved twice and the rebuild succeeds, Run-resolved and not-executed items split the manifest exactly, their counts add up to the item count, entry i is manifest item i from the side that holds it, and every fan-out fact names the Run and version that resolved its item |
| BatchRebuildLaws.RebuildOrderIndependent | src/qarunner/adapters/postgres_batch_finalization.py:332-615 | The rebuild, success or failure, does not depend on the order in which the queries return scope, Run and resolution rows |
| BatchProgress.RebuildExactlyWhen | src/qarunner/adapters/postgres_batch_finalization.py:332-615 | Over closed Runs that fit the sources, the rebuild succeeds if and only if the cancellation scope is sound |
| BatchProgress.CanonicalExactlyWhen | src/qarunner/domain/cancellation.py:157-225 | Sound scope rows have a canonical form if and only if, exact repeats aside, there is one per manifest item, all of the Batch and its intent |
| BatchProgress.ScopePassesExactlyWhen | src/qarunner/adapters/postgres_batch_finalization.py:469-575 | With every manifest item resolved by a closed Run, the scope part of the rebuild passes if and only if every row is a sound fan-out fact, and then it adds no entry |
| BatchProgress.StandingPasses | src/qarunner/adapters/postgres_batch_finalization_readiness.py:421-727 | Tables that fit have a candidate that passes every readiness check |
| BatchProgress.ReadyMeansFits | src/qarunner/adapters/postgres_batch_finalization_readiness.py:421-727 | A candidate that passes every readiness check describes tables that fit |
| BatchVerdict.ValidExactlyWithOutcome | src/qarunner/domain/batch_finalization.py:554-688 | Over closed Runs that fit the sources, everything a basis takes from the rebuilt snapshot is as its constructor demands: references, entries and unknown facts are derived from the Run bases, so the basis can be constructed exactly with the evaluated outcome |
| BatchVerdict.EvaluableExactlyWhen | src/qarunner/domain/batch_finalization.py:1154-1163 | The evaluation accepts a rebuilt snapshot if and only if the policy is supported and, without an intent, no resolution row of the Batch's Runs says cancelled |
| BatchVerdict.CountsAreRows | src/qarunner/domain/batch_finalization.py:465-476 | The counts of a rebuilt snapshot are the numbers of resolution rows of the Batch's Runs, by class |
| BatchOutcome.OutcomeMeans | src/qarunner/domain/batch_finalization.py:1135-1183 | Of the entries themselves: refused exactly for an unsupported policy or a cancelled item without an intent; CANCELLED when every entry is cancelled or not executed, PARTIAL when some but not all are, or some lineage is unknown, FAILED when none is and an item failed on the infrastructure or more tests failed than the policy allows, SUCCEEDED otherwise |
| BatchOutcome.CountResolutions | src/qarunner/domain/batch_finalization.py:465-476 | The counter loop gives for each class the number of places that hold it |
| BatchOutcome.CountsAddUp | src/qarunner/domain/batch_finalization.py:1062-1086 | Every entry is counted once: the six counts add up to the number of entries |
| BatchFinalizationGateway.CollectTerminalRefs | src/qarunner/adapters/postgres_batch_finalization.py:397-426 | The loop over Run rows computes the reference list and the map by Run of the specification, and refuses the same rows |
| BatchFinalizationGateway.FillRunEntries | src/qarunner/adapters/postgres_batch_finalization.py:426-558 | The loop over resolution rows fills entries and unknown references as the specification folds them |
| BatchFinalizationGateway.AddScopeEntries | src/qarunner/adapters/postgres_batch_finalization.py:558-575 | The loop over scope items adds not-executed entries and checks fan-out items as the specification does |
| BatchFinalizationGateway.RebuildSourceSnapshot | src/qarunner/adapters/postgres_batch_finalization.py:332-615 | The whole rebuild method equals the function about which partition, order independence and stability are proved |
| BatchFinalizationGateway.InsertItems | src/qarunner/adapters/postgres_batch_finalization.py:617-661 | Inserting the entries succeeds exactly when their items are distinct, and leaves one row per item |
| BatchFinalizationGateway.UnitOfWork.RequireFinalizationAuthority | src/qarunner/adapters/postgres_batch_finalization.py:102-185 | The authority is given exactly when the locked row passes with the joined fact and the first rebuild gives back the candidate; otherwise nothing is held |
| BatchFinalizationGateway.UnitOfWork.GetMutationSnapshotForUpdate | src/qarunner/adapters/postgres_batch_finalization.py:227-241 | Hands out a snapshot if and only if the unit is authorized and clean and one more rebuild gives back the candidate |
| BatchFinalizationGateway.UnitOfWork.PublishFinalization | src/qarunner/adapters/postgres_batch_finalization.py:252-316 | Replays the stored basis, or rebuilds once more and leaves exactly the written rows; any raise marks the unit aborted |
| BatchFinalizationGateway.UnitOfWork.Exit | src/qarunner/adapters/postgres_batch_finalization.py:81-100 | The view is installed exactly when nothing was raised and no publication failed |
| BatchReadinessGateway.ValidateSourceSnapshot | src/qarunner/adapters/postgres_batch_finalization_readiness.py:421-727 | The sequence of checks passes exactly when sources, Run list, every Run's seat, columns, basis, resolution and handoff rows, and opportunities all match |
| BatchReadinessGateway.CheckDetail | src/qarunner/adapters/postgres_batch_finalization_readiness.py:600-702 | The loops over resolution and handoff rows of one Run decide exactly whether they match its closure |
| BatchReadinessGateway.CheckOpportunities | src/qarunner/adapters/postgres_batch_finalization_readiness.py:703-727 | The loop over offered and claimed rows decides exactly whether they match the candidate, in order |
| BatchReadinessGateway.UnitOfWork.RequireReadinessAuthority | src/qarunner/adapters/postgres_batch_finalization_readiness.py:92-153 | The authority is given exactly when the row passes with the joined fact and all source checks pass |
| BatchReadinessGateway.UnitOfWork.PublishReadiness | src/qarunner/adapters/postgres_batch_finalization_readiness.py:213-269 | Replays the stored fact, or, when the whole source validation passes a second time, leaves fact, FINALIZING row and event; any raise marks the unit aborted |
| BatchReadinessGateway.UnitOfWork.Exit | src/qarunner/adapters/postgres_batch_finalization_readiness.py:71-90 | The view is installed exactly when nothing was raised and no publication failed |
| RunLifecycle.FinalizeRunOutcome | src/qarunner/adapters/postgres_run_finalization.py:232-279 | Finalizing succeeds if and only if the Run is open, version, epoch, items, Attempt and evidence fit and the outcome is the most severe of its items, or it is closed with this very basis, which is a replay that changes nothing; success closes the Run at the next version and leaves assignments alone |
| RunFinalizationSql.AuditOutcomeIsWorst | src/qarunner/domain/run_finalization.py:632-640 | The outcome of a Run is that of some item, and no item is more severe |
| RunLifecycle.FinalizeRunKeepsInv | src/qarunner/adapters/postgres_run_finalization.py:319-435 | Finalizing keeps the Run invariant: closed exactly with a basis, resolutions and handoff those of the basis |
| RunLifecycle.PerformKeepsInv | src/qarunner/adapters/postgres_assignment.py:287-700 | Every call of an assignment or finalization transaction keeps the invariant and moves an open Run by at most one version, a closed one not at all |
| RunFinalizationGateway.InsertResolutions | src/qarunner/adapters/postgres_run_finalization.py:319-347 | The insert loop succeeds exactly when every entry's item belongs to the Run and has no row yet, and adds exactly the entries |
| RunFinalizationGateway.UnitOfWork.RequireFinalizationAuthority | src/qarunner/adapters/postgres_run_finalization.py:86-142 | Locks the Run and then reads its basis again; the authority is about the locked rows |
| RunFinalizationGateway.UnitOfWork.GetMutationSnapshotForUpdate | src/qarunner/adapters/postgres_run_finalization.py:193-221 | A snapshot of the locked Run, only under the authority |
| RunFinalizationGateway.UnitOfWork.PublishFinalization | src/qarunner/adapters/postgres_run_finalization.py:232-279 | Resolutions, basis, Attempt, Run and handoff are written one after another to exactly the rows of the specification; a failure aborts |
| RunFinalizationGateway.UnitOfWork.Exit | src/qarunner/adapters/postgres_run_finalization.py:65-84 | The view is installed exactly when nothing was raised and no publication failed |
| AssignmentLifecycle.OfferPublishes | src/qarunner/adapters/postgres_assignment.py:287-366 | Every offer the domain accepts is published unless its id is taken; the row invariant is kept (QUEUED has no active row, ASSIGNED exactly one), rows represent the new Run, version plus one |
| AssignmentLifecycle.ClaimPublishes | src/qarunner/adapters/postgres_assignment.py:368-451 | Every claim the domain accepts is published: the guard on row version 0 never refuses a row in the right state |
| AssignmentLifecycle.CommitPublishes | src/qarunner/adapters/postgres_assignment.py:453-589 | Every start the domain accepts is published unless an Attempt id or start key is taken; one committed row bound to one Attempt whose fence is the Run's current fence, which is one higher |
| AssignmentLifecycle.CommitReplays | src/qarunner/adapters/postgres_assignment.py:453-480 | An exact repeat of a committed start writes nothing and returns the stored Attempt and fence |
| AssignmentLifecycle.ClosePublishes | src/qarunner/adapters/postgres_assignment.py:591-700 | Every expiry or release the domain accepts is published; the closure is in the row's payload, and an exact repeat leaves the rows as they are |
| AssignmentLifecycle.RehydrateRepresents | src/qarunner/adapters/postgres_assignment.py:92-249 | What a load returns is a valid Run with the id asked for that holds what the rows hold |
| AssignmentReload.RehydrationInverts | src/qarunner/adapters/postgres_assignment.py:92-249 | Loading a queued or assigned Run gives back the published value if and only if its offers are in (offered_at, id) order |
| AssignmentReload.OfferThenReload | src/qarunner/adapters/postgres_assignment.py:92-249 | Offer, then load: the published Run comes back if and only if the offer sorts after the latest one; otherwise the load is refused |
| AssignmentReload.ClaimThenReload | src/qarunner/adapters/postgres_assignment.py:368-451 | Claim, then load: the published Run comes back |
| AssignmentReload.CloseThenReload | src/qarunner/adapters/postgres_assignment.py:746-765 | Close, then load: the published Run comes back with the closures of its whole history |
| AssignmentReload.CommitThenReload | src/qarunner/adapters/postgres_assignment.py:775-794 | Commit a start, then load: the published Run comes back, projected to its committed assignment and its Attempt |
| AssignmentReload.RunningReload | src/qarunner/adapters/postgres_assignment.py:92-249 | Loading a running Run gives its projection to the committed assignment |
| AssignmentReload.SameInstantReofferIsStuck | src/qarunner/domain/run.py:218-222 | A concrete run: assignment 1 offered at the instant assignment 2 was offered and released is accepted, and the Run can never be loaded again |
| RunTables.ClosureRoundTrip | src/qarunner/adapters/postgres_assignment.py:746-765 | A closure written into an assignment payload reads back as itself |
| RunTables.AssignmentRowRoundTrip | src/qarunner/adapters/postgres_assignment.py:719-743 | A row written for an assignment reads back as that assignment, closed or not |
| AssignmentGateway.Gateway.GetRunForUpdate | src/qarunner/adapters/postgres_assignment.py:92-249 | Locks a Run and loads it; the snapshot is the loaded Run or nothing, a loaded transaction gives its own Run again and refuses any other, an absent Run changes nothing, and after a failed load another Run may be taken |
| AssignmentGateway.Gateway.PublishOffer | src/qarunner/adapters/postgres_assignment.py:287-366 | Statement by statement, the rows, snapshot and abort flag of the specification, also when a statement refuses |
| AssignmentGateway.Gateway.PublishClaim | src/qarunner/adapters/postgres_assignment.py:368-451 | ... for a claim |
| AssignmentGateway.Gateway.PublishCommitStart | src/qarunner/adapters/postgres_assignment.py:453-589 | ... for a committed start and its replay |
| AssignmentGateway.Gateway.PublishClose | src/qarunner/adapters/postgres_assignment.py:591-700 | ... for an expiry or release |
| AssignmentGateway.Gateway.Exit | src/qarunner/adapters/postgres_assignment.py:71-90 | The view is installed exactly when nothing was raised and no publication failed |
| FactLog.VersionsAreContiguous | src/qarunner/adapters/postgres_application_uow.py:133-185 | In every reachable state the stored versions of a key are exactly 0 to the latest |
| FactLog.AcceptedCommandReplays | src/qarunner/adapters/postgres_application_uow.py:79-131 | An accepted command sent again, after any steps and from any transaction, returns its original fact and changes neither the tables nor the transaction |
| FactLog.NoLostUpdate | src/qarunner/adapters/postgres_application_uow.py:79-202 | Over any run at most one step adds a given version of a key, it is a commit, what it added is never changed and its predecessor is there by then: of all that saw one version at most one adds the next |
| FactLog.CommitAddsNew | src/qarunner/adapters/postgres_application_uow.py:168-202 | A commit adds only versions that were not there and that no other open transaction has written, each next to one that is there |
| FactLog.StaleInsertFails | src/qarunner/adapters/postgres_application_uow.py:168-180 | A transaction that prepared a version another one has committed by now is ended by its insert, and changes nothing |
| FactLog.OnlyGrows | src/qarunner/adapters/postgres_application_uow.py:79-202 | No snapshot or command row is ever changed or removed |
| FactLog.AfterKeepsInv | src/qarunner/adapters/postgres_application_uow.py:168-202 | Over every interleaving versions are gap-free, every row decodes under its codec, and every command row points at a snapshot with its digest |
| UnitOfWork.OnlyCleanWriteSetsCommit | src/qarunner/adapters/postgres_application_uow.py:386-409 | Atomicity and conservation: over any interleaving of any number of units, reads and inserts one by one, a row is committed if and only if it was at the start or a unit that committed wrote it: all the rows of such a unit, and none of any other |
| UnitOfWork.FailedUnitsNeverCommit | src/qarunner/adapters/postgres_application_uow.py:72-77 | Once a fact, evidence or audit call of a unit has raised, the unit stays aborted and never commits: every commit that goes through comes before every failure of its unit |
| UnitOfWork.CommitsOnce | src/qarunner/adapters/postgres_application_uow.py:360-376 | A unit commits at most once and is closed from then on |
| UnitOfWork.KeysStayApart | src/qarunner/adapters/postgres_application_uow.py:223-308 | Over any interleaving fact slots, command keys, Attempts, roots and event ids stay unique, in the tables and between what open units hold back, and no committed row is changed or removed |
| UnitOfWork.FinalizedOnce | src/qarunner/adapters/postgres_application_uow.py:223-237 | Whatever happens after a manifest was committed, a call for its Attempt replays if and only if it is equal, and raises otherwise |
| UnitOfWork.ApplicationUnitOfWork.ReadFact | src/qarunner/adapters/postgres_application_uow.py:79-167 | The reads of the fact store's commit, one after another, come to the replay or the two rows of the specification, and refuse the same commands |
| UnitOfWork.ApplicationUnitOfWork.Commit | src/qarunner/adapters/postgres_application_uow.py:79-202 | Reads, then two inserts into tables that may have moved since: exactly the steps of the machine, with their replay result and abort flag |
| UnitOfWork.ApplicationUnitOfWork.Finalize | src/qarunner/adapters/postgres_application_uow.py:223-259 | Finalizing an evidence manifest takes the unit's steps: write, exact replay, or abort |
| UnitOfWork.ApplicationUnitOfWork.Append | src/qarunner/adapters/postgres_application_uow.py:265-308 | Appending an audit record takes the unit's steps |
| UnitOfWork.ApplicationUnitOfWork.CommitAll | src/qarunner/adapters/postgres_application_uow.py:386-397 | The own rows are added to the tables as they are by then, or, when the unit is not usable or the database fails, nothing is |
| UnitOfWork.ApplicationUnitOfWork.Exit | src/qarunner/adapters/postgres_application_uow.py:377-384 | Leaving the unit drops whatever was not committed |
| CancellationProtocol.OnlyTheClosureFollowsAnIntent | src/qarunner/adapters/postgres_batch_cancellation.py:889-938 | From a recorded intent on, over any run, nothing but its closure changes state or version, the closure's source is the version right after the intent's, and it is final |
| CancellationProtocol.ClosureAndRejectionExclude | src/qarunner/adapters/postgres_batch_cancellation.py:949-1003 | At most one intent, one rejection and one terminal basis per Batch; whichever ends it excludes the other for ever |
| CancellationProtocol.StoredHandoffsRebuild | src/qarunner/adapters/postgres_batch_cancellation.py:1637-1705 | In every reachable state every stored handoff is rebuilt from its payload and the Batch's intent, and there is one per trigger |
| CancellationProtocol.RowsOnlyMoveOn | src/qarunner/adapters/postgres_batch_cancellation.py:1133-1182 | Over any run with other gateways in between, no Batch moves back and no intent, basis, rejection or handoff is lost |
| CancellationProtocol.PublishCancelKeeps | src/qarunner/adapters/postgres_batch_cancellation.py:1133-1182 | A published intent is the first and only one, and its version is the one right after its source |
| CancellationProtocol.PublishCloseKeeps | src/qarunner/adapters/postgres_batch_cancellation.py:889-938 | A closure publishes only at the version right after its intent's source |
| CancellationProtocol.PublishRejectKeeps | src/qarunner/adapters/postgres_batch_cancellation.py:949-1003 | A rejection publishes only on a Batch without an intent, and ends it |
| CancellationProtocol.PublishHandoffKeeps | src/qarunner/adapters/postgres_batch_cancellation.py:795-880 | A materialized handoff is stored, or was; everything else, and every other handoff, stays as it is |
| CancellationGateway.UnitOfWork.RequireAuthority | src/qarunner/adapters/postgres_batch_cancellation.py:148-342 | The authority of each of the three kinds is given exactly when owner, epoch and expiry of the caller and project, suite binding, state and version of the locked row pass, with the error of the first check that fails; asked again, it is checked again |
| CancellationGateway.UnitOfWork.GetBatchForUpdate | src/qarunner/adapters/postgres_batch_cancellation.py:344-422 | Loads the locked Batch with its intent, rejection and basis |
| CancellationGateway.UnitOfWork.PublishCancellation | src/qarunner/adapters/postgres_batch_cancellation.py:1133-1182 | Intent, audit and Batch row as specified; a raise marks the unit aborted |
| CancellationGateway.UnitOfWork.PublishPreexecutionClosure | src/qarunner/adapters/postgres_batch_cancellation.py:889-938 | Basis and Batch row as specified; a raise marks the unit aborted |
| CancellationGateway.UnitOfWork.PublishPreexecutionRejection | src/qarunner/adapters/postgres_batch_cancellation.py:949-1003 | Rejection, basis and Batch row as specified; a raise marks the unit aborted |
| CancellationGateway.UnitOfWork.PublishMaterializedHandoff | src/qarunner/adapters/postgres_batch_cancellation.py:795-880 | Building the expected handoff, the look-up by trigger, the rebuild of a stored one and the insert, statement by statement, come to new handoff, exact replay or refusal as specified |
| Outbox.OutboxIsSafe | src/qarunner/adapters/postgres_outbox_publisher.py:93-162 | Over any interleaving of publishers, crashes and lease repairs no row is lost, published and quarantined rows never change, a published row was delivered, pending and leased rows have attempts left, quarantined ones exactly the maximum |
| Outbox.AttemptsOnlyGrow | src/qarunner/adapters/postgres_outbox_publisher.py:72-91 | As long as every repair takes only leases whose publisher is gone, attempts never drop |
| Outbox.AttemptsDropExactlyWhen | src/qarunner/adapters/postgres_outbox_publisher.py:128-155 | Of all steps of all publishers, crashes and repairs, exactly a failure recorded with a count at least two behind a leased row lowers that row's count |
| Outbox.DropsComeFromStaleRecords | src/qarunner/adapters/postgres_outbox_publisher.py:72-155 | Over any run a row ends with fewer attempts only if some step was such a record |
| Outbox.SlowPublisherLowersAttempts | src/qarunner/adapters/postgres_outbox_publisher.py:72-91 | A concrete run in which a repaired lease's slow publisher lowers the attempts of a row another one is delivering |
| OutboxPublisher.EarliestClaimable | src/qarunner/adapters/postgres_outbox_publisher.py:93-114 | The claim takes distinct claimable rows, at most the limit, all of them when they fit, and none later than one left |
| OutboxPublisher.Publisher.ClaimBatch | src/qarunner/adapters/postgres_outbox_publisher.py:93-114 | ... and leases exactly those, keeping their counts |
| OutboxPublisher.Publisher.RecordDeliverySuccess | src/qarunner/adapters/postgres_outbox_publisher.py:116-126 | Marks the row published if it is still leased |
| OutboxPublisher.Publisher.RecordDeliveryFailure | src/qarunner/adapters/postgres_outbox_publisher.py:128-162 | Retries or quarantines the row if it is still leased, and says which by the captured count |
| OutboxPublisher.Publisher.PublishPending | src/qarunner/adapters/postgres_outbox_publisher.py:51-70 | The report's three lists together name exactly the claimed ids, each once and in agreement with the row's new state, all other rows are untouched, and the attempts left over all rows drop by at least one per claimed row; the call is a run of the step machine of Outbox, so its safety is the call's |
| OutboxPublisher.Publisher.Drain | src/qarunner/adapters/postgres_outbox_publisher.py:51-70 | With one publisher, no crash and any sink, polling ends, with every row published or quarantined and finished rows unchanged |
| Scheduler.SlotsAreConserved | src/qarunner/adapters/asyncio_scheduler.py:114-153 | At every step of dequeue, dequeue error, task end, callback, cancel, shutdown and restart, free permits, tasks, the poller's slot and the slots lost add up to the bound, live tasks never exceed it, and every task has exactly one key, its run |
| Scheduler.SlotsLostByShutdownOnly | src/qarunner/adapters/asyncio_scheduler.py:61-69 | A slot is lost for good if and only if a shutdown interrupts the poller while it holds one |
| Scheduler.StartsInOrder | src/qarunner/adapters/postgres_store.py:421-440 | Each run is taken at most once, and a run that was waiting and unlocked when an earlier one was taken has the later (created_at, id) |
| Scheduler.RunKeepsInv | src/qarunner/adapters/asyncio_scheduler.py:114-153 | The scheduler invariant holds over every sequence of steps |
| SchedulerLoop.AsyncioScheduler.PollerLoop | src/qarunner/adapters/asyncio_scheduler.py:114-135 | Every behaviour of the loop, with any starts, shutdowns, ends of tasks, callbacks and changes of the store by anyone else between any two of its own steps, is a run of the step machine, with at most the bound of tasks |
| SchedulerLoop.AsyncioScheduler.Stop | src/qarunner/adapters/asyncio_scheduler.py:61-69 | A shutdown ends the poller wherever it is suspended, as the step of the machine, and a slot it holds is not given back |
| SchedulerLoop.AsyncioScheduler.OnTaskDone | src/qarunner/adapters/asyncio_scheduler.py:143-151 | The callback removes its task, the one key naming it if any, and gives one slot back |
| SchedulerLoop.AsyncioScheduler.Cancel | src/qarunner/adapters/asyncio_scheduler.py:81-94 | True exactly when the key has a task that is not done; nothing but the cancel request changes |
| SchedulerLoop.AsyncioScheduler.DequeueAndStart | src/qarunner/adapters/asyncio_scheduler.py:119-135 | With a slot in hand: start a task for the first waiting run, or give the slot back on none or on an error |
| InflightCap.CapHolds | src/qarunner/adapters/postgres_store.py:229-254 | Whatever the interleaving of creates, dequeues, cancels, interrupt recovery, deletes and ending runs, and even if two owners share a lock key, no owner has more runs in flight than the largest limit in use |
| InflightCap.CommitKeepsInv | src/qarunner/adapters/postgres_store.py:229-254 | Between a create's count and its commit no other create of the owner can add a run |
| RunQueue.Store.DequeueNextQueued | src/qarunner/adapters/postgres_store.py:421-440 | Takes the queued, unlocked run that is first by (created_at, id), and none exactly when there is none |
| RunQueue.Store.CancelIfInflight | src/qarunner/adapters/postgres_store.py:327-338 | Cancels exactly a queued or running run, and says so |
| RunQueue.Store.MarkInterruptedRuns | src/qarunner/adapters/postgres_store.py:399-414 | Fails exactly the running runs, of the given worker if any, and counts them; it only takes runs out of flight, leaves none running when no worker is named, and leaves every run that waits where it is in the queue |
| RunQueue.Store.DeleteRun | src/qarunner/adapters/postgres_store.py:416-419 | Takes one run out of flight and out of the queue and says whether it was there; every other run keeps its place |
| RunQueue.Store.CreateIfBelowInflightLimit | src/qarunner/adapters/postgres_store.py:229-254 | Saves if and only if the owner has fewer runs in flight than the limit, so that with the new one it has at most the limit; no other owner gains one |
| StreamTail.DrainExecStream | src/qarunner/adapters/docker_runner.py:168-208 | The bytes kept are the last MAX_LOG_BYTES of each whole stream, and each file is appended every byte in order, also when one file is given for both streams |
| StreamTail.TrimAsYouGo | src/qarunner/adapters/docker_runner.py:195-205 | Trimming after each chunk keeps what trimming once at the end would keep |
| StreamTail.ChunkingIsInvisible | src/qarunner/adapters/docker_runner.py:192-207 | Cutting a chunk in two, anywhere in either part and anywhere in a stream, changes no byte of stdout or stderr; in a file given for both streams it shows if and only if the bytes it moves past each other differ |
| StreamTail.Take | src/qarunner/adapters/docker_runner.py:193-200 | One part of one chunk extends and trims the window and is appended to its file |
| SuiteProtocol.HistoriesExtend | src/qarunner/adapters/postgres_suite.py:214-326 | Over any interleaving of competing transactions every committed revision list extends the earlier one, no suite is lost, and the row invariant holds |
| SuiteProtocol.HistoryOfOne | src/qarunner/adapters/postgres_suite.py:214-326 | The version is the number of revisions minus one, plus one if retired; a retired suite never changes; one version has one content |
| SuiteProtocol.NextKeepsInv | src/qarunner/adapters/postgres_suite.py:70-116 | Every call keeps locks exclusive and snapshots true of the rows seen; the tables change only by the whole write set of a transaction in which no call raised |
| SuiteProtocol.AbortIsSticky | src/qarunner/adapters/postgres_suite.py:118-141 | Once a call has raised, such as a version update refused after its revision was inserted, no later call and nothing others do lets the transaction change a table, however it ends |
| SuiteProtocol.OneHolderPerSuite | src/qarunner/adapters/postgres_suite.py:70-85 | In every reachable state at most one transaction has loaded a suite, so of any contenders on one version at most one can publish |
| SuiteProtocol.LateRegistrationLoses | src/qarunner/adapters/postgres_suite.py:149-195 | A registration whose look-up missed a suite that is there by its insert raises instead of replaying |
| SuiteAggregate.LoadInverts | src/qarunner/adapters/postgres_suite.py:70-116 | A load, with its ORDER BY and the checks of the Suite value, gives back exactly what the rows hold |
| SuiteAggregate.RevisionReloads | src/qarunner/domain/suite.py:180-217 | A revision the domain accepts is published exactly when its id is free, and the next load returns the domain's value |
| SuiteAggregate.RetirementReloads | src/qarunner/domain/suite.py:219-236 | A retirement the domain accepts is published, and the next load returns the domain's value |
| SuiteAggregate.RegistrationReplays | src/qarunner/adapters/postgres_suite.py:149-168 | A registration sent again is replayed if and only if no further revision was published, because the check compares the current revision |
| SuiteGateway.Gateway.GetSuiteForUpdate | src/qarunner/adapters/postgres_suite.py:70-116 | One suite a transaction, loaded once, with the errors of an absent suite and of another suite |
| SuiteGateway.Gateway.Register | src/qarunner/adapters/postgres_suite.py:143-212 | Look-up, then replay or two inserts, to the state of the specification; a raise marks the transaction |
| SuiteGateway.Gateway.PublishRevision | src/qarunner/adapters/postgres_suite.py:214-282 | Insert, then guarded update, to the state of the specification; a raise marks the transaction |
| SuiteGateway.Gateway.PublishRetire | src/qarunner/adapters/postgres_suite.py:284-326 | Guarded update, to the state of the specification; a raise marks the transaction |
| SuiteGateway.Gateway.Exit | src/qarunner/adapters/postgres_suite.py:49-68 | The whole write set is installed, or none of it |
| BatchCreate.CreatedOnce | src/qarunner/adapters/postgres_batch.py:90-181 | Over any interleaving there is at most one Batch per (scope, key), and every Batch keeps the identity it was created with whatever other gateways do to its state |
| BatchCreate.LaterCreateReplays | src/qarunner/adapters/postgres_batch.py:141-174 | After any steps, a create with a stored key that gets past the suite check is refused by the insert and replays the stored row if and only if the digests agree; the rollback gives back exactly the rows and locks it had before |
| BatchCreate.RetiredSuiteStopsReplay | src/qarunner/adapters/postgres_batch.py:105-111 | Once the suite that owns a stored create's revision is retired, at every later time a repeat is refused before the look-up by key: as a domain conflict for the suite's project, as a contract violation for another |
| BatchCreate.CommittedUnderActiveSuite | src/qarunner/adapters/postgres_batch.py:219-249 | When a Batch becomes visible its suite is active, of its project, and owns its revision |
| BatchCreateGateway.Gateway.Create | src/qarunner/adapters/postgres_batch.py:90-181 | Checks, suite lock, savepoint, insert, rollback and look-up, statement by statement, to the state of the specification |
| BatchCreateGateway.Gateway.SuiteOfRevision | src/qarunner/adapters/postgres_batch.py:219-234 | Finds the suite that owns the revision, and none exactly when there is none |
| BatchCreateGateway.Gateway.WinnerOf | src/qarunner/adapters/postgres_batch.py:145-155 | Finds the row with the key, and none exactly when there is none |
| BatchCreateGateway.Gateway.Exit | src/qarunner/adapters/postgres_batch.py:49-68 | The whole write set is installed, or none of it |

## Left out

- Retry: retry intents, later attempts and RETRY_QUEUED (`src/qarunner/adapters/postgres_assignment.py:7-10` defers them); the readiness candidate's retry list is therefore empty.
- Run-level cancellation commands of the domain and the events of a running Attempt: no gateway here publishes them.
- Worker registration, lease renewal, generation rotation and the offer token hash.
- SQL text, asyncpg connections and the pool, JSON bytes, SHA-256 and ISO-8601 text: rows are records, a digest is a record of what it digests (or an opaque content number), times are integers, ids are naturals.
- Columns that no modelled check reads (labels, audit and outbox payload text, duplicate digest columns): represented by the record they are derived from, or dropped.
- Manifest, plan and policy payload comparison of readiness and finalization is equality of records.
- `write_epoch` read by Run finalization is a parameter: the Batch row is not locked there.
- The row lock on the newest fact snapshot is not modelled: without it the log has more interleavings, and all of them are covered.
- SKIP LOCKED is any choice of unlocked rows; the scheduler's dequeue names the locked rows, the outbox claim takes any claimable ones.
- The in-memory scan that assembles a zero-child proof (`src/qarunner/adapters/postgres_batch_cancellation.py:436-782`) is a parameter of the closure; integrity quarantine is left out.
- Gateway objects run one call at a time over shared tables; interleaving is proved on the step machines, whose steps are the same functions. Aliasing of two gateway objects inside one call is not modelled.
- `cleanup`, lock flags, users, profiles, schedules and the general upsert of the run store; the cap is about runs that enter through its own create.
- Scheduler.StartsInOrder: assumes run ids are never used twice, as the orchestrator's generated ids are; an upsert of a used id is not a step of the machine.
- The wall-clock waits of the scheduler (poll interval, wake event, drain timeout): a task may end, and the poller may wake, at any step.
- Outbox last_error text and the delivered event's payload; the sink is any function.
- Liveness of the Batch protocol under every scheduler: it depends on callers. That some run of steps leads on is proved, exactly when it does; only the outbox drain is shown to end.
- ControlPlane has no step that inserts a Run or changes a Batch's sources: its Runs and approved sources are there from the start, so that no Run joins a closed Batch holds by construction.
- ControlPlane, CancellationProtocol and BatchCreate act on the same Batch row and are not composed; each lets the others change the row only as its own steps for other gateways say.
- The decision chain behind an item's effective outcome (original facts, adjudications, retry decisions): an entry carries its effective outcome and class, and its digests stand for the chain. A Run basis is one that its `build` makes, with the digests of its own resolution set.
- The scope items a Batch basis carries beside its digest are taken to be the stored ones.
- The plan's bindings of Runs to shards and the shards' resource profiles are one seat per Run in the plan row; algorithm version, run count and duration of a plan are part of its digest.
- Of the per-Run comparisons of readiness (`src/qarunner/adapters/postgres_batch_finalization_readiness.py:556-645`), the handoff's row and event ids are left out; the columns that repeat a basis or a handoff beside its payload are compared as that one record.
- The reference from an evidence row to its Attempt in the application unit of work: the Attempt is taken to be there.
- UnitOfWork: the two reads of a fact commit are one step there; FactLog takes them one by one.
- Docker and subprocess execution, analyzers, web API, settings, wire contracts and the frontend.
