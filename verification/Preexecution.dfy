/** The Batch before execution: recording a cancellation intent, closing a
    cancelled Batch from its intent and zero-Run proof, and rejecting it. The
    domain transitions and the statements of the cancellation unit of work. */
module Preexecution {
  import opened Common
  import opened BatchTables

  datatype Scope = PrePlan(digest: Digest) | FrozenPlan(digest: Digest)

  /** The Batch an authority or an intent was issued for. */
  datatype Binding = Binding(batchId: Id, projectId: Id, suiteRevisionId: Id)

  /** `authorization` covers actor, source and authorization digest. */
  datatype Intent = Intent(batchId: Id, sourceVersion: nat, key: Id, request: Digest, scope: Scope, projectId: Id,
                           suiteRevisionId: Id, authorization: Digest)

  datatype Stage = ValidationStage | CollectionStage | PlanningStage | AdmissionStage

  datatype Rejection = Rejection(id: Id, batchId: Id, sourceVersion: nat, stage: Stage, body: Digest)

  /** What a closure or rejection was decided from. */
  datatype Command = ByIntent(intent: Intent) | ByRejection(rejection: Rejection)

  /** The proof that no Run exists, bound to a scope and to its command. */
  datatype Proof = Proof(batchId: Id, sourceVersion: nat, scope: Scope, itemCommands: seq<Command>)

  datatype Basis = Basis(sourceVersion: nat, phase: BatchState, command: Command, proof: Proof, outcome: BatchState)

  datatype Batch = Batch(
    id: Id,
    state: BatchState,
    version: nat,
    rejection: Option<Rejection>,
    intent: Option<Intent>,
    basis: Option<Basis>)

  predicate IsPrestart(s: BatchState) {
    s == DraftBatch || s == ValidatingBatch || s == CollectingBatch || s == PlanningBatch
    || s == AwaitingAdmissionBatch || s == QueuedBatch
  }

  predicate IsTerminal(s: BatchState) {
    IsExecutionTerminal(s) || s == RejectedBatch
  }

  predicate ScopeFits(s: BatchState, scope: Scope) {
    scope.FrozenPlan? <==> s == AwaitingAdmissionBatch || s == QueuedBatch
  }

  function StageOf(s: BatchState): Option<Stage> {
    match s
    case ValidatingBatch => Some(ValidationStage)
    case CollectingBatch => Some(CollectionStage)
    case PlanningBatch => Some(PlanningStage)
    case AwaitingAdmissionBatch => Some(AdmissionStage)
    case _ => None
  }

  /** What constructing a Batch checks about its facts. */
  predicate ValidBatch(b: Batch) {
    if b.basis.None? then
      && b.rejection.None?
      && (b.intent.Some? ==>
            && b.intent.value.batchId == b.id && IsPrestart(b.state)
            && b.intent.value.sourceVersion + 1 == b.version && ScopeFits(b.state, b.intent.value.scope))
    else
      var basis := b.basis.value;
      && basis.outcome == b.state
      && basis.sourceVersion + 1 == b.version
      && match basis.command
         case ByRejection(r) =>
           && b.rejection == Some(r) && b.intent.None? && r.batchId == b.id && r.sourceVersion == basis.sourceVersion
           && StageOf(basis.phase) == Some(r.stage) && basis.outcome == RejectedBatch
         case ByIntent(i) =>
           && b.intent == Some(i) && b.rejection.None? && i.batchId == b.id
           && i.sourceVersion + 1 == basis.sourceVersion && basis.outcome == CancelledBatch
  }

  function Make(b: Batch): (r: Result<Batch>)
    ensures r.Ok? ==> r.value == b && ValidBatch(b)
  {
    if ValidBatch(b) then Ok(b) else Err(DomainValidation)
  }

  // ----- Domain transitions ------------------------------------------------

  function RequestCancel(b: Batch, i: Intent, expectedVersion: nat): Result<Batch> {
    if b.intent.Some? then
      if b.intent.value.key == i.key then
        if b.intent.value.request == i.request then Ok(b) else Err(IdempotencyConflict)
      else Err(DomainConflict)
    else if IsTerminal(b.state) then Err(DomainConflict)
    else if b.version != expectedVersion then Err(VersionConflict)
    else if !IsPrestart(b.state) then Err(DomainConflict)
    else if i.batchId != b.id || i.sourceVersion != b.version || !ScopeFits(b.state, i.scope) then Err(DomainValidation)
    else Make(b.(version := b.version + 1, intent := Some(i)))
  }

  predicate BoundTo(proof: Proof, command: Command) {
    forall c :: c in proof.itemCommands ==> c == command
  }

  function FinalizeCancel(b: Batch, proof: Proof, expectedVersion: nat): Result<Batch> {
    if b.intent.Some? && b.basis.Some? && b.basis.value.command.ByIntent? then
      var stored := b.basis.value;
      if !BoundTo(proof, ByIntent(b.intent.value)) then Err(DomainValidation)
      else if b.state == CancelledBatch
              && stored == Basis(proof.sourceVersion, stored.phase, ByIntent(b.intent.value), proof, CancelledBatch)
      then Ok(b)
      else Err(IdempotencyConflict)
    else if IsTerminal(b.state) then Err(DomainConflict)
    else if b.version != expectedVersion then Err(VersionConflict)
    else if !IsPrestart(b.state) || b.intent.None? then Err(DomainConflict)
    else
      var command := ByIntent(b.intent.value);
      :- Need(proof.batchId == b.id && proof.sourceVersion == b.version && proof.scope == b.intent.value.scope
              && BoundTo(proof, command), DomainValidation);
      Make(b.(state := CancelledBatch, version := b.version + 1,
              basis := Some(Basis(b.version, b.state, command, proof, CancelledBatch))))
  }

  function Reject(b: Batch, r: Rejection, proof: Proof, expectedVersion: nat): Result<Batch> {
    if b.rejection.Some? && b.rejection.value.id == r.id then
      if b.rejection.value != r || !BoundTo(proof, ByRejection(r)) then Err(IdempotencyConflict)
      else if b.basis.Some? && b.state == RejectedBatch
              && b.basis.value == Basis(proof.sourceVersion, b.basis.value.phase, ByRejection(r), proof, RejectedBatch)
      then Ok(b)
      else Err(IdempotencyConflict)
    else if IsTerminal(b.state) then Err(DomainConflict)
    else if b.version != expectedVersion then Err(VersionConflict)
    else if b.intent.Some? || StageOf(b.state).None? then Err(DomainConflict)
    else
      :- Need(StageOf(b.state) == Some(r.stage) && r.batchId == b.id && proof.batchId == b.id
              && r.sourceVersion == b.version && proof.sourceVersion == b.version
              && (proof.scope.FrozenPlan? <==> b.state == AwaitingAdmissionBatch) && BoundTo(proof, ByRejection(r)),
              DomainValidation);
      Make(b.(state := RejectedBatch, version := b.version + 1, rejection := Some(r),
              basis := Some(Basis(b.version, b.state, ByRejection(r), proof, RejectedBatch))))
  }

  /** The ordinary edges; none is open once an intent is recorded. */
  function Transition(b: Batch, target: BatchState): Result<Batch> {
    if b.intent.Some? then Err(DomainConflict)
    else if (b.state == DraftBatch && target == ValidatingBatch)
            || (b.state == ValidatingBatch && target == CollectingBatch)
            || (b.state == CollectingBatch && target == PlanningBatch)
            || (b.state == PlanningBatch && target == AwaitingAdmissionBatch)
            || (b.state == AwaitingAdmissionBatch && target == QueuedBatch)
            || (b.state == QueuedBatch && target == RunningBatch)
    then Make(b.(state := target, version := b.version + 1))
    else Err(DomainConflict)
  }

  // ----- Rows and statements ----------------------------------------------

  datatype Rows = Rows(
    state: BatchState,
    version: nat,
    writeEpoch: nat,
    intents: seq<Intent>,
    rejections: seq<Rejection>,
    basis: Option<Basis>,
    handoffs: seq<Handoff>,
    projectId: Id,
    suiteRevisionId: Id,
    suiteProject: Option<Id>)

  /** The authority a unit of work was configured with; `owner` is the reconciler
      or phase owner it was configured for. */
  datatype Candidate =
    | CancelAuthority(bound: Binding, scope: Scope, authorization: Digest, expired: bool)
    | ClosureAuthority(bound: Binding, owner: Id, sourceVersion: nat, writeEpoch: nat, scope: Scope, digest: Digest,
                       expired: bool)
    | RejectionAuthority(bound: Binding, owner: Id, sourceVersion: nat, writeEpoch: nat, scope: Scope, stage: Stage,
                         digest: Digest, expired: bool)

  /** Who asks for an internal authority, and for which epoch. */
  datatype Caller = Caller(owner: Id, epoch: nat)

  /** Materialized Runs were found where none may be; the scope is handed over. */
  datatype Handoff = Handoff(batchId: Id, trigger: Trigger, sourceVersion: nat, scope: Scope, runSet: Digest,
                             authority: Digest, writeEpoch: nat)

  datatype Trigger = CancelTrigger(intent: Intent) | RejectionTrigger(rejection: Digest)

  /** The authority has not expired and is the caller's. */
  function CallerPasses(a: Candidate, caller: Caller): Check {
    if a.expired then Fail(AuthorityProjectionUnavailable)
    else if !a.CancelAuthority? && caller.owner != a.owner then Fail(InternalAuthorityRetired)
    else if !a.CancelAuthority? && caller.epoch != a.writeEpoch then Fail(AuthorityStateConflict)
    else Pass
  }

  /** The row is found through its suite, in its own project, and is the one the
      authority was issued for. */
  predicate IsBound(id: Id, rows: Rows, bound: Binding) {
    rows.suiteProject == Some(rows.projectId) && bound == Binding(id, rows.projectId, rows.suiteRevisionId)
  }

  predicate IntentBound(i: Intent, a: Candidate)
    requires a.ClosureAuthority?
  {
    && i.projectId == a.bound.projectId && i.suiteRevisionId == a.bound.suiteRevisionId
    && i.sourceVersion + 1 == a.sourceVersion && i.scope == a.scope
  }

  /** The checks made when the Batch row is locked. */
  function Authorize(id: Id, rows: Rows, a: Candidate, caller: Caller): Result<()> {
    var passes := CallerPasses(a, caller);
    if passes.Fail? then Err(passes.error)
    else if !IsBound(id, rows, a.bound) then Err(AuthorityPermissionDenied)
    else
      match a
      case CancelAuthority(_, _, _, _) => Ok(())
      case ClosureAuthority(_, _, source, epoch, _, _, _) =>
        if epoch != rows.writeEpoch || source != rows.version || |rows.intents| > 1 then Err(AuthorityStateConflict)
        else if |rows.intents| == 1 && !IntentBound(rows.intents[0], a) then Err(AuthorityStateConflict)
        else Ok(())
      case RejectionAuthority(_, _, source, epoch, _, stage, _, _) =>
        if epoch != rows.writeEpoch || source != rows.version || StageOf(rows.state) != Some(stage) then
          Err(AuthorityStateConflict)
        else Ok(())
  }

  /** A second request on the same unit of work. */
  function AuthorizeAgain(id: Id, locked: Id, a: Candidate, caller: Caller): Result<()> {
    if locked != id then Err(PortContract)
    else if a.CancelAuthority? then Ok(())
    else if caller.owner != a.owner then Err(InternalAuthorityRetired)
    else if caller.epoch != a.writeEpoch then Err(AuthorityStateConflict)
    else Ok(())
  }

  function LoadBatch(id: Id, rows: Rows): Result<Batch> {
    if |rows.intents| > 1 || |rows.rejections| > 1 then Err(AuthorityStateConflict)
    else Make(Batch(id, rows.state, rows.version,
                    if |rows.rejections| == 1 then Some(rows.rejections[0]) else None,
                    if |rows.intents| == 1 then Some(rows.intents[0]) else None,
                    rows.basis))
  }

  /** UPDATE version, INSERT intent; the result is recomputed from the snapshot. */
  function CancelRows(rows: Rows, a: Candidate, snapshot: Batch, batch: Batch, i: Intent): Result<Rows> {
    if !a.CancelAuthority? then Err(PortContract)
    else
      var expected :- RequestCancel(snapshot, i, snapshot.version);
      :- Need(batch == expected && i.scope == a.scope && i.authorization == a.authorization
              && Binding(i.batchId, i.projectId, i.suiteRevisionId) == a.bound, AuthorityStateConflict);
      :- Need(rows.state == snapshot.state && rows.version == snapshot.version, VersionConflict);
      :- Need(forall j :: j in rows.intents ==> j.key != i.key, ConstraintViolation);
      Ok(rows.(version := batch.version, intents := rows.intents + [i]))
  }

  /** UPDATE to cancelled, INSERT basis (one per Batch). */
  function CloseRows(rows: Rows, a: Candidate, snapshot: Batch, batch: Batch): Result<Rows> {
    if !a.ClosureAuthority? || batch.basis.None? || !batch.basis.value.command.ByIntent? then Err(PortContract)
    else
      :- Need(rows.state == snapshot.state && rows.version == snapshot.version, VersionConflict);
      :- Need(rows.basis.None?, ConstraintViolation);
      Ok(rows.(state := CancelledBatch, version := rows.version + 1, basis := batch.basis))
  }

  /** UPDATE to rejected, INSERT rejection and basis. */
  function RejectRows(rows: Rows, a: Candidate, snapshot: Batch, batch: Batch, r: Rejection): Result<Rows> {
    if !a.RejectionAuthority? || batch.basis.None? || !batch.basis.value.command.ByRejection?
       || batch.rejection != Some(r) then Err(PortContract)
    else
      :- Need(rows.state == snapshot.state && rows.version == snapshot.version, VersionConflict);
      :- Need(rows.basis.None? && (forall q :: q in rows.rejections ==> q.id != r.id && q.sourceVersion != r.sourceVersion),
              ConstraintViolation);
      Ok(rows.(state := RejectedBatch, version := rows.version + 1, rejections := rows.rejections + [r],
               basis := batch.basis))
  }

  // ----- Materialized-scope handoffs --------------------------------------

  function BuildCancelHandoff(i: Intent, sourceVersion: nat, runSet: Digest, authority: Digest, writeEpoch: nat): Handoff {
    Handoff(i.batchId, CancelTrigger(i), sourceVersion, i.scope, runSet, authority, writeEpoch)
  }

  function BuildRejectionHandoff(rejection: Digest, batchId: Id, sourceVersion: nat, scope: Scope, runSet: Digest,
                                 authority: Digest, writeEpoch: nat): Handoff {
    Handoff(batchId, RejectionTrigger(rejection), sourceVersion, scope, runSet, authority, writeEpoch)
  }

  /** The stored payload: everything but the intent, of which it keeps the scope. */
  datatype HandoffPayload = HandoffPayload(batchId: Id, cancel: bool, rejection: Option<Digest>, sourceVersion: nat,
                                           scope: Scope, runSet: Digest, authority: Digest, writeEpoch: nat)

  function PayloadOf(h: Handoff): HandoffPayload {
    HandoffPayload(h.batchId, h.trigger.CancelTrigger?,
                   if h.trigger.RejectionTrigger? then Some(h.trigger.rejection) else None,
                   h.sourceVersion, h.scope, h.runSet, h.authority, h.writeEpoch)
  }

  /** Rebuild a stored handoff from its payload and the Batch's intent; any
      disagreement with the payload is an integrity failure. */
  function RebuildHandoff(p: HandoffPayload, intent: Option<Intent>): Result<Handoff> {
    if p.cancel then
      if intent.None? then Err(AuthorityStateConflict)
      else
        var h := BuildCancelHandoff(intent.value, p.sourceVersion, p.runSet, p.authority, p.writeEpoch);
        if PayloadOf(h) == p then Ok(h) else Err(AuthorityStateConflict)
    else if p.rejection.None? then Err(AuthorityStateConflict)
    else
      var h := BuildRejectionHandoff(p.rejection.value, p.batchId, p.sourceVersion, p.scope, p.runSet, p.authority,
                                     p.writeEpoch);
      if PayloadOf(h) == p then Ok(h) else Err(AuthorityStateConflict)
  }

  /** The stored row of a trigger. */
  function FindHandoff(handoffs: seq<Handoff>, trigger: Trigger): (r: Option<Handoff>)
    ensures r.Some? ==> r.value in handoffs && r.value.trigger == trigger
    ensures r.None? ==> forall h :: h in handoffs ==> h.trigger != trigger
  {
    if |handoffs| == 0 then None
    else if handoffs[0].trigger == trigger then Some(handoffs[0])
    else FindHandoff(handoffs[1..], trigger)
  }

  /** What the authority and the loaded Batch make of a handoff. */
  function ExpectedHandoff(a: Candidate, id: Id, snapshot: Batch, runSet: Digest, h: Handoff): Result<Handoff> {
    match a
    case CancelAuthority(_, _, _, _) => Err(PortContract)
    case ClosureAuthority(_, _, source, epoch, _, digest, _) =>
      if snapshot.intent.None? then Err(AuthorityStateConflict)
      else Ok(BuildCancelHandoff(snapshot.intent.value, source, runSet, digest, epoch))
    case RejectionAuthority(_, _, source, epoch, scope, _, digest, _) =>
      if !h.trigger.RejectionTrigger? then Err(AuthorityStateConflict)
      else Ok(BuildRejectionHandoff(h.trigger.rejection, id, source, scope, runSet, digest, epoch))
  }

  /** Publish or replay: one handoff per trigger. A stored one that differs is
      rebuilt from its payload before it is reported. */
  function HandoffRows(rows: Rows, a: Candidate, id: Id, snapshot: Batch, runSet: Digest, h: Handoff)
    : Result<(Rows, bool)>
  {
    var expected := ExpectedHandoff(a, id, snapshot, runSet, h);
    if expected.Err? then Err(expected.error)
    else if h != expected.value then Err(AuthorityStateConflict)
    else
      var stored := FindHandoff(rows.handoffs, h.trigger);
      if stored.None? then Ok((rows.(handoffs := rows.handoffs + [h]), false))
      else if stored.value == h then Ok((rows, true))
      else if RebuildHandoff(PayloadOf(stored.value), snapshot.intent) == Ok(stored.value) then Err(IdempotencyConflict)
      else Err(AuthorityStateConflict)
  }
}
