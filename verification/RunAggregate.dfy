/** The Run aggregate of the scheduling domain, restricted to first attempts:
    no retry intents and no run-level cancellation. Construction validates, as
    the Python dataclasses do, so every transition goes through `Make`. */
module RunAggregate {
  import opened Common

  datatype WorkerRef = WorkerRef(workerId: Id, generation: nat)

  datatype AssignmentState =
    | Offered
    | Claimed
    | Committed
    | ExpiredPrestart
    | ReleasedPrestart
    | CancelledPrestart

  datatype ClosureKind = Expired | Released | Cancelled

  datatype Closure = Closure(
    assignmentId: Id,
    idempotencyKey: Id,
    kind: ClosureKind,
    effectiveAt: Time,
    recordedAt: Time,
    worker: Option<WorkerRef>,
    cancelIntent: Option<Digest>)

  datatype Assignment = Assignment(
    id: Id,
    worker: WorkerRef,
    spec: Digest,
    state: AssignmentState,
    offeredAt: Time,
    expiresAt: Time,
    claimedAt: Option<Time>,
    committedAt: Option<Time>,
    closure: Option<Closure>)

  datatype AttemptState =
    | StartCommitted
    | Provisioning
    | Executing
    | Uploading
    | AttemptPassed
    | AttemptTestFailed
    | AttemptInfraFailed
    | AttemptCancelled
    | AttemptUnknown

  datatype Attempt = Attempt(
    id: Id,
    runId: Id,
    attemptNo: nat,
    fence: nat,
    assignmentId: Id,
    worker: WorkerRef,
    spec: Digest,
    startKey: Id,
    state: AttemptState,
    version: nat)

  datatype RunState = Planned | Queued | Assigned | Running

  datatype Run = Run(
    id: Id,
    state: RunState,
    version: nat,
    fence: nat,
    assignments: seq<Assignment>,
    current: Option<Id>,
    attempts: seq<Attempt>)
  {
    /** The current reservation: the latest assignment carrying the current id. */
    function CurrentAssignment(): (a: Option<Assignment>)
      ensures a.Some? ==> a.value in assignments && current == Some(a.value.id)
    {
      if current.None? then None else FindLast(assignments, current.value)
    }
  }

  datatype CommitResult = CommitResult(run: Run, attempt: Attempt, fence: nat, replayed: bool)

  function FindLast(assignments: seq<Assignment>, id: Id): (a: Option<Assignment>)
    ensures a.Some? ==> a.value in assignments && a.value.id == id
    ensures a.None? ==> forall b :: b in assignments ==> b.id != id
  {
    if |assignments| == 0 then None
    else
      var last := assignments[|assignments| - 1];
      if last.id == id then Some(last) else FindLast(assignments[..|assignments| - 1], id)
  }

  predicate IsPrecommit(s: AssignmentState) { s == Offered || s == Claimed }

  predicate IsPrestartClosed(s: AssignmentState) {
    s == ExpiredPrestart || s == ReleasedPrestart || s == CancelledPrestart
  }

  function ClosedState(kind: ClosureKind): AssignmentState {
    match kind
    case Expired => ExpiredPrestart
    case Released => ReleasedPrestart
    case Cancelled => CancelledPrestart
  }

  predicate ValidClosure(c: Closure) {
    && c.effectiveAt <= c.recordedAt
    && match c.kind
       case Expired => c.worker.None? && c.cancelIntent.None?
       case Released => c.worker.Some? && c.cancelIntent.None?
       case Cancelled => c.worker.None? && c.cancelIntent.Some?
  }

  predicate ValidAssignment(a: Assignment) {
    && a.offeredAt < a.expiresAt
    && (a.claimedAt.Some? ==> a.offeredAt <= a.claimedAt.value < a.expiresAt)
    && (a.committedAt.Some? ==>
          && a.claimedAt.Some?
          && a.claimedAt.value <= a.committedAt.value < a.expiresAt)
    && if IsPrestartClosed(a.state) then
         && a.committedAt.None?
         && a.closure.Some?
         && ValidClosure(a.closure.value)
         && a.closure.value.assignmentId == a.id
         && ClosedState(a.closure.value.kind) == a.state
         && (a.closure.value.kind == Expired ==> a.closure.value.effectiveAt == a.expiresAt)
         && (a.closure.value.kind == Released ==> a.closure.value.worker == Some(a.worker))
         && (a.closure.value.kind != Expired ==>
               && (a.claimedAt.Some? ==> a.claimedAt.value <= a.closure.value.effectiveAt)
               && a.offeredAt <= a.closure.value.effectiveAt < a.expiresAt)
       else
         && a.closure.None?
         && (a.state == Offered ==> a.claimedAt.None? && a.committedAt.None?)
         && (a.state == Claimed ==> a.claimedAt.Some? && a.committedAt.None?)
         && (a.state == Committed ==> a.committedAt.Some?)
  }

  function ClosedAt(a: Assignment): Option<Time> {
    if a.closure.Some? then Some(a.closure.value.recordedAt) else a.committedAt
  }

  /** What constructing a Run checks about its normalized history. */
  predicate ValidHistory(run: Run) {
    && (forall i :: 0 <= i < |run.assignments| ==> ValidAssignment(run.assignments[i]))
    && (forall i, j :: 0 <= i < j < |run.assignments| ==> run.assignments[i].id != run.assignments[j].id)
    && (run.current.Some? ==>
          && |run.assignments| > 0
          && run.assignments[|run.assignments| - 1].id == run.current.value)
    && (forall i, j :: 0 <= i < j < |run.assignments| ==> run.assignments[i].spec == run.assignments[j].spec)
    && (forall i :: 0 <= i < |run.assignments| - 1 ==>
          var closedAt := ClosedAt(run.assignments[i]);
          closedAt.Some? ==> closedAt.value <= run.assignments[i + 1].offeredAt)
    && (forall i :: 0 <= i < |run.assignments| ==>
          var a := run.assignments[i];
          match a.state
          case Committed => i == |run.assignments| - 1 && |run.attempts| == 1
          case Offered => run.current == Some(a.id)
          case Claimed => run.current == Some(a.id)
          case CancelledPrestart => false
          case _ => run.current != Some(a.id))
    && |run.attempts| <= 1
    && (|run.attempts| == 1 ==>
          var t := run.attempts[0];
          && t.runId == run.id
          && t.attemptNo == 1
          && t.fence == 1
          && |run.assignments| > 0
          && var a := run.assignments[|run.assignments| - 1];
             && a.id == t.assignmentId
             && a.state == Committed
             && a.worker == t.worker
             && a.spec == t.spec)
    && run.fence == |run.attempts|
  }

  predicate ValidPointers(run: Run) {
    match run.state
    case Planned => run.assignments == [] && run.attempts == []
    case Queued => run.current.None? && run.attempts == []
    case Assigned =>
      && run.CurrentAssignment().Some?
      && IsPrecommit(run.CurrentAssignment().value.state)
      && run.attempts == []
    case Running =>
      && run.CurrentAssignment().Some?
      && run.CurrentAssignment().value.state == Committed
  }

  predicate ValidRun(run: Run) {
    ValidHistory(run) && ValidPointers(run)
  }

  /** The dataclass constructor: the value, or the validation error. */
  function Make(run: Run): (r: Result<Run>)
    ensures r.Ok? ==> r.value == run && ValidRun(run)
  {
    if ValidRun(run) then Ok(run) else Err(DomainValidation)
  }

  function ReplaceById(assignments: seq<Assignment>, updated: Assignment): (r: seq<Assignment>)
    ensures |r| == |assignments|
    ensures forall i :: 0 <= i < |r| ==>
      r[i] == if assignments[i].id == updated.id then updated else assignments[i]
  {
    seq(|assignments|, i requires 0 <= i < |assignments| =>
      if assignments[i].id == updated.id then updated else assignments[i])
  }

  /** Reserve a queued Run for one Worker generation. */
  function Offer(run: Run, id: Id, worker: WorkerRef, spec: Digest,
                 offeredAt: Time, expiresAt: Time, expectedVersion: nat): Result<Run>
  {
    var atVersion := run.version == expectedVersion;
    :- Need(atVersion, VersionConflict);
    :- Need(run.state == Queued && run.current.None?, DomainConflict);
    :- Need(forall a :: a in run.assignments ==> a.id != id, DomainConflict);
    :- Need(|run.assignments| > 0 ==> spec == run.assignments[0].spec, DomainConflict);
    var a := Assignment(id, worker, spec, Offered, offeredAt, expiresAt, None, None, None);
    Make(run.(state := Assigned,
              assignments := run.assignments + [a],
              current := Some(id),
              version := run.version + 1))
  }

  /** The bound Worker generation accepts its offer inside the offer window. */
  function Claim(run: Run, id: Id, worker: WorkerRef, observedAt: Time, expectedVersion: nat): Result<Run> {
    var atVersion := run.version == expectedVersion;
    :- Need(atVersion, VersionConflict);
    var current := run.CurrentAssignment();
    :- Need(run.state == Assigned && current.Some? && current.value.id == id
            && current.value.worker == worker && current.value.state == Offered, DomainConflict);
    :- Need(current.value.offeredAt <= observedAt < current.value.expiresAt, DomainConflict);
    var claimed := current.value.(state := Claimed, claimedAt := Some(observedAt));
    Make(run.(assignments := ReplaceById(run.assignments, claimed), version := run.version + 1))
  }

  /** Create the first durable Attempt and its fence, or replay it exactly. */
  function CommitStart(run: Run, id: Id, worker: WorkerRef, startKey: Id, spec: Digest,
                       attemptId: Id, observedAt: Time, expectedVersion: nat): Result<CommitResult>
  {
    if exists t :: t in run.attempts && t.startKey == startKey then
      var t := run.attempts[|run.attempts| - 1];
      :- Need(t.assignmentId == id && t.worker == worker && t.spec == spec, IdempotencyConflict);
      :- Need(t.fence == run.fence, DomainConflict);
      var current := run.CurrentAssignment();
      :- Need(run.state == Running && current.Some? && current.value.id == t.assignmentId
              && current.value.state == Committed
              && (t.state == StartCommitted || t.state == Provisioning
                  || t.state == Executing || t.state == Uploading), DomainConflict);
      Ok(CommitResult(run, t, t.fence, true))
    else
      :- Need(run.version == expectedVersion, VersionConflict);
      var current := run.CurrentAssignment();
      :- Need(run.state == Assigned && current.Some? && current.value.id == id
              && current.value.worker == worker && current.value.spec == spec
              && current.value.state == Claimed, DomainConflict);
      :- Need(current.value.claimedAt.Some?
              && current.value.claimedAt.value <= observedAt < current.value.expiresAt, DomainConflict);
      :- Need(forall t :: t in run.attempts ==> t.id != attemptId, DomainConflict);
      var fence := run.fence + 1;
      var attempt := Attempt(attemptId, run.id, |run.attempts| + 1, fence, id, worker, spec,
                             startKey, StartCommitted, 0);
      var committed := current.value.(state := Committed, committedAt := Some(observedAt));
      var next :- Make(run.(state := Running,
                            version := run.version + 1,
                            fence := fence,
                            assignments := ReplaceById(run.assignments, committed),
                            attempts := run.attempts + [attempt]));
      Ok(CommitResult(next, attempt, fence, false))
  }

  /** Close an offered or claimed reservation before any Attempt exists. */
  function ClosePrecommit(run: Run, closure: Closure, expectedVersion: nat): Result<Run> {
    var existing := FindLast(run.assignments, closure.assignmentId);
    if existing.Some? && existing.value.closure.Some? then
      var stored := existing.value.closure.value;
      :- Need(stored.idempotencyKey == closure.idempotencyKey, DomainConflict);
      :- Need(stored.kind == closure.kind && stored.worker == closure.worker, IdempotencyConflict);
      Ok(run)
    else
      :- Need(run.version == expectedVersion, VersionConflict);
      var current := run.CurrentAssignment();
      :- Need(run.state == Assigned && current.Some? && current.value.id == closure.assignmentId
              && IsPrecommit(current.value.state), DomainConflict);
      var c := current.value;
      :- Need(if closure.kind == Expired then c.expiresAt <= closure.recordedAt
              else
                && closure.worker == Some(c.worker)
                && (if c.claimedAt.Some? then c.claimedAt.value else c.offeredAt) <= closure.recordedAt
                && closure.recordedAt < c.expiresAt, DomainConflict);
      var closed := c.(state := ClosedState(closure.kind), closure := Some(closure));
      Make(run.(state := Queued,
                assignments := ReplaceById(run.assignments, closed),
                current := None,
                version := run.version + 1))
  }

  /** Expiry takes effect at the frozen time-to-live boundary, however late it is observed. */
  function Expire(run: Run, id: Id, key: Id, observedAt: Time, expectedVersion: nat): Result<Run> {
    var existing := FindLast(run.assignments, id);
    var effectiveAt := if existing.Some? && existing.value.expiresAt < observedAt then existing.value.expiresAt
                       else observedAt;
    ClosePrecommit(run, Closure(id, key, Expired, effectiveAt, observedAt, None, None), expectedVersion)
  }

  function Release(run: Run, id: Id, worker: WorkerRef, key: Id, observedAt: Time, expectedVersion: nat): Result<Run> {
    ClosePrecommit(run, Closure(id, key, Released, observedAt, observedAt, Some(worker), None), expectedVersion)
  }

  /** A current pointer always designates the latest assignment. */
  lemma CurrentIsLast(run: Run)
    requires ValidHistory(run) && run.current.Some?
    ensures run.CurrentAssignment() == Some(run.assignments[|run.assignments| - 1])
  {
  }
}
