/** The rows of one Run and the codecs between rows and the Run aggregate.
    Rows of `qep_runs`, `qep_assignments`, `qep_attempts`, the finalization
    basis, the item resolutions and the closed-Run handoff events are grouped
    by Run; primary keys become map keys. */
module RunTables {
  import opened Common
  import opened Ordering
  import opened RunAggregate

  /** A manifest item: manifest identity, then item index. */
  type ItemKey = Rank

  datatype Phase =
    | PlannedPhase
    | QueuedPhase
    | AssignedPhase
    | RunningPhase
    | RetryQueuedPhase
    | ClosedPhase

  datatype Disposition = ReviewRequired | RetryPending | ClosedNoRetry

  datatype RunOutcome = PassedRun | TestFailedRun | InfraFailedRun | CancelledRun

  datatype Classification =
    | PassedItem
    | TestFailedItem
    | InfraFailedItem
    | CancelledItem
    | UnknownLineageItem
    | NotExecutedItem

  /** How one item was resolved: its effective outcome, and how the item counts. */
  datatype ResolutionEntry = ResolutionEntry(
    item: ItemKey,
    effective: RunOutcome,
    classification: Classification,
    unknownLineage: Option<Digest>,
    adjudication: Option<Digest>)

  datatype EntryDigest = EntryDigest(preimage: ResolutionEntry)

  datatype EntrySetDigest = EntrySetDigest(runId: Id, sourceVersion: nat, preimage: seq<ResolutionEntry>)

  datatype TerminalInput =
    | PrestartCancel(closure: Digest, intent: Digest)
    | FinalAttempt(
        attemptId: Id,
        attemptVersion: nat,
        fence: nat,
        worker: WorkerRef,
        spec: Digest,
        state: AttemptState,
        evidenceRoot: Option<Digest>)

  /** The frozen manifest, plan and item set a basis is about. */
  datatype Frame = Frame(manifest: Digest, plan: Digest, items: Digest)

  datatype RunBasis = RunBasis(
    runId: Id,
    batchId: Id,
    sourceVersion: nat,
    frame: Frame,
    terminal: TerminalInput,
    itemSet: EntrySetDigest,
    outcome: RunOutcome)

  datatype BasisDigest = BasisDigest(preimage: RunBasis)

  datatype Handoff = Handoff(basis: RunBasis, entries: seq<ResolutionEntry>, writeEpoch: nat)

  datatype RunRow = RunRow(
    phase: Phase,
    disposition: Option<Disposition>,
    outcome: Option<RunOutcome>,
    fence: nat,
    attemptCount: nat,
    version: nat,
    basisDigest: Option<BasisDigest>)

  datatype AssignmentRow = AssignmentRow(
    worker: WorkerRef,
    spec: Digest,
    state: AssignmentState,
    offeredAt: Time,
    expiresAt: Time,
    claimedAt: Option<Time>,
    committedAt: Option<Time>,
    attemptId: Option<Id>,
    fence: Option<nat>,
    version: nat,
    payload: Json)

  datatype AttemptRow = AttemptRow(
    id: Id,
    runId: Id,
    attemptNo: nat,
    fence: nat,
    assignmentId: Id,
    worker: WorkerRef,
    spec: Digest,
    startKey: Id,
    state: AttemptState,
    version: nat)

  datatype ResolutionRow = ResolutionRow(
    sourceVersion: nat,
    classification: Classification,
    unknownLineage: Option<Digest>,
    entryDigest: EntryDigest,
    payload: ResolutionEntry)

  datatype Seat = Seat(shard: nat, profile: Id)

  /** Where its plan put a Run, and the digest of the items it was given. */
  datatype Place = Place(planId: Id, seat: Seat, items: Digest)

  datatype RunRows = RunRows(
    batchId: Id,
    items: set<ItemKey>,
    place: Place,
    row: RunRow,
    assignments: map<Id, AssignmentRow>,
    attempts: seq<AttemptRow>,
    basis: Option<RunBasis>,
    resolutions: map<ItemKey, ResolutionRow>,
    handoffs: seq<Handoff>)

  // ----- JSON payloads of assignment rows ---------------------------------

  datatype Field =
    | AssignmentIdField
    | WorkerIdField
    | WorkerGenerationField
    | SpecDigestField
    | StateField
    | RetryIntentIdField
    | ClosureField
    | IdempotencyKeyField
    | KindField
    | EffectiveAtField
    | RecordedAtField
    | WorkerField
    | GenerationField
    | CancelIntentField
    | OpportunityKindField
    | AuthorityDigestField

  datatype Json =
    | JNull
    | JNat(number: nat)
    | JTime(time: Time)
    | JDigest(digest: Digest)
    | JState(state: AssignmentState)
    | JKind(kind: ClosureKind)
    | JObject(fields: map<Field, Json>)

  function WorkerJson(w: Option<WorkerRef>): Json {
    match w
    case None => JNull
    case Some(r) => JObject(map[WorkerIdField := JNat(r.workerId), GenerationField := JNat(r.generation)])
  }

  function ClosureJson(c: Closure): Json {
    JObject(map[
              AssignmentIdField := JNat(c.assignmentId),
              IdempotencyKeyField := JNat(c.idempotencyKey),
              KindField := JKind(c.kind),
              EffectiveAtField := JTime(c.effectiveAt),
              RecordedAtField := JTime(c.recordedAt),
              WorkerField := WorkerJson(c.worker),
              CancelIntentField := if c.cancelIntent.None? then JNull else JDigest(c.cancelIntent.value)])
  }

  function AssignmentPayload(a: Assignment): Json {
    var base := map[
                  AssignmentIdField := JNat(a.id),
                  WorkerIdField := JNat(a.worker.workerId),
                  WorkerGenerationField := JNat(a.worker.generation),
                  SpecDigestField := JDigest(a.spec),
                  StateField := JState(a.state),
                  RetryIntentIdField := JNull];
    JObject(if a.closure.None? then base else base[ClosureField := ClosureJson(a.closure.value)])
  }

  function Lookup(j: Json, f: Field): Option<Json> {
    if j.JObject? && f in j.fields then Some(j.fields[f]) else None
  }

  function WorkerFromJson(raw: Option<Json>): Result<Option<WorkerRef>> {
    if raw.None? || !raw.value.JObject? then Ok(None)
    else
      var id, generation := Lookup(raw.value, WorkerIdField), Lookup(raw.value, GenerationField);
      :- Need(id.Some? && id.value.JNat? && generation.Some? && generation.value.JNat?, PayloadMalformed);
      Ok(Some(WorkerRef(id.value.number, generation.value.number)))
  }

  /** A payload without a closure object decodes to no closure; a closure object
      must carry every key, and the closure fact validates itself. */
  function ClosureFromJson(raw: Option<Json>): Result<Option<Closure>> {
    if raw.None? || !raw.value.JObject? then Ok(None)
    else
      var j := raw.value;
      var worker :- WorkerFromJson(Lookup(j, WorkerField));
      var id, key, kind := Lookup(j, AssignmentIdField), Lookup(j, IdempotencyKeyField), Lookup(j, KindField);
      var effective, recorded := Lookup(j, EffectiveAtField), Lookup(j, RecordedAtField);
      var intent := Lookup(j, CancelIntentField);
      :- Need(id.Some? && id.value.JNat? && key.Some? && key.value.JNat? && kind.Some? && kind.value.JKind?
              && effective.Some? && effective.value.JTime? && recorded.Some? && recorded.value.JTime?,
              PayloadMalformed);
      :- Need(intent.None? || intent.value.JNull? || intent.value.JDigest?, PayloadMalformed);
      var c := Closure(id.value.number, key.value.number, kind.value.kind, effective.value.time,
                       recorded.value.time, worker,
                       if intent.Some? && intent.value.JDigest? then Some(intent.value.digest) else None);
      :- Need(ValidClosure(c), DomainValidation);
      Ok(Some(c))
  }

  lemma ClosureRoundTrip(c: Closure)
    requires ValidClosure(c)
    ensures ClosureFromJson(Some(ClosureJson(c))) == Ok(Some(c))
  {
    var j := ClosureJson(c);
    assert Lookup(j, WorkerField) == Some(WorkerJson(c.worker));
    assert WorkerFromJson(Lookup(j, WorkerField)) == Ok(c.worker);
  }

  // ----- Row codecs --------------------------------------------------------

  function AssignmentFromRow(id: Id, r: AssignmentRow): Result<Assignment> {
    var closure :- if IsPrestartClosed(r.state) then ClosureFromJson(Lookup(r.payload, ClosureField)) else Ok(None);
    var a := Assignment(id, r.worker, r.spec, r.state, r.offeredAt, r.expiresAt, r.claimedAt, r.committedAt, closure);
    :- Need(ValidAssignment(a), DomainValidation);
    Ok(a)
  }

  function AttemptFromRow(r: AttemptRow): Attempt {
    Attempt(r.id, r.runId, r.attemptNo, r.fence, r.assignmentId, r.worker, r.spec, r.startKey, r.state, r.version)
  }

  /** A row written for an assignment reads back as that assignment, whatever
      row version and attempt binding it carries. */
  lemma AssignmentRowRoundTrip(a: Assignment, r: AssignmentRow)
    requires ValidAssignment(a)
    requires r.worker == a.worker && r.spec == a.spec && r.state == a.state
    requires r.offeredAt == a.offeredAt && r.expiresAt == a.expiresAt
    requires r.claimedAt == a.claimedAt && r.committedAt == a.committedAt
    requires r.payload == AssignmentPayload(a) || !IsPrestartClosed(a.state)
    ensures AssignmentFromRow(a.id, r) == Ok(a)
  {
    if IsPrestartClosed(a.state) {
      ClosureRoundTrip(a.closure.value);
      assert Lookup(r.payload, ClosureField) == Some(ClosureJson(a.closure.value));
    }
  }

  // ----- ORDER BY offered_at ASC, id ASC ----------------------------------

  function OfferRanks(rows: map<Id, AssignmentRow>): set<Rank> {
    set k | k in rows :: Rank(rows[k].offeredAt, k)
  }

  function InOfferOrder(rows: map<Id, AssignmentRow>): (ids: seq<Id>)
    ensures forall i :: 0 <= i < |ids| ==> ids[i] in rows
  {
    var ranks := Ascending(OfferRanks(rows));
    AscendingLists(OfferRanks(rows));
    assert forall i :: 0 <= i < |ranks| ==> ranks[i] in OfferRanks(rows);
    seq(|ranks|, i requires 0 <= i < |ranks| => ranks[i].minor as Id)
  }

  // ----- Rehydration -------------------------------------------------------

  function DecodeAll(rows: map<Id, AssignmentRow>, ids: seq<Id>): (r: Result<seq<Assignment>>)
    requires forall i :: 0 <= i < |ids| ==> ids[i] in rows
    ensures r.Ok? <==> forall i :: 0 <= i < |ids| ==> AssignmentFromRow(ids[i], rows[ids[i]]).Ok?
    ensures r.Ok? ==>
      && |r.value| == |ids|
      && forall i :: 0 <= i < |ids| ==> AssignmentFromRow(ids[i], rows[ids[i]]) == Ok(r.value[i])
  {
    if |ids| == 0 then Ok([])
    else
      var head := AssignmentFromRow(ids[0], rows[ids[0]]);
      var tail := DecodeAll(rows, ids[1..]);
      if head.Err? then
        assert AssignmentFromRow(ids[0], rows[ids[0]]).Err?;
        Err(head.error)
      else if tail.Err? then
        assert exists i :: 0 <= i < |ids[1..]| && AssignmentFromRow(ids[1..][i], rows[ids[1..][i]]).Err?;
        Err(tail.error)
      else
        assert forall i :: 0 < i < |ids| ==> ids[i] == ids[1..][i - 1];
        Ok([head.value] + tail.value)
  }

  function LastActive(assignments: seq<Assignment>): (a: Option<Assignment>)
    ensures a.Some? ==> a.value in assignments && IsPrecommit(a.value.state)
    ensures a.None? ==> forall b :: b in assignments ==> !IsPrecommit(b.state)
  {
    if |assignments| == 0 then None
    else
      var last := assignments[|assignments| - 1];
      if IsPrecommit(last.state) then Some(last) else LastActive(assignments[..|assignments| - 1])
  }

  function FirstCommitted(rows: map<Id, AssignmentRow>, ids: seq<Id>): (r: Option<Id>)
    requires forall i :: 0 <= i < |ids| ==> ids[i] in rows
    ensures r.Some? ==> r.value in ids && rows[r.value].state == Committed
    ensures r.None? ==> forall i :: 0 <= i < |ids| ==> rows[ids[i]].state != Committed
  {
    if |ids| == 0 then None
    else if rows[ids[0]].state == Committed then Some(ids[0])
    else FirstCommitted(rows, ids[1..])
  }

  function AttemptAtFence(attempts: seq<AttemptRow>, fence: nat): (r: Option<AttemptRow>)
    ensures r.Some? ==> r.value in attempts && r.value.fence == fence
    ensures r.None? ==> forall i :: 0 <= i < |attempts| ==> attempts[i].fence != fence
  {
    if |attempts| == 0 then None
    else if attempts[0].fence == fence then Some(attempts[0])
    else AttemptAtFence(attempts[1..], fence)
  }

  /** Load the Run aggregate from its locked rows. */
  function Rehydrate(id: Id, rows: RunRows): Result<Run> {
    var ids := InOfferOrder(rows.assignments);
    match rows.row.phase
    case QueuedPhase =>
      var history :- DecodeAll(rows.assignments, ids);
      Make(Run(id, Queued, rows.row.version, rows.row.fence, history, None, []))
    case AssignedPhase =>
      :- Need(|ids| > 0, PortContract);
      var history :- DecodeAll(rows.assignments, ids);
      var active := LastActive(history);
      :- Need(active.Some?, PortContract);
      Make(Run(id, Assigned, rows.row.version, rows.row.fence, history, Some(active.value.id), []))
    case RunningPhase =>
      var committed := FirstCommitted(rows.assignments, ids);
      :- Need(committed.Some?, PortContract);
      var attempt := AttemptAtFence(rows.attempts, rows.row.fence);
      :- Need(attempt.Some?, PortContract);
      var a :- AssignmentFromRow(committed.value, rows.assignments[committed.value]);
      Make(Run(id, Running, rows.row.version, rows.row.fence, [a], Some(a.id), [AttemptFromRow(attempt.value)]))
    case _ => Err(VersionConflict)
  }
}
