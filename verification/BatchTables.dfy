/** The rows of one Batch: its state row, the frozen plan it finalizes against,
    and the write-once readiness fact and finalization basis. */
module BatchTables {
  import opened Common
  import opened Ordering
  import opened RunTables

  datatype BatchState =
    | DraftBatch
    | ValidatingBatch
    | CollectingBatch
    | PlanningBatch
    | AwaitingAdmissionBatch
    | QueuedBatch
    | RunningBatch
    | FinalizingBatch
    | SucceededBatch
    | FailedBatch
    | PartialBatch
    | CancelledBatch
    | RejectedBatch

  predicate IsExecutionTerminal(s: BatchState) {
    s == SucceededBatch || s == FailedBatch || s == PartialBatch || s == CancelledBatch
  }

  // ----- Frozen sources ----------------------------------------------------

  datatype Manifest = Manifest(id: Id, digest: Digest, itemCount: nat, approved: bool, items: seq<ItemKey>)

  /** A manifest numbers its items from zero on. */
  predicate SoundManifest(m: Manifest) {
    && m.itemCount == |m.items| && |m.items| > 0
    && forall i :: 0 <= i < |m.items| ==> m.items[i] == Rank(m.id, i)
  }

  /** The bound plan assigns every materialized Run its seat and the items of its shard. */
  datatype Plan = Plan(
    id: Id,
    digest: Digest,
    version: nat,
    approved: bool,
    shards: map<Id, seq<ItemKey>>,
    seats: map<Id, Seat>)

  datatype Policy = Policy(
    id: Id,
    version: nat,
    suite: Id,
    maxTestFailed: nat,
    retryPass: bool,
    selector: Option<Digest>,
    mapping: Digest)

  datatype PolicyDigest = PolicyDigest(preimage: Policy)

  datatype PolicyKey = PolicyKey(id: Id, version: nat)

  /** The digest of a materialized Run set lists its ids in order. */
  datatype RunSetDigest = RunSetDigest(batchId: Id, runIds: seq<Id>)

  datatype IntentRow = IntentRow(
    digest: Digest,
    frozenPlan: bool,
    manifestDigest: Digest,
    planVersion: nat,
    planDigest: Digest,
    runSet: RunSetDigest)

  datatype ScopeKind = NotExecuted | RunFanout(runId: Id, sourceVersion: nat)

  datatype ScopeItem = ScopeItem(
    batchId: Id,
    intent: Digest,
    item: ItemKey,
    manifestDigest: Digest,
    planVersion: nat,
    planDigest: Digest,
    kind: ScopeKind,
    recordedAt: Time)

  datatype ScopeDigest = ScopeDigest(preimage: ScopeItem)

  datatype ScopeRow = ScopeRow(
    batchId: Id,
    intent: Digest,
    item: ItemKey,
    kind: ScopeKind,
    recordedAt: Time,
    digest: ScopeDigest,
    payload: ScopeItem)

  /** The policies are all there are, of any suite; `suite` is the Batch's own. */
  datatype BatchSource = BatchSource(
    manifest: Option<Manifest>,
    plan: Option<Plan>,
    suite: Id,
    policies: map<PolicyKey, Policy>,
    intents: seq<IntentRow>,
    scope: seq<ScopeRow>)

  /** The policy row with this key, if it belongs to the suite. */
  function FindPolicy(source: BatchSource, id: Id, version: nat, suite: Id): (p: Option<Policy>)
    ensures p.Some? ==> p.value.id == id && p.value.version == version && p.value.suite == suite
  {
    var key := PolicyKey(id, version);
    if key !in source.policies then None
    else
      var p := source.policies[key];
      if p.id == id && p.version == version && p.suite == suite then Some(p) else None
  }

  // ----- Readiness ---------------------------------------------------------

  datatype OpportunityKind = InitialCommit | RetryCommit

  datatype Opportunity = Opportunity(runId: Id, kind: OpportunityKind, authority: Digest)

  datatype ReadinessPayload = ReadinessPayload(
    batchId: Id,
    sourceVersion: nat,
    manifestId: Id,
    manifestDigest: Digest,
    itemCount: nat,
    planId: Id,
    planVersion: nat,
    planDigest: Digest,
    runIds: seq<Id>,
    policyDigest: PolicyDigest,
    intent: Option<Digest>,
    runBases: seq<BasisDigest>,
    retries: seq<Id>,
    opportunities: seq<Opportunity>)

  datatype ReadinessDigest = ReadinessDigest(preimage: ReadinessPayload)

  datatype ReadinessFact = ReadinessFact(
    ref: ReadinessDigest,
    sourceVersion: nat,
    batchVersion: nat,
    authority: Digest,
    writeEpoch: nat,
    payload: ReadinessPayload)

  // ----- Finalization ------------------------------------------------------

  datatype TerminalRef = TerminalRef(
    runId: Id,
    sourceVersion: nat,
    basis: BasisDigest,
    outcome: RunOutcome,
    itemSet: EntrySetDigest)

  datatype ItemSource =
    | FromRun(runId: Id, sourceVersion: nat, basis: BasisDigest, itemSet: EntrySetDigest, entry: EntryDigest)
    | FromScope(fact: ScopeDigest)

  datatype BatchItem = BatchItem(item: ItemKey, source: ItemSource, classification: Classification)

  datatype UnknownRef = UnknownRef(item: ItemKey, entry: EntryDigest, lineage: Digest, adjudication: Digest)

  datatype NonRunRef = NonRunRef(item: ItemKey, fact: ScopeDigest)

  /** The frozen identity a resolution set is built under. */
  datatype Envelope = Envelope(
    batchId: Id,
    sourceVersion: nat,
    manifestId: Id,
    manifestDigest: Digest,
    planId: Id,
    planVersion: nat,
    planDigest: Digest,
    runSet: RunSetDigest)

  datatype ResolutionSetDigest = ResolutionSetDigest(envelope: Envelope, entries: seq<BatchItem>)

  datatype ProofDigest = ProofDigest(
    resolutions: ResolutionSetDigest,
    terminalRefs: seq<TerminalRef>,
    unknownRefs: seq<UnknownRef>)

  datatype SourceSnapshot = SourceSnapshot(
    envelope: Envelope,
    itemCount: nat,
    policy: Policy,
    resolutionSet: ResolutionSetDigest,
    proof: ProofDigest,
    intent: Option<Digest>,
    terminalRefs: seq<TerminalRef>,
    nonRunRefs: seq<NonRunRef>,
    unknownRefs: seq<UnknownRef>)

  datatype BatchBasis = BatchBasis(snapshot: SourceSnapshot, entries: seq<BatchItem>, outcome: BatchState)

  datatype BatchBasisDigest = BatchBasisDigest(preimage: BatchBasis)

  datatype BatchBasisRow = BatchBasisRow(basis: BatchBasis, readinessRef: Option<ReadinessDigest>)

  datatype BatchEvent =
    | FinalizationStarted(readiness: ReadinessDigest, writeEpoch: nat)
    | Finalized(basis: BatchBasisDigest, writeEpoch: nat)

  datatype BatchRow = BatchRow(
    state: BatchState,
    version: nat,
    writeEpoch: nat,
    readinessRef: Option<ReadinessDigest>)

  datatype BatchRows = BatchRows(
    row: BatchRow,
    source: BatchSource,
    facts: seq<ReadinessFact>,
    basis: Option<BatchBasisRow>,
    items: map<ItemKey, BatchItem>,
    events: seq<BatchEvent>)
}
