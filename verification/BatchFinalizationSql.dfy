/** Closing a Batch: the authority checks against the readiness fact, the
    comparison of the rebuilt snapshot with the candidate, and the publication
    of the write-once basis. */
module BatchFinalizationSql {
  import opened Common
  import opened Ordering
  import opened RunTables
  import opened BatchTables
  import opened BatchOutcome
  import opened BatchRebuild
  import opened RunFinalizationSql
  import opened BatchReadinessSql

  datatype BatchAuthority = BatchAuthority(basis: BatchBasis, digest: Digest, writeEpoch: nat)

  // ----- What constructing a basis checks ---------------------------------

  /** The resolution a Batch takes over from an entry of a Run's resolution set. */
  function Derived(ref: TerminalRef, e: ResolutionEntry): BatchItem {
    BatchItem(e.item, FromRun(ref.runId, ref.sourceVersion, ref.basis, ref.itemSet, EntryDigest(e)), e.classification)
  }

  function RefIds(refs: seq<TerminalRef>): (ids: seq<Id>)
    ensures |ids| == |refs| && forall i :: 0 <= i < |refs| ==> ids[i] == refs[i].runId
  {
    seq(|refs|, i requires 0 <= i < |refs| => refs[i].runId)
  }

  function BatchItemKeys(entries: seq<BatchItem>): (keys: seq<ItemKey>)
    ensures |keys| == |entries| && forall i :: 0 <= i < |entries| ==> keys[i] == entries[i].item
  {
    seq(|entries|, i requires 0 <= i < |entries| => entries[i].item)
  }

  /** A reference is taken from a Run basis of the same Batch, manifest and plan,
      whose outcome is that of its resolution set. */
  predicate RefOfRun(ref: TerminalRef, v: Envelope) {
    var b := ref.basis.preimage;
    && b.runId == ref.runId && b.batchId == v.batchId && b.sourceVersion == ref.sourceVersion
    && b.outcome == ref.outcome && b.itemSet == ref.itemSet
    && b.frame.manifest == v.manifestDigest && b.frame.plan == v.planDigest
    && b.itemSet.runId == b.runId && b.itemSet.sourceVersion == b.sourceVersion
    && ValidEntries(b.itemSet.preimage) && b.outcome == AuditOutcome(b.itemSet.preimage)
  }

  predicate RefsFit(s: SourceSnapshot) {
    && SortedBy(s.terminalRefs, TerminalKey)
    && s.envelope.runSet == RunSetDigest(s.envelope.batchId, RefIds(s.terminalRefs))
    && forall r :: r in s.terminalRefs ==> RefOfRun(r, s.envelope)
  }

  /** The resolutions from Runs are exactly those the Runs' resolution sets give. */
  predicate ItemsFit(entries: seq<BatchItem>, refs: seq<TerminalRef>) {
    && (forall i :: 0 <= i < |entries| ==> (entries[i].source.FromScope? <==> entries[i].classification == NotExecutedItem))
    && (forall i :: 0 <= i < |entries| && entries[i].source.FromRun? ==>
          exists r, e :: r in refs && e in r.itemSet.preimage && entries[i] == Derived(r, e))
    && (forall r, e :: r in refs && e in r.itemSet.preimage ==> Derived(r, e) in entries)
  }

  function UnknownRefOf(e: ResolutionEntry): UnknownRef
    requires e.unknownLineage.Some? && e.adjudication.Some?
  {
    UnknownRef(e.item, EntryDigest(e), e.unknownLineage.value, e.adjudication.value)
  }

  predicate IsUnknown(u: UnknownRef, e: ResolutionEntry) {
    e.unknownLineage.Some? && e.adjudication.Some? && u == UnknownRefOf(e)
  }

  predicate UnknownsFit(s: SourceSnapshot) {
    && SortedBy(s.unknownRefs, UnknownKey)
    && (forall u :: u in s.unknownRefs ==> exists r, e :: r in s.terminalRefs && e in r.itemSet.preimage && IsUnknown(u, e))
    && (forall r, e :: r in s.terminalRefs && e in r.itemSet.preimage && e.unknownLineage.Some? && e.adjudication.Some? ==>
          UnknownRefOf(e) in s.unknownRefs)
  }

  predicate NonRunsFit(s: SourceSnapshot, entries: seq<BatchItem>) {
    && SortedBy(s.nonRunRefs, NonRunKey)
    && (forall n :: n in s.nonRunRefs ==> exists i :: 0 <= i < |entries| && entries[i].source.FromScope?
                                                  && n == NonRunRef(entries[i].item, entries[i].source.fact))
    && (forall i :: 0 <= i < |entries| && entries[i].source.FromScope? ==>
          NonRunRef(entries[i].item, entries[i].source.fact) in s.nonRunRefs)
  }

  /** Counts, policy and intent give the outcome; all else is derived from the Runs. */
  predicate ValidBasis(b: BatchBasis) {
    && b.snapshot.resolutionSet == ResolutionSetDigest(b.snapshot.envelope, b.entries)
    && b.snapshot.itemCount == |b.entries| > 0
    && IsAscending(BatchItemKeys(b.entries)) && CoherentSources(b.entries)
    && b.snapshot.proof == ProofDigest(b.snapshot.resolutionSet, b.snapshot.terminalRefs, b.snapshot.unknownRefs)
    && Evaluate(CountsOf(b.entries), b.snapshot.policy, b.snapshot.intent) == Ok(b.outcome)
    && RefsFit(b.snapshot) && ItemsFit(b.entries, b.snapshot.terminalRefs)
    && UnknownsFit(b.snapshot) && NonRunsFit(b.snapshot, b.entries)
  }

  /** The outcome of a basis is an execution terminal. */
  lemma OutcomeIsTerminal(b: BatchBasis)
    requires ValidBasis(b)
    ensures IsExecutionTerminal(b.outcome)
  {
    hide CountsOf, CoherentSources, RefsFit, ItemsFit, UnknownsFit, NonRunsFit;
  }

  // ----- Authority, replay and publication --------------------------------

  function TerminalBases(refs: seq<TerminalRef>): (r: seq<BasisDigest>)
    ensures |r| == |refs| && forall i :: 0 <= i < |refs| ==> r[i] == refs[i].basis
  {
    seq(|refs|, i requires 0 <= i < |refs| => refs[i].basis)
  }

  /** The candidate is the one the joined readiness fact allows. */
  predicate ReadinessBinding(row: BatchRow, joined: Option<ReadinessFact>, e: SourceSnapshot) {
    && row.readinessRef.Some? && joined.Some?
    && e.envelope.sourceVersion >= 1
    && var p := joined.value.payload;
       && joined.value.sourceVersion == e.envelope.sourceVersion - 1
       && joined.value.batchVersion == e.envelope.sourceVersion
       && RunSetDigest(p.batchId, p.runIds) == e.envelope.runSet
       && p.batchId == e.envelope.batchId
       && p.sourceVersion == e.envelope.sourceVersion - 1
       && p.manifestId == e.envelope.manifestId && p.manifestDigest == e.envelope.manifestDigest
       && p.itemCount == e.itemCount
       && p.planId == e.envelope.planId && p.planVersion == e.envelope.planVersion
       && p.planDigest == e.envelope.planDigest
       && p.policyDigest == PolicyDigest(e.policy)
       && p.intent == e.intent
       && p.runBases == TerminalBases(e.terminalRefs)
       && p.retries == [] && p.opportunities == []
       && row.readinessRef.value == ReadinessDigest(p)
  }

  /** The lock statement, the fresh basis query after it, and the binding. */
  predicate FinalizerLockPasses(rows: BatchRows, joined: Option<ReadinessFact>, a: BatchAuthority) {
    var row, e := rows.row, a.basis.snapshot;
    && row.writeEpoch == a.writeEpoch
    && (if rows.basis.None? then row.state == FinalizingBatch && row.version == e.envelope.sourceVersion
        else
          var stored := rows.basis.value;
          && stored.basis.snapshot.envelope.sourceVersion == e.envelope.sourceVersion
          && row.version == e.envelope.sourceVersion + 1
          && row.state == stored.basis.outcome && IsExecutionTerminal(row.state)
          && stored.readinessRef == row.readinessRef)
    && ReadinessBinding(row, joined, e)
  }

  predicate SoundStoredBasis(rows: BatchRows, stored: BatchBasisRow) {
    && stored.readinessRef == rows.row.readinessRef
    && rows.row.state == stored.basis.outcome
    && rows.row.version == stored.basis.snapshot.envelope.sourceVersion + 1
  }

  function ReplayFinalization(rows: BatchRows, a: BatchAuthority): Result<Option<BatchBasis>> {
    if rows.basis.None? then Ok(None)
    else
      var stored := rows.basis.value;
      :- Need(SoundStoredBasis(rows, stored), AuthorityStateConflict);
      :- Need(stored.basis == a.basis, IdempotencyConflict);
      Ok(Some(stored.basis))
  }

  function ItemMap(entries: seq<BatchItem>): map<ItemKey, BatchItem> {
    if |entries| == 0 then map[]
    else ItemMap(entries[..|entries| - 1])[entries[|entries| - 1].item := entries[|entries| - 1]]
  }

  function WriteFinalization(rows: BatchRows, a: BatchAuthority): Result<BatchRows> {
    var b := a.basis;
    :- Need(rows.items == map[] && rows.basis.None? && |b.entries| > 0
            && (forall i, j :: 0 <= i < j < |b.entries| ==> b.entries[i].item != b.entries[j].item),
            ConstraintViolation);
    :- Need(rows.row.state == FinalizingBatch && rows.row.version == b.snapshot.envelope.sourceVersion
            && rows.row.writeEpoch == a.writeEpoch, VersionConflict);
    Ok(rows.(items := ItemMap(b.entries),
             basis := Some(BatchBasisRow(b, rows.row.readinessRef)),
             row := rows.row.(state := b.outcome, version := rows.row.version + 1),
             events := rows.events + [Finalized(BatchBasisDigest(b), a.writeEpoch)]))
  }

  // ----- The two cross-aggregate queries ----------------------------------

  function RunInputOf(id: Id, rows: RunRows): RunInput {
    RunInput(id, rows.row.phase, rows.row.outcome, rows.row.basisDigest, rows.basis)
  }

  function RunRanks(runs: map<Id, RunRows>, batchId: Id): set<Rank> {
    set r | r in RunsOf(runs, batchId) :: RunRank(r)
  }

  /** The ids of the Batch's Runs, in order. */
  function RunIdList(runs: map<Id, RunRows>, batchId: Id): (ids: seq<Id>)
    ensures forall i :: 0 <= i < |ids| ==> ids[i] in RunsOf(runs, batchId)
  {
    var ranks := Ascending(RunRanks(runs, batchId));
    AscendingLists(RunRanks(runs, batchId));
    assert forall i :: 0 <= i < |ranks| ==> ranks[i] in RunRanks(runs, batchId);
    seq(|ranks|, i requires 0 <= i < |ranks| => ranks[i].major as Id)
  }

  /** The Run query, `ORDER BY run.id`, over the rows as one statement sees them. */
  function RunQuery(runs: map<Id, RunRows>, batchId: Id): seq<RunInput> {
    var ids := RunIdList(runs, batchId);
    seq(|ids|, i requires 0 <= i < |ids| => RunInputOf(ids[i], runs[ids[i]]))
  }

  function ResolutionsOf(id: Id, rows: RunRows): seq<ResolutionInput> {
    var keys := Ascending(rows.resolutions.Keys);
    AscendingLists(rows.resolutions.Keys);
    seq(|keys|, i requires 0 <= i < |keys| =>
      assert keys[i] in keys;
      ResolutionInput(id, keys[i], rows.resolutions[keys[i]]))
  }

  /** The Run resolution query. The listing is by Run and then by item; which
      listing is taken does not matter to the rebuild. */
  function ListResolutions(runs: map<Id, RunRows>, ids: seq<Id>): seq<ResolutionInput>
    requires forall i :: 0 <= i < |ids| ==> ids[i] in runs
  {
    if |ids| == 0 then []
    else ListResolutions(runs, ids[..|ids| - 1]) + ResolutionsOf(ids[|ids| - 1], runs[ids[|ids| - 1]])
  }

  function ResolutionQuery(runs: map<Id, RunRows>, batchId: Id): seq<ResolutionInput> {
    ListResolutions(runs, RunIdList(runs, batchId))
  }
}
