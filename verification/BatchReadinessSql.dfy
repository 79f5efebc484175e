/** Entering Batch finalization: the candidate readiness snapshot, the checks of
    each read statement against the tables, and the publication of the
    write-once readiness fact. */
module BatchReadinessSql {
  import opened Common
  import opened Ordering
  import opened RunAggregate
  import opened RunTables
  import opened AssignmentSql
  import opened RunFinalizationSql
  import opened BatchTables
  import opened BatchRebuild

  datatype RunClosure = RunClosure(basis: RunBasis, entries: seq<ResolutionEntry>, handoff: Handoff)

  datatype ReadinessSnapshot = ReadinessSnapshot(
    batchId: Id,
    sourceVersion: nat,
    manifest: Manifest,
    plan: Plan,
    policy: Policy,
    runIds: seq<Id>,
    intent: Option<Digest>,
    closures: seq<RunClosure>,
    retries: seq<Id>,
    opportunities: seq<Opportunity>)

  datatype ReadinessAuthority = ReadinessAuthority(snapshot: ReadinessSnapshot, digest: Digest, writeEpoch: nat)

  predicate StrictlyIncreasing(ids: seq<Id>) {
    forall i, j :: 0 <= i < j < |ids| ==> ids[i] < ids[j]
  }

  /** The shards of an approved plan own every manifest item exactly once. */
  predicate OwnsManifest(plan: Plan, manifest: Manifest) {
    && (forall k :: k in manifest.items ==> exists r :: r in plan.shards && k in plan.shards[r])
    && (forall r :: r in plan.shards ==> forall k :: k in plan.shards[r] ==> k in manifest.items)
    && (forall r, q, k :: r in plan.shards && q in plan.shards && k in plan.shards[r] && k in plan.shards[q] ==> r == q)
  }

  /** Every Run has a seat, and no two have the same shard. */
  predicate SeatsOnce(plan: Plan) {
    && plan.seats.Keys == plan.shards.Keys
    && forall r, q :: r in plan.seats && q in plan.seats && plan.seats[r].shard == plan.seats[q].shard ==> r == q
  }

  predicate ClosureOf(c: RunClosure, id: Id, s: ReadinessSnapshot) {
    && c.basis.runId == id && c.basis.batchId == s.batchId
    && c.basis.itemSet == EntrySetDigest(id, c.basis.sourceVersion, c.entries)
    && c.basis.frame.manifest == s.manifest.digest && c.basis.frame.plan == s.plan.digest
    && ValidEntries(c.entries)
    && c.handoff.basis == c.basis && c.handoff.entries == c.entries
    && id in s.plan.shards && ItemKeys(c.entries) == s.plan.shards[id]
  }

  /** What constructing a readiness snapshot checks. */
  predicate ValidReadiness(s: ReadinessSnapshot) {
    && |s.runIds| > 0 && StrictlyIncreasing(s.runIds)
    && s.plan.shards.Keys == (set i | i in s.runIds)
    && SoundManifest(s.manifest) && OwnsManifest(s.plan, s.manifest) && SeatsOnce(s.plan)
    && |s.closures| == |s.runIds|
    && forall i :: 0 <= i < |s.closures| ==> ClosureOf(s.closures[i], s.runIds[i], s)
  }

  predicate IsReady(s: ReadinessSnapshot) { s.retries == [] && s.opportunities == [] }

  function BasesOf(closures: seq<RunClosure>): (r: seq<BasisDigest>)
    ensures |r| == |closures| && forall i :: 0 <= i < |closures| ==> r[i] == BasisDigest(closures[i].basis)
  {
    seq(|closures|, i requires 0 <= i < |closures| => BasisDigest(closures[i].basis))
  }

  function PayloadOf(s: ReadinessSnapshot): ReadinessPayload {
    ReadinessPayload(s.batchId, s.sourceVersion, s.manifest.id, s.manifest.digest, s.manifest.itemCount, s.plan.id,
                     s.plan.version, s.plan.digest, s.runIds, PolicyDigest(s.policy), s.intent, BasesOf(s.closures),
                     s.retries, s.opportunities)
  }

  // ----- The read statements ----------------------------------------------

  /** Manifest, plan, policy and intent rows, which nothing changes any more. */
  predicate SourceMatches(s: ReadinessSnapshot, source: BatchSource) {
    && source.manifest == Some(s.manifest) && s.manifest.approved
    && source.plan == Some(s.plan) && s.plan.approved
    && FindPolicy(source, s.policy.id, s.policy.version, s.policy.suite) == Some(s.policy)
    && (if s.intent.None? then source.intents == []
        else
          && |source.intents| == 1 && source.intents[0].digest == s.intent.value
          && SoundIntent(source.intents[0], s.manifest, s.plan, RunSetDigest(s.batchId, s.runIds)))
  }

  function RunsOf(runs: map<Id, RunRows>, batchId: Id): set<Id> {
    set r | r in runs && runs[r].batchId == batchId
  }

  predicate RunRowMatches(rows: RunRows, c: RunClosure) {
    && rows.row.phase == ClosedPhase
    && rows.row.disposition == Some(ClosedNoRetry)
    && rows.row.outcome == Some(c.basis.outcome)
    && rows.row.version == c.basis.sourceVersion + 1
    && rows.place.items == c.basis.frame.items
    && rows.row.basisDigest == Some(BasisDigest(c.basis))
    && rows.basis == Some(c.basis)
  }

  predicate SeatMatches(rows: RunRows, plan: Plan, id: Id) {
    rows.place.planId == plan.id && id in plan.seats && rows.place.seat == plan.seats[id]
  }

  /** The Run query: the Batch's Runs are exactly the candidate's, all closed as
      the candidate says. */
  predicate RunsMatch(s: ReadinessSnapshot, runs: map<Id, RunRows>) {
    && (set i | i in s.runIds) == RunsOf(runs, s.batchId)
    && |s.closures| == |s.runIds|
    && (forall i :: 0 <= i < |s.runIds| ==> s.runIds[i] in runs && RunRowMatches(runs[s.runIds[i]], s.closures[i]))
    && forall i :: 0 <= i < |s.runIds| ==> SeatMatches(runs[s.runIds[i]], s.plan, s.runIds[i])
  }

  /** The resolution and handoff queries of one Run. */
  predicate DetailMatches(rows: RunRows, c: RunClosure) {
    && |rows.resolutions| == |c.entries|
    && (forall i :: 0 <= i < |c.entries| ==>
          && c.entries[i].item in rows.resolutions
          && var r := rows.resolutions[c.entries[i].item];
             && r.sourceVersion == c.basis.sourceVersion && r.entryDigest == EntryDigest(c.entries[i])
             && r.classification == c.entries[i].classification && r.payload == c.entries[i])
    && |rows.handoffs| > 0 && rows.handoffs[0] == c.handoff
  }

  function OpportunityRanks(runs: map<Id, RunRows>, batchId: Id): set<Rank> {
    set r, a | r in RunsOf(runs, batchId) && a in runs[r].assignments && IsPrecommit(runs[r].assignments[a].state)
      :: Rank(r, a)
  }

  function KindJson(k: OpportunityKind): Json {
    JNat(if k == InitialCommit then 0 else 1)
  }

  predicate OpportunityMatches(found: Rank, o: Opportunity, runs: map<Id, RunRows>) {
    && found.major == o.runId && found.major in runs && found.minor in runs[found.major].assignments
    && var r := runs[found.major].assignments[found.minor];
       && r.attemptId.None? && r.fence.None?
       && Lookup(r.payload, OpportunityKindField) == Some(KindJson(o.kind))
       && Lookup(r.payload, AuthorityDigestField) == Some(JDigest(o.authority))
  }

  /** The opportunity query: every offered or claimed row of the Batch, in order,
      must be described by its payload the way the candidate describes it. */
  predicate OpportunitiesMatch(s: ReadinessSnapshot, runs: map<Id, RunRows>) {
    var rows := Ascending(OpportunityRanks(runs, s.batchId));
    && |rows| == |s.opportunities|
    && forall i :: 0 <= i < |rows| ==> OpportunityMatches(rows[i], s.opportunities[i], runs)
  }

  // ----- Authority, replay and publication --------------------------------

  function JoinedFact(row: BatchRow, facts: seq<ReadinessFact>): (r: Option<ReadinessFact>)
    ensures r.Some? ==> r.value in facts && row.readinessRef == Some(r.value.ref)
    ensures r.None? && row.readinessRef.Some? ==> forall f :: f in facts ==> f.ref != row.readinessRef.value
  {
    if |facts| == 0 then None
    else if row.readinessRef == Some(facts[0].ref) then Some(facts[0])
    else JoinedFact(row, facts[1..])
  }

  predicate StoredBinding(row: BatchRow, f: ReadinessFact, a: ReadinessAuthority) {
    && row.state == FinalizingBatch
    && row.version == a.snapshot.sourceVersion + 1
    && f.sourceVersion == a.snapshot.sourceVersion
    && f.ref == ReadinessDigest(PayloadOf(a.snapshot))
    && f.authority == a.digest && f.writeEpoch == a.writeEpoch
    && f.payload == PayloadOf(a.snapshot)
  }

  /** The lock statement: `joined` is the fact its LEFT JOIN saw. */
  predicate ReadinessLockPasses(row: BatchRow, joined: Option<ReadinessFact>, a: ReadinessAuthority) {
    && row.writeEpoch == a.writeEpoch
    && (if joined.None? then row.state == RunningBatch && row.version == a.snapshot.sourceVersion
        else StoredBinding(row, joined.value, a))
  }

  predicate SoundStoredFact(row: BatchRow, f: ReadinessFact) {
    && row.readinessRef == Some(f.ref)
    && f.batchVersion == f.sourceVersion + 1
    && row.state == FinalizingBatch
    && row.version == f.batchVersion
    && f.ref == ReadinessDigest(f.payload)
  }

  /** Replay of the stored fact, if there is one: same source and content. */
  function ReplayReadiness(rows: BatchRows, a: ReadinessAuthority): Result<Option<ReadinessFact>> {
    if |rows.facts| == 0 then Ok(None)
    else
      var f := rows.facts[0];
      :- Need(SoundStoredFact(rows.row, f), AuthorityStateConflict);
      :- Need(f.sourceVersion == a.snapshot.sourceVersion && f.ref == ReadinessDigest(PayloadOf(a.snapshot)),
              IdempotencyConflict);
      Ok(Some(f))
  }

  function FactOf(a: ReadinessAuthority): ReadinessFact {
    ReadinessFact(ReadinessDigest(PayloadOf(a.snapshot)), a.snapshot.sourceVersion, a.snapshot.sourceVersion + 1,
                  a.digest, a.writeEpoch, PayloadOf(a.snapshot))
  }

  /** The writes, after the sources were read again. */
  function WriteReadiness(rows: BatchRows, a: ReadinessAuthority): Result<BatchRows> {
    var f := FactOf(a);
    :- Need(forall g :: g in rows.facts ==> g.ref != f.ref && g.sourceVersion != f.sourceVersion, ConstraintViolation);
    :- Need(rows.row.state == RunningBatch && rows.row.version == a.snapshot.sourceVersion
            && rows.row.writeEpoch == a.writeEpoch && rows.row.readinessRef.None?, VersionConflict);
    Ok(rows.(facts := rows.facts + [f],
             row := rows.row.(state := FinalizingBatch, version := rows.row.version + 1, readinessRef := Some(f.ref)),
             events := rows.events + [FinalizationStarted(f.ref, a.writeEpoch)]))
  }
}
