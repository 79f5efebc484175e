/** The Run finalization unit of work on the rows of the locked Run: authority,
    stored replay, mutation snapshot, and the atomic publication of the
    write-once basis. */
module RunFinalizationSql {
  import opened Common
  import opened Ordering
  import opened RunAggregate
  import opened RunTables

  /** The authority digest covers every field of this record. */
  datatype RunAuthority = RunAuthority(runId: Id, batchId: Id, sourceVersion: nat, fence: nat, writeEpoch: nat)

  datatype RunProjection = RunProjection(
    runId: Id,
    sourceVersion: nat,
    basisDigest: BasisDigest,
    outcome: RunOutcome)

  datatype LockedAttempt = LockedAttempt(id: Id, version: nat)

  datatype RunSnapshot = RunSnapshot(runId: Id, version: nat, attempt: Option<LockedAttempt>)

  datatype RunPublication = RunPublication(
    authority: RunAuthority,
    expected: RunSnapshot,
    basis: RunBasis,
    entries: seq<ResolutionEntry>,
    projection: RunProjection,
    handoff: Handoff)

  /** An evidence row, unique per Attempt. */
  datatype Evidence = Evidence(fence: nat, rootDigest: Digest)

  datatype RunPublished = RunPublished(rows: RunRows, projection: RunProjection, replayed: bool)

  function BasisAttempt(b: RunBasis): Option<LockedAttempt> {
    match b.terminal
    case PrestartCancel(_, _) => None
    case FinalAttempt(id, version, _, _, _, _, _) => Some(LockedAttempt(id, version))
  }

  function ItemKeys(entries: seq<ResolutionEntry>): (keys: seq<ItemKey>)
    ensures |keys| == |entries| && forall i :: 0 <= i < |entries| ==> keys[i] == entries[i].item
  {
    seq(|entries|, i requires 0 <= i < |entries| => entries[i].item)
  }

  /** An item counts by its effective outcome, unless it was unknown once. */
  function ClassOf(e: ResolutionEntry): (c: Classification)
    ensures c != NotExecutedItem
  {
    if e.unknownLineage.Some? then UnknownLineageItem
    else
      match e.effective
      case PassedRun => PassedItem
      case TestFailedRun => TestFailedItem
      case InfraFailedRun => InfraFailedItem
      case CancelledRun => CancelledItem
  }

  /** A resolution set is non-empty, its items are distinct and in order, and each
      is classified by how it was resolved. */
  predicate ValidEntries(entries: seq<ResolutionEntry>) {
    && |entries| > 0
    && IsAscending(ItemKeys(entries))
    && forall i :: 0 <= i < |entries| ==>
         && entries[i].classification == ClassOf(entries[i])
         && (entries[i].unknownLineage.Some? ==> entries[i].adjudication.Some?)
  }

  function Severity(o: RunOutcome): nat {
    match o
    case PassedRun => 0
    case CancelledRun => 1
    case TestFailedRun => 2
    case InfraFailedRun => 3
  }

  /** The most severe effective outcome. */
  function AuditOutcome(entries: seq<ResolutionEntry>): RunOutcome {
    if |entries| == 0 then PassedRun
    else
      var rest, last := AuditOutcome(entries[..|entries| - 1]), entries[|entries| - 1].effective;
      if Severity(rest) < Severity(last) then last else rest
  }

  /** No entry is more severe, and some entry is as severe. */
  lemma {:induction false} AuditOutcomeIsWorst(entries: seq<ResolutionEntry>)
    ensures forall e :: e in entries ==> Severity(e.effective) <= Severity(AuditOutcome(entries))
    ensures |entries| > 0 ==> exists e :: e in entries && e.effective == AuditOutcome(entries)
  {
    if |entries| > 0 {
      var front, last := entries[..|entries| - 1], entries[|entries| - 1];
      assert entries == front + [last];
      AuditOutcomeIsWorst(front);
      if AuditOutcome(entries) == last.effective {
        assert last in entries;
      } else {
        var e :| e in front && e.effective == AuditOutcome(front);
        assert e in entries;
      }
    }
  }

  function OutcomeOf(s: AttemptState): Option<RunOutcome> {
    match s
    case AttemptPassed => Some(PassedRun)
    case AttemptTestFailed => Some(TestFailedRun)
    case AttemptInfraFailed => Some(InfraFailedRun)
    case AttemptCancelled => Some(CancelledRun)
    case _ => None
  }

  /** What the terminal input says of the outcome: a Run cancelled before its start
      is cancelled, one with evidence has its Attempt's outcome, and an unknown
      Attempt without evidence is an infrastructure failure. */
  predicate ValidTerminal(b: RunBasis) {
    match b.terminal
    case PrestartCancel(_, _) => b.outcome == CancelledRun
    case FinalAttempt(_, _, _, _, _, state, root) =>
      if state == AttemptUnknown then root.None? ==> b.outcome == InfraFailedRun
      else root.Some? && OutcomeOf(state) == Some(b.outcome)
  }

  /** The command binds the basis to its resolution set, whose most severe outcome
      is the outcome of the basis. */
  predicate ValidCommand(b: RunBasis, entries: seq<ResolutionEntry>, expectedAttemptVersion: Option<nat>) {
    && ValidTerminal(b) && ValidEntries(entries)
    && b.itemSet == EntrySetDigest(b.runId, b.sourceVersion, entries)
    && b.outcome == AuditOutcome(entries)
    && (BasisAttempt(b).None? <==> expectedAttemptVersion.None?)
  }

  /** What constructing a publication checks about its parts. */
  predicate ValidPublication(p: RunPublication) {
    && p.authority.writeEpoch >= 1
    && p.authority.runId == p.projection.runId == p.expected.runId == p.basis.runId
    && p.authority.sourceVersion == p.projection.sourceVersion == p.expected.version == p.basis.sourceVersion
    && p.expected.attempt == BasisAttempt(p.basis)
    && p.basis.batchId == p.authority.batchId && ValidTerminal(p.basis)
    && p.projection.basisDigest == BasisDigest(p.basis)
    && p.projection.outcome == p.basis.outcome
    && p.basis.itemSet == EntrySetDigest(p.basis.runId, p.basis.sourceVersion, p.entries)
    && ValidEntries(p.entries) && p.basis.outcome == AuditOutcome(p.entries)
    && p.handoff == Handoff(p.basis, p.entries, p.authority.writeEpoch)
  }

  function RequireAuthority(id: Id, rows: RunRows, writeEpoch: nat): Result<RunAuthority> {
    if writeEpoch < 1 then Err(AuthorityStateConflict)
    else if (rows.row.phase == ClosedPhase) != rows.basis.Some? then Err(AuthorityStateConflict)
    else
      var source := if rows.basis.Some? then rows.basis.value.sourceVersion else rows.row.version;
      Ok(RunAuthority(id, rows.batchId, source, rows.row.fence, writeEpoch))
  }

  function LookupStored(id: Id, rows: RunRows, sourceVersion: nat): Result<Option<RunProjection>> {
    if rows.basis.None? || rows.basis.value.sourceVersion != sourceVersion then Ok(None)
    else if rows.row.phase != ClosedPhase || rows.row.disposition != Some(ClosedNoRetry) || rows.row.outcome.None? then
      Err(PortContract)
    else Ok(Some(RunProjection(id, sourceVersion, BasisDigest(rows.basis.value), rows.row.outcome.value)))
  }

  function BoundAttemptIndex(rows: RunRows, i: nat): (r: Option<nat>)
    requires i <= |rows.attempts|
    decreases |rows.attempts| - i
    ensures r.Some? ==> i <= r.value < |rows.attempts|
    ensures r.Some? ==>
      var t := rows.attempts[r.value];
      t.fence == rows.row.fence && t.assignmentId in rows.assignments
      && rows.assignments[t.assignmentId].attemptId == Some(t.id)
  {
    if i == |rows.attempts| then None
    else
      var t := rows.attempts[i];
      if t.fence == rows.row.fence && t.assignmentId in rows.assignments
         && rows.assignments[t.assignmentId].attemptId == Some(t.id) then Some(i)
      else BoundAttemptIndex(rows, i + 1)
  }

  /** The locked Run version and the Attempt at the current fence that the
      assignment side also names. */
  function MutationSnapshot(id: Id, rows: RunRows): RunSnapshot {
    var found := BoundAttemptIndex(rows, 0);
    RunSnapshot(id, rows.row.version,
                if found.None? then None
                else Some(LockedAttempt(rows.attempts[found.value].id, rows.attempts[found.value].version)))
  }

  predicate MatchesFinalAttempt(t: AttemptRow, id: Id, terminal: TerminalInput)
    requires terminal.FinalAttempt?
  {
    t.id == terminal.attemptId && t.runId == id && t.version == terminal.attemptVersion && t.fence == terminal.fence
  }

  predicate VerifiedInput(id: Id, rows: RunRows, b: RunBasis, evidence: map<Id, Evidence>) {
    match b.terminal
    case PrestartCancel(_, _) => true
    case FinalAttempt(attemptId, _, _, worker, spec, _, root) =>
      && root.Some?
      && (exists t :: t in rows.attempts && MatchesFinalAttempt(t, id, b.terminal) && t.worker == worker && t.spec == spec)
      && attemptId in evidence
      && evidence[attemptId] == Evidence(b.terminal.fence, root.value)
  }

  function RowOfEntry(e: ResolutionEntry, sourceVersion: nat): ResolutionRow {
    ResolutionRow(sourceVersion, e.classification, e.unknownLineage, EntryDigest(e), e)
  }

  function ResolutionMap(entries: seq<ResolutionEntry>, sourceVersion: nat): map<ItemKey, ResolutionRow> {
    if |entries| == 0 then map[]
    else
      var last := entries[|entries| - 1];
      ResolutionMap(entries[..|entries| - 1], sourceVersion)
        [last.item := RowOfEntry(last, sourceVersion)]
  }

  function FinishAttempt(attempts: seq<AttemptRow>, id: Id, terminal: TerminalInput): (r: seq<AttemptRow>)
    requires terminal.FinalAttempt?
    ensures |r| == |attempts|
  {
    seq(|attempts|, i requires 0 <= i < |attempts| =>
      var t := attempts[i];
      if MatchesFinalAttempt(t, id, terminal) then t.(state := terminal.state, version := t.version + 1) else t)
  }

  /** Publish the basis, or replay the stored one when it is the same. */
  function FinalizeRows(rows: RunRows, authority: Option<RunAuthority>, snapshot: Option<RunSnapshot>,
                        p: RunPublication, evidence: map<Id, Evidence>): Result<RunPublished>
  {
    if authority.None? || authority.value.runId != p.projection.runId then Err(PortContract)
    else if authority.value != p.authority then Err(AuthorityStateConflict)
    else if rows.basis.Some? then
      var stored := rows.basis.value;
      :- Need(stored.sourceVersion == p.authority.sourceVersion && stored == p.basis, IdempotencyConflict);
      var projection :- LookupStored(p.projection.runId, rows, p.authority.sourceVersion);
      :- Need(projection.Some?, PortContract);
      Ok(RunPublished(rows, projection.value, true))
    else
      var b := p.basis;
      :- Need(snapshot == Some(p.expected), VersionConflict);
      :- Need(VerifiedInput(b.runId, rows, b, evidence), AuthorityStateConflict);
      :- Need(forall e :: e in p.entries ==> e.item in rows.items && e.item !in rows.resolutions, ConstraintViolation);
      :- Need(b.batchId == rows.batchId && (b.terminal.FinalAttempt? ==> b.terminal.fence > 0), ConstraintViolation);
      :- Need(rows.row.version == p.expected.version && rows.batchId == p.authority.batchId, VersionConflict);
      Ok(RunPublished(
           rows.(resolutions := rows.resolutions + ResolutionMap(p.entries, b.sourceVersion),
                 basis := Some(b),
                 attempts := if b.terminal.FinalAttempt? then FinishAttempt(rows.attempts, b.runId, b.terminal)
                             else rows.attempts,
                 row := rows.row.(phase := ClosedPhase, disposition := Some(ClosedNoRetry),
                                  outcome := Some(p.projection.outcome), basisDigest := Some(p.projection.basisDigest),
                                  version := rows.row.version + 1),
                 handoffs := rows.handoffs + [p.handoff]),
           p.projection, false))
  }

  /** The publication the application handler builds from what it read under
      the lock. */
  function HandlerPublication(authority: RunAuthority, snapshot: RunSnapshot, b: RunBasis, entries: seq<ResolutionEntry>)
    : RunPublication
  {
    RunPublication(authority, snapshot, b, entries,
                   RunProjection(b.runId, b.sourceVersion, BasisDigest(b), b.outcome),
                   Handoff(b, entries, authority.writeEpoch))
  }

  /** The handler on the locked rows, with the epoch and evidence it reads. */
  function FinalizeRun(id: Id, rows: RunRows, writeEpoch: nat, evidence: map<Id, Evidence>,
                       b: RunBasis, entries: seq<ResolutionEntry>, expectedAttemptVersion: Option<nat>,
                       expectedVersion: nat): Result<RunPublished>
  {
    var bound := ValidCommand(b, entries, expectedAttemptVersion);
    :- Need(bound, DomainValidation);
    var authority :- RequireAuthority(id, rows, writeEpoch);
    :- Need(authority.batchId == b.batchId && authority.sourceVersion == b.sourceVersion, VersionConflict);
    var stored :- LookupStored(id, rows, authority.sourceVersion);
    if stored.Some? then
      :- Need(stored.value.basisDigest == BasisDigest(b), IdempotencyConflict);
      Ok(RunPublished(rows, stored.value, true))
    else
      var snapshot := MutationSnapshot(id, rows);
      :- Need((if snapshot.attempt.None? then None else Some(snapshot.attempt.value.version)) == expectedAttemptVersion
              && snapshot.version == expectedVersion, VersionConflict);
      var p := HandlerPublication(authority, snapshot, b, entries);
      :- Need(ValidPublication(p), PortContract);
      FinalizeRows(rows, Some(authority), Some(snapshot), p, evidence)
  }
}
