/** The whole life of one Run's rows under assignment and finalization
    transactions: closed exactly when a basis exists, one version past the
    basis source, and then unchanged for ever. */
module RunLifecycle {
  import opened Common
  import opened Ordering
  import opened RunAggregate
  import opened RunTables
  import opened AssignmentSql
  import opened AssignmentLifecycle
  import opened RunFinalizationSql

  // ----- Invariant ---------------------------------------------------------

  predicate ClosedAs(id: Id, rows: RunRows, b: RunBasis) {
    && rows.row.version == b.sourceVersion + 1
    && rows.row.disposition == Some(ClosedNoRetry)
    && rows.row.outcome == Some(b.outcome)
    && rows.row.basisDigest == Some(BasisDigest(b))
    && b.runId == id && b.batchId == rows.batchId
    && b.itemSet.runId == id && b.itemSet.sourceVersion == b.sourceVersion
    && ValidEntries(b.itemSet.preimage) && ValidTerminal(b) && b.outcome == AuditOutcome(b.itemSet.preimage)
    && rows.resolutions == ResolutionMap(b.itemSet.preimage, b.sourceVersion)
    && (forall e :: e in b.itemSet.preimage ==> e.item in rows.items)
    && |rows.handoffs| == 1
    && rows.handoffs[0].basis == b && rows.handoffs[0].entries == b.itemSet.preimage
  }

  predicate Unclosed(rows: RunRows) {
    && rows.resolutions == map[] && rows.handoffs == []
    && rows.row.disposition.None? && rows.row.outcome.None? && rows.row.basisDigest.None?
  }

  predicate RunInv(id: Id, rows: RunRows) {
    && AssignmentInv(id, rows)
    && (rows.row.phase == ClosedPhase <==> rows.basis.Some?)
    && (if rows.basis.Some? then ClosedAs(id, rows, rows.basis.value) else Unclosed(rows))
  }

  lemma ResolutionMapContents(entries: seq<ResolutionEntry>, v: nat)
    requires IsAscending(ItemKeys(entries))
    ensures forall k :: k in ResolutionMap(entries, v) ==> exists i :: 0 <= i < |entries| && entries[i].item == k
    ensures forall i :: 0 <= i < |entries| ==>
      && entries[i].item in ResolutionMap(entries, v)
      && ResolutionMap(entries, v)[entries[i].item] == RowOfEntry(entries[i], v)
  {
    if |entries| > 0 {
      var n := |entries| - 1;
      var keys := ItemKeys(entries);
      assert ItemKeys(entries[..n]) == keys[..n];
      ResolutionMapContents(entries[..n], v);
      forall i | 0 <= i < |entries|
        ensures entries[i].item in ResolutionMap(entries, v)
        ensures ResolutionMap(entries, v)[entries[i].item] == RowOfEntry(entries[i], v)
      {
        if i < n {
          assert Less(keys[i], keys[n]);
          assert entries[..n][i] == entries[i];
        }
      }
      forall k | k in ResolutionMap(entries, v)
        ensures exists i :: 0 <= i < |entries| && entries[i].item == k
      {
        if k in ResolutionMap(entries[..n], v) {
          var i :| 0 <= i < n && entries[..n][i].item == k;
          assert entries[i].item == k;
        }
      }
    }
  }

  // ----- Finalization ------------------------------------------------------

  /** The conditions under which finalizing an open Run succeeds. */
  predicate Finalizable(id: Id, rows: RunRows, writeEpoch: nat, evidence: map<Id, Evidence>, b: RunBasis,
                        entries: seq<ResolutionEntry>, expectedAttemptVersion: Option<nat>, expectedVersion: nat)
  {
    var snapshot := MutationSnapshot(id, rows);
    && rows.basis.None?
    && b.runId == id && b.batchId == rows.batchId && b.sourceVersion == rows.row.version == expectedVersion
    && ValidTerminal(b) && b.outcome == AuditOutcome(entries)
    && snapshot.attempt == BasisAttempt(b)
    && (match snapshot.attempt
        case None => expectedAttemptVersion == None
        case Some(t) => expectedAttemptVersion == Some(t.version))
    && b.itemSet == EntrySetDigest(b.runId, b.sourceVersion, entries) && ValidEntries(entries)
    && (forall e :: e in entries ==> e.item in rows.items)
    && VerifiedInput(id, rows, b, evidence)
    && (b.terminal.FinalAttempt? ==> b.terminal.fence > 0)
    && writeEpoch >= 1
  }

  /** Finalization succeeds exactly when the Run is open and the command fits
      the locked rows, or it is closed with this very basis; then it is a replay. */
  lemma FinalizeRunOutcome(id: Id, rows: RunRows, writeEpoch: nat, evidence: map<Id, Evidence>, b: RunBasis,
                           entries: seq<ResolutionEntry>, expectedAttemptVersion: Option<nat>, expectedVersion: nat)
    requires RunInv(id, rows)
    ensures var r := FinalizeRun(id, rows, writeEpoch, evidence, b, entries, expectedAttemptVersion, expectedVersion);
            if rows.basis.Some? then
              && (r.Ok? <==> writeEpoch >= 1 && b == rows.basis.value && ValidCommand(b, entries, expectedAttemptVersion))
              && (r.Ok? ==> r.value == RunPublished(rows, RunProjection(id, b.sourceVersion, BasisDigest(b), b.outcome), true))
            else
              && (r.Ok? <==> Finalizable(id, rows, writeEpoch, evidence, b, entries, expectedAttemptVersion,
                                         expectedVersion))
              && (r.Ok? ==>
                    && !r.value.replayed
                    && r.value.projection == RunProjection(id, b.sourceVersion, BasisDigest(b), b.outcome)
                    && r.value.rows.basis == Some(b) && r.value.rows.row.phase == ClosedPhase
                    && r.value.rows.row.version == rows.row.version + 1
                    && r.value.rows.assignments == rows.assignments && r.value.rows.items == rows.items)
  {
    hide AssignmentInv, BoundAttemptIndex, VerifiedInput, ResolutionMap;
  }

  lemma FinalizeRunKeepsInv(id: Id, rows: RunRows, writeEpoch: nat, evidence: map<Id, Evidence>, b: RunBasis,
                            entries: seq<ResolutionEntry>, expectedAttemptVersion: Option<nat>, expectedVersion: nat)
    requires RunInv(id, rows)
    requires FinalizeRun(id, rows, writeEpoch, evidence, b, entries, expectedAttemptVersion, expectedVersion).Ok?
    ensures RunInv(id, FinalizeRun(id, rows, writeEpoch, evidence, b, entries, expectedAttemptVersion, expectedVersion)
                       .value.rows)
  {
    hide MutationSnapshot, VerifiedInput, ResolutionMap, RowInv, OnlyActive, HasActive, BoundAttempt, NoAttempt;
    FinalizeRunOutcome(id, rows, writeEpoch, evidence, b, entries, expectedAttemptVersion, expectedVersion);
    var next := FinalizeRun(id, rows, writeEpoch, evidence, b, entries, expectedAttemptVersion, expectedVersion).value.rows;
    assert map[] + ResolutionMap(entries, b.sourceVersion) == ResolutionMap(entries, b.sourceVersion);
  }

  // ----- Transactions on one Run ------------------------------------------

  /** An open transaction holding the Run lock: the rows as it sees them and
      the aggregate an assignment gateway has loaded. */
  datatype RunTx = RunTx(view: RunRows, run: Option<Run>)

  /** What one call on the gateway, through the domain, asks for. */
  datatype RunCommand =
    | LoadCommand
    | OfferCommand(aid: Id, worker: WorkerRef, spec: Digest, offeredAt: Time, expiresAt: Time, expected: nat)
    | ClaimCommand(aid: Id, worker: WorkerRef, observedAt: Time, expected: nat)
    | CommitCommand(aid: Id, worker: WorkerRef, startKey: Id, spec: Digest, attemptId: Id, observedAt: Time,
                    expected: nat)
    | ExpireCommand(aid: Id, key: Id, observedAt: Time, expected: nat)
    | ReleaseCommand(aid: Id, worker: WorkerRef, key: Id, observedAt: Time, expected: nat)
    | FinalizeCommand(writeEpoch: nat, evidence: map<Id, Evidence>, basis: RunBasis, entries: seq<ResolutionEntry>,
                      expectedAttempt: Option<nat>, expected: nat)

  /** One call: the domain transition of the loaded Run, then its publication. */
  function Perform(id: Id, tx: RunTx, c: RunCommand, taken: Taken): Result<RunTx> {
    if c.LoadCommand? then
      var run :- Rehydrate(id, tx.view);
      Ok(tx.(run := Some(run)))
    else if c.FinalizeCommand? then
      var published :- FinalizeRun(id, tx.view, c.writeEpoch, c.evidence, c.basis, c.entries, c.expectedAttempt,
                                   c.expected);
      Ok(RunTx(published.rows, None))
    else if tx.run.None? then Err(PortContract)
    else
      var run := tx.run.value;
      match c
      case OfferCommand(aid, worker, spec, offeredAt, expiresAt, expected) =>
        var offered :- Offer(run, aid, worker, spec, offeredAt, expiresAt, expected);
        var view :- OfferRows(tx.view, tx.run, offered, run, taken);
        Ok(RunTx(view, Some(offered)))
      case ClaimCommand(aid, worker, observedAt, expected) =>
        var claimed :- Claim(run, aid, worker, observedAt, expected);
        var view :- ClaimRows(tx.view, tx.run, claimed, run);
        Ok(RunTx(view, Some(claimed)))
      case CommitCommand(aid, worker, startKey, spec, attemptId, observedAt, expected) =>
        var commit :- CommitStart(run, aid, worker, startKey, spec, attemptId, observedAt, expected);
        var view :- CommitRows(tx.view, tx.run, commit, run, taken);
        Ok(RunTx(view, Some(commit.run)))
      case ExpireCommand(aid, key, observedAt, expected) =>
        var closed :- Expire(run, aid, key, observedAt, expected);
        var view :- CloseRows(tx.view, tx.run, closed, run);
        Ok(RunTx(view, Some(closed)))
      case ReleaseCommand(aid, worker, key, observedAt, expected) =>
        var closed :- Release(run, aid, worker, key, observedAt, expected);
        var view :- CloseRows(tx.view, tx.run, closed, run);
        Ok(RunTx(view, Some(closed)))
  }

  predicate RunTxInv(id: Id, tx: RunTx) {
    && RunInv(id, tx.view)
    && (tx.run.Some? ==>
          && ValidRun(tx.run.value) && tx.run.value.id == id
          && Represents(tx.view, tx.run.value))
  }

  /** A step either leaves the rows alone or moves them one version on; closed
      rows it can only leave alone. */
  predicate RowStep(before: RunRows, after: RunRows) {
    && after.batchId == before.batchId && after.items == before.items && after.place == before.place
    && (after == before
        || (before.basis.None? && before.row.phase != ClosedPhase && after.row.version == before.row.version + 1))
  }

  lemma RepresentedIsOpen(rows: RunRows, run: Run)
    requires Represents(rows, run)
    ensures rows.row.phase != ClosedPhase
  {
  }

  /** Publishing keeps everything about the Run but the assignment columns. */
  lemma OpenPublicationKeepsInv(id: Id, before: RunRows, after: RunRows)
    requires RunInv(id, before) && before.row.phase != ClosedPhase
    requires AssignmentInv(id, after) && after.row.phase != ClosedPhase
    requires after == before.(assignments := after.assignments, attempts := after.attempts, row := after.row)
    requires after.row.disposition == before.row.disposition && after.row.outcome == before.row.outcome
             && after.row.basisDigest == before.row.basisDigest
    ensures RunInv(id, after)
  {
    hide AssignmentInv;
  }

  lemma PerformOffer(id: Id, tx: RunTx, c: RunCommand, taken: Taken)
    requires RunTxInv(id, tx) && c.OfferCommand? && Perform(id, tx, c, taken).Ok?
    ensures RunTxInv(id, Perform(id, tx, c, taken).value)
    ensures RowStep(tx.view, Perform(id, tx, c, taken).value.view)
  {
    hide ValidRun, AssignmentInv, Represents, Offer;
    var run := tx.run.value;
    var offered := Offer(run, c.aid, c.worker, c.spec, c.offeredAt, c.expiresAt, c.expected).value;
    OfferPublishes(id, tx.view, run, c.aid, c.worker, c.spec, c.offeredAt, c.expiresAt, c.expected, offered, taken);
    OfferShape(run, c.aid, c.worker, c.spec, c.offeredAt, c.expiresAt, c.expected, offered);
    RepresentedIsOpen(tx.view, run);
    OpenPublicationKeepsInv(id, tx.view, Perform(id, tx, c, taken).value.view);
  }

  lemma PerformClaim(id: Id, tx: RunTx, c: RunCommand, taken: Taken)
    requires RunTxInv(id, tx) && c.ClaimCommand? && Perform(id, tx, c, taken).Ok?
    ensures RunTxInv(id, Perform(id, tx, c, taken).value)
    ensures RowStep(tx.view, Perform(id, tx, c, taken).value.view)
  {
    hide ValidRun, AssignmentInv, Represents;
    var run := tx.run.value;
    var claimed := Claim(run, c.aid, c.worker, c.observedAt, c.expected).value;
    ClaimPublishes(id, tx.view, run, c.aid, c.worker, c.observedAt, c.expected, claimed);
    RepresentedIsOpen(tx.view, run);
    OpenPublicationKeepsInv(id, tx.view, Perform(id, tx, c, taken).value.view);
  }

  lemma PerformCommit(id: Id, tx: RunTx, c: RunCommand, taken: Taken)
    requires RunTxInv(id, tx) && c.CommitCommand? && Perform(id, tx, c, taken).Ok?
    ensures RunTxInv(id, Perform(id, tx, c, taken).value)
    ensures RowStep(tx.view, Perform(id, tx, c, taken).value.view)
  {
    hide ValidRun, AssignmentInv, Represents;
    var run := tx.run.value;
    var commit := CommitStart(run, c.aid, c.worker, c.startKey, c.spec, c.attemptId, c.observedAt, c.expected).value;
    RepresentedIsOpen(tx.view, run);
    if commit.replayed {
      CommitReplays(tx.view, run, c.aid, c.worker, c.startKey, c.spec, c.attemptId, c.observedAt, c.expected, commit,
                    taken);
    } else {
      CommitPublishes(id, tx.view, run, c.aid, c.worker, c.startKey, c.spec, c.attemptId, c.observedAt, c.expected,
                      commit, taken);
      OpenPublicationKeepsInv(id, tx.view, Perform(id, tx, c, taken).value.view);
    }
  }

  lemma PerformClose(id: Id, tx: RunTx, closure: Closure, expected: nat, closed: Run)
    requires RunTxInv(id, tx) && tx.run.Some?
    requires ClosePrecommit(tx.run.value, closure, expected) == Ok(closed)
    ensures CloseRows(tx.view, tx.run, closed, tx.run.value).Ok?
    ensures var view := CloseRows(tx.view, tx.run, closed, tx.run.value).value;
            RunTxInv(id, RunTx(view, Some(closed))) && RowStep(tx.view, view)
  {
    hide ValidRun, AssignmentInv, Represents;
    var run := tx.run.value;
    RepresentedIsOpen(tx.view, run);
    ClosePublishes(id, tx.view, run, closure, expected, closed);
    if closed != run {
      OpenPublicationKeepsInv(id, tx.view, CloseRows(tx.view, tx.run, closed, run).value);
    }
  }

  /** Every call keeps the transaction's rows and aggregate consistent, and
      moves an open Run by at most one version and a closed one not at all. */
  lemma PerformKeepsInv(id: Id, tx: RunTx, c: RunCommand, taken: Taken)
    requires RunTxInv(id, tx) && Perform(id, tx, c, taken).Ok?
    ensures RunTxInv(id, Perform(id, tx, c, taken).value)
    ensures RowStep(tx.view, Perform(id, tx, c, taken).value.view)
  {
    hide ValidRun, AssignmentInv, Represents, Rehydrate, Offer, Claim, CommitStart, ClosePrecommit, FinalizeRun,
         OfferRows, ClaimRows, CommitRows, CloseRows, RunInv, ClosedAs, Unclosed;
    match c
    case LoadCommand => LoadKeepsInv(id, tx.view);
    case OfferCommand(_, _, _, _, _, _) => PerformOffer(id, tx, c, taken);
    case ClaimCommand(_, _, _, _) => PerformClaim(id, tx, c, taken);
    case CommitCommand(_, _, _, _, _, _, _) => PerformCommit(id, tx, c, taken);
    case ExpireCommand(aid, key, observedAt, expected) =>
      var existing := FindLast(tx.run.value.assignments, aid);
      var effectiveAt := if existing.Some? && existing.value.expiresAt < observedAt then existing.value.expiresAt
                         else observedAt;
      PerformClose(id, tx, Closure(aid, key, Expired, effectiveAt, observedAt, None, None), expected,
                   Expire(tx.run.value, aid, key, observedAt, expected).value);
    case ReleaseCommand(aid, worker, key, observedAt, expected) =>
      PerformClose(id, tx, Closure(aid, key, Released, observedAt, observedAt, Some(worker), None), expected,
                   Release(tx.run.value, aid, worker, key, observedAt, expected).value);
    case FinalizeCommand(e, evidence, b, entries, ea, ev) => FinalizeStep(id, tx.view, e, evidence, b, entries, ea, ev);
  }

  lemma LoadKeepsInv(id: Id, rows: RunRows)
    requires RunInv(id, rows) && Rehydrate(id, rows).Ok?
    ensures RunTxInv(id, RunTx(rows, Some(Rehydrate(id, rows).value)))
  {
    hide AssignmentInv, Represents, Rehydrate, ValidRun;
    RehydrateRepresents(id, rows);
  }

  lemma FinalizeStep(id: Id, rows: RunRows, writeEpoch: nat, evidence: map<Id, Evidence>, b: RunBasis,
                     entries: seq<ResolutionEntry>, expectedAttemptVersion: Option<nat>, expectedVersion: nat)
    requires RunInv(id, rows)
    requires FinalizeRun(id, rows, writeEpoch, evidence, b, entries, expectedAttemptVersion, expectedVersion).Ok?
    ensures var next := FinalizeRun(id, rows, writeEpoch, evidence, b, entries, expectedAttemptVersion, expectedVersion)
                        .value.rows;
            RunInv(id, next) && RowStep(rows, next)
  {
    FinalizeRunOutcome(id, rows, writeEpoch, evidence, b, entries, expectedAttemptVersion, expectedVersion);
    FinalizeRunKeepsInv(id, rows, writeEpoch, evidence, b, entries, expectedAttemptVersion, expectedVersion);
    hide AssignmentInv, MutationSnapshot, VerifiedInput, ValidEntries;
  }
}
