/** The assignment protocol on the rows of one Run: the invariant every
    publication keeps, when the SQL can refuse a domain-approved transition,
    and when reloading the rows gives back the Run that was published. */
module AssignmentLifecycle {
  import opened Common
  import opened Ordering
  import opened RunAggregate
  import opened RunTables
  import opened AssignmentSql

  // ----- Row invariant -----------------------------------------------------

  predicate RowInv(id: Id, r: AssignmentRow) {
    && AssignmentFromRow(id, r).Ok?
    && r.state != CancelledPrestart
    && (r.state == Offered ==> r.version == 0)
    && (r.state == Claimed ==> r.version == 1)
    && (r.state == Committed ==> r.version == 2)
    && (r.state == Committed <==> r.attemptId.Some?)
    && (r.state == Committed <==> r.fence.Some?)
    && Lookup(r.payload, OpportunityKindField).None?
  }

  /** The one active row is `k`. */
  predicate OnlyActive(rows: map<Id, AssignmentRow>, k: Id) {
    k in rows && IsActive(rows[k].state) && forall j :: j in rows && IsActive(rows[j].state) ==> j == k
  }

  predicate NoAttempt(rows: RunRows) {
    rows.attempts == [] && rows.row.fence == 0
  }

  predicate BoundAttempt(id: Id, rows: RunRows, k: Id)
    requires k in rows.assignments
  {
    && |rows.attempts| == 1
    && var t := rows.attempts[0];
       && t.runId == id && t.attemptNo == 1 && t.fence == 1 && t.assignmentId == k
       && t.worker == rows.assignments[k].worker && t.spec == rows.assignments[k].spec
       && rows.assignments[k].attemptId == Some(t.id)
       && rows.assignments[k].fence == Some(t.fence)
       && rows.row.fence == t.fence
  }

  predicate AssignmentInv(id: Id, rows: RunRows) {
    && (forall k :: k in rows.assignments ==> RowInv(k, rows.assignments[k]))
    && match rows.row.phase
       case PlannedPhase => NoAttempt(rows) && rows.assignments == map[]
       case QueuedPhase => NoAttempt(rows) && !HasActive(rows.assignments)
       case AssignedPhase =>
         && NoAttempt(rows)
         && exists k :: k in rows.assignments && IsPrecommit(rows.assignments[k].state)
                        && OnlyActive(rows.assignments, k)
       case RunningPhase =>
         exists k :: k in rows.assignments && rows.assignments[k].state == Committed
                     && OnlyActive(rows.assignments, k) && BoundAttempt(id, rows, k)
                     && rows.attempts[0].state == StartCommitted && rows.attempts[0].version == 0
       case _ => true
  }

  // ----- Rows representing a Run ------------------------------------------

  predicate PhaseOf(state: RunState, phase: Phase) {
    match state
    case Planned => phase == PlannedPhase
    case Queued => phase == QueuedPhase
    case Assigned => phase == AssignedPhase
    case Running => phase == RunningPhase
  }

  predicate Stored(rows: map<Id, AssignmentRow>, a: Assignment) {
    a.id in rows && AssignmentFromRow(a.id, rows[a.id]) == Ok(a)
  }

  predicate HasId(assignments: seq<Assignment>, id: Id) {
    exists i :: 0 <= i < |assignments| && assignments[i].id == id
  }

  /** The rows hold exactly this Run; a running Run may show only its committed
      assignment. */
  predicate Represents(rows: RunRows, run: Run) {
    && PhaseOf(run.state, rows.row.phase)
    && rows.row.version == run.version
    && rows.row.fence == run.fence
    && (forall i :: 0 <= i < |run.assignments| ==> Stored(rows.assignments, run.assignments[i]))
    && (run.state != Running ==> forall k :: k in rows.assignments ==> HasId(run.assignments, k))
    && |rows.attempts| == |run.attempts|
    && (forall i :: 0 <= i < |run.attempts| ==> AttemptFromRow(rows.attempts[i]) == run.attempts[i])
  }

  // ----- Loading -----------------------------------------------------------

  lemma DecodedKeepsId(id: Id, r: AssignmentRow)
    requires AssignmentFromRow(id, r).Ok?
    ensures AssignmentFromRow(id, r).value.id == id
  {
  }

  lemma LoadedHistoryComplete(rows: map<Id, AssignmentRow>, history: seq<Assignment>)
    requires DecodeAll(rows, InOfferOrder(rows)) == Ok(history)
    ensures forall i :: 0 <= i < |history| ==> Stored(rows, history[i])
    ensures forall k :: k in rows ==> HasId(history, k)
  {
    hide AssignmentFromRow, InOfferOrder;
    var ids := InOfferOrder(rows);
    forall i | 0 <= i < |history|
      ensures history[i].id == ids[i] && Stored(rows, history[i])
    {
      DecodedKeepsId(ids[i], rows[ids[i]]);
    }
    forall k | k in rows
      ensures HasId(history, k)
    {
      InOfferOrderComplete(rows, k);
      var i :| 0 <= i < |ids| && ids[i] == k;
      assert history[i].id == k;
    }
  }

  lemma RehydrateRunningRepresents(id: Id, rows: RunRows)
    requires AssignmentInv(id, rows) && rows.row.phase == RunningPhase
    requires Rehydrate(id, rows).Ok?
    ensures Represents(rows, Rehydrate(id, rows).value)
  {
    hide ValidRun, AssignmentFromRow, InOfferOrder, RowInv, OnlyActive;
    var committed := FirstCommitted(rows.assignments, InOfferOrder(rows.assignments)).value;
    DecodedKeepsId(committed, rows.assignments[committed]);
    var t := rows.attempts[0];
    assert rows.attempts == [t];
    assert AttemptAtFence(rows.attempts, rows.row.fence) == Some(t);
  }

  lemma RehydrateWaitingRepresents(id: Id, rows: RunRows)
    requires rows.row.phase == QueuedPhase || rows.row.phase == AssignedPhase
    requires NoAttempt(rows)
    requires Rehydrate(id, rows).Ok?
    ensures Represents(rows, Rehydrate(id, rows).value)
  {
    hide ValidRun, InOfferOrder, AssignmentFromRow, Stored, HasId;
    LoadedHistoryComplete(rows.assignments, DecodeAll(rows.assignments, InOfferOrder(rows.assignments)).value);
  }

  /** What is loaded is what the rows hold. */
  lemma RehydrateRepresents(id: Id, rows: RunRows)
    requires AssignmentInv(id, rows)
    requires Rehydrate(id, rows).Ok?
    ensures ValidRun(Rehydrate(id, rows).value)
    ensures Rehydrate(id, rows).value.id == id
    ensures Represents(rows, Rehydrate(id, rows).value)
  {
    hide ValidRun, InOfferOrder, RowInv, OnlyActive, HasActive, Represents, AssignmentFromRow;
    if rows.row.phase == RunningPhase {
      RehydrateRunningRepresents(id, rows);
    } else {
      RehydrateWaitingRepresents(id, rows);
    }
  }

  lemma InOfferOrderComplete(rows: map<Id, AssignmentRow>, k: Id)
    requires k in rows
    ensures k in InOfferOrder(rows)
  {
    var ranks := Ascending(OfferRanks(rows));
    AscendingLists(OfferRanks(rows));
    var r := Rank(rows[k].offeredAt, k);
    assert r in OfferRanks(rows) && r in ranks;
    var i :| 0 <= i < |ranks| && ranks[i] == r;
    assert InOfferOrder(rows)[i] == k;
  }

  // ----- Publishing domain transitions ------------------------------------

  lemma OfferPublishes(id: Id, rows: RunRows, run: Run, aid: Id, worker: WorkerRef, spec: Digest,
                       offeredAt: Time, expiresAt: Time, expectedVersion: nat, offered: Run, taken: Taken)
    requires AssignmentInv(id, rows) && ValidRun(run) && run.id == id && Represents(rows, run)
    requires Offer(run, aid, worker, spec, offeredAt, expiresAt, expectedVersion) == Ok(offered)
    ensures OfferRows(rows, Some(run), offered, run, taken).Ok? <==> aid !in taken.assignments
    ensures aid !in taken.assignments ==>
      var next := OfferRows(rows, Some(run), offered, run, taken).value;
      AssignmentInv(id, next) && Represents(next, offered) && next.row.version == rows.row.version + 1
  {
    hide ValidRun, Offer, AssignmentFromRow, ValidAssignment, HasActive, OnlyActive, RowInv, OfferedRow, AssignmentPayload;
    var a := Assignment(aid, worker, spec, Offered, offeredAt, expiresAt, None, None, None);
    OfferShape(run, aid, worker, spec, offeredAt, expiresAt, expectedVersion, offered);
    assert aid !in rows.assignments;
    WindowIsOpen(a);
    if aid !in taken.assignments {
      var next := OfferRows(rows, Some(run), offered, run, taken).value;
      OfferedRowReadsBack(a);
      OfferRepresents(rows, run, offered, a, next);
      OfferKeepsInv(id, rows, a, next);
    }
  }

  lemma WindowIsOpen(a: Assignment)
    requires ValidAssignment(a)
    ensures a.offeredAt < a.expiresAt
  {
  }

  lemma OfferedRowReadsBack(a: Assignment)
    requires ValidAssignment(a) && a.state == Offered
    ensures AssignmentFromRow(a.id, OfferedRow(a)) == Ok(a)
  {
    AssignmentRowRoundTrip(a, OfferedRow(a));
  }

  lemma OfferKeepsInv(id: Id, rows: RunRows, a: Assignment, next: RunRows)
    requires AssignmentInv(id, rows) && rows.row.phase == QueuedPhase
    requires AssignmentFromRow(a.id, OfferedRow(a)) == Ok(a)
    requires a.id !in rows.assignments
    requires next == rows.(assignments := rows.assignments[a.id := OfferedRow(a)],
                           row := rows.row.(phase := AssignedPhase, version := rows.row.version + 1))
    ensures AssignmentInv(id, next)
  {
    hide AssignmentFromRow;
    assert OnlyActive(next.assignments, a.id);
  }

  lemma OfferShape(run: Run, aid: Id, worker: WorkerRef, spec: Digest, offeredAt: Time, expiresAt: Time,
                   expectedVersion: nat, offered: Run)
    requires ValidRun(run)
    requires Offer(run, aid, worker, spec, offeredAt, expiresAt, expectedVersion) == Ok(offered)
    ensures var a := Assignment(aid, worker, spec, Offered, offeredAt, expiresAt, None, None, None);
            && ValidAssignment(a)
            && offered == run.(state := Assigned, assignments := run.assignments + [a], current := Some(aid),
                               version := run.version + 1)
            && offered.CurrentAssignment() == Some(a)
    ensures ValidRun(offered) && run.state == Queued && run.attempts == [] && run.fence == 0
    ensures !HasId(run.assignments, aid)
  {
    hide ValidHistory;
    var a := Assignment(aid, worker, spec, Offered, offeredAt, expiresAt, None, None, None);
    assert offered.assignments == run.assignments + [a];
    CurrentIsLast(offered);
    LastIsValid(offered);
    FenceCountsAttempts(run);
    forall i | 0 <= i < |run.assignments|
      ensures run.assignments[i].id != aid
    {
      assert run.assignments[i] in run.assignments;
    }
  }

  lemma LastIsValid(run: Run)
    requires ValidHistory(run) && |run.assignments| > 0
    ensures ValidAssignment(run.assignments[|run.assignments| - 1])
  {
  }

  lemma FenceCountsAttempts(run: Run)
    requires ValidHistory(run)
    ensures run.fence == |run.attempts|
  {
  }

  lemma OfferRepresents(rows: RunRows, run: Run, offered: Run, a: Assignment, next: RunRows)
    requires Represents(rows, run) && run.state == Queued && run.attempts == []
    requires a.id !in rows.assignments
    requires offered == run.(state := Assigned, assignments := run.assignments + [a], current := Some(a.id),
                             version := run.version + 1)
    requires AssignmentFromRow(a.id, OfferedRow(a)) == Ok(a)
    requires next == rows.(assignments := rows.assignments[a.id := OfferedRow(a)],
                           row := rows.row.(phase := AssignedPhase, version := rows.row.version + 1))
    ensures Represents(next, offered)
  {
    hide AssignmentFromRow, OfferedRow;
    forall k | k in next.assignments
      ensures HasId(offered.assignments, k)
    {
      if k == a.id {
        assert offered.assignments[|run.assignments|].id == k;
      } else {
        assert HasId(run.assignments, k);
        var i :| 0 <= i < |run.assignments| && run.assignments[i].id == k;
        assert offered.assignments[i].id == k;
      }
    }
    forall i | 0 <= i < |offered.assignments|
      ensures Stored(next.assignments, offered.assignments[i])
    {
      if i < |run.assignments| {
        assert Stored(rows.assignments, run.assignments[i]);
      }
    }
  }

  // ----- Replacing the current assignment ---------------------------------

  /** Rows and assignments agree on every stored column. */
  lemma StoredColumns(rows: map<Id, AssignmentRow>, a: Assignment)
    requires Stored(rows, a)
    ensures var r := rows[a.id];
            && r.worker == a.worker && r.spec == a.spec && r.state == a.state && r.offeredAt == a.offeredAt
            && r.expiresAt == a.expiresAt && r.claimedAt == a.claimedAt && r.committedAt == a.committedAt
            && ValidAssignment(a)
  {
  }

  lemma ReplacedStored(rows: map<Id, AssignmentRow>, s: seq<Assignment>, u: Assignment, r: AssignmentRow)
    requires forall i :: 0 <= i < |s| ==> Stored(rows, s[i])
    requires u.id in rows && AssignmentFromRow(u.id, r) == Ok(u)
    ensures forall i :: 0 <= i < |s| ==> Stored(rows[u.id := r], ReplaceById(s, u)[i])
    ensures forall k :: HasId(s, k) ==> HasId(ReplaceById(s, u), k)
  {
    hide AssignmentFromRow;
    var t := ReplaceById(s, u);
    forall i | 0 <= i < |s|
      ensures Stored(rows[u.id := r], t[i])
    {
      assert Stored(rows, s[i]);
    }
    forall k | HasId(s, k)
      ensures HasId(t, k)
    {
      var i :| 0 <= i < |s| && s[i].id == k;
      assert t[i].id == k;
    }
  }

  /** `next` differs from `rows` in the row of `u` and in the Run row; `moved`
      differs from `run` in the assignment `u` and in its pointers. */
  lemma ReplaceRepresents(rows: RunRows, run: Run, u: Assignment, r: AssignmentRow, moved: Run, next: RunRows)
    requires Represents(rows, run) && run.state == Assigned && run.attempts == []
    requires u.id in rows.assignments && AssignmentFromRow(u.id, r) == Ok(u)
    requires moved.assignments == ReplaceById(run.assignments, u)
    requires next.assignments == rows.assignments[u.id := r]
    requires PhaseOf(moved.state, next.row.phase)
    requires moved.version == next.row.version && moved.fence == next.row.fence
    requires |next.attempts| == |moved.attempts|
    requires forall i :: 0 <= i < |moved.attempts| ==> AttemptFromRow(next.attempts[i]) == moved.attempts[i]
    ensures Represents(next, moved)
  {
    hide AssignmentFromRow, Stored;
    ReplacedStored(rows.assignments, run.assignments, u, r);
    forall k | k in next.assignments
      ensures HasId(moved.assignments, k)
    {
      assert k in rows.assignments && HasId(run.assignments, k);
    }
  }

  /** The current assignment of an assigned Run is its last one, it is the one
      active row, and replacing it changes nothing else. */
  lemma CurrentRow(id: Id, rows: RunRows, run: Run)
    requires AssignmentInv(id, rows) && ValidRun(run) && run.id == id && Represents(rows, run)
    requires run.state == Assigned
    ensures run.CurrentAssignment().Some? && run.attempts == [] && run.fence == 0
    ensures var c := run.CurrentAssignment().value;
            && Stored(rows.assignments, c) && IsPrecommit(c.state)
            && OnlyActive(rows.assignments, c.id) && RowInv(c.id, rows.assignments[c.id])
            && |run.assignments| > 0 && c == run.assignments[|run.assignments| - 1]
            && forall i :: 0 <= i < |run.assignments| - 1 ==> run.assignments[i].id != c.id
  {
    hide AssignmentFromRow, ValidAssignment, RowInv;
    AssignedPointers(run);
    CurrentIsLast(run);
    var c := run.CurrentAssignment().value;
    assert Stored(rows.assignments, run.assignments[|run.assignments| - 1]);
    StoredColumns(rows.assignments, c);
    DistinctIds(run);
  }

  lemma AssignedPointers(run: Run)
    requires ValidRun(run) && run.state == Assigned
    ensures ValidHistory(run) && run.current.Some? && run.CurrentAssignment().Some?
    ensures IsPrecommit(run.CurrentAssignment().value.state) && run.attempts == []
    ensures run.fence == 0
  {
    FenceCountsAttempts(run);
  }

  lemma DistinctIds(run: Run)
    requires ValidHistory(run)
    ensures forall i, j :: 0 <= i < j < |run.assignments| ==> run.assignments[i].id != run.assignments[j].id
  {
  }

  /** After the replacement the current assignment is the replacing one. */
  lemma ReplacedCurrent(run: Run, u: Assignment, moved: Run)
    requires ValidHistory(run) && |run.assignments| > 0 && u.id == run.assignments[|run.assignments| - 1].id
    requires moved.assignments == ReplaceById(run.assignments, u)
    requires ValidHistory(moved)
    ensures moved.assignments == run.assignments[|run.assignments| - 1 := u]
    ensures moved.current.Some? ==> moved.CurrentAssignment() == Some(u)
    ensures ValidAssignment(u)
  {
    LastIsValid(moved);
    DistinctIds(run);
    hide ValidAssignment;
    assert moved.assignments == run.assignments[|run.assignments| - 1 := u];
    if moved.current.Some? {
      CurrentIsLast(moved);
    }
  }

  lemma ClaimPublishes(id: Id, rows: RunRows, run: Run, aid: Id, worker: WorkerRef, observedAt: Time,
                       expectedVersion: nat, claimed: Run)
    requires AssignmentInv(id, rows) && ValidRun(run) && run.id == id && Represents(rows, run)
    requires Claim(run, aid, worker, observedAt, expectedVersion) == Ok(claimed)
    ensures ClaimRows(rows, Some(run), claimed, run).Ok?
    ensures var next := ClaimRows(rows, Some(run), claimed, run).value;
            AssignmentInv(id, next) && Represents(next, claimed) && next.row.version == rows.row.version + 1
  {
    hide ValidHistory, AssignmentFromRow, ValidAssignment, RowInv, OnlyActive, Stored, AssignmentPayload;
    assert run.state == Assigned;
    CurrentRow(id, rows, run);
    var c := run.CurrentAssignment().value;
    var u := c.(state := Claimed, claimedAt := Some(observedAt));
    assert claimed.assignments == ReplaceById(run.assignments, u);
    ReplacedCurrent(run, u, claimed);
    ClaimedRow(rows.assignments, c, u);
    var next := ClaimRows(rows, Some(run), claimed, run).value;
    ReplaceRepresents(rows, run, u, next.assignments[aid], claimed, next);
    AssignedKeepsInv(id, rows, aid, next);
  }

  lemma ClaimedRow(rows: map<Id, AssignmentRow>, c: Assignment, u: Assignment)
    requires Stored(rows, c) && RowInv(c.id, rows[c.id]) && c.state == Offered && ValidAssignment(u)
    requires u == c.(state := Claimed, claimedAt := u.claimedAt)
    ensures c.id in rows && rows[c.id].state == Offered && rows[c.id].version == 0
    ensures var r := rows[c.id].(state := Claimed, claimedAt := u.claimedAt, version := 1,
                                 payload := AssignmentPayload(u));
            AssignmentFromRow(u.id, r) == Ok(u) && RowInv(u.id, r)
  {
    StoredColumns(rows, c);
    AssignmentRowRoundTrip(u, rows[c.id].(state := Claimed, claimedAt := u.claimedAt, version := 1,
                                          payload := AssignmentPayload(u)));
  }

  lemma AssignedKeepsInv(id: Id, rows: RunRows, k: Id, next: RunRows)
    requires AssignmentInv(id, rows) && rows.row.phase == AssignedPhase && OnlyActive(rows.assignments, k)
    requires k in next.assignments && next == rows.(assignments := rows.assignments[k := next.assignments[k]],
                                                    row := rows.row.(version := rows.row.version + 1))
    requires IsPrecommit(next.assignments[k].state) && RowInv(k, next.assignments[k])
    ensures AssignmentInv(id, next)
  {
    hide RowInv;
    assert OnlyActive(next.assignments, k);
  }

  lemma CommitPublishes(id: Id, rows: RunRows, run: Run, aid: Id, worker: WorkerRef, startKey: Id, spec: Digest,
                        attemptId: Id, observedAt: Time, expectedVersion: nat, commit: CommitResult, taken: Taken)
    requires AssignmentInv(id, rows) && ValidRun(run) && run.id == id && Represents(rows, run)
    requires CommitStart(run, aid, worker, startKey, spec, attemptId, observedAt, expectedVersion) == Ok(commit)
    requires !commit.replayed
    ensures CommitRows(rows, Some(run), commit, run, taken).Ok?
            <==> attemptId !in taken.attempts && startKey !in taken.startKeys
    ensures attemptId !in taken.attempts && startKey !in taken.startKeys ==>
      var next := CommitRows(rows, Some(run), commit, run, taken).value;
      && AssignmentInv(id, next) && Represents(next, commit.run)
      && next.row.version == rows.row.version + 1
      && next.row.fence == rows.row.fence + 1 && next.row.phase == RunningPhase
      && next.attempts == [AttemptRowOf(commit.attempt)]
  {
    hide ValidHistory, AssignmentFromRow, ValidAssignment, RowInv, OnlyActive, Stored, AssignmentPayload;
    assert run.state == Assigned;
    CurrentRow(id, rows, run);
    var c := run.CurrentAssignment().value;
    var u := c.(state := Committed, committedAt := Some(observedAt));
    var t := commit.attempt;
    assert commit.run.assignments == ReplaceById(run.assignments, u);
    assert commit.run.attempts == [t];
    ReplacedCurrent(run, u, commit.run);
    CommittedRow(rows.assignments, c, u, t);
    if attemptId !in taken.attempts && startKey !in taken.startKeys {
      var next := CommitRows(rows, Some(run), commit, run, taken).value;
      assert next.attempts == [AttemptRowOf(t)];
      ReplaceRepresents(rows, run, u, next.assignments[aid], commit.run, next);
      RunningKeepsInv(id, rows, aid, next);
    }
  }

  lemma CommittedRow(rows: map<Id, AssignmentRow>, c: Assignment, u: Assignment, t: Attempt)
    requires Stored(rows, c) && RowInv(c.id, rows[c.id]) && c.state == Claimed && ValidAssignment(u)
    requires u == c.(state := Committed, committedAt := u.committedAt)
    ensures c.id in rows && rows[c.id].state == Claimed && rows[c.id].version == 1
    ensures rows[c.id].worker == c.worker && rows[c.id].spec == c.spec && u.committedAt.Some?
    ensures var r := rows[c.id].(state := Committed, committedAt := u.committedAt, attemptId := Some(t.id),
                                 fence := Some(t.fence), version := 2, payload := AssignmentPayload(u));
            AssignmentFromRow(u.id, r) == Ok(u) && RowInv(u.id, r)
  {
    StoredColumns(rows, c);
    AssignmentRowRoundTrip(u, rows[c.id].(state := Committed, committedAt := u.committedAt, attemptId := Some(t.id),
                                          fence := Some(t.fence), version := 2, payload := AssignmentPayload(u)));
  }

  lemma RunningKeepsInv(id: Id, rows: RunRows, k: Id, next: RunRows)
    requires AssignmentInv(id, rows) && rows.row.phase == AssignedPhase && OnlyActive(rows.assignments, k)
    requires k in next.assignments && next.assignments == rows.assignments[k := next.assignments[k]]
    requires next.row.phase == RunningPhase && next.assignments[k].state == Committed
    requires BoundAttempt(id, next, k) && next.attempts[0].state == StartCommitted && next.attempts[0].version == 0
    requires RowInv(k, next.assignments[k])
    ensures AssignmentInv(id, next)
  {
    hide RowInv, BoundAttempt;
    assert OnlyActive(next.assignments, k);
  }

  /** An exact replay of a committed start writes nothing. */
  lemma CommitReplays(rows: RunRows, run: Run, aid: Id, worker: WorkerRef, startKey: Id, spec: Digest,
                      attemptId: Id, observedAt: Time, expectedVersion: nat, commit: CommitResult, taken: Taken)
    requires CommitStart(run, aid, worker, startKey, spec, attemptId, observedAt, expectedVersion) == Ok(commit)
    requires commit.replayed
    ensures CommitRows(rows, Some(run), commit, run, taken) == Ok(rows) && commit.run == run
    ensures commit.attempt in run.attempts && commit.fence == run.fence
  {
  }

  lemma ClosePublishes(id: Id, rows: RunRows, run: Run, closure: Closure, expectedVersion: nat, closed: Run)
    requires AssignmentInv(id, rows) && ValidRun(run) && run.id == id && Represents(rows, run)
    requires ClosePrecommit(run, closure, expectedVersion) == Ok(closed)
    ensures CloseRows(rows, Some(run), closed, run).Ok?
    ensures var next := CloseRows(rows, Some(run), closed, run).value;
            && AssignmentInv(id, next) && Represents(next, closed)
            && next.row.version == closed.version
            && if closed == run then next == rows
               else
                 && next.row.version == rows.row.version + 1 && next.row.phase == QueuedPhase
                 && closure.assignmentId in next.assignments
                 && next.assignments[closure.assignmentId].state == ClosedState(closure.kind)
                 && ClosureFromJson(Lookup(next.assignments[closure.assignmentId].payload, ClosureField))
                    == Ok(Some(closure))
  {
    hide ValidHistory, AssignmentFromRow, ValidAssignment, RowInv, OnlyActive, Stored, AssignmentPayload, ClosureFromJson;
    if closed != run {
      assert run.state == Assigned;
      CurrentRow(id, rows, run);
      var c := run.CurrentAssignment().value;
      var u := c.(state := ClosedState(closure.kind), closure := Some(closure));
      assert closed.assignments == ReplaceById(run.assignments, u);
      ReplacedCurrent(run, u, closed);
      NoCancelledHistory(closed);
      ClosedRow(rows.assignments, c, u);
      var next := CloseRows(rows, Some(run), closed, run).value;
      ReplaceRepresents(rows, run, u, next.assignments[u.id], closed, next);
      QueuedKeepsInv(id, rows, u.id, next);
    }
  }

  /** Prestart cancellations belong to cancelled Runs only. */
  lemma NoCancelledHistory(run: Run)
    requires ValidHistory(run)
    ensures forall i :: 0 <= i < |run.assignments| ==> run.assignments[i].state != CancelledPrestart
  {
  }

  lemma ClosedRow(rows: map<Id, AssignmentRow>, c: Assignment, u: Assignment)
    requires Stored(rows, c) && RowInv(c.id, rows[c.id]) && IsPrecommit(c.state) && ValidAssignment(u)
    requires u == c.(state := u.state, closure := u.closure) && IsPrestartClosed(u.state)
    requires u.state != CancelledPrestart
    ensures c.id in rows && rows[c.id].state == c.state && u.closure.Some?
    ensures var r := rows[c.id].(state := u.state, version := rows[c.id].version + 1, payload := AssignmentPayload(u));
            && AssignmentFromRow(u.id, r) == Ok(u) && RowInv(u.id, r)
            && ClosureFromJson(Lookup(r.payload, ClosureField)) == Ok(u.closure)
  {
    StoredColumns(rows, c);
    var r := rows[c.id].(state := u.state, version := rows[c.id].version + 1, payload := AssignmentPayload(u));
    AssignmentRowRoundTrip(u, r);
    assert Lookup(r.payload, ClosureField) == Some(ClosureJson(u.closure.value));
    ClosureRoundTrip(u.closure.value);
  }

  lemma QueuedKeepsInv(id: Id, rows: RunRows, k: Id, next: RunRows)
    requires AssignmentInv(id, rows) && rows.row.phase == AssignedPhase && OnlyActive(rows.assignments, k)
    requires k in next.assignments && next == rows.(assignments := rows.assignments[k := next.assignments[k]],
                                                    row := next.row)
    requires next.row.phase == QueuedPhase && next.row.fence == rows.row.fence
    requires IsPrestartClosed(next.assignments[k].state) && RowInv(k, next.assignments[k])
    ensures AssignmentInv(id, next)
  {
    hide RowInv;
  }
}
