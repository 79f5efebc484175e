/** What each publication of the assignment gateway does to the rows of the
    locked Run: the guards in the order the code checks them, then the INSERT
    and UPDATE statements with their WHERE clauses and table constraints. */
module AssignmentSql {
  import opened Common
  import opened RunAggregate
  import opened RunTables

  /** Unique keys already used by the rows of other Runs. */
  datatype Taken = Taken(assignments: set<Id>, attempts: set<Id>, startKeys: set<Id>)

  predicate IsActive(s: AssignmentState) { s == Offered || s == Claimed || s == Committed }

  /** The partial unique index: one offered, claimed or committed row per Run. */
  predicate HasActive(rows: map<Id, AssignmentRow>) {
    exists k :: k in rows && IsActive(rows[k].state)
  }

  predicate AttemptKeysFree(rows: RunRows, t: Attempt, taken: Taken) {
    && t.id !in taken.attempts
    && t.startKey !in taken.startKeys
    && forall i :: 0 <= i < |rows.attempts| ==>
         var r := rows.attempts[i];
         r.id != t.id && r.startKey != t.startKey && r.attemptNo != t.attemptNo && r.fence != t.fence
  }

  function OfferedRow(a: Assignment): AssignmentRow {
    AssignmentRow(a.worker, a.spec, Offered, a.offeredAt, a.expiresAt, None, None, None, None, 0, AssignmentPayload(a))
  }

  function AttemptRowOf(t: Attempt): AttemptRow {
    AttemptRow(t.id, t.runId, t.attemptNo, t.fence, t.assignmentId, t.worker, t.spec, t.startKey, StartCommitted, 0)
  }

  function OfferRows(rows: RunRows, snapshot: Option<Run>, offered: Run, expected: Run, taken: Taken): Result<RunRows> {
    var locked := snapshot == Some(expected);
    :- Need(locked, VersionConflict);
    :- Need(offered.id == expected.id && offered.state == Assigned, PortContract);
    var assignment := offered.CurrentAssignment();
    :- Need(assignment.Some?, PortContract);
    var a := assignment.value;
    :- Need(a.id !in rows.assignments && a.id !in taken.assignments && a.offeredAt < a.expiresAt
            && !HasActive(rows.assignments), ConstraintViolation);
    :- Need(rows.row.version == expected.version, VersionConflict);
    Ok(rows.(assignments := rows.assignments[a.id := OfferedRow(a)],
             row := rows.row.(phase := AssignedPhase, version := rows.row.version + 1)))
  }

  function ClaimRows(rows: RunRows, snapshot: Option<Run>, claimed: Run, expected: Run): Result<RunRows> {
    var locked := snapshot == Some(expected);
    :- Need(locked, VersionConflict);
    :- Need(claimed.id == expected.id && claimed.state == Assigned, PortContract);
    var assignment := claimed.CurrentAssignment();
    :- Need(assignment.Some? && assignment.value.state == Claimed && assignment.value.claimedAt.Some?, PortContract);
    var a := assignment.value;
    :- Need(a.id in rows.assignments && rows.assignments[a.id].state == Offered
            && rows.assignments[a.id].version == 0, VersionConflict);
    :- Need(rows.row.version == expected.version && rows.row.phase == AssignedPhase, VersionConflict);
    var updated := rows.assignments[a.id].(state := Claimed, claimedAt := a.claimedAt, version := 1,
                                           payload := AssignmentPayload(a));
    Ok(rows.(assignments := rows.assignments[a.id := updated],
             row := rows.row.(version := rows.row.version + 1)))
  }

  function CommitRows(rows: RunRows, snapshot: Option<Run>, commit: CommitResult, expected: Run, taken: Taken)
    : Result<RunRows>
  {
    var locked := snapshot == Some(expected);
    :- Need(locked, VersionConflict);
    :- Need(commit.run.id == expected.id, PortContract);
    if commit.replayed then Ok(rows)
    else
      var t := commit.attempt;
      var assignment := commit.run.CurrentAssignment();
      :- Need(commit.run.state == Running && assignment.Some? && assignment.value.state == Committed
              && assignment.value.committedAt.Some? && commit.fence == commit.run.fence && commit.fence == t.fence,
              PortContract);
      var a := assignment.value;
      :- Need(AttemptKeysFree(rows, t, taken) && 0 < t.attemptNo && 0 < t.fence
              && (t.assignmentId in rows.assignments || t.assignmentId in taken.assignments), ConstraintViolation);
      :- Need(a.id in rows.assignments && rows.assignments[a.id].state == Claimed
              && rows.assignments[a.id].version == 1, VersionConflict);
      :- Need(rows.row.version == expected.version && rows.row.phase == AssignedPhase, VersionConflict);
      var updated := rows.assignments[a.id].(state := Committed, committedAt := a.committedAt,
                                             attemptId := Some(t.id), fence := Some(t.fence), version := 2,
                                             payload := AssignmentPayload(a));
      Ok(rows.(attempts := rows.attempts + [AttemptRowOf(t)],
               assignments := rows.assignments[a.id := updated],
               row := rows.row.(phase := RunningPhase, fence := commit.fence, attemptCount := t.attemptNo,
                                version := rows.row.version + 1)))
  }

  function CloseRows(rows: RunRows, snapshot: Option<Run>, closed: Run, expected: Run): Result<RunRows> {
    var locked := snapshot == Some(expected);
    :- Need(locked, VersionConflict);
    :- Need(closed.id == expected.id, PortContract);
    if closed.version == expected.version then Ok(rows)
    else
      :- Need(closed.state == Queued && closed.current.None? && |closed.assignments| > 0, PortContract);
      var a := closed.assignments[|closed.assignments| - 1];
      var active := expected.CurrentAssignment();
      :- Need(a.closure.Some? && IsPrestartClosed(a.state) && active.Some? && active.value.id == a.id
              && IsPrecommit(active.value.state), PortContract);
      :- Need(a.id in rows.assignments && rows.assignments[a.id].state == active.value.state, VersionConflict);
      :- Need(rows.row.version == expected.version && rows.row.phase == AssignedPhase, VersionConflict);
      var r := rows.assignments[a.id];
      Ok(rows.(assignments := rows.assignments[a.id := r.(state := a.state, version := r.version + 1,
                                                          payload := AssignmentPayload(a))],
               row := rows.row.(phase := QueuedPhase, version := rows.row.version + 1)))
  }
}
