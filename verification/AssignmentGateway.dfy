/** The one-shot assignment transaction: it locks one Run, publishes domain
    results statement by statement, and installs its view only when no call
    failed. Every method is tied to the publication function of its operation. */
module AssignmentGateway {
  import opened Common
  import opened RunAggregate
  import opened RunTables
  import opened AssignmentSql
  import opened Database

  class Gateway {
    const db: Tables
    var active: bool
    var closed: bool
    var aborted: bool
    var locked: Option<Id>
    var view: Option<RunRows>
    var snapshot: Option<Run>

    ghost predicate Valid()
      reads this
    {
      && (locked.Some? <==> view.Some?)
      && (snapshot.Some? ==> locked == Some(snapshot.value.id))
      && (active ==> !closed)
    }

    constructor (db: Tables)
      ensures Valid() && this.db == db && !active && !closed && !aborted && locked.None?
    {
      this.db := db;
      active, closed, aborted := false, false, false;
      locked, view, snapshot := None, None, None;
    }

    method Enter() returns (r: Result<()>)
      requires Valid()
      modifies this
      ensures Valid()
      ensures r.Ok? <==> !old(closed) && !old(active)
      ensures r.Ok? ==> active
      ensures r.Err? ==> active == old(active)
      ensures closed == old(closed) && aborted == old(aborted)
      ensures locked == old(locked) && view == old(view) && snapshot == old(snapshot)
    {
      if closed || active {
        return Err(PortContract);
      }
      active := true;
      r := Ok(());
    }

    /** Leaving the transaction: the view is installed exactly when nothing was
        raised and no publication failed. */
    method Exit(raised: bool) returns (r: Result<()>)
      requires Valid()
      modifies this, db`runs
      ensures Valid()
      ensures r.Ok? <==> old(active)
      ensures r.Ok? ==> closed && !active && aborted == old(aborted)
      ensures db.runs == if old(active) && !raised && !old(aborted) && old(locked).Some?
                         then old(db.runs)[old(locked).value := old(view).value] else old(db.runs)
    {
      if !active {
        return Err(PortContract);
      }
      if !raised && !aborted && locked.Some? {
        db.runs := db.runs[locked.value := view.value];
      }
      active, closed := false, true;
      r := Ok(());
    }

    /** Lock and load one Run. After a load that failed another Run may be taken:
        nothing has been written to the first one. */
    method GetRunForUpdate(id: Id) returns (r: Result<Run>)
      requires Valid()
      modifies this
      ensures Valid() && active == old(active) && closed == old(closed) && aborted == old(aborted)
      ensures old(active) && old(snapshot).None? && id in db.runs ==>
        && locked == Some(id) && view == (if old(locked) == Some(id) then old(view) else Some(db.runs[id]))
        && r == Rehydrate(id, view.value)
        && (if r.Ok? then snapshot == Some(r.value) else snapshot.None?)
      ensures old(active) && old(snapshot).Some? ==>
        r == if old(snapshot).value.id == id then Ok(old(snapshot).value) else Err(PortContract)
      ensures !old(active) || (old(snapshot).None? && id !in db.runs) ==> r == Err(PortContract)
      ensures !old(active) || old(snapshot).Some? || id !in db.runs ==>
        locked == old(locked) && view == old(view) && snapshot == old(snapshot)
    {
      if !active {
        return Err(PortContract);
      }
      if snapshot.Some? {
        if snapshot.value.id != id {
          return Err(PortContract);
        }
        return Ok(snapshot.value);
      }
      if id !in db.runs {
        return Err(PortContract);
      }
      if locked != Some(id) {
        locked, view := Some(id), Some(db.runs[id]);
      }
      r := Rehydrate(id, view.value);
      if r.Ok? {
        RehydrateKeepsId(id, view.value);
        snapshot := Some(r.value);
      }
    }

    method PublishOffer(offered: Run, expected: Run) returns (r: Result<Replay<Run>>)
      requires Valid()
      modifies this
      ensures Valid() && active == old(active) && closed == old(closed) && locked == old(locked)
      ensures old(active) && old(locked).Some? ==>
        match OfferRows(old(view).value, old(snapshot), offered, expected, db.TakenBy(old(locked).value))
        case Ok(rows) =>
          r == Ok(Replay(offered, false)) && view == Some(rows) && snapshot == Some(offered) && aborted == old(aborted)
        case Err(e) => r == Err(e) && aborted && snapshot == old(snapshot)
      ensures !old(active) || old(locked).None? ==> r.Err? && aborted
    {
      if !active {
        aborted := true;
        return Err(PortContract);
      }
      if snapshot != Some(expected) {
        aborted := true;
        return Err(VersionConflict);
      }
      if offered.id != expected.id || offered.state != Assigned {
        aborted := true;
        return Err(PortContract);
      }
      var assignment := offered.CurrentAssignment();
      if assignment.None? {
        aborted := true;
        return Err(PortContract);
      }
      var a := assignment.value;
      // INSERT INTO qep_assignments
      var rows := view.value;
      if a.id in rows.assignments || a.id in db.TakenBy(locked.value).assignments || a.expiresAt <= a.offeredAt
         || HasActive(rows.assignments)
      {
        aborted := true;
        return Err(ConstraintViolation);
      }
      rows := rows.(assignments := rows.assignments[a.id := OfferedRow(a)]);
      view := Some(rows);
      // UPDATE qep_runs ... WHERE version = expected
      if rows.row.version != expected.version {
        aborted := true;
        return Err(VersionConflict);
      }
      view := Some(rows.(row := rows.row.(phase := AssignedPhase, version := rows.row.version + 1)));
      snapshot := Some(offered);
      r := Ok(Replay(offered, false));
    }

    method PublishClaim(claimed: Run, expected: Run) returns (r: Result<Replay<Run>>)
      requires Valid()
      modifies this
      ensures Valid() && active == old(active) && closed == old(closed) && locked == old(locked)
      ensures old(active) && old(locked).Some? ==>
        match ClaimRows(old(view).value, old(snapshot), claimed, expected)
        case Ok(rows) =>
          r == Ok(Replay(claimed, false)) && view == Some(rows) && snapshot == Some(claimed) && aborted == old(aborted)
        case Err(e) => r == Err(e) && aborted && snapshot == old(snapshot)
      ensures !old(active) || old(locked).None? ==> r.Err? && aborted
    {
      if !active {
        aborted := true;
        return Err(PortContract);
      }
      if snapshot != Some(expected) {
        aborted := true;
        return Err(VersionConflict);
      }
      var assignment := claimed.CurrentAssignment();
      if claimed.id != expected.id || claimed.state != Assigned || assignment.None? {
        aborted := true;
        return Err(PortContract);
      }
      var a := assignment.value;
      if a.state != Claimed || a.claimedAt.None? {
        aborted := true;
        return Err(PortContract);
      }
      // UPDATE qep_assignments ... WHERE state = 'offered' AND version = 0
      var rows := view.value;
      if a.id !in rows.assignments || rows.assignments[a.id].state != Offered || rows.assignments[a.id].version != 0 {
        aborted := true;
        return Err(VersionConflict);
      }
      var row := rows.assignments[a.id];
      rows := rows.(assignments := rows.assignments[a.id := row.(state := Claimed, claimedAt := a.claimedAt,
                                                                 version := row.version + 1,
                                                                 payload := AssignmentPayload(a))]);
      view := Some(rows);
      // UPDATE qep_runs ... WHERE version = expected AND phase = 'assigned'
      if rows.row.version != expected.version || rows.row.phase != AssignedPhase {
        aborted := true;
        return Err(VersionConflict);
      }
      view := Some(rows.(row := rows.row.(version := rows.row.version + 1)));
      snapshot := Some(claimed);
      r := Ok(Replay(claimed, false));
    }

    method PublishCommitStart(commit: CommitResult, expected: Run) returns (r: Result<Replay<CommitResult>>)
      requires Valid()
      modifies this
      ensures Valid() && active == old(active) && closed == old(closed) && locked == old(locked)
      ensures old(active) && old(locked).Some? ==>
        match CommitRows(old(view).value, old(snapshot), commit, expected, db.TakenBy(old(locked).value))
        case Ok(rows) =>
          r == Ok(Replay(commit, commit.replayed)) && view == Some(rows) && snapshot == Some(commit.run)
          && aborted == old(aborted)
        case Err(e) => r == Err(e) && aborted && snapshot == old(snapshot)
      ensures !old(active) || old(locked).None? ==> r.Err? && aborted
    {
      if !active {
        aborted := true;
        return Err(PortContract);
      }
      if snapshot != Some(expected) {
        aborted := true;
        return Err(VersionConflict);
      }
      if commit.run.id != expected.id {
        aborted := true;
        return Err(PortContract);
      }
      if commit.replayed {
        snapshot := Some(commit.run);
        return Ok(Replay(commit, true));
      }
      var t := commit.attempt;
      var assignment := commit.run.CurrentAssignment();
      if commit.run.state != Running || assignment.None? || assignment.value.state != Committed
         || assignment.value.committedAt.None? || commit.fence != commit.run.fence || commit.fence != t.fence
      {
        aborted := true;
        return Err(PortContract);
      }
      var a := assignment.value;
      // INSERT INTO qep_attempts
      var rows := view.value;
      var taken := db.TakenBy(locked.value);
      if !AttemptKeysFree(rows, t, taken) || t.attemptNo == 0 || t.fence == 0
         || (t.assignmentId !in rows.assignments && t.assignmentId !in taken.assignments)
      {
        aborted := true;
        return Err(ConstraintViolation);
      }
      rows := rows.(attempts := rows.attempts + [AttemptRowOf(t)]);
      view := Some(rows);
      // UPDATE qep_assignments ... WHERE state = 'claimed' AND version = 1
      if a.id !in rows.assignments || rows.assignments[a.id].state != Claimed || rows.assignments[a.id].version != 1 {
        aborted := true;
        return Err(VersionConflict);
      }
      var row := rows.assignments[a.id];
      rows := rows.(assignments := rows.assignments[a.id := row.(state := Committed, committedAt := a.committedAt,
                                                                 attemptId := Some(t.id), fence := Some(t.fence),
                                                                 version := row.version + 1,
                                                                 payload := AssignmentPayload(a))]);
      view := Some(rows);
      // UPDATE qep_runs ... WHERE version = expected AND phase = 'assigned'
      if rows.row.version != expected.version || rows.row.phase != AssignedPhase {
        aborted := true;
        return Err(VersionConflict);
      }
      view := Some(rows.(row := rows.row.(phase := RunningPhase, fence := commit.fence, attemptCount := t.attemptNo,
                                          version := rows.row.version + 1)));
      snapshot := Some(commit.run);
      r := Ok(Replay(commit, false));
    }

    method PublishClose(closing: Run, expected: Run) returns (r: Result<Replay<Run>>)
      requires Valid()
      modifies this
      ensures Valid() && active == old(active) && closed == old(closed) && locked == old(locked)
      ensures old(active) && old(locked).Some? ==>
        match CloseRows(old(view).value, old(snapshot), closing, expected)
        case Ok(rows) =>
          r == Ok(Replay(closing, closing.version == expected.version)) && view == Some(rows)
          && snapshot == Some(closing) && aborted == old(aborted)
        case Err(e) => r == Err(e) && aborted && snapshot == old(snapshot)
      ensures !old(active) || old(locked).None? ==> r.Err? && aborted
    {
      if !active {
        aborted := true;
        return Err(PortContract);
      }
      if snapshot != Some(expected) {
        aborted := true;
        return Err(VersionConflict);
      }
      if closing.id != expected.id {
        aborted := true;
        return Err(PortContract);
      }
      if closing.version == expected.version {
        snapshot := Some(closing);
        return Ok(Replay(closing, true));
      }
      var live := expected.CurrentAssignment();
      if closing.state != Queued || closing.current.Some? || |closing.assignments| == 0 || live.None? {
        aborted := true;
        return Err(PortContract);
      }
      var a := closing.assignments[|closing.assignments| - 1];
      if a.closure.None? || !IsPrestartClosed(a.state) || live.value.id != a.id || !IsPrecommit(live.value.state) {
        aborted := true;
        return Err(PortContract);
      }
      // UPDATE qep_assignments ... WHERE state = the expected active state
      var rows := view.value;
      if a.id !in rows.assignments || rows.assignments[a.id].state != live.value.state {
        aborted := true;
        return Err(VersionConflict);
      }
      var row := rows.assignments[a.id];
      rows := rows.(assignments := rows.assignments[a.id := row.(state := a.state, version := row.version + 1,
                                                                 payload := AssignmentPayload(a))]);
      view := Some(rows);
      // UPDATE qep_runs ... WHERE version = expected AND phase = 'assigned'
      if rows.row.version != expected.version || rows.row.phase != AssignedPhase {
        aborted := true;
        return Err(VersionConflict);
      }
      view := Some(rows.(row := rows.row.(phase := QueuedPhase, version := rows.row.version + 1)));
      snapshot := Some(closing);
      r := Ok(Replay(closing, false));
    }
  }

  lemma RehydrateKeepsId(id: Id, rows: RunRows)
    requires Rehydrate(id, rows).Ok?
    ensures Rehydrate(id, rows).value.id == id
  {
    hide ValidRun;
  }
}
