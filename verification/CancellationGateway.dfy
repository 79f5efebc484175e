/** The one-shot cancellation transaction: one authority, the loaded Batch, and
    one publication method per outcome, each tied to its rows function. */
module CancellationGateway {
  import opened Common
  import opened BatchTables
  import opened Preexecution

  class Tables {
    var rows: map<Id, Rows>

    constructor (rows: map<Id, Rows>)
      ensures this.rows == rows
    {
      this.rows := rows;
    }
  }

  class UnitOfWork {
    const db: Tables
    const candidate: Candidate
    var active: bool
    var closed: bool
    var aborted: bool
    var locked: Option<Id>
    var view: Option<Rows>
    var snapshot: Option<Batch>
    var runSet: Option<Digest>

    ghost predicate Valid()
      reads this
    {
      && (locked.Some? <==> view.Some?)
      && (snapshot.Some? ==> locked.Some? && snapshot.value.id == locked.value)
      && (active ==> !closed)
    }

    constructor (db: Tables, candidate: Candidate)
      ensures Valid() && this.db == db && this.candidate == candidate
      ensures !active && !closed && !aborted && locked.None? && snapshot.None? && runSet.None?
    {
      this.db := db;
      this.candidate := candidate;
      active, closed, aborted := false, false, false;
      locked, view, snapshot, runSet := None, None, None, None;
    }

    method Enter() returns (r: Result<()>)
      requires Valid()
      modifies this
      ensures Valid() && (r.Ok? <==> !old(closed) && !old(active))
      ensures (r.Ok? ==> active) && (r.Err? ==> active == old(active))
      ensures closed == old(closed) && aborted == old(aborted) && locked == old(locked) && view == old(view)
      ensures snapshot == old(snapshot) && runSet == old(runSet)
    {
      if closed || active {
        return Err(PortContract);
      }
      active := true;
      r := Ok(());
    }

    method Exit(raised: bool) returns (r: Result<()>)
      requires Valid()
      modifies this, db
      ensures Valid() && (r.Ok? <==> old(active))
      ensures r.Ok? ==> closed && !active && aborted == old(aborted)
      ensures db.rows == if old(active) && !raised && !old(aborted) && old(locked).Some?
                         then old(db.rows)[old(locked).value := old(view).value] else old(db.rows)
    {
      if !active {
        return Err(PortContract);
      }
      if !raised && !aborted && locked.Some? {
        db.rows := db.rows[locked.value := view.value];
      }
      active, closed := false, true;
      r := Ok(());
    }

    /** The authority of the configured kind, checked on the locked row. */
    method RequireAuthority(id: Id, caller: Caller) returns (r: Result<()>)
      requires Valid()
      modifies this
      ensures Valid() && active == old(active) && closed == old(closed) && aborted == old(aborted)
      ensures snapshot == old(snapshot) && runSet == old(runSet)
      ensures old(aborted) || !old(active) ==> r == Err(PortContract) && locked == old(locked) && view == old(view)
      ensures old(active) && !old(aborted) && old(locked).None? ==>
        if id !in db.rows then
          r == Err(if CallerPasses(candidate, caller).Fail? then CallerPasses(candidate, caller).error else AuthorityPermissionDenied)
          && locked.None?
        else
          && r == Authorize(id, db.rows[id], candidate, caller)
          && (if r.Ok? then locked == Some(id) && view == Some(db.rows[id]) else locked.None?)
      ensures old(active) && !old(aborted) && old(locked).Some? ==>
        r == AuthorizeAgain(id, old(locked).value, candidate, caller) && locked == old(locked) && view == old(view)
    {
      if aborted || !active {
        return Err(PortContract);
      }
      if locked.Some? {
        if locked.value != id {
          return Err(PortContract);
        }
        if !candidate.CancelAuthority? {
          if caller.owner != candidate.owner {
            return Err(InternalAuthorityRetired);
          }
          if caller.epoch != candidate.writeEpoch {
            return Err(AuthorityStateConflict);
          }
        }
        return Ok(());
      }
      if candidate.expired {
        return Err(AuthorityProjectionUnavailable);
      }
      if !candidate.CancelAuthority? {
        if caller.owner != candidate.owner {
          return Err(InternalAuthorityRetired);
        }
        if caller.epoch != candidate.writeEpoch {
          return Err(AuthorityStateConflict);
        }
      }
      if id !in db.rows {
        return Err(AuthorityPermissionDenied);
      }
      var rows := db.rows[id];
      if rows.suiteProject != Some(rows.projectId) || candidate.bound.batchId != id
         || candidate.bound.projectId != rows.projectId || candidate.bound.suiteRevisionId != rows.suiteRevisionId {
        return Err(AuthorityPermissionDenied);
      }
      match candidate {
        case CancelAuthority(_, _, _, _) =>
        case ClosureAuthority(bound, _, source, epoch, scope, _, _) =>
          if epoch != rows.writeEpoch || source != rows.version || |rows.intents| > 1 {
            return Err(AuthorityStateConflict);
          }
          if |rows.intents| == 1 {
            var i := rows.intents[0];
            if i.projectId != bound.projectId || i.suiteRevisionId != bound.suiteRevisionId
               || i.sourceVersion + 1 != source || i.scope != scope {
              return Err(AuthorityStateConflict);
            }
          }
        case RejectionAuthority(_, _, source, epoch, _, stage, _, _) =>
          if epoch != rows.writeEpoch || source != rows.version {
            return Err(AuthorityStateConflict);
          }
          var current := StageOf(rows.state);
          if current.None? || current.value != stage {
            return Err(AuthorityStateConflict);
          }
      }
      locked, view := Some(id), Some(rows);
      r := Ok(());
    }

    method GetBatchForUpdate(id: Id) returns (r: Result<Batch>)
      requires Valid()
      modifies this`snapshot
      ensures Valid()
      ensures active && !aborted && locked == Some(id) ==>
        && r == LoadBatch(id, view.value)
        && snapshot == if r.Ok? then Some(r.value) else old(snapshot)
      ensures !(active && !aborted && locked == Some(id)) ==> r == Err(PortContract) && snapshot == old(snapshot)
    {
      if aborted || !active || locked != Some(id) {
        return Err(PortContract);
      }
      r := LoadBatch(id, view.value);
      if r.Ok? {
        snapshot := Some(r.value);
      }
    }

    method PublishCancellation(batch: Batch, i: Intent) returns (r: Result<()>)
      requires Valid()
      modifies this
      ensures Valid() && active == old(active) && closed == old(closed) && locked == old(locked)
      ensures snapshot == old(snapshot) && (r.Err? ==> aborted)
      ensures old(active) && !old(aborted) && old(snapshot).Some? && old(locked) == Some(batch.id) ==>
        match CancelRows(old(view).value, candidate, old(snapshot).value, batch, i)
        case Ok(rows) => r == Ok(()) && view == Some(rows) && !aborted
        case Err(e) => r == Err(e)
    {
      if aborted || !active || locked != Some(batch.id) || !candidate.CancelAuthority? || snapshot.None? {
        aborted := true;
        return Err(PortContract);
      }
      var expected := RequestCancel(snapshot.value, i, snapshot.value.version);
      if expected.Err? {
        aborted := true;
        return Err(expected.error);
      }
      if batch != expected.value || i.scope != candidate.scope || i.authorization != candidate.authorization
         || i.batchId != candidate.bound.batchId || i.projectId != candidate.bound.projectId
         || i.suiteRevisionId != candidate.bound.suiteRevisionId {
        aborted := true;
        return Err(AuthorityStateConflict);
      }
      var rows := view.value;
      // UPDATE qep_batches SET version ... WHERE state and version are the loaded ones
      if rows.state != snapshot.value.state || rows.version != snapshot.value.version {
        aborted := true;
        return Err(VersionConflict);
      }
      rows := rows.(version := batch.version);
      view := Some(rows);
      // INSERT INTO qep_batch_cancellation_intents, UNIQUE (batch, key)
      if exists j :: j in rows.intents && j.key == i.key {
        aborted := true;
        return Err(ConstraintViolation);
      }
      view := Some(rows.(intents := rows.intents + [i]));
      r := Ok(());
    }

    method PublishPreexecutionClosure(batch: Batch) returns (r: Result<()>)
      requires Valid()
      modifies this
      ensures Valid() && active == old(active) && closed == old(closed) && locked == old(locked)
      ensures snapshot == old(snapshot) && (r.Err? ==> aborted)
      ensures old(active) && !old(aborted) && old(snapshot).Some? && old(locked) == Some(batch.id) ==>
        match CloseRows(old(view).value, candidate, old(snapshot).value, batch)
        case Ok(rows) => r == Ok(()) && view == Some(rows) && !aborted
        case Err(e) => r == Err(e)
    {
      if aborted || !active || locked != Some(batch.id) || !candidate.ClosureAuthority? || snapshot.None?
         || batch.basis.None? || !batch.basis.value.command.ByIntent?
      {
        aborted := true;
        return Err(PortContract);
      }
      var rows := view.value;
      // UPDATE qep_batches SET state = 'cancelled' WHERE state and version are the loaded ones
      if rows.state != snapshot.value.state || rows.version != snapshot.value.version {
        aborted := true;
        return Err(VersionConflict);
      }
      rows := rows.(state := CancelledBatch, version := rows.version + 1);
      view := Some(rows);
      // INSERT INTO qep_batch_preexecution_closure_bases, UNIQUE (batch)
      if rows.basis.Some? {
        aborted := true;
        return Err(ConstraintViolation);
      }
      view := Some(rows.(basis := batch.basis));
      r := Ok(());
    }

    method PublishPreexecutionRejection(batch: Batch, rejection: Rejection) returns (r: Result<()>)
      requires Valid()
      modifies this
      ensures Valid() && active == old(active) && closed == old(closed) && locked == old(locked)
      ensures snapshot == old(snapshot) && (r.Err? ==> aborted)
      ensures old(active) && !old(aborted) && old(snapshot).Some? && old(locked) == Some(batch.id) ==>
        match RejectRows(old(view).value, candidate, old(snapshot).value, batch, rejection)
        case Ok(rows) => r == Ok(()) && view == Some(rows) && !aborted
        case Err(e) => r == Err(e)
    {
      if aborted || !active || locked != Some(batch.id) || !candidate.RejectionAuthority? || snapshot.None?
         || batch.basis.None? || !batch.basis.value.command.ByRejection? || batch.rejection != Some(rejection)
      {
        aborted := true;
        return Err(PortContract);
      }
      var rows := view.value;
      // UPDATE qep_batches SET state = 'rejected' WHERE state and version are the loaded ones
      if rows.state != snapshot.value.state || rows.version != snapshot.value.version {
        aborted := true;
        return Err(VersionConflict);
      }
      rows := rows.(state := RejectedBatch, version := rows.version + 1);
      view := Some(rows);
      // INSERT INTO qep_batch_rejections, then the basis
      if exists q :: q in rows.rejections && (q.id == rejection.id || q.sourceVersion == rejection.sourceVersion) {
        aborted := true;
        return Err(ConstraintViolation);
      }
      rows := rows.(rejections := rows.rejections + [rejection]);
      view := Some(rows);
      if rows.basis.Some? {
        aborted := true;
        return Err(ConstraintViolation);
      }
      view := Some(rows.(basis := batch.basis));
      r := Ok(());
    }

    /** The Run set found by the scan before a handoff. */
    method RecordMaterializedRuns(found: Digest)
      requires Valid()
      modifies this`runSet
      ensures Valid() && runSet == Some(found)
    {
      runSet := Some(found);
    }

    /** The stored row with this trigger, by a scan of the table. */
    method SelectHandoff(trigger: Trigger) returns (stored: Option<Handoff>)
      requires Valid() && view.Some?
      ensures stored == FindHandoff(view.value.handoffs, trigger)
    {
      var rows := view.value.handoffs;
      var i := 0;
      while i < |rows|
        invariant 0 <= i <= |rows|
        invariant FindHandoff(rows, trigger) == FindHandoff(rows[i..], trigger)
      {
        if rows[i].trigger == trigger {
          return Some(rows[i]);
        }
        i := i + 1;
      }
      stored := None;
    }

    /** Build the handoff the authority allows, compare, look its trigger up, and
        replay, refuse or insert. */
    method PublishMaterializedHandoff(h: Handoff) returns (r: Result<Replay<Handoff>>)
      requires Valid()
      modifies this
      ensures Valid() && active == old(active) && closed == old(closed) && locked == old(locked)
      ensures snapshot == old(snapshot) && runSet == old(runSet) && (r.Err? ==> aborted)
      ensures old(active) && !old(aborted) && old(snapshot).Some? && old(locked) == Some(h.batchId)
              && old(runSet).Some? && !candidate.CancelAuthority? ==>
        match HandoffRows(old(view).value, candidate, h.batchId, old(snapshot).value, old(runSet).value, h)
        case Ok(done) => r == Ok(Replay(h, done.1)) && view == Some(done.0) && !aborted
        case Err(e) => r == Err(e)
    {
      var before := aborted;
      aborted, r := true, Err(PortContract);
      if before || !active || locked != Some(h.batchId) || candidate.CancelAuthority? || snapshot.None? {
        return;
      }
      r := Err(AuthorityStateConflict);
      if runSet.None? {
        return;
      }
      var intent := snapshot.value.intent;
      var expected := h;
      if candidate.ClosureAuthority? {
        if intent.None? {
          return;
        }
        expected := Handoff(intent.value.batchId, CancelTrigger(intent.value), candidate.sourceVersion, intent.value.scope,
                            runSet.value, candidate.digest, candidate.writeEpoch);
      } else {
        if !h.trigger.RejectionTrigger? {
          return;
        }
        expected := Handoff(h.batchId, h.trigger, candidate.sourceVersion, candidate.scope, runSet.value,
                            candidate.digest, candidate.writeEpoch);
      }
      if h != expected {
        return;
      }
      var stored := SelectHandoff(h.trigger);
      if stored.Some? {
        if stored.value == h {
          aborted, r := false, Ok(Replay(h, true));
          return;
        }
        var rebuilt := RebuildHandoff(PayloadOf(stored.value), intent);
        if rebuilt == Ok(stored.value) {
          r := Err(IdempotencyConflict);
        }
        return;
      }
      view := Some(view.value.(handoffs := view.value.handoffs + [h]));
      aborted, r := false, Ok(Replay(h, false));
    }
  }
}
