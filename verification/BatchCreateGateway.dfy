/** The batch-create transaction object: one call of create, statement by
    statement, with the savepoint around its insert. */
module BatchCreateGateway {
  import opened Common
  import opened SuiteAggregate
  import opened BatchTables
  import opened BatchCreate

  class Tables {
    var batches: Table
    var suites: Suites

    constructor (suites: Suites)
      ensures batches == map[] && this.suites == suites
    {
      batches := map[];
      this.suites := suites;
    }
  }

  /** What one call of create comes to when its suite row was `owner`. */
  function Created(tx: Tx, b: Batch, owner: Option<Id>, table: Table, suites: Suites, winner: Option<Id>): Tx
    requires owner.Some? ==> owner.value in suites
    requires winner.Some? ==> winner.value in table + tx.writes
  {
    var accepted := Accept(tx, b, owner, suites);
    if !accepted.call.Accepted? then accepted
    else
      var inserted := Insert(accepted, table);
      if inserted.call.Idle? then inserted else Recover(RollBack(inserted), winner, table)
  }

  class Gateway {
    const db: Tables
    var active: bool
    var closed: bool
    var aborted: bool
    var failed: bool
    var writes: Table
    var savepoint: Option<Table>
    var suiteLocks: set<Id>
    var result: Option<Result<Replay<Batch>>>

    constructor (db: Tables)
      ensures this.db == db && !active && !closed && State() == Tx(map[], None, false, {}, Idle, None, false)
    {
      this.db := db;
      active, closed, aborted, failed := false, false, false, false;
      writes, savepoint, suiteLocks, result := map[], None, {}, None;
    }

    ghost function State(): Tx
      reads this
    {
      Tx(writes, savepoint, failed, suiteLocks, Idle, result, aborted)
    }

    method Enter() returns (r: Result<()>)
      modifies this
      ensures r.Ok? <==> !old(closed) && !old(active)
      ensures active == (old(active) || r.Ok?) && closed == old(closed) && State() == old(State())
    {
      if closed || active {
        return Err(PortContract);
      }
      active := true;
      r := Ok(());
    }

    method Exit(raised: bool) returns (r: Result<()>)
      modifies this, db
      ensures r.Ok? <==> old(active)
      ensures r.Ok? ==> closed && !active
      ensures db.suites == old(db.suites)
      ensures db.batches == if old(active) && !raised && !old(aborted) then old(db.batches) + old(writes) else old(db.batches)
    {
      if !active {
        return Err(PortContract);
      }
      if !raised && !aborted {
        db.batches := db.batches + writes;
      }
      active, closed := false, true;
      r := Ok(());
    }

    method SuiteOfRevision(revision: Id) returns (owner: Option<Id>)
      ensures Owns(db.suites, owner, revision)
    {
      var rest := db.suites.Keys;
      while rest != {}
        invariant rest <= db.suites.Keys
        invariant forall s :: s in db.suites && s !in rest ==> !BatchCreate.HasRevision(db.suites[s], revision)
        decreases rest
      {
        var s :| s in rest;
        if BatchCreate.HasRevision(db.suites[s], revision) {
          return Some(s);
        }
        rest := rest - {s};
      }
      owner := None;
    }

    method WinnerOf(identity: Identity) returns (winner: Option<Id>)
      ensures IsWinner(db.batches + writes, winner, identity)
    {
      var rows := db.batches + writes;
      var rest := rows.Keys;
      while rest != {}
        invariant rest <= rows.Keys
        invariant forall i :: i in rows && i !in rest ==> !SameKey(rows[i].identity, identity)
        decreases rest
      {
        var i :| i in rest;
        if SameKey(rows[i].identity, identity) {
          return Some(i);
        }
        rest := rest - {i};
      }
      winner := None;
    }

    /** One create, with no other writer about. The insert that is refused leaves
        the rows as they were, and the look-up after it decides. */
    method Create(b: Batch) returns (ghost owner: Option<Id>, ghost winner: Option<Id>)
      requires active && !failed
      modifies this
      ensures active && closed == old(closed) && !failed
      ensures b.identity.Some? ==> Owns(db.suites, owner, b.identity.value.suiteRevisionId)
      ensures b.identity.Some? ==> IsWinner(db.batches + old(writes), winner, b.identity.value)
      ensures owner.Some? ==> owner.value in db.suites
      ensures winner.Some? ==> winner.value in db.batches + old(writes)
      ensures State() == Created(old(State()), b, owner, db.batches, db.suites, winner)
    {
      owner, winner := None, None;
      if b.identity.None? {
        aborted, result := true, Some(Err(PortContract));
        return;
      }
      winner := WinnerOf(b.identity.value);
      var suite := SuiteOfRevision(b.identity.value.suiteRevisionId);
      owner := suite;
      if b.version != 0 || b.state != DraftBatch || suite.None? {
        aborted, result := true, Some(Err(PortContract));
        return;
      }
      suiteLocks := suiteLocks + {suite.value};
      if db.suites[suite.value].projectId != b.identity.value.projectId {
        aborted, result := true, Some(Err(PortContract));
        return;
      }
      if db.suites[suite.value].retiredAt.Some? {
        aborted, result := true, Some(Err(DomainConflict));
        return;
      }
      savepoint := Some(writes);
      var refused := Clashes(db.batches + writes, b.id, b.identity.value);
      if !refused {
        writes := writes[b.id := RowOf(b)];
        savepoint := None;
        result := Some(Ok(Replay(b, false)));
        return;
      }
      failed := true;
      writes := savepoint.value;
      failed := false;
      var stored := WinnerOf(b.identity.value);
      winner := stored;
      if stored.None? {
        aborted, result := true, Some(Err(PortContract));
        return;
      }
      var row := (db.batches + writes)[stored.value];
      if row.identity.request != b.identity.value.request {
        aborted, result := true, Some(Err(IdempotencyConflict));
      } else {
        result := Some(Ok(Replay(BatchOf(stored.value, row), true)));
      }
    }
  }
}
