/** The one-shot suite transaction object, statement by statement, each method
    tied to the function of its operation. */
module SuiteGateway {
  import opened Common
  import opened SuiteAggregate
  import opened SuiteProtocol

  class Suites {
    var db: Db

    constructor ()
      ensures db == map[]
    {
      db := map[];
    }
  }

  class Gateway {
    const table: Suites
    var active: bool
    var closed: bool
    var aborted: bool
    var locks: set<Id>
    var writes: Db
    var snapshot: Option<Suite>

    constructor (table: Suites)
      ensures this.table == table && !active && !closed && State() == Tx({}, map[], None, None, false)
    {
      this.table := table;
      active, closed, aborted, locks, writes, snapshot := false, false, false, {}, map[], None;
    }

    ghost function State(): Tx
      reads this
    {
      Tx(locks, writes, snapshot, None, aborted)
    }

    function View(id: Id): Option<SuiteRows>
      reads this, table
    {
      if id in writes then Some(writes[id]) else if id in table.db then Some(table.db[id]) else None
    }

    method Enter() returns (r: Result<()>)
      modifies this
      ensures r.Ok? <==> !old(closed) && !old(active)
      ensures active == (old(active) || r.Ok?) && closed == old(closed) && State() == old(State())
    {
      if closed || active {
        return Err(PortContract);
      }
      active := true;
      r := Ok(());
    }

    /** The whole write set is installed, or none of it. */
    method Exit(raised: bool) returns (r: Result<()>)
      modifies this, table
      ensures r.Ok? <==> old(active)
      ensures r.Ok? ==> closed && !active
      ensures table.db == if old(active) && !raised && !old(aborted) then old(table.db) + old(writes) else old(table.db)
      ensures State() == old(State())
    {
      if !active {
        return Err(PortContract);
      }
      if !raised && !aborted {
        table.db := table.db + writes;
      }
      active, closed := false, true;
      r := Ok(());
    }

    method GetSuiteForUpdate(id: Id) returns (r: Result<Suite>)
      requires active
      modifies this
      ensures active && closed == old(closed)
      ensures r == Get(id, old(View(id)), old(snapshot)).0
      ensures State() == Lock(old(State()), id, old(snapshot).None? && old(View(id)).Some?)
                         .(snapshot := Get(id, old(View(id)), old(snapshot)).1)
    {
      if snapshot.Some? {
        if snapshot.value.id != id {
          return Err(PortContract);
        }
        return Ok(snapshot.value);
      }
      var row := View(id);
      if row.None? {
        return Err(PortContract);
      }
      locks := locks + {id};
      r := Load(id, row);
      if r.Ok? {
        snapshot := Some(r.value);
      }
    }

    /** Look up, then replay or insert; whatever raises marks the transaction. */
    method Register(suite: Suite, taken: bool) returns (r: Result<Replay<Suite>>)
      requires active && WellFormed(suite)
      modifies this
      ensures active && closed == old(closed)
      ensures var seen := old(View(suite.id));
              && (seen.Some? || !Initial(suite) ==>
                    && r == Replayed(suite, seen, old(snapshot)).result
                    && State() == Applied(Lock(old(State()), suite.id, Initial(suite) && old(snapshot).None? && seen.Some?),
                                          suite.id, seen, Replayed(suite, seen, old(snapshot))))
              && (seen.None? && Initial(suite) ==>
                    && r == Inserted(suite, None, old(snapshot), taken).result
                    && State() == Applied(Lock(old(State()), suite.id, r.Ok?), suite.id, None,
                                          Inserted(suite, None, old(snapshot), taken)))
    {
      r := RegisterCall(suite, taken);
      if r.Err? {
        aborted := true;
      }
    }

    method RegisterCall(suite: Suite, taken: bool) returns (r: Result<Replay<Suite>>)
      requires active && WellFormed(suite)
      modifies this
      ensures active && closed == old(closed) && aborted == old(aborted)
      ensures var seen := old(View(suite.id));
              var done := if seen.Some? || !Initial(suite) then Replayed(suite, seen, old(snapshot))
                          else Inserted(suite, None, old(snapshot), taken);
              && r == done.result && snapshot == done.snapshot
              && locks == Lock(old(State()), suite.id,
                               Initial(suite) && if seen.Some? then old(snapshot).None? else r.Ok?).locks
              && writes == if done.rows.Some? && done.rows != seen then old(writes)[suite.id := done.rows.value] else old(writes)
    {
      if suite.version != 0 || |suite.revisions| != 1 {
        return Err(PortContract);
      }
      if View(suite.id).Some? {
        var loaded := GetSuiteForUpdate(suite.id);
        if loaded.Err? {
          return Err(loaded.error);
        }
        if loaded.value.revisions != [] && SameRegistration(loaded.value, suite) {
          return Ok(Replay(loaded.value, true));
        }
        return Err(PortContract);
      }
      if taken || suite.retiredAt.Some? {
        return Err(ConstraintViolation);
      }
      locks := locks + {suite.id};
      writes := writes[suite.id := SuiteRows(suite.projectId, suite.name, suite.version, None, [])];
      writes := writes[suite.id := writes[suite.id].(revisions := writes[suite.id].revisions + suite.revisions)];
      assert [] + suite.revisions == suite.revisions;
      snapshot := Some(suite);
      r := Ok(Replay(suite, false));
    }

    method PublishRevision(suite: Suite, expected: Suite, taken: bool) returns (r: Result<Replay<Suite>>)
      requires active && WellFormed(suite) && WellFormed(expected)
      modifies this
      ensures active && closed == old(closed)
      ensures var done := Revised(suite, expected, old(View(suite.id)), old(snapshot), taken);
              r == done.result && State() == Applied(old(State()), suite.id, old(View(suite.id)), done)
    {
      var before := aborted;
      aborted, r := true, Err(VersionConflict);
      if snapshot != Some(expected) {
        return;
      }
      if suite.id != expected.id || suite.version != expected.version + 1
         || |suite.revisions| != |expected.revisions| + 1
         || suite.revisions[..|suite.revisions| - 1] != expected.revisions {
        return Err(PortContract);
      }
      var row := View(suite.id);
      if row.None? || taken {
        return Err(ConstraintViolation);
      }
      var inserted := row.value.(revisions := row.value.revisions + [suite.revisions[|suite.revisions| - 1]]);
      assert |inserted.revisions| != |row.value.revisions|;
      writes := writes[suite.id := inserted];
      if inserted.version != expected.version || inserted.retiredAt.Some? {
        return;
      }
      writes := writes[suite.id := inserted.(version := suite.version)];
      snapshot := Some(suite);
      aborted, r := before, Ok(Replay(suite, false));
    }

    method PublishRetire(suite: Suite, expected: Suite) returns (r: Result<Replay<Suite>>)
      requires active && WellFormed(suite) && WellFormed(expected)
      modifies this
      ensures active && closed == old(closed)
      ensures var done := Retired(suite, expected, old(View(suite.id)), old(snapshot));
              r == done.result && State() == Applied(old(State()), suite.id, old(View(suite.id)), done)
    {
      var before := aborted;
      aborted, r := true, Err(VersionConflict);
      if snapshot != Some(expected) {
        return;
      }
      if suite.id != expected.id || suite.retiredAt.None? || suite.version != expected.version + 1
         || suite.revisions != expected.revisions {
        return Err(PortContract);
      }
      var row := View(suite.id);
      if row.None? || row.value.version != expected.version || row.value.retiredAt.Some? {
        return;
      }
      writes := writes[suite.id := row.value.(retiredAt := suite.retiredAt, version := suite.version)];
      snapshot := Some(suite);
      aborted, r := before, Ok(Replay(suite, false));
    }
  }
}
