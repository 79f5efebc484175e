/** Competing suite transactions under row locks: what every commit keeps of the
    history of a suite, over any interleaving. */
module SuiteProtocol {
  import opened Common
  import opened SuiteAggregate

  type Db = map<Id, SuiteRows>

  /** `pending` is a registration whose look-up found no suite yet. */
  datatype Tx = Tx(locks: set<Id>, writes: Db, snapshot: Option<Suite>, pending: Option<Suite>, aborted: bool)

  datatype Sys = Sys(db: Db, txs: map<Id, Tx>)

  datatype Step =
    | Begin(t: Id)
    | GetForUpdate(t: Id, id: Id)
    | RegisterLookup(t: Id, suite: Suite)
    | RegisterInsert(t: Id)
    | PublishRevision(t: Id, suite: Suite, expected: Suite)
    | PublishRetire(t: Id, suite: Suite, expected: Suite)
    | Finish(t: Id, raised: bool)

  function Seen(db: Db, tx: Tx, id: Id): Option<SuiteRows> {
    if id in tx.writes then Some(tx.writes[id]) else if id in db then Some(db[id]) else None
  }

  predicate LockFree(sys: Sys, t: Id, id: Id) {
    forall o :: o in sys.txs && o != t ==> id !in sys.txs[o].locks
  }

  predicate HasRevision(rows: Db, revision: Id) {
    exists s, i :: s in rows && 0 <= i < |rows[s].revisions| && rows[s].revisions[i].id == revision
  }

  predicate HasName(rows: Db, projectId: Id, name: Id) {
    exists s :: s in rows && rows[s].projectId == projectId && rows[s].name == name
  }

  /** An insert waits for another transaction's uncommitted row with its key. */
  predicate RevisionPending(sys: Sys, t: Id, revision: Id) {
    !HasRevision(sys.db, revision) && exists o :: o in sys.txs && o != t && HasRevision(sys.txs[o].writes, revision)
  }

  predicate NamePending(sys: Sys, t: Id, projectId: Id, name: Id) {
    !HasName(sys.db, projectId, name)
    && exists o :: o in sys.txs && o != t && HasName(sys.txs[o].writes, projectId, name)
  }

  function With(sys: Sys, t: Id, tx: Tx): Sys { sys.(txs := sys.txs[t := tx]) }

  /** The transaction after one call: its own rows, its snapshot, sticky abort. */
  function Applied(tx: Tx, id: Id, seen: Option<SuiteRows>, done: Done): Tx {
    tx.(writes := if done.rows.Some? && done.rows != seen then tx.writes[id := done.rows.value] else tx.writes,
        snapshot := done.snapshot, pending := None, aborted := tx.aborted || done.result.Err?)
  }

  function Lock(tx: Tx, id: Id, present: bool): Tx {
    if present then tx.(locks := tx.locks + {id}) else tx
  }

  function DoGet(sys: Sys, t: Id, id: Id): Sys
    requires t in sys.txs
  {
    var tx, seen := sys.txs[t], Seen(sys.db, sys.txs[t], id);
    if tx.snapshot.Some? then sys
    else if !LockFree(sys, t, id) && id in sys.db then sys
    else With(sys, t, Lock(tx, id, seen.Some?).(snapshot := Get(id, seen, None).1))
  }

  function DoLookup(sys: Sys, t: Id, suite: Suite): Sys
    requires t in sys.txs
  {
    var tx, seen := sys.txs[t], Seen(sys.db, sys.txs[t], suite.id);
    if seen.None? && Initial(suite) then With(sys, t, tx.(pending := Some(suite)))
    else if tx.snapshot.None? && Initial(suite) && !LockFree(sys, t, suite.id) then sys
    else
      With(sys, t, Applied(Lock(tx, suite.id, Initial(suite) && tx.snapshot.None? && seen.Some?), suite.id, seen,
                           Replayed(suite, seen, tx.snapshot)))
  }

  function DoInsert(sys: Sys, t: Id): Sys
    requires t in sys.txs
  {
    var tx := sys.txs[t];
    if tx.pending.None? || tx.pending.value.revisions == [] then sys
    else
      var suite := tx.pending.value;
      var first, seen := suite.revisions[0].id, Seen(sys.db, tx, suite.id);
      if !LockFree(sys, t, suite.id) || RevisionPending(sys, t, first) || NamePending(sys, t, suite.projectId, suite.name) then
        sys
      else
        var own := sys.db + tx.writes;
        var done := Inserted(suite, seen, tx.snapshot, HasRevision(own, first) || HasName(own, suite.projectId, suite.name));
        With(sys, t, Applied(Lock(tx, suite.id, done.result.Ok?), suite.id, seen, done))
  }

  function DoPublish(sys: Sys, t: Id, suite: Suite, expected: Suite): Sys
    requires t in sys.txs && WellFormed(suite) && WellFormed(expected)
  {
    var tx, seen := sys.txs[t], Seen(sys.db, sys.txs[t], suite.id);
    var added := suite.revisions[|suite.revisions| - 1].id;
    if RevisionPending(sys, t, added) then sys
    else
      With(sys, t, Applied(tx, suite.id, seen,
                           Revised(suite, expected, seen, tx.snapshot, HasRevision(sys.db + tx.writes, added))))
  }

  function DoRetire(sys: Sys, t: Id, suite: Suite, expected: Suite): Sys
    requires t in sys.txs && WellFormed(suite) && WellFormed(expected)
  {
    var tx, seen := sys.txs[t], Seen(sys.db, sys.txs[t], suite.id);
    With(sys, t, Applied(tx, suite.id, seen, Retired(suite, expected, seen, tx.snapshot)))
  }

  function Next(sys: Sys, step: Step): Sys {
    match step
    case Begin(t) =>
      if t in sys.txs then sys else With(sys, t, Tx({}, map[], None, None, false))
    case GetForUpdate(t, id) => if t in sys.txs then DoGet(sys, t, id) else sys
    case RegisterLookup(t, suite) => if t in sys.txs && WellFormed(suite) then DoLookup(sys, t, suite) else sys
    case RegisterInsert(t) => if t in sys.txs then DoInsert(sys, t) else sys
    case PublishRevision(t, suite, expected) =>
      if t in sys.txs && WellFormed(suite) && WellFormed(expected) then DoPublish(sys, t, suite, expected) else sys
    case PublishRetire(t, suite, expected) =>
      if t in sys.txs && WellFormed(suite) && WellFormed(expected) then DoRetire(sys, t, suite, expected) else sys
    case Finish(t, raised) =>
      if t in sys.txs then
        Sys(if sys.txs[t].aborted || raised then sys.db else sys.db + sys.txs[t].writes, sys.txs - {t})
      else sys
  }

  function After(sys: Sys, steps: seq<Step>): Sys {
    if |steps| == 0 then sys else Next(After(sys, steps[..|steps| - 1]), steps[|steps| - 1])
  }

  // ----- Invariant ---------------------------------------------------------

  predicate WritesInv(db: Db, tx: Tx) {
    forall s :: s in tx.writes ==> RowsInv(s, tx.writes[s]) && (s in db ==> Extends(db[s], tx.writes[s]))
  }

  predicate SnapshotInv(db: Db, tx: Tx) {
    tx.snapshot.Some? ==>
      var id := tx.snapshot.value.id;
      Seen(db, tx, id).Some? && Matches(tx.snapshot.value, Seen(db, tx, id).value)
  }

  predicate TxInv(db: Db, tx: Tx) {
    && tx.writes.Keys <= tx.locks
    && (tx.snapshot.Some? ==> tx.snapshot.value.id in tx.locks)
    && (tx.pending.Some? ==> WellFormed(tx.pending.value))
    && (!tx.aborted ==> WritesInv(db, tx) && SnapshotInv(db, tx))
  }

  predicate SysInv(sys: Sys) {
    && (forall s :: s in sys.db ==> RowsInv(s, sys.db[s]))
    && (forall t :: t in sys.txs ==> TxInv(sys.db, sys.txs[t]))
    && (forall t, o :: t in sys.txs && o in sys.txs && t != o ==> sys.txs[t].locks !! sys.txs[o].locks)
  }

  predicate DbExtends(a: Db, b: Db) {
    forall s :: s in a ==> s in b && Extends(a[s], b[s])
  }

  lemma WithKeepsInv(sys: Sys, t: Id, tx: Tx)
    requires SysInv(sys) && TxInv(sys.db, tx)
    requires forall id :: id in tx.locks && (t in sys.txs ==> id !in sys.txs[t].locks) ==> LockFree(sys, t, id)
    ensures SysInv(With(sys, t, tx))
  {
    hide TxInv, RowsInv;
    forall o | o in sys.txs && o != t
      ensures sys.txs[o].locks !! tx.locks
    {
      forall id | id in tx.locks
        ensures id !in sys.txs[o].locks
      {
      }
    }
  }

  lemma SeenInv(sys: Sys, t: Id, id: Id)
    requires SysInv(sys) && t in sys.txs && !sys.txs[t].aborted
    ensures Seen(sys.db, sys.txs[t], id).Some? ==> RowsInv(id, Seen(sys.db, sys.txs[t], id).value)
  {
    assert TxInv(sys.db, sys.txs[t]);
  }

  lemma GetKeeps(sys: Sys, t: Id, id: Id)
    requires SysInv(sys) && t in sys.txs
    ensures SysInv(DoGet(sys, t, id))
  {
    hide RowsInv, Load, WellFormed;
    var tx, seen := sys.txs[t], Seen(sys.db, sys.txs[t], id);
    var next := Lock(tx, id, seen.Some?).(snapshot := Get(id, seen, None).1);
    assert TxInv(sys.db, tx);
    if DoGet(sys, t, id) != sys {
      if !tx.aborted && seen.Some? {
        SeenInv(sys, t, id);
        Loaded(id, seen.value);
      }
      LoadedId(id, seen);
      assert TxInv(sys.db, next);
      assert id in tx.locks || id in sys.db || seen.None?;
      WithKeepsInv(sys, t, next);
    }
  }

  lemma Loaded(id: Id, rows: SuiteRows)
    requires RowsInv(id, rows)
    ensures Load(id, Some(rows)).Ok? && Load(id, Some(rows)).value.id == id && Matches(Load(id, Some(rows)).value, rows)
    ensures Load(id, Some(rows)) == Ok(SuiteOf(id, rows))
  {
    LoadInverts(id, rows);
  }

  lemma LoadedId(id: Id, rows: Option<SuiteRows>)
    ensures Load(id, rows).Ok? ==> rows.Some? && Load(id, rows).value.id == id
  {
  }

  lemma LookupKeeps(sys: Sys, t: Id, suite: Suite)
    requires SysInv(sys) && t in sys.txs && WellFormed(suite)
    ensures SysInv(DoLookup(sys, t, suite))
  {
    hide RowsInv, Load, WellFormed, SameRegistration;
    var tx, seen := sys.txs[t], Seen(sys.db, sys.txs[t], suite.id);
    assert TxInv(sys.db, tx);
    if DoLookup(sys, t, suite) != sys {
      if seen.None? && Initial(suite) {
        WithKeepsInv(sys, t, tx.(pending := Some(suite)));
      } else {
        if !tx.aborted && seen.Some? {
          SeenInv(sys, t, suite.id);
          Loaded(suite.id, seen.value);
        }
        LoadedId(suite.id, seen);
        var next := Applied(Lock(tx, suite.id, Initial(suite) && tx.snapshot.None? && seen.Some?), suite.id, seen,
                            Replayed(suite, seen, tx.snapshot));
        assert next.writes == tx.writes;
        assert TxInv(sys.db, next);
        WithKeepsInv(sys, t, next);
      }
    }
  }

  lemma FirstRowsInv(suite: Suite)
    requires WellFormed(suite) && Initial(suite)
    ensures var rows := SuiteRows(suite.projectId, suite.name, suite.version, None, suite.revisions);
            RowsInv(suite.id, rows) && Matches(suite, rows)
  {
  }

  lemma InsertKeeps(sys: Sys, t: Id)
    requires SysInv(sys) && t in sys.txs
    ensures SysInv(DoInsert(sys, t))
  {
    hide RowsInv, WellFormed, HasRevision, HasName, RevisionPending, NamePending;
    var tx := sys.txs[t];
    assert TxInv(sys.db, tx);
    if DoInsert(sys, t) != sys {
      var suite := tx.pending.value;
      var seen := Seen(sys.db, tx, suite.id);
      if Initial(suite) { FirstRowsInv(suite); }
      var next := DoInsert(sys, t).txs[t];
      assert TxInv(sys.db, next);
      WithKeepsInv(sys, t, next);
    }
  }

  lemma ExtendsTransitive(a: SuiteRows, b: SuiteRows, c: SuiteRows)
    requires Extends(a, b) && Extends(b, c)
    ensures Extends(a, c)
  {
  }

  /** A call on the locked suite that keeps the rows in order keeps the transaction so. */
  lemma AppliedKeeps(sys: Sys, t: Id, suite: Suite, expected: Suite, done: Done)
    requires SysInv(sys) && t in sys.txs
    requires var seen := Seen(sys.db, sys.txs[t], suite.id);
             && (sys.txs[t].snapshot != Some(expected) || suite.id != expected.id ==>
                   done.result.Err? && done.rows == seen && done.snapshot == sys.txs[t].snapshot)
             && (done.result.Err? ==> done.snapshot == sys.txs[t].snapshot)
             && (done.result.Ok? ==> done.snapshot == Some(suite))
             && (seen.None? ==> done.rows == None && done.result.Err?)
             && (done.result.Ok? && !sys.txs[t].aborted ==>
                   && done.rows.Some? && RowsInv(suite.id, done.rows.value) && Matches(suite, done.rows.value)
                   && Extends(seen.value, done.rows.value))
    ensures SysInv(With(sys, t, Applied(sys.txs[t], suite.id, Seen(sys.db, sys.txs[t], suite.id), done)))
  {
    hide RowsInv, WellFormed;
    var tx, seen := sys.txs[t], Seen(sys.db, sys.txs[t], suite.id);
    var next := Applied(tx, suite.id, seen, done);
    assert TxInv(sys.db, tx);
    if !next.aborted {
      forall s | s in next.writes
        ensures RowsInv(s, next.writes[s]) && (s in sys.db ==> Extends(sys.db[s], next.writes[s]))
      {
        if s == suite.id && s in tx.writes && s in sys.db {
          ExtendsTransitive(sys.db[s], tx.writes[s], done.rows.value);
        }
      }
    }
    assert TxInv(sys.db, next);
    WithKeepsInv(sys, t, next);
  }

  lemma PublishKeeps(sys: Sys, t: Id, suite: Suite, expected: Suite)
    requires SysInv(sys) && t in sys.txs && WellFormed(suite) && WellFormed(expected)
    ensures SysInv(DoPublish(sys, t, suite, expected))
  {
    hide RevisionPending, HasRevision;
    var tx, seen := sys.txs[t], Seen(sys.db, sys.txs[t], suite.id);
    var taken := HasRevision(sys.db + tx.writes, suite.revisions[|suite.revisions| - 1].id);
    var done := Revised(suite, expected, seen, tx.snapshot, taken);
    assert TxInv(sys.db, tx);
    if done.result.Ok? && !tx.aborted {
      SeenInv(sys, t, suite.id);
      RevisedKeeps(suite, expected, seen.value, taken);
    }
    AppliedKeeps(sys, t, suite, expected, done);
  }

  lemma RetireKeeps(sys: Sys, t: Id, suite: Suite, expected: Suite)
    requires SysInv(sys) && t in sys.txs && WellFormed(suite) && WellFormed(expected)
    ensures SysInv(DoRetire(sys, t, suite, expected))
  {
    var tx, seen := sys.txs[t], Seen(sys.db, sys.txs[t], suite.id);
    var done := Retired(suite, expected, seen, tx.snapshot);
    assert TxInv(sys.db, tx);
    if done.result.Ok? && !tx.aborted {
      SeenInv(sys, t, suite.id);
      RetiredKeeps(suite, expected, seen.value);
    }
    AppliedKeeps(sys, t, suite, expected, done);
  }

  lemma FinishKeeps(sys: Sys, t: Id, raised: bool)
    requires SysInv(sys) && t in sys.txs
    ensures SysInv(Next(sys, Finish(t, raised))) && DbExtends(sys.db, Next(sys, Finish(t, raised)).db)
  {
    hide RowsInv, WellFormed, Extends;
    var next := Next(sys, Finish(t, raised));
    assert TxInv(sys.db, sys.txs[t]);
    forall s | s in sys.db
      ensures Extends(sys.db[s], next.db[s])
    {
      if next.db[s] == sys.db[s] { ExtendsReflexive(sys.db[s]); }
    }
    forall o | o in next.txs
      ensures TxInv(next.db, next.txs[o])
    {
      assert TxInv(sys.db, sys.txs[o]);
      assert forall s :: s in sys.txs[o].locks ==> s !in sys.txs[t].writes;
      assert forall s :: s in sys.txs[o].locks ==> Seen(next.db, sys.txs[o], s) == Seen(sys.db, sys.txs[o], s);
    }
  }

  lemma ExtendsReflexive(a: SuiteRows)
    ensures Extends(a, a)
  {
  }

  lemma NextKeepsInv(sys: Sys, step: Step)
    requires SysInv(sys)
    ensures SysInv(Next(sys, step)) && DbExtends(sys.db, Next(sys, step).db)
    ensures Next(sys, step).db != sys.db ==> CommitsWhole(sys, step)
  {
    hide DoGet, DoLookup, DoInsert, DoPublish, DoRetire, RowsInv, WellFormed;
    OnlyFinishCommits(sys, step);
    match step
    case Begin(t) => if t !in sys.txs { WithKeepsInv(sys, t, Tx({}, map[], None, None, false)); }
    case GetForUpdate(t, id) => if t in sys.txs { GetKeeps(sys, t, id); }
    case RegisterLookup(t, suite) => if t in sys.txs && WellFormed(suite) { LookupKeeps(sys, t, suite); }
    case RegisterInsert(t) => if t in sys.txs { InsertKeeps(sys, t); }
    case PublishRevision(t, suite, expected) =>
      if t in sys.txs && WellFormed(suite) && WellFormed(expected) { PublishKeeps(sys, t, suite, expected); }
    case PublishRetire(t, suite, expected) =>
      if t in sys.txs && WellFormed(suite) && WellFormed(expected) { RetireKeeps(sys, t, suite, expected); }
    case Finish(t, raised) => if t in sys.txs { FinishKeeps(sys, t, raised); }
  }

  /** The one way the tables change: the whole write set of a transaction in which
      no call raised. */
  predicate CommitsWhole(sys: Sys, step: Step) {
    && step.Finish? && step.t in sys.txs && !step.raised && !sys.txs[step.t].aborted
    && Next(sys, step).db == sys.db + sys.txs[step.t].writes
  }

  lemma OnlyFinishCommits(sys: Sys, step: Step)
    ensures Next(sys, step).db != sys.db ==> CommitsWhole(sys, step)
    ensures !step.Finish? ==> Next(sys, step).db == sys.db
  {
    hide LockFree, RevisionPending, NamePending, HasRevision, HasName, WellFormed, Replayed, Revised, Retired, Inserted;
  }

  /** Over any interleaving of competing transactions: revision lists only grow,
      the version counts revisions and retirement, a retired suite never changes,
      one version has one content, and no suite is lost. */
  lemma {:induction false} HistoriesExtend(sys: Sys, steps: seq<Step>)
    requires SysInv(sys)
    ensures SysInv(After(sys, steps)) && DbExtends(sys.db, After(sys, steps).db)
  {
    if |steps| > 0 {
      hide Next, SysInv, Extends;
      var front := After(sys, steps[..|steps| - 1]);
      HistoriesExtend(sys, steps[..|steps| - 1]);
      NextKeepsInv(front, steps[|steps| - 1]);
      var last := After(sys, steps);
      forall s | s in sys.db
        ensures s in last.db && Extends(sys.db[s], last.db[s])
      {
        ExtendsTransitive(sys.db[s], front.db[s], last.db[s]);
      }
    } else {
      forall s | s in sys.db
        ensures Extends(sys.db[s], sys.db[s])
      {
        ExtendsReflexive(sys.db[s]);
      }
    }
  }

  /** What the histories say about one suite, in numbers. */
  lemma HistoryOfOne(sys: Sys, steps: seq<Step>, s: Id)
    requires SysInv(sys) && s in sys.db
    ensures s in After(sys, steps).db
    ensures var a, b := sys.db[s], After(sys, steps).db[s];
            && a.revisions <= b.revisions
            && b.version + 1 == |b.revisions| + (if b.retiredAt.Some? then 1 else 0)
            && (a.retiredAt.Some? ==> b == a)
            && (b.version == a.version ==> b == a)
  {
    HistoriesExtend(sys, steps);
  }

  lemma AbortedStep(sys: Sys, step: Step, t: Id)
    requires t in sys.txs && sys.txs[t].aborted && !(step.Finish? && step.t == t)
    ensures t in Next(sys, step).txs && Next(sys, step).txs[t].aborted
  {
    hide LockFree, RevisionPending, NamePending, HasRevision, HasName, WellFormed, Replayed, Revised, Retired, Inserted, Get;
  }

  /** Once a call has raised, such as a version update refused after its revision
      was inserted, no later call of the transaction and nothing others do lets it
      change a table, however it ends. */
  lemma {:induction false} AbortIsSticky(sys: Sys, steps: seq<Step>, t: Id, raised: bool)
    requires t in sys.txs && sys.txs[t].aborted
    requires forall i :: 0 <= i < |steps| ==> !(steps[i].Finish? && steps[i].t == t)
    ensures t in After(sys, steps).txs && After(sys, steps).txs[t].aborted
    ensures Next(After(sys, steps), Finish(t, raised)).db == After(sys, steps).db
  {
    if |steps| > 0 {
      hide DoGet, DoLookup, DoInsert, DoPublish, DoRetire;
      AbortIsSticky(sys, steps[..|steps| - 1], t, raised);
      AbortedStep(After(sys, steps[..|steps| - 1]), steps[|steps| - 1], t);
    }
  }

  /** In every reachable state at most one transaction has loaded a suite, so of
      any contenders on one version at most one is ever in a position to publish. */
  lemma OneHolderPerSuite(sys: Sys, steps: seq<Step>, t: Id, o: Id)
    requires SysInv(sys) && t != o && t in After(sys, steps).txs && o in After(sys, steps).txs
    requires After(sys, steps).txs[t].snapshot.Some? && After(sys, steps).txs[o].snapshot.Some?
    ensures After(sys, steps).txs[t].snapshot.value.id != After(sys, steps).txs[o].snapshot.value.id
  {
    HistoriesExtend(sys, steps);
    hide After, WritesInv, SnapshotInv;
    var now := After(sys, steps);
    assert TxInv(now.db, now.txs[t]) && TxInv(now.db, now.txs[o]);
  }

  /** A registration whose look-up missed a suite that is there by the time of its
      insert raises and is undone: only a later attempt can replay it. */
  lemma LateRegistrationLoses(sys: Sys, t: Id, suite: Suite)
    requires SysInv(sys) && t in sys.txs && sys.txs[t].pending == Some(suite) && Initial(suite)
    requires suite.id in sys.db && DoInsert(sys, t) != sys
    ensures DoInsert(sys, t).txs[t].aborted && DoInsert(sys, t).txs[t].writes == sys.txs[t].writes
  {
  }
}
