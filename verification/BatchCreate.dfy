/** Creating a Batch once per idempotency key: the suite check under its row lock,
    the insert inside a savepoint, and the recovery that replays the stored row. */
module BatchCreate {
  import opened Common
  import opened SuiteAggregate
  import opened BatchTables

  datatype Identity = Identity(projectId: Id, suiteRevisionId: Id, request: Digest, scope: Id, key: Id, createdAt: Time)

  /** A Batch value; a lifecycle-only one carries no create identity. */
  datatype Batch = Batch(id: Id, state: BatchState, version: nat, identity: Option<Identity>, priority: Id,
                         deadline: Option<Time>)

  datatype Row = Row(state: BatchState, version: nat, identity: Identity, priority: Id, deadline: Option<Time>)

  type Table = map<Id, Row>

  type Suites = map<Id, SuiteRows>

  /** Where a create stands between its statements. */
  datatype Call = Idle | Accepted(batch: Batch) | Violated(batch: Batch) | RolledBack(batch: Batch)

  /** `failed` is set by a statement that raised and refuses all but a rollback. */
  datatype Tx = Tx(writes: Table, savepoint: Option<Table>, failed: bool, suiteLocks: set<Id>, call: Call,
                   result: Option<Result<Replay<Batch>>>, aborted: bool)

  function RowOf(b: Batch): Row
    requires b.identity.Some?
  {
    Row(b.state, b.version, b.identity.value, b.priority, b.deadline)
  }

  function BatchOf(id: Id, r: Row): Batch { Batch(id, r.state, r.version, Some(r.identity), r.priority, r.deadline) }

  predicate SameKey(a: Identity, b: Identity) { a.scope == b.scope && a.key == b.key }

  predicate HasRevision(rows: SuiteRows, revision: Id) {
    exists i :: 0 <= i < |rows.revisions| && rows.revisions[i].id == revision
  }

  /** What a unique index on the id or on (scope, key) would refuse. */
  predicate Clashes(table: Table, id: Id, identity: Identity) {
    id in table || exists i :: i in table && SameKey(table[i].identity, identity)
  }

  // ----- Statements --------------------------------------------------------

  function Raise(tx: Tx, error: Error): Tx {
    tx.(call := Idle, result := Some(Err(error)), aborted := true)
  }

  /** The argument checks, then the suite row of the revision, locked and checked. */
  function Accept(tx: Tx, b: Batch, owner: Option<Id>, suites: Suites): Tx
    requires owner.Some? ==> owner.value in suites
  {
    if b.identity.None? then Raise(tx, PortContract)
    else if b.version != 0 || b.state != DraftBatch then Raise(tx, PortContract)
    else if owner.None? then Raise(tx, PortContract)
    else
      var locked := tx.(suiteLocks := tx.suiteLocks + {owner.value});
      if suites[owner.value].projectId != b.identity.value.projectId then Raise(locked, PortContract)
      else if suites[owner.value].retiredAt.Some? then Raise(locked, DomainConflict)
      else locked.(call := Accepted(b))
  }

  /** SAVEPOINT, INSERT, and RELEASE when the insert went through. */
  function Insert(tx: Tx, table: Table): Tx
    requires tx.call.Accepted? && tx.call.batch.identity.Some?
  {
    var b := tx.call.batch;
    if Clashes(table + tx.writes, b.id, b.identity.value) then
      tx.(savepoint := Some(tx.writes), failed := true, call := Violated(b))
    else
      tx.(writes := tx.writes[b.id := RowOf(b)], savepoint := None, call := Idle, result := Some(Ok(Replay(b, false))))
  }

  /** ROLLBACK TO SAVEPOINT. */
  function RollBack(tx: Tx): Tx
    requires tx.call.Violated? && tx.savepoint.Some?
  {
    tx.(writes := tx.savepoint.value, failed := false, call := RolledBack(tx.call.batch))
  }

  /** Look the winner up by its key: replay it, refuse another digest, or none there. */
  function Recover(tx: Tx, winner: Option<Id>, table: Table): Tx
    requires tx.call.RolledBack? && tx.call.batch.identity.Some?
    requires winner.Some? ==> winner.value in table + tx.writes
  {
    if winner.None? then Raise(tx, PortContract)
    else
      var stored := (table + tx.writes)[winner.value];
      if stored.identity.request != tx.call.batch.identity.value.request then Raise(tx, IdempotencyConflict)
      else tx.(call := Idle, result := Some(Ok(Replay(BatchOf(winner.value, stored), true))))
  }

  /** After a refused insert the transaction can run nothing; rolled back to its
      savepoint it has exactly the view it had before, and can run the look-up. */
  lemma SavepointRestores(tx: Tx, table: Table)
    requires tx.call.Accepted? && tx.call.batch.identity.Some? && !tx.failed
    ensures Insert(tx, table).failed <==> Clashes(table + tx.writes, tx.call.batch.id, tx.call.batch.identity.value)
    ensures Insert(tx, table).failed ==>
              var back := RollBack(Insert(tx, table));
              back.writes == tx.writes && !back.failed && back.aborted == tx.aborted
              && back.suiteLocks == tx.suiteLocks && back.call == RolledBack(tx.call.batch)
  {
  }

  // ----- The system --------------------------------------------------------

  datatype Sys = Sys(table: Table, suites: Suites, txs: map<Id, Tx>)

  datatype Step =
    | Begin(t: Id)
    | DoAccept(t: Id, batch: Batch, owner: Option<Id>)
    | DoInsert(t: Id)
    | DoRollBack(t: Id)
    | DoRecover(t: Id, winner: Option<Id>)
    | Finish(t: Id, raised: bool)
    | OtherGateway(id: Id, state: BatchState, version: nat)
    | SuiteCommit(id: Id, rows: SuiteRows)

  predicate SuiteLockFree(sys: Sys, t: Id, s: Id) {
    forall o :: o in sys.txs && o != t ==> s !in sys.txs[o].suiteLocks
  }

  predicate Owns(suites: Suites, owner: Option<Id>, revision: Id) {
    match owner
    case Some(s) => s in suites && HasRevision(suites[s], revision)
    case None => forall s :: s in suites ==> !HasRevision(suites[s], revision)
  }

  /** An insert that no visible row refuses waits for another transaction's
      uncommitted row with its id or key. */
  predicate InsertWaits(sys: Sys, t: Id, id: Id, identity: Identity) {
    exists o :: o in sys.txs && o != t && Clashes(sys.txs[o].writes, id, identity)
  }

  predicate IsWinner(rows: Table, winner: Option<Id>, identity: Identity) {
    match winner
    case Some(i) => i in rows && SameKey(rows[i].identity, identity)
    case None => forall i :: i in rows ==> !SameKey(rows[i].identity, identity)
  }

  function With(sys: Sys, t: Id, tx: Tx): Sys { sys.(txs := sys.txs[t := tx]) }

  predicate InitialCreate(b: Batch) { b.identity.Some? && b.version == 0 && b.state == DraftBatch }

  /** The suite row is waited for once the arguments have passed. */
  predicate MayAccept(sys: Sys, t: Id, b: Batch, owner: Option<Id>)
    requires t in sys.txs
  {
    && sys.txs[t].call.Idle? && !sys.txs[t].failed
    && (b.identity.Some? ==> Owns(sys.suites, owner, b.identity.value.suiteRevisionId))
    && (owner.Some? ==> owner.value in sys.suites && (InitialCreate(b) ==> SuiteLockFree(sys, t, owner.value)))
  }

  function Next(sys: Sys, step: Step): Sys {
    match step
    case Begin(t) =>
      if t in sys.txs then sys else With(sys, t, Tx(map[], None, false, {}, Idle, None, false))
    case DoAccept(t, b, owner) =>
      if t in sys.txs && MayAccept(sys, t, b, owner) then With(sys, t, Accept(sys.txs[t], b, owner, sys.suites)) else sys
    case DoInsert(t) =>
      if t in sys.txs && sys.txs[t].call.Accepted? && sys.txs[t].call.batch.identity.Some?
         && (InsertWaits(sys, t, sys.txs[t].call.batch.id, sys.txs[t].call.batch.identity.value) ==>
               Clashes(sys.table + sys.txs[t].writes, sys.txs[t].call.batch.id, sys.txs[t].call.batch.identity.value)) then
        With(sys, t, Insert(sys.txs[t], sys.table))
      else sys
    case DoRollBack(t) =>
      if t in sys.txs && sys.txs[t].call.Violated? && sys.txs[t].savepoint.Some? then
        With(sys, t, RollBack(sys.txs[t]))
      else sys
    case DoRecover(t, winner) =>
      if t in sys.txs && sys.txs[t].call.RolledBack? && sys.txs[t].call.batch.identity.Some?
         && IsWinner(sys.table + sys.txs[t].writes, winner, sys.txs[t].call.batch.identity.value) then
        With(sys, t, Recover(sys.txs[t], winner, sys.table))
      else sys
    case Finish(t, raised) =>
      if t in sys.txs then
        sys.(table := if sys.txs[t].aborted || sys.txs[t].failed || raised then sys.table else sys.table + sys.txs[t].writes,
             txs := sys.txs - {t})
      else sys
    case OtherGateway(id, state, version) =>
      if id in sys.table then sys.(table := sys.table[id := sys.table[id].(state := state, version := version)]) else sys
    case SuiteCommit(id, rows) =>
      if (forall o :: o in sys.txs ==> id !in sys.txs[o].suiteLocks) && (id in sys.suites ==> Extends(sys.suites[id], rows)) then
        sys.(suites := sys.suites[id := rows])
      else sys
  }

  function After(sys: Sys, steps: seq<Step>): Sys {
    if |steps| == 0 then sys else Next(After(sys, steps[..|steps| - 1]), steps[|steps| - 1])
  }

  // ----- Invariant ---------------------------------------------------------

  predicate KeysUnique(rows: Table) {
    forall a, b :: a in rows && b in rows && SameKey(rows[a].identity, rows[b].identity) ==> a == b
  }

  predicate Apart(a: Table, b: Table) {
    forall i, j :: i in a && j in b ==> i != j && !SameKey(a[i].identity, b[j].identity)
  }

  /** The suite of an own row is locked, active, and of the row's project. */
  predicate Backed(suites: Suites, tx: Tx, r: Row) {
    exists s :: s in tx.suiteLocks && s in suites && HasRevision(suites[s], r.identity.suiteRevisionId)
                && suites[s].retiredAt.None? && suites[s].projectId == r.identity.projectId
  }

  predicate CallInv(suites: Suites, tx: Tx) {
    && (!tx.call.Idle? ==> tx.call.batch.identity.Some? && tx.call.batch.state == DraftBatch && tx.call.batch.version == 0
                           && Backed(suites, tx, RowOf(tx.call.batch)))
    && (tx.call.Accepted? ==> !tx.failed)
    && (tx.call.Violated? ==> tx.savepoint == Some(tx.writes))
  }

  predicate TxInv(sys: Sys, tx: Tx) {
    && KeysUnique(tx.writes) && Apart(sys.table, tx.writes) && CallInv(sys.suites, tx)
    && forall i :: i in tx.writes ==> Backed(sys.suites, tx, tx.writes[i])
  }

  predicate SysInv(sys: Sys) {
    && KeysUnique(sys.table)
    && (forall t :: t in sys.txs ==> TxInv(sys, sys.txs[t]))
    && (forall t, o :: t in sys.txs && o in sys.txs && t != o ==> Apart(sys.txs[t].writes, sys.txs[o].writes))
  }

  /** Every row stays, under its id, with the identity it was created with. */
  predicate TableGrows(a: Table, b: Table) {
    forall i :: i in a ==> i in b && b[i].identity == a[i].identity
                           && b[i].priority == a[i].priority && b[i].deadline == a[i].deadline
  }

  lemma WithKeepsInv(sys: Sys, t: Id, tx: Tx)
    requires SysInv(sys) && TxInv(sys, tx)
    requires forall o :: o in sys.txs && o != t ==> Apart(sys.txs[o].writes, tx.writes)
    ensures SysInv(With(sys, t, tx))
  {
    hide Backed, KeysUnique, CallInv;
  }

  lemma AcceptKeeps(sys: Sys, t: Id, b: Batch, owner: Option<Id>)
    requires SysInv(sys) && t in sys.txs && MayAccept(sys, t, b, owner)
    ensures SysInv(Next(sys, DoAccept(t, b, owner)))
  {
    hide KeysUnique, Apart, SuiteLockFree, HasRevision;
    var tx := sys.txs[t];
    var next := Accept(tx, b, owner, sys.suites);
    assert TxInv(sys, tx) && tx.suiteLocks <= next.suiteLocks && next.writes == tx.writes;
    forall i | i in next.writes
      ensures Backed(sys.suites, next, next.writes[i])
    {
      assert Backed(sys.suites, tx, tx.writes[i]);
    }
    if next.call.Accepted? {
      assert owner.value in next.suiteLocks;
    }
    WithKeepsInv(sys, t, next);
  }

  lemma InsertKeeps(sys: Sys, t: Id)
    requires SysInv(sys) && t in sys.txs
    ensures SysInv(Next(sys, DoInsert(t)))
  {
    hide HasRevision;
    var tx := sys.txs[t];
    assert TxInv(sys, tx);
    if Next(sys, DoInsert(t)) != sys {
      var b := tx.call.batch;
      var next := Insert(tx, sys.table);
      if !Clashes(sys.table + tx.writes, b.id, b.identity.value) {
        FreshRow(sys.table, tx.writes, b);
        forall i | i in next.writes
          ensures Backed(sys.suites, next, next.writes[i])
        {
          assert Backed(sys.suites, tx, if i == b.id then RowOf(b) else tx.writes[i]);
        }
        forall o | o in sys.txs && o != t
          ensures Apart(sys.txs[o].writes, next.writes)
        {
          assert !Clashes(sys.txs[o].writes, b.id, b.identity.value);
          OneMore(sys.txs[o].writes, tx.writes, b);
        }
      } else {
        SameBacking(sys, tx, next);
      }
      WithKeepsInv(sys, t, next);
    }
  }

  lemma SameBacking(sys: Sys, tx: Tx, next: Tx)
    requires next.writes == tx.writes && next.suiteLocks == tx.suiteLocks
    ensures forall r :: Backed(sys.suites, next, r) == Backed(sys.suites, tx, r)
  {
  }

  lemma OneMore(others: Table, writes: Table, b: Batch)
    requires Apart(others, writes) && b.identity.Some? && !Clashes(others, b.id, b.identity.value)
    ensures Apart(others, writes[b.id := RowOf(b)])
  {
  }

  lemma FreshRow(table: Table, writes: Table, b: Batch)
    requires KeysUnique(writes) && Apart(table, writes)
    requires b.identity.Some? && !Clashes(table + writes, b.id, b.identity.value)
    ensures KeysUnique(writes[b.id := RowOf(b)]) && Apart(table, writes[b.id := RowOf(b)])
  {
    var rows := table + writes;
    assert forall i :: i in table ==> i in rows && rows[i] == (if i in writes then writes[i] else table[i]);
    assert forall i :: i in writes ==> i in rows && rows[i] == writes[i];
  }

  lemma FinishKeeps(sys: Sys, t: Id, raised: bool)
    requires SysInv(sys) && t in sys.txs
    ensures SysInv(Next(sys, Finish(t, raised))) && TableGrows(sys.table, Next(sys, Finish(t, raised)).table)
  {
    hide Backed, CallInv;
    var next := Next(sys, Finish(t, raised));
    assert TxInv(sys, sys.txs[t]);
    forall o | o in next.txs
      ensures TxInv(next, next.txs[o])
    {
      assert TxInv(sys, sys.txs[o]) && Apart(sys.txs[t].writes, sys.txs[o].writes);
    }
  }

  lemma OtherKeeps(sys: Sys, id: Id, state: BatchState, version: nat)
    requires SysInv(sys) && id in sys.table
    ensures SysInv(Next(sys, OtherGateway(id, state, version)))
  {
    hide Backed, CallInv;
    var next := Next(sys, OtherGateway(id, state, version));
    forall t | t in sys.txs
      ensures TxInv(next, sys.txs[t])
    {
      assert TxInv(sys, sys.txs[t]);
    }
  }

  lemma SuiteCommitKeeps(sys: Sys, id: Id, rows: SuiteRows)
    requires SysInv(sys) && forall o :: o in sys.txs ==> id !in sys.txs[o].suiteLocks
    ensures SysInv(sys.(suites := sys.suites[id := rows]))
  {
    hide KeysUnique, Apart, HasRevision;
    var next := sys.(suites := sys.suites[id := rows]);
    forall t | t in sys.txs
      ensures TxInv(next, sys.txs[t])
    {
      assert TxInv(sys, sys.txs[t]);
      forall r | Backed(sys.suites, sys.txs[t], r)
        ensures Backed(next.suites, sys.txs[t], r)
      {
        var s :| s in sys.txs[t].suiteLocks && s in sys.suites
                 && HasRevision(sys.suites[s], r.identity.suiteRevisionId)
                 && sys.suites[s].retiredAt.None? && sys.suites[s].projectId == r.identity.projectId;
        assert next.suites[s] == sys.suites[s];
      }
    }
  }

  lemma SameWritesKeep(sys: Sys, t: Id, next: Tx)
    requires SysInv(sys) && t in sys.txs && next.writes == sys.txs[t].writes && next.suiteLocks == sys.txs[t].suiteLocks
    requires CallInv(sys.suites, next)
    ensures SysInv(With(sys, t, next))
  {
    hide KeysUnique, Apart, CallInv;
    assert TxInv(sys, sys.txs[t]);
    SameBacking(sys, sys.txs[t], next);
    WithKeepsInv(sys, t, next);
  }

  lemma BeginKeeps(sys: Sys, t: Id)
    requires SysInv(sys) && t !in sys.txs
    ensures SysInv(Next(sys, Begin(t)))
  {
    WithKeepsInv(sys, t, Tx(map[], None, false, {}, Idle, None, false));
  }

  lemma RecoveryKeeps(sys: Sys, step: Step)
    requires SysInv(sys) && (step.DoRollBack? || step.DoRecover?)
    ensures SysInv(Next(sys, step))
  {
    hide KeysUnique, Apart, Backed, IsWinner;
    if Next(sys, step) != sys {
      assert TxInv(sys, sys.txs[step.t]);
      var next := Next(sys, step).txs[step.t];
      SameBacking(sys, sys.txs[step.t], next);
      SameWritesKeep(sys, step.t, next);
    }
  }

  lemma TableStays(sys: Sys, step: Step)
    requires !step.Finish?
    ensures TableGrows(sys.table, Next(sys, step).table)
  {
    hide MayAccept, Accept, Insert, RollBack, Recover, InsertWaits, IsWinner, Extends;
  }

  lemma NextKeepsInv(sys: Sys, step: Step)
    requires SysInv(sys)
    ensures SysInv(Next(sys, step)) && TableGrows(sys.table, Next(sys, step).table)
  {
    hide SysInv, TableGrows, Accept, Insert, RollBack, Recover, InsertWaits, IsWinner, Extends;
    if !step.Finish? { TableStays(sys, step); }
    match step
    case Begin(t) => if t !in sys.txs { BeginKeeps(sys, t); }
    case DoAccept(t, b, owner) =>
      if t in sys.txs && MayAccept(sys, t, b, owner) { AcceptKeeps(sys, t, b, owner); }
    case DoInsert(t) => if t in sys.txs { InsertKeeps(sys, t); }
    case DoRollBack(t) => RecoveryKeeps(sys, step);
    case DoRecover(t, winner) => RecoveryKeeps(sys, step);
    case Finish(t, raised) => if t in sys.txs { FinishKeeps(sys, t, raised); } else { TableSame(sys.table); }
    case OtherGateway(id, state, version) => if id in sys.table { OtherKeeps(sys, id, state, version); }
    case SuiteCommit(id, rows) =>
      if Next(sys, step) != sys { SuiteCommitKeeps(sys, id, rows); }
  }

  lemma TableSame(table: Table)
    ensures TableGrows(table, table)
  {
  }

  // ----- Theorems ----------------------------------------------------------

  /** Over any run there is at most one Batch per (scope, key), and every created
      Batch stays, with the identity it was created with. */
  lemma {:induction false} CreatedOnce(sys: Sys, steps: seq<Step>)
    requires SysInv(sys)
    ensures SysInv(After(sys, steps)) && KeysUnique(After(sys, steps).table)
    ensures TableGrows(sys.table, After(sys, steps).table)
  {
    if |steps| > 0 {
      hide SysInv, Next, KeysUnique;
      CreatedOnce(sys, steps[..|steps| - 1]);
      NextKeepsInv(After(sys, steps[..|steps| - 1]), steps[|steps| - 1]);
    }
    InvHasUniqueKeys(After(sys, steps));
  }

  lemma InvHasUniqueKeys(sys: Sys)
    requires SysInv(sys)
    ensures KeysUnique(sys.table)
  {
  }

  /** Whatever happened since Batch `first` was committed, a create with its key
      that gets past the suite check is refused by the insert, and its recovery
      replays the stored row exactly when the digests agree. */
  lemma LaterCreateReplays(sys: Sys, steps: seq<Step>, first: Id, t: Id)
    requires SysInv(sys) && first in sys.table
    requires var now := After(sys, steps);
             && t in now.txs && now.txs[t].call.Accepted? && now.txs[t].call.batch.identity.Some?
             && SameKey(now.txs[t].call.batch.identity.value, sys.table[first].identity)
    ensures var now := After(sys, steps);
            var tx := now.txs[t];
            && Insert(tx, now.table).call.Violated? && Insert(tx, now.table).savepoint.Some?
            && var recovered := RollBack(Insert(tx, now.table));
            && !recovered.failed && recovered.writes == tx.writes && recovered.suiteLocks == tx.suiteLocks
            && first in now.table && IsWinner(now.table + tx.writes, Some(first), tx.call.batch.identity.value)
            && (forall winner :: IsWinner(now.table + tx.writes, winner, tx.call.batch.identity.value) ==> winner == Some(first))
            && Recover(recovered, Some(first), now.table).result
               == Some(if tx.call.batch.identity.value.request == sys.table[first].identity.request
                       then Ok(Replay(BatchOf(first, now.table[first]), true)) else Err(IdempotencyConflict))
            && Recover(recovered, Some(first), now.table).writes == tx.writes
  {
    CreatedOnce(sys, steps);
    hide After, Next;
    var now := After(sys, steps);
    var tx := now.txs[t];
    assert TxInv(now, tx);
    var rows := now.table + tx.writes;
    assert first in rows && rows[first] == now.table[first];
    assert forall i :: i in rows ==> rows[i] == if i in tx.writes then tx.writes[i] else now.table[i];
    assert Clashes(rows, tx.call.batch.id, tx.call.batch.identity.value);
    SavepointRestores(tx, now.table);
  }

  predicate StillRetired(suites: Suites, s: Id) { s in suites && suites[s].retiredAt.Some? }

  lemma RetiredStep(sys: Sys, step: Step, s: Id)
    requires StillRetired(sys.suites, s)
    ensures StillRetired(Next(sys, step).suites, s)
  {
    hide MayAccept, Accept, Insert, RollBack, Recover, InsertWaits, IsWinner, Clashes;
  }

  lemma {:induction false} RetiredStays(sys: Sys, steps: seq<Step>, s: Id)
    requires StillRetired(sys.suites, s)
    ensures StillRetired(After(sys, steps).suites, s)
  {
    if |steps| > 0 {
      hide Next, StillRetired;
      RetiredStays(sys, steps[..|steps| - 1], s);
      RetiredStep(After(sys, steps[..|steps| - 1]), steps[|steps| - 1], s);
    }
  }

  /** The suite that owns a revision goes on owning it, for the same project. */
  lemma OwnerStep(sys: Sys, step: Step, s: Id, revision: Id)
    requires s in sys.suites && HasRevision(sys.suites[s], revision)
    ensures var next := Next(sys, step).suites;
            s in next && HasRevision(next[s], revision) && next[s].projectId == sys.suites[s].projectId
  {
    hide MayAccept, Accept, Insert, RollBack, Recover, InsertWaits, IsWinner, Clashes;
    if step.SuiteCommit? && step.id == s && Next(sys, step).suites != sys.suites {
      var i :| 0 <= i < |sys.suites[s].revisions| && sys.suites[s].revisions[i].id == revision;
      assert step.rows.revisions[i] == sys.suites[s].revisions[i];
    }
  }

  lemma {:induction false} OwnerStays(sys: Sys, steps: seq<Step>, s: Id, revision: Id)
    requires s in sys.suites && HasRevision(sys.suites[s], revision)
    ensures var now := After(sys, steps).suites;
            s in now && HasRevision(now[s], revision) && now[s].projectId == sys.suites[s].projectId
  {
    if |steps| > 0 {
      hide Next, HasRevision;
      OwnerStays(sys, steps[..|steps| - 1], s, revision);
      OwnerStep(After(sys, steps[..|steps| - 1]), steps[|steps| - 1], s, revision);
    }
  }

  /** The suite check comes before the look-up by key: once the suite of a stored
      create is retired, at every later time an exact repeat of that create is
      refused as a domain conflict, and a repeat that names another project for
      the same revision as a contract violation. */
  lemma RetiredSuiteStopsReplay(sys: Sys, steps: seq<Step>, first: Id, t: Id, owner: Id, b: Batch)
    requires SysInv(sys) && first in sys.table && StillRetired(sys.suites, owner)
    requires HasRevision(sys.suites[owner], sys.table[first].identity.suiteRevisionId)
    requires InitialCreate(b) && b.identity.value.suiteRevisionId == sys.table[first].identity.suiteRevisionId
    requires t in After(sys, steps).txs
    ensures var now := After(sys, steps);
            && first in now.table && Owns(now.suites, Some(owner), b.identity.value.suiteRevisionId)
            && var tx := Accept(now.txs[t], b, Some(owner), now.suites);
            && tx.aborted && tx.call == Idle && tx.writes == now.txs[t].writes
            && tx.result == Some(Err(if b.identity.value.projectId == sys.suites[owner].projectId then DomainConflict
                                     else PortContract))
  {
    hide SysInv, KeysUnique, After, HasRevision;
    CreatedOnce(sys, steps);
    RetiredStays(sys, steps, owner);
    OwnerStays(sys, steps, owner, sys.table[first].identity.suiteRevisionId);
  }

  /** The suite lock is held to the end: at the moment a Batch becomes visible its
      suite is still active and owns its revision. */
  lemma CommittedUnderActiveSuite(sys: Sys, t: Id, id: Id)
    requires SysInv(sys) && t in sys.txs && id in Next(sys, Finish(t, false)).table && id !in sys.table
    ensures exists s :: s in sys.suites && sys.suites[s].retiredAt.None?
              && sys.suites[s].projectId == Next(sys, Finish(t, false)).table[id].identity.projectId
              && HasRevision(sys.suites[s], Next(sys, Finish(t, false)).table[id].identity.suiteRevisionId)
  {
    assert TxInv(sys, sys.txs[t]);
    assert Backed(sys.suites, sys.txs[t], sys.txs[t].writes[id]);
  }
}
