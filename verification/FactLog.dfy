/** Any number of fact-store transactions interleaved statement by statement.
    Own writes stay private until commit; an insert whose primary key another
    open transaction holds waits for it, and fails when the key is committed. */
module FactLog {
  import opened Common
  import opened FactTables

  /** Where a transaction is inside one commit call. */
  datatype Progress =
    | Idle
    | Looked(c: Command)
    | Saw(c: Command, current: Option<nat>)
    | Inserted(c: Command)

  datatype Tx = Tx(own: Facts, at: Progress)

  datatype Log = Log(db: Facts, txs: map<Id, Tx>)

  datatype Step =
    | Begin(t: Id)
    | LookUp(t: Id, c: Command)
    | SeeCurrent(t: Id)
    | InsertFact(t: Id)
    | InsertCommand(t: Id)
    | CommitTx(t: Id)
    | Rollback(t: Id)

  /** Committed rows plus the transaction's own. */
  function View(db: Facts, own: Facts): Facts {
    Facts(db.snapshots + own.snapshots, db.commands + own.commands)
  }

  predicate PendingSlot(log: Log, t: Id, s: Slot) {
    exists u :: u in log.txs && u != t && s in log.txs[u].own.snapshots
  }

  predicate PendingCommand(log: Log, t: Id, k: IdempotencyKey) {
    exists u :: u in log.txs && u != t && k in log.txs[u].own.commands
  }

  function Put(log: Log, t: Id, r: Result<Tx>): Log {
    if r.Ok? then log.(txs := log.txs[t := r.value]) else log.(txs := log.txs - {t})
  }

  /** Payload checks and the idempotency lookup; a replay ends the call. */
  function DoLookUp(codecs: map<Id, Codec>, log: Log, t: Id, c: Command): Log {
    if t in log.txs && log.txs[t].at.Idle? then
      var tx := log.txs[t];
      var payload := Prepare(codecs, c);
      if payload.Err? then Put(log, t, Err(payload.error))
      else
        var replay := ReplayCommand(codecs, View(log.db, tx.own), c, payload.value);
        if replay.Err? then Put(log, t, Err(replay.error))
        else Put(log, t, Ok(tx.(at := if replay.value.Some? then Idle else Looked(c))))
    else log
  }

  /** Read the newest row; what it says may be stale by the time of the insert. */
  function DoSeeCurrent(codecs: map<Id, Codec>, log: Log, t: Id): Log {
    if t in log.txs && log.txs[t].at.Looked? then
      var tx := log.txs[t];
      var snapshots := View(log.db, tx.own).snapshots;
      var current := Latest(snapshots, tx.at.c.key);
      if current.Some? && DecodeFact(codecs, Slot(tx.at.c.key, current.value),
                                     snapshots[Slot(tx.at.c.key, current.value)]).Err? then
        Put(log, t, Err(PortContract))
      else Put(log, t, Ok(tx.(at := Saw(tx.at.c, current))))
    else log
  }

  /** The version check and the insert under the key (kind, key, version). */
  function DoInsertFact(codecs: map<Id, Codec>, log: Log, t: Id): Log {
    if t in log.txs && log.txs[t].at.Saw? && Prepare(codecs, log.txs[t].at.c).Ok? then
      var tx := log.txs[t];
      var c := tx.at.c;
      var slot := Slot(c.key, c.fact.version);
      var required := RequiredVersion(c, tx.at.current);
      if required.Err? then Put(log, t, Err(required.error))
      else if c.fact.version != required.value then Put(log, t, Err(PortContract))
      else if PendingSlot(log, t, slot) then log
      else if slot in View(log.db, tx.own).snapshots then Put(log, t, Err(ConstraintViolation))
      else
        var row := RowOfFact(c, Prepare(codecs, c).value);
        Put(log, t, Ok(Tx(tx.own.(snapshots := tx.own.snapshots[slot := row]), Inserted(c))))
    else log
  }

  /** The insert under the key (scope, key). */
  function DoInsertCommand(codecs: map<Id, Codec>, log: Log, t: Id): Log {
    if t in log.txs && log.txs[t].at.Inserted? && Prepare(codecs, log.txs[t].at.c).Ok? then
      var tx := log.txs[t];
      var c := tx.at.c;
      if PendingCommand(log, t, c.idempotency) then log
      else if c.idempotency in View(log.db, tx.own).commands then Put(log, t, Err(ConstraintViolation))
      else
        var row := RowOfCommand(c, Prepare(codecs, c).value);
        Put(log, t, Ok(Tx(tx.own.(commands := tx.own.commands[c.idempotency := row]), Idle)))
    else log
  }

  /** A commit between calls installs the whole write set. */
  function DoCommit(log: Log, t: Id): Log {
    if t in log.txs && log.txs[t].at.Idle? then Log(View(log.db, log.txs[t].own), log.txs - {t}) else log
  }

  function Next(codecs: map<Id, Codec>, log: Log, step: Step): Log {
    match step
    case Begin(t) => if t in log.txs then log else log.(txs := log.txs[t := Tx(Facts(map[], map[]), Idle)])
    case LookUp(t, c) => DoLookUp(codecs, log, t, c)
    case SeeCurrent(t) => DoSeeCurrent(codecs, log, t)
    case InsertFact(t) => DoInsertFact(codecs, log, t)
    case InsertCommand(t) => DoInsertCommand(codecs, log, t)
    case CommitTx(t) => DoCommit(log, t)
    case Rollback(t) => log.(txs := log.txs - {t})
  }

  function After(codecs: map<Id, Codec>, log: Log, steps: seq<Step>): Log {
    if |steps| == 0 then log else Next(codecs, After(codecs, log, steps[..|steps| - 1]), steps[|steps| - 1])
  }

  // ----- Invariant ---------------------------------------------------------

  function Prev(s: Slot): Slot
    requires s.version > 0
  {
    Slot(s.key, s.version - 1)
  }

  /** No version without its predecessor. */
  predicate GapFree(snapshots: map<Slot, SnapshotRow>) {
    forall s {:trigger Prev(s)} :: s in snapshots && s.version > 0 ==> Prev(s) in snapshots
  }

  predicate RowsDecode(codecs: map<Id, Codec>, snapshots: map<Slot, SnapshotRow>) {
    forall s :: s in snapshots ==> DecodeFact(codecs, s, snapshots[s]).Ok?
  }

  /** Every command row points at a snapshot carrying its digest, and comes from a
      command that could be prepared. */
  predicate CommandsPoint(codecs: map<Id, Codec>, facts: Facts) {
    forall k :: k in facts.commands ==>
      facts.commands[k].slot in facts.snapshots && facts.snapshots[facts.commands[k].slot].digest == facts.commands[k].payload
  }

  predicate FactsInv(codecs: map<Id, Codec>, facts: Facts) {
    GapFree(facts.snapshots) && RowsDecode(codecs, facts.snapshots) && CommandsPoint(codecs, facts)
  }

  predicate ProgressInv(codecs: map<Id, Codec>, db: Facts, tx: Tx) {
    match tx.at
    case Idle => true
    case Looked(c) => Prepare(codecs, c).Ok?
    case Saw(c, current) =>
      Prepare(codecs, c).Ok? && (current.Some? ==> Slot(c.key, current.value) in View(db, tx.own).snapshots)
    case Inserted(c) =>
      && Prepare(codecs, c).Ok?
      && Slot(c.key, c.fact.version) in tx.own.snapshots
      && tx.own.snapshots[Slot(c.key, c.fact.version)] == RowOfFact(c, Prepare(codecs, c).value)
  }

  predicate TxInv(codecs: map<Id, Codec>, db: Facts, tx: Tx) {
    Separate(db, tx.own) && FactsInv(codecs, View(db, tx.own)) && ProgressInv(codecs, db, tx)
  }

  predicate Separate(a: Facts, b: Facts) {
    a.snapshots.Keys !! b.snapshots.Keys && a.commands.Keys !! b.commands.Keys
  }

  predicate LogInv(codecs: map<Id, Codec>, log: Log) {
    && FactsInv(codecs, log.db)
    && (forall t :: t in log.txs ==> TxInv(codecs, log.db, log.txs[t]))
    && (forall t, u :: t in log.txs && u in log.txs && t != u ==> Separate(log.txs[t].own, log.txs[u].own))
  }

  // ----- Every step keeps it ----------------------------------------------

  lemma PreparedDecodes(codecs: map<Id, Codec>, c: Command)
    requires Prepare(codecs, c).Ok?
    ensures DecodeFact(codecs, Slot(c.key, c.fact.version), RowOfFact(c, Prepare(codecs, c).value)) == Ok(c.fact)
  {
  }

  lemma PutKeeps(codecs: map<Id, Codec>, log: Log, t: Id, r: Result<Tx>)
    requires LogInv(codecs, log)
    requires r.Ok? ==>
      TxInv(codecs, log.db, r.value) && forall u :: u in log.txs && u != t ==> Separate(r.value.own, log.txs[u].own)
    ensures LogInv(codecs, Put(log, t, r))
  {
    hide FactsInv, TxInv;
  }

  lemma LookUpKeeps(codecs: map<Id, Codec>, log: Log, t: Id, c: Command)
    requires LogInv(codecs, log)
    ensures LogInv(codecs, DoLookUp(codecs, log, t, c))
  {
    if t in log.txs && log.txs[t].at.Idle? {
      hide FactsInv, ReplayCommand, Prepare, Put;
      var tx := log.txs[t];
      assert TxInv(codecs, log.db, tx);
      PutKeeps(codecs, log, t, Err(PortContract));
      PutKeeps(codecs, log, t, Ok(tx.(at := Idle)));
      var payload := Prepare(codecs, c);
      if payload.Ok? {
        PutKeeps(codecs, log, t, Ok(tx.(at := Looked(c))));
        var replay := ReplayCommand(codecs, View(log.db, tx.own), c, payload.value);
        if replay.Err? {
          PutKeeps(codecs, log, t, Err(replay.error));
        }
      } else {
        PutKeeps(codecs, log, t, Err(payload.error));
      }
    }
  }

  lemma SeeKeeps(codecs: map<Id, Codec>, log: Log, t: Id)
    requires LogInv(codecs, log)
    ensures LogInv(codecs, DoSeeCurrent(codecs, log, t))
  {
    if t in log.txs && log.txs[t].at.Looked? {
      hide FactsInv, Prepare, Put, DecodeFact;
      var tx := log.txs[t];
      assert TxInv(codecs, log.db, tx);
      var current := Latest(View(log.db, tx.own).snapshots, tx.at.c.key);
      hide Latest;
      PutKeeps(codecs, log, t, Err(PortContract));
      PutKeeps(codecs, log, t, Ok(tx.(at := Saw(tx.at.c, current))));
    }
  }

  /** The one new slot follows a version that is already visible. */
  lemma InsertedKeeps(codecs: map<Id, Codec>, db: Facts, tx: Tx)
    requires TxInv(codecs, db, tx) && tx.at.Saw?
    requires RequiredVersion(tx.at.c, tx.at.current) == Ok(tx.at.c.fact.version)
    requires Slot(tx.at.c.key, tx.at.c.fact.version) !in View(db, tx.own).snapshots
    ensures var row := RowOfFact(tx.at.c, Prepare(codecs, tx.at.c).value);
            TxInv(codecs, db, Tx(tx.own.(snapshots := tx.own.snapshots[Slot(tx.at.c.key, tx.at.c.fact.version) := row]),
                                 Inserted(tx.at.c)))
  {
    hide Prepare, DecodeFact, FactsInv;
    var c := tx.at.c;
    var slot, row := Slot(c.key, c.fact.version), RowOfFact(c, Prepare(codecs, c).value);
    PreparedDecodes(codecs, c);
    ExtendedInv(codecs, View(db, tx.own), slot, row);
    ViewOfWrite(db, tx.own, slot, row, c.idempotency, RowOfCommand(c, Prepare(codecs, c).value));
  }

  /** ... and no other open transaction has written it. */
  lemma InsertFactKeeps(codecs: map<Id, Codec>, log: Log, t: Id)
    requires LogInv(codecs, log)
    ensures LogInv(codecs, DoInsertFact(codecs, log, t))
  {
    if t in log.txs && log.txs[t].at.Saw? && Prepare(codecs, log.txs[t].at.c).Ok? {
      var tx := log.txs[t];
      assert TxInv(codecs, log.db, tx);
      var c := tx.at.c;
      var slot := Slot(c.key, c.fact.version);
      var required := RequiredVersion(c, tx.at.current);
      hide Put, Prepare, DecodeFact, FactsInv, RequiredVersion;
      if required.Err? {
        PutKeeps(codecs, log, t, Err(required.error));
      } else if c.fact.version != required.value {
        PutKeeps(codecs, log, t, Err(PortContract));
      } else if !PendingSlot(log, t, slot) {
        if slot in View(log.db, tx.own).snapshots {
          PutKeeps(codecs, log, t, Err(ConstraintViolation));
        } else {
          InsertedKeeps(codecs, log.db, tx);
          var row := RowOfFact(c, Prepare(codecs, c).value);
          PutKeeps(codecs, log, t, Ok(Tx(tx.own.(snapshots := tx.own.snapshots[slot := row]), Inserted(c))));
        }
      }
    }
  }

  /** A write to the own rows is a write to what is seen. */
  lemma ViewOfWrite(db: Facts, own: Facts, slot: Slot, row: SnapshotRow, k: IdempotencyKey, command: CommandRow)
    ensures View(db, own.(snapshots := own.snapshots[slot := row]))
            == Facts(View(db, own).snapshots[slot := row], View(db, own).commands)
    ensures View(db, own.(commands := own.commands[k := command]))
            == Facts(View(db, own).snapshots, View(db, own).commands[k := command])
  {
    assert db.snapshots + own.snapshots[slot := row] == (db.snapshots + own.snapshots)[slot := row];
    assert db.commands + own.commands[k := command] == (db.commands + own.commands)[k := command];
  }

  lemma ExtendedInv(codecs: map<Id, Codec>, facts: Facts, slot: Slot, row: SnapshotRow)
    requires FactsInv(codecs, facts) && slot !in facts.snapshots
    requires slot.version > 0 ==> Prev(slot) in facts.snapshots
    requires DecodeFact(codecs, slot, row).Ok?
    ensures FactsInv(codecs, Facts(facts.snapshots[slot := row], facts.commands))
  {
    hide DecodeFact, Prev;
  }

  lemma CommandAdded(codecs: map<Id, Codec>, facts: Facts, k: IdempotencyKey, row: CommandRow)
    requires FactsInv(codecs, facts) && k !in facts.commands
    requires row.slot in facts.snapshots && facts.snapshots[row.slot].digest == row.payload
    ensures FactsInv(codecs, Facts(facts.snapshots, facts.commands[k := row]))
  {
    hide DecodeFact, GapFree, RowsDecode;
  }

  lemma InsertCommandKeeps(codecs: map<Id, Codec>, log: Log, t: Id)
    requires LogInv(codecs, log)
    ensures LogInv(codecs, DoInsertCommand(codecs, log, t))
  {
    if t in log.txs && log.txs[t].at.Inserted? && Prepare(codecs, log.txs[t].at.c).Ok? {
      hide Put, Prepare, DecodeFact, FactsInv;
      var tx := log.txs[t];
      assert TxInv(codecs, log.db, tx);
      var c := tx.at.c;
      if !PendingCommand(log, t, c.idempotency) {
        if c.idempotency in View(log.db, tx.own).commands {
          PutKeeps(codecs, log, t, Err(ConstraintViolation));
        } else {
          var row := RowOfCommand(c, Prepare(codecs, c).value);
          var own := tx.own.(commands := tx.own.commands[c.idempotency := row]);
          CommandAdded(codecs, View(log.db, tx.own), c.idempotency, row);
          ViewOfWrite(log.db, tx.own, row.slot, RowOfFact(c, Prepare(codecs, c).value), c.idempotency, row);
          PutKeeps(codecs, log, t, Ok(Tx(own, Idle)));
        }
      }
    }
  }

  lemma CommitKeeps(codecs: map<Id, Codec>, log: Log, t: Id)
    requires LogInv(codecs, log)
    ensures LogInv(codecs, DoCommit(log, t))
  {
    if t in log.txs && log.txs[t].at.Idle? {
      hide DecodeFact, Prepare;
      var tx := log.txs[t];
      assert TxInv(codecs, log.db, tx);
      var db := View(log.db, tx.own);
      forall u | u in log.txs && u != t
        ensures TxInv(codecs, db, log.txs[u])
      {
        assert TxInv(codecs, log.db, log.txs[u]) && Separate(tx.own, log.txs[u].own);
        OthersKeep(codecs, log.db, tx.own, log.txs[u]);
      }
    }
  }

  lemma MergedRows(codecs: map<Id, Codec>, db: Facts, a: Facts, b: Facts)
    requires FactsInv(codecs, View(db, a)) && FactsInv(codecs, View(db, b))
    requires Separate(a, b) && Separate(db, a) && Separate(db, b)
    ensures GapFree(View(View(db, a), b).snapshots) && RowsDecode(codecs, View(View(db, a), b).snapshots)
  {
    hide DecodeFact, CommandsPoint, Prev;
    var now := View(View(db, a), b);
    forall s | s in now.snapshots
      ensures DecodeFact(codecs, s, now.snapshots[s]).Ok?
      ensures s.version > 0 ==> Prev(s) in now.snapshots
    {
      if s in b.snapshots {
        assert View(db, b).snapshots[s] == now.snapshots[s];
        if s.version > 0 { StillThere(db, a, b, Prev(s)); }
      } else {
        assert View(db, a).snapshots[s] == now.snapshots[s];
        if s.version > 0 { StillThere(db, b, a, Prev(s)); }
      }
    }
  }

  lemma MergedCommands(codecs: map<Id, Codec>, db: Facts, a: Facts, b: Facts)
    requires CommandsPoint(codecs, View(db, a)) && CommandsPoint(codecs, View(db, b))
    requires Separate(a, b) && Separate(db, a) && Separate(db, b)
    ensures CommandsPoint(codecs, View(View(db, a), b))
  {
    var now := View(View(db, a), b);
    forall k | k in now.commands
      ensures now.commands[k].slot in now.snapshots
      ensures now.snapshots[now.commands[k].slot].digest == now.commands[k].payload
    {
      if k in b.commands {
        assert View(db, b).commands[k] == now.commands[k];
        StillThere(db, a, b, now.commands[k].slot);
      } else {
        assert View(db, a).commands[k] == now.commands[k];
        StillThere(db, b, a, now.commands[k].slot);
      }
    }
  }

  /** Another transaction's commit only adds to what an open one sees. */
  lemma OthersKeep(codecs: map<Id, Codec>, db: Facts, own: Facts, tx: Tx)
    requires FactsInv(codecs, View(db, own)) && TxInv(codecs, db, tx) && Separate(own, tx.own) && Separate(db, own)
    ensures TxInv(codecs, View(db, own), tx)
  {
    hide DecodeFact, Prepare, GapFree, RowsDecode, CommandsPoint;
    MergedRows(codecs, db, own, tx.own);
    MergedCommands(codecs, db, own, tx.own);
  }

  lemma StillThere(db: Facts, a: Facts, b: Facts, s: Slot)
    requires Separate(a, b) && Separate(db, a) && Separate(db, b)
    requires s in View(db, b).snapshots
    ensures s in View(View(db, a), b).snapshots && View(View(db, a), b).snapshots[s] == View(db, b).snapshots[s]
    ensures s in View(View(db, b), a).snapshots && View(View(db, b), a).snapshots[s] == View(db, b).snapshots[s]
  {
  }

  lemma BeginKeeps(codecs: map<Id, Codec>, log: Log, t: Id)
    requires LogInv(codecs, log)
    ensures LogInv(codecs, log.(txs := log.txs[t := Tx(Facts(map[], map[]), Idle)]))
  {
    hide FactsInv;
    assert View(log.db, Facts(map[], map[])) == log.db;
    PutKeeps(codecs, log, t, Ok(Tx(Facts(map[], map[]), Idle)));
  }

  lemma RollbackKeeps(codecs: map<Id, Codec>, log: Log, t: Id)
    requires LogInv(codecs, log)
    ensures LogInv(codecs, log.(txs := log.txs - {t}))
  {
    PutKeeps(codecs, log, t, Err(PortContract));
  }

  /** Every step of every transaction keeps the log well formed. */
  lemma NextKeepsInv(codecs: map<Id, Codec>, log: Log, step: Step)
    requires LogInv(codecs, log)
    ensures LogInv(codecs, Next(codecs, log, step))
  {
    hide DoLookUp, DoSeeCurrent, DoInsertFact, DoInsertCommand, DoCommit, LogInv;
    match step
    case Begin(t) => BeginKeeps(codecs, log, t);
    case LookUp(t, c) => LookUpKeeps(codecs, log, t, c);
    case SeeCurrent(t) => SeeKeeps(codecs, log, t);
    case InsertFact(t) => InsertFactKeeps(codecs, log, t);
    case InsertCommand(t) => InsertCommandKeeps(codecs, log, t);
    case CommitTx(t) => CommitKeeps(codecs, log, t);
    case Rollback(t) => RollbackKeeps(codecs, log, t);
  }

  lemma {:induction false} AfterKeepsInv(codecs: map<Id, Codec>, log: Log, steps: seq<Step>)
    requires LogInv(codecs, log)
    ensures LogInv(codecs, After(codecs, log, steps))
  {
    if |steps| > 0 {
      hide LogInv, Next;
      AfterKeepsInv(codecs, log, steps[..|steps| - 1]);
      NextKeepsInv(codecs, After(codecs, log, steps[..|steps| - 1]), steps[|steps| - 1]);
    }
  }

  // ----- Theorems ----------------------------------------------------------

  /** The log only grows: nothing stored is changed or removed. */
  predicate Grows(a: Facts, b: Facts) {
    && (forall s :: s in a.snapshots ==> s in b.snapshots && b.snapshots[s] == a.snapshots[s])
    && (forall k :: k in a.commands ==> k in b.commands && b.commands[k] == a.commands[k])
  }

  lemma StepGrows(codecs: map<Id, Codec>, log: Log, step: Step)
    requires LogInv(codecs, log)
    ensures Grows(log.db, Next(codecs, log, step).db)
  {
    hide FactsInv, ProgressInv, Grows, DoLookUp, DoSeeCurrent, DoInsertFact, DoInsertCommand;
    if step.CommitTx? && step.t in log.txs {
      assert TxInv(codecs, log.db, log.txs[step.t]);
      ViewGrows(log.db, log.txs[step.t].own);
    } else {
      OthersLeaveDb(codecs, log, step);
    }
    ViewGrows(log.db, Facts(map[], map[]));
    assert View(log.db, Facts(map[], map[])) == log.db;
  }

  lemma ViewGrows(db: Facts, own: Facts)
    requires Separate(db, own)
    ensures Grows(db, View(db, own))
  {
  }

  lemma OthersLeaveDb(codecs: map<Id, Codec>, log: Log, step: Step)
    requires !step.CommitTx? || step.t !in log.txs
    ensures Next(codecs, log, step).db == log.db
  {
    hide Prepare, ReplayCommand, Latest, DecodeFact, RequiredVersion, PendingSlot, PendingCommand, View;
  }

  lemma {:induction false} OnlyGrows(codecs: map<Id, Codec>, log: Log, steps: seq<Step>)
    requires LogInv(codecs, log)
    ensures Grows(log.db, After(codecs, log, steps).db)
  {
    if |steps| > 0 {
      hide LogInv, Next;
      OnlyGrows(codecs, log, steps[..|steps| - 1]);
      AfterKeepsInv(codecs, log, steps[..|steps| - 1]);
      StepGrows(codecs, After(codecs, log, steps[..|steps| - 1]), steps[|steps| - 1]);
    }
  }

  lemma {:induction false} LowerVersionsStored(snapshots: map<Slot, SnapshotRow>, key: FactKey, top: nat, v: nat)
    requires GapFree(snapshots) && Slot(key, top) in snapshots && v <= top
    ensures Slot(key, v) in snapshots
    decreases top
  {
    if v < top {
      assert Prev(Slot(key, top)) == Slot(key, top - 1);
      LowerVersionsStored(snapshots, key, top - 1, v);
    }
  }

  /** In every reachable state the versions of a key are exactly 0 to the latest. */
  lemma VersionsAreContiguous(codecs: map<Id, Codec>, log: Log, steps: seq<Step>, key: FactKey, v: nat)
    requires LogInv(codecs, log)
    ensures var snapshots := After(codecs, log, steps).db.snapshots;
            Slot(key, v) in snapshots <==> Latest(snapshots, key).Some? && v <= Latest(snapshots, key).value
  {
    AfterKeepsInv(codecs, log, steps);
    var snapshots := After(codecs, log, steps).db.snapshots;
    var latest := Latest(snapshots, key);
    hide After;
    if latest.Some? && v <= latest.value {
      LowerVersionsStored(snapshots, key, latest.value, v);
    }
  }

  /** An accepted command, sent again after any number of later steps and from
      any transaction between calls, is answered with its original fact and
      changes neither the tables nor the transaction's own rows. */
  lemma AcceptedCommandReplays(codecs: map<Id, Codec>, log: Log, steps: seq<Step>, t: Id, c: Command)
    requires LogInv(codecs, log) && Prepare(codecs, c).Ok?
    requires c.idempotency in log.db.commands
    requires log.db.commands[c.idempotency] == RowOfCommand(c, Prepare(codecs, c).value)
    ensures var later := After(codecs, log, steps);
            t in later.txs && later.txs[t].at.Idle? ==>
              && ReplayCommand(codecs, View(later.db, later.txs[t].own), c, Prepare(codecs, c).value) == Ok(Some(c.fact))
              && DoLookUp(codecs, later, t, c) == later
  {
    hide After, Next, LogInv, Prepare, ReplayCommand, FactsInv, RowOfCommand;
    AfterKeepsInv(codecs, log, steps);
    OnlyGrows(codecs, log, steps);
    var later := After(codecs, log, steps);
    if t in later.txs && later.txs[t].at.Idle? {
      TxOf(codecs, later, t);
      CommandReplaysIn(codecs, later.db, later.txs[t].own, c);
      assert later.txs == later.txs[t := later.txs[t].(at := Idle)];
    }
  }

  lemma TxOf(codecs: map<Id, Codec>, log: Log, t: Id)
    requires LogInv(codecs, log) && t in log.txs
    ensures TxInv(codecs, log.db, log.txs[t])
  {
  }

  lemma CommandReplaysIn(codecs: map<Id, Codec>, db: Facts, own: Facts, c: Command)
    requires Separate(db, own) && FactsInv(codecs, View(db, own)) && Prepare(codecs, c).Ok?
    requires c.idempotency in db.commands
    requires db.commands[c.idempotency] == RowOfCommand(c, Prepare(codecs, c).value)
    ensures ReplayCommand(codecs, View(db, own), c, Prepare(codecs, c).value) == Ok(Some(c.fact))
  {
    var view := View(db, own);
    assert view.commands[c.idempotency] == RowOfCommand(c, Prepare(codecs, c).value);
    StoredReplays(codecs, view, c);
  }

  lemma StoredReplays(codecs: map<Id, Codec>, view: Facts, c: Command)
    requires FactsInv(codecs, view) && Prepare(codecs, c).Ok?
    requires c.idempotency in view.commands
    requires view.commands[c.idempotency] == RowOfCommand(c, Prepare(codecs, c).value)
    ensures ReplayCommand(codecs, view, c, Prepare(codecs, c).value) == Ok(Some(c.fact))
  {
    hide GapFree;
    var slot, payload := Slot(c.key, c.fact.version), Prepare(codecs, c).value;
    assert slot in view.snapshots && view.snapshots[slot].digest == payload;
    var latest := Latest(view.snapshots, c.key);
    assert DecodeFact(codecs, slot, view.snapshots[slot]).Ok?;
    assert DecodeFact(codecs, Slot(c.key, latest.value), view.snapshots[Slot(c.key, latest.value)]).Ok?;
    assert DecodeFact(codecs, slot, view.snapshots[slot]) == codecs[c.key.kind].decode(payload.payload);
  }

  /** The i-th step of a run adds a version to the log. */
  predicate Adds(codecs: map<Id, Codec>, log: Log, steps: seq<Step>, i: nat, s: Slot)
    requires i < |steps|
  {
    s !in After(codecs, log, steps[..i]).db.snapshots && s in After(codecs, log, steps[..i + 1]).db.snapshots
  }

  lemma {:induction false} AfterSplit(codecs: map<Id, Codec>, log: Log, steps: seq<Step>, i: nat)
    requires i <= |steps|
    ensures After(codecs, log, steps) == After(codecs, After(codecs, log, steps[..i]), steps[i..])
  {
    hide Next;
    if i == |steps| {
      assert steps[..i] == steps && steps[i..] == [];
    } else {
      AfterSplit(codecs, log, steps[..|steps| - 1], i);
      assert steps[..|steps| - 1][..i] == steps[..i];
      assert steps[i..][..|steps[i..]| - 1] == steps[..|steps| - 1][i..];
    }
  }

  /** No lost update, over any run: of two steps at most one adds a given version
      of a key, what it added is never changed, its predecessor is there by then,
      and only a commit adds. So of all that saw one version at most one adds the
      next. */
  lemma NoLostUpdate(codecs: map<Id, Codec>, log: Log, steps: seq<Step>, i: nat, j: nat, s: Slot)
    requires LogInv(codecs, log) && i < j < |steps| && Adds(codecs, log, steps, i, s)
    ensures !Adds(codecs, log, steps, j, s)
    ensures s in After(codecs, log, steps[..j]).db.snapshots
    ensures After(codecs, log, steps[..j]).db.snapshots[s] == After(codecs, log, steps[..i + 1]).db.snapshots[s]
    ensures s.version > 0 ==> Slot(s.key, s.version - 1) in After(codecs, log, steps[..i + 1]).db.snapshots
    ensures steps[i].CommitTx?
  {
    hide LogInv, Next, Latest;
    var added := After(codecs, log, steps[..i + 1]);
    AfterKeepsInv(codecs, log, steps[..i + 1]);
    AfterSplit(codecs, log, steps[..j], i + 1);
    assert steps[..j][..i + 1] == steps[..i + 1];
    OnlyGrows(codecs, added, steps[..j][i + 1..]);
    if s.version > 0 {
      PrevStored(codecs, added, s);
    }
    assert steps[..i + 1][..i] == steps[..i];
    if !steps[i].CommitTx? {
      OthersLeaveDb(codecs, After(codecs, log, steps[..i]), steps[i]);
    }
  }

  /** One commit adds only versions nobody else has, each next to one it sees. */
  lemma CommitAddsNew(codecs: map<Id, Codec>, log: Log, t: Id, s: Slot)
    requires LogInv(codecs, log) && t in log.txs && log.txs[t].at.Idle? && s in log.txs[t].own.snapshots
    ensures s !in log.db.snapshots && s in DoCommit(log, t).db.snapshots
    ensures s.version > 0 ==> Slot(s.key, s.version - 1) in DoCommit(log, t).db.snapshots
    ensures forall u :: u in log.txs && u != t ==> s !in log.txs[u].own.snapshots
  {
    assert TxInv(codecs, log.db, log.txs[t]);
    assert s.version > 0 ==> Prev(s) in View(log.db, log.txs[t].own).snapshots;
  }

  lemma PrevStored(codecs: map<Id, Codec>, log: Log, s: Slot)
    requires LogInv(codecs, log) && s in log.db.snapshots && s.version > 0
    ensures Slot(s.key, s.version - 1) in log.db.snapshots
  {
    assert Prev(s) in log.db.snapshots;
  }

  /** A transaction that saw the version before, after another has added the one it
      prepared: its insert fails and ends it. */
  lemma StaleInsertFails(codecs: map<Id, Codec>, log: Log, t: Id)
    requires LogInv(codecs, log) && t in log.txs && log.txs[t].at.Saw?
    requires Slot(log.txs[t].at.c.key, log.txs[t].at.c.fact.version) in log.db.snapshots
    ensures t !in DoInsertFact(codecs, log, t).txs && DoInsertFact(codecs, log, t).db == log.db
  {
    assert TxInv(codecs, log.db, log.txs[t]);
    var slot := Slot(log.txs[t].at.c.key, log.txs[t].at.c.fact.version);
    hide FactsInv;
    forall u | u in log.txs
      ensures slot !in log.txs[u].own.snapshots
    {
      assert TxInv(codecs, log.db, log.txs[u]);
    }
  }
}
