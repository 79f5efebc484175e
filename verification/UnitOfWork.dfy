/** The application unit of work: transactions over facts, evidence and audit
    rows, each with a sticky abort and a one-way lifecycle. Any number of units
    run on one database, interleaved read by read and insert by insert. */
module UnitOfWork {
  import opened Common
  import opened FactTables

  /** An evidence manifest; `sound` says whether its own payload validates. */
  datatype Manifest = Manifest(attemptId: Id, root: Digest, body: Digest, sound: bool)

  datatype AuditRecord = AuditRecord(eventId: Id, content: Digest)

  datatype AppTables = AppTables(facts: Facts, evidence: map<Id, Manifest>, audit: map<Id, AuditRecord>)

  const NO_ROWS := AppTables(Facts(map[], map[]), map[], map[])

  /** A row that a call inserts. */
  datatype Row =
    | OfFact(slot: Slot, snapshot: SnapshotRow)
    | OfCommand(key: IdempotencyKey, command: CommandRow)
    | OfManifest(manifest: Manifest)
    | OfRecord(record: AuditRecord)

  predicate Holds(t: AppTables, r: Row) {
    match r
    case OfFact(slot, snapshot) => slot in t.facts.snapshots && t.facts.snapshots[slot] == snapshot
    case OfCommand(key, command) => key in t.facts.commands && t.facts.commands[key] == command
    case OfManifest(m) => m.attemptId in t.evidence && t.evidence[m.attemptId] == m
    case OfRecord(a) => a.eventId in t.audit && t.audit[a.eventId] == a
  }

  /** Two rows that share a primary or unique key. */
  predicate Clash(a: Row, b: Row) {
    || (a.OfFact? && b.OfFact? && a.slot == b.slot)
    || (a.OfCommand? && b.OfCommand? && a.key == b.key)
    || (a.OfManifest? && b.OfManifest?
        && (a.manifest.attemptId == b.manifest.attemptId || a.manifest.root == b.manifest.root))
    || (a.OfRecord? && b.OfRecord? && a.record.eventId == b.record.eventId)
  }

  /** What the primary and unique keys of the tables refuse. */
  predicate Refuses(t: AppTables, r: Row) {
    match r
    case OfFact(slot, _) => slot in t.facts.snapshots
    case OfCommand(key, _) => key in t.facts.commands
    case OfManifest(m) => m.attemptId in t.evidence || exists a :: a in t.evidence && t.evidence[a].root == m.root
    case OfRecord(a) => a.eventId in t.audit
  }

  function Insert(t: AppTables, r: Row): AppTables {
    match r
    case OfFact(slot, snapshot) => t.(facts := t.facts.(snapshots := t.facts.snapshots[slot := snapshot]))
    case OfCommand(key, command) => t.(facts := t.facts.(commands := t.facts.commands[key := command]))
    case OfManifest(m) => t.(evidence := t.evidence[m.attemptId := m])
    case OfRecord(a) => t.(audit := t.audit[a.eventId := a])
  }

  /** Committed rows plus a unit's own. */
  function Over(db: AppTables, own: AppTables): AppTables {
    AppTables(Facts(db.facts.snapshots + own.facts.snapshots, db.facts.commands + own.facts.commands),
              db.evidence + own.evidence, db.audit + own.audit)
  }

  // ----- What each mutating call reads, and the rows it goes on to insert --

  /** An exact replay inserts nothing; a new fact goes in with its command. */
  function RowsOfCommit(c: Command, payload: PayloadDigest, replay: Option<Fact>): (seq<Row>, Replay<Fact>) {
    if replay.Some? then ([], Replay(replay.value, true))
    else ([OfFact(Slot(c.key, c.fact.version), RowOfFact(c, payload)), OfCommand(c.idempotency, RowOfCommand(c, payload))],
          Replay(c.fact, false))
  }

  function PlanFact(codecs: map<Id, Codec>, facts: Facts, c: Command): Result<(seq<Row>, Replay<Fact>)> {
    var payload :- Prepare(codecs, c);
    var replay :- ReplayCommand(codecs, facts, c, payload);
    if replay.Some? then Ok(RowsOfCommit(c, payload, replay))
    else
      var current := Latest(facts.snapshots, c.key);
      :- Need(current.None? || DecodeFact(codecs, Slot(c.key, current.value),
                                          facts.snapshots[Slot(c.key, current.value)]).Ok?, PortContract);
      var required :- RequiredVersion(c, current);
      :- Need(c.fact.version == required, PortContract);
      Ok(RowsOfCommit(c, payload, None))
  }

  function PlanEvidence(evidence: map<Id, Manifest>, m: Manifest): Result<seq<Row>> {
    if !m.sound then Err(PayloadMalformed)
    else if m.attemptId in evidence then if evidence[m.attemptId] == m then Ok([]) else Err(DomainConflict)
    else Ok([OfManifest(m)])
  }

  function PlanAudit(audit: map<Id, AuditRecord>, a: AuditRecord): Result<seq<Row>> {
    if a.eventId in audit then if audit[a.eventId] == a then Ok([]) else Err(PortContract)
    else Ok([OfRecord(a)])
  }

  datatype Op =
    | CommitFact(c: Command)
    | FinalizeEvidence(m: Manifest)
    | AppendAudit(a: AuditRecord)

  function Plan(codecs: map<Id, Codec>, seen: AppTables, op: Op): Result<seq<Row>> {
    match op
    case CommitFact(c) =>
      var plan := PlanFact(codecs, seen.facts, c);
      if plan.Ok? then Ok(plan.value.0) else Err(plan.error)
    case FinalizeEvidence(m) => PlanEvidence(seen.evidence, m)
    case AppendAudit(a) => PlanAudit(seen.audit, a)
  }

  // ----- One unit ----------------------------------------------------------

  /** `todo` holds what the call in progress still has to insert. */
  datatype Unit = Unit(own: AppTables, todo: seq<Row>, active: bool, aborted: bool, closed: bool)

  /** The unit after a step, and whether the step raised. */
  datatype Effect = Effect(unit: Unit, raised: bool)

  predicate Usable(unit: Unit) { unit.active && !unit.aborted && !unit.closed }

  function Abort(unit: Unit): Effect { Effect(unit.(aborted := true, todo := []), true) }

  function Close(unit: Unit): Unit { unit.(own := NO_ROWS, todo := [], active := false, closed := true) }

  function EnterUnit(unit: Unit): Effect {
    if unit.closed || unit.active then Effect(unit, true) else Effect(unit.(active := true), false)
  }

  /** The payload checks and reads of a mutating call. */
  function LookUnit(codecs: map<Id, Codec>, db: AppTables, unit: Unit, op: Op): Effect {
    if !Usable(unit) then Abort(unit)
    else
      var plan := Plan(codecs, Over(db, unit.own), op);
      if plan.Err? then Abort(unit) else Effect(unit.(todo := plan.value), false)
  }

  /** The next insert of the call, if there is one left. */
  function InsertUnit(db: AppTables, unit: Unit): Effect {
    if |unit.todo| == 0 then Effect(unit, false)
    else if Refuses(Over(db, unit.own), unit.todo[0]) then Abort(unit)
    else Effect(unit.(own := Insert(unit.own, unit.todo[0]), todo := unit.todo[1..]), false)
  }

  function CommitUnit(unit: Unit, databaseFails: bool): Effect {
    if !Usable(unit) then Effect(unit, true)
    else if databaseFails then Effect(Close(unit.(aborted := true)), true)
    else Effect(Close(unit), false)
  }

  function RollbackUnit(unit: Unit): Effect {
    if unit.closed then Effect(unit, false) else if !unit.active then Effect(unit, true) else Effect(Close(unit), false)
  }

  // ----- Any number of units -----------------------------------------------

  datatype State = State(db: AppTables, units: map<Id, Unit>)

  datatype Step =
    | Open(u: Id)
    | Enter(u: Id)
    | Look(u: Id, op: Op)
    | InsertNext(u: Id)
    | Interrupt(u: Id)
    | Commit(u: Id, databaseFails: bool)
    | Leave(u: Id)

  function With(s: State, u: Id, e: Effect): State { s.(units := s.units[u := e.unit]) }

  /** An insert waits for an uncommitted row of another unit with one of its keys. */
  predicate Waits(s: State, u: Id)
    requires u in s.units && |s.units[u].todo| > 0
  {
    && !Refuses(Over(s.db, s.units[u].own), s.units[u].todo[0])
    && exists o :: o in s.units && o != u && Refuses(s.units[o].own, s.units[u].todo[0])
  }

  /** A call in progress goes on with its inserts, or is interrupted. */
  predicate Calling(s: State, u: Id) { u in s.units && |s.units[u].todo| > 0 }

  predicate Between(s: State, u: Id) { u in s.units && |s.units[u].todo| == 0 }

  predicate Installs(s: State, step: Step) {
    step.Commit? && Between(s, step.u) && Usable(s.units[step.u]) && !step.databaseFails
  }

  function Next(codecs: map<Id, Codec>, s: State, step: Step): State {
    match step
    case Open(u) => if u in s.units then s else s.(units := s.units[u := Unit(NO_ROWS, [], false, false, false)])
    case Enter(u) => if Between(s, u) then With(s, u, EnterUnit(s.units[u])) else s
    case Look(u, op) => if Between(s, u) then With(s, u, LookUnit(codecs, s.db, s.units[u], op)) else s
    case InsertNext(u) => if Calling(s, u) && !Waits(s, u) then With(s, u, InsertUnit(s.db, s.units[u])) else s
    case Interrupt(u) => if Calling(s, u) then With(s, u, Abort(s.units[u])) else s
    case Commit(u, fails) =>
      if Between(s, u) then
        With(s.(db := if Installs(s, step) then Over(s.db, s.units[u].own) else s.db), u, CommitUnit(s.units[u], fails))
      else s
    case Leave(u) => if Between(s, u) then With(s, u, RollbackUnit(s.units[u])) else s
  }

  /** A mutating call of unit `u` raises in this step. */
  predicate Raises(codecs: map<Id, Codec>, s: State, step: Step, u: Id) {
    && step.u == u
    && match step
       case Look(_, op) => Between(s, u) && LookUnit(codecs, s.db, s.units[u], op).raised
       case InsertNext(_) => Calling(s, u) && !Waits(s, u) && InsertUnit(s.db, s.units[u]).raised
       case Interrupt(_) => Calling(s, u)
       case _ => false
  }

  /** Unit `u` writes row `r` in this step. */
  predicate Writes(s: State, step: Step, u: Id, r: Row) {
    && step == InsertNext(u) && Calling(s, u) && !Waits(s, u)
    && !InsertUnit(s.db, s.units[u]).raised && s.units[u].todo[0] == r
  }

  function After(codecs: map<Id, Codec>, s: State, steps: seq<Step>): State {
    if |steps| == 0 then s else Next(codecs, After(codecs, s, steps[..|steps| - 1]), steps[|steps| - 1])
  }

  predicate RaisedAt(codecs: map<Id, Codec>, s: State, steps: seq<Step>, u: Id, i: nat) {
    i < |steps| && Raises(codecs, After(codecs, s, steps[..i]), steps[i], u)
  }

  predicate WroteAt(codecs: map<Id, Codec>, s: State, steps: seq<Step>, u: Id, r: Row, i: nat) {
    i < |steps| && Writes(After(codecs, s, steps[..i]), steps[i], u, r)
  }

  predicate InstalledAt(codecs: map<Id, Codec>, s: State, steps: seq<Step>, u: Id, i: nat) {
    i < |steps| && steps[i].u == u && Installs(After(codecs, s, steps[..i]), steps[i])
  }

  ghost predicate Wrote(codecs: map<Id, Codec>, s: State, steps: seq<Step>, u: Id, r: Row) {
    exists i: nat :: WroteAt(codecs, s, steps, u, r, i)
  }

  ghost predicate Installed(codecs: map<Id, Codec>, s: State, steps: seq<Step>, u: Id) {
    exists i: nat :: InstalledAt(codecs, s, steps, u, i)
  }

  // ----- The lifecycle -----------------------------------------------------

  predicate Aborted(s: State, u: Id) { u in s.units && s.units[u].aborted }

  predicate Closed(s: State, u: Id) { u in s.units && s.units[u].closed }

  lemma StepsAreOneWay(codecs: map<Id, Codec>, s: State, step: Step, u: Id)
    ensures Aborted(s, u) || Raises(codecs, s, step, u) ==> Aborted(Next(codecs, s, step), u)
    ensures Closed(s, u) || (step.u == u && Installs(s, step)) ==> Closed(Next(codecs, s, step), u)
  {
    hide Plan, Refuses, Insert, Over;
  }

  lemma {:induction false} AfterSplit(codecs: map<Id, Codec>, s: State, steps: seq<Step>, i: nat)
    requires i <= |steps|
    ensures After(codecs, s, steps) == After(codecs, After(codecs, s, steps[..i]), steps[i..])
  {
    hide Next;
    if i == |steps| {
      assert steps[..i] == steps && steps[i..] == [];
    } else {
      var front, tail := steps[..|steps| - 1], steps[i..];
      AfterSplit(codecs, s, front, i);
      assert front[..i] == steps[..i];
      assert tail == front[i..] + [steps[|steps| - 1]];
      assert tail[..|tail| - 1] == front[i..];
    }
  }

  lemma {:induction false} OneWay(codecs: map<Id, Codec>, s: State, steps: seq<Step>, u: Id)
    ensures Aborted(s, u) ==> Aborted(After(codecs, s, steps), u)
    ensures Closed(s, u) ==> Closed(After(codecs, s, steps), u)
  {
    hide Next, Aborted, Closed;
    if |steps| > 0 {
      OneWay(codecs, s, steps[..|steps| - 1], u);
      StepsAreOneWay(codecs, After(codecs, s, steps[..|steps| - 1]), steps[|steps| - 1], u);
    }
  }

  /** Between two moments of one run. */
  lemma OneWayFrom(codecs: map<Id, Codec>, s: State, steps: seq<Step>, u: Id, i: nat, j: nat)
    requires i < j <= |steps|
    ensures RaisedAt(codecs, s, steps, u, i) ==> Aborted(After(codecs, s, steps[..j]), u)
    ensures InstalledAt(codecs, s, steps, u, i) ==> Closed(After(codecs, s, steps[..j]), u)
  {
    hide Next, Aborted, Closed, Raises, Installs;
    var before := After(codecs, s, steps[..i]);
    StepsAreOneWay(codecs, before, steps[i], u);
    assert steps[..i + 1][..i] == steps[..i];
    AfterSplit(codecs, s, steps[..j], i + 1);
    assert steps[..j][..i + 1] == steps[..i + 1];
    OneWay(codecs, After(codecs, s, steps[..i + 1]), steps[..j][i + 1..], u);
  }

  lemma NeitherInstalls(s: State, step: Step)
    requires Aborted(s, step.u) || Closed(s, step.u)
    ensures !Installs(s, step)
  {
  }

  /** Once a mutating call has raised, the unit stays aborted and never commits:
      a commit that goes through comes before every failure of its unit. */
  lemma FailedUnitsNeverCommit(codecs: map<Id, Codec>, s: State, steps: seq<Step>, u: Id, i: nat)
    requires RaisedAt(codecs, s, steps, u, i)
    ensures Aborted(After(codecs, s, steps), u)
    ensures forall j: nat :: InstalledAt(codecs, s, steps, u, j) ==> j < i
  {
    hide Next, Aborted, Closed, Raises, Installs;
    assert steps[..|steps|] == steps;
    OneWayFrom(codecs, s, steps, u, i, |steps|);
    forall j: nat | InstalledAt(codecs, s, steps, u, j)
      ensures j < i
    {
      if j > i {
        OneWayFrom(codecs, s, steps, u, i, j);
        NeitherInstalls(After(codecs, s, steps[..j]), steps[j]);
      } else if j == i {
        RaisingIsNotInstalling(codecs, After(codecs, s, steps[..i]), steps[i], u);
      }
    }
  }

  lemma RaisingIsNotInstalling(codecs: map<Id, Codec>, s: State, step: Step, u: Id)
    ensures !(Raises(codecs, s, step, u) && Installs(s, step))
  {
  }

  /** A unit commits at most once, is closed from then on, and is never reopened. */
  lemma CommitsOnce(codecs: map<Id, Codec>, s: State, steps: seq<Step>, u: Id, i: nat)
    requires InstalledAt(codecs, s, steps, u, i)
    ensures Closed(After(codecs, s, steps), u)
    ensures forall j: nat :: InstalledAt(codecs, s, steps, u, j) ==> j == i
  {
    hide Next, Aborted, Closed, Installs;
    assert steps[..|steps|] == steps;
    OneWayFrom(codecs, s, steps, u, i, |steps|);
    forall j: nat | InstalledAt(codecs, s, steps, u, j)
      ensures j == i
    {
      if j > i {
        OneWayFrom(codecs, s, steps, u, i, j);
        NeitherInstalls(After(codecs, s, steps[..j]), steps[j]);
      } else if j < i {
        OneWayFrom(codecs, s, steps, u, j, i);
        NeitherInstalls(After(codecs, s, steps[..i]), steps[i]);
      }
    }
  }

  // ----- Keys --------------------------------------------------------------

  /** Rows are filed under their own keys, and no two share one. */
  ghost predicate Coherent(t: AppTables) {
    && (forall k :: k in t.evidence ==> t.evidence[k].attemptId == k)
    && (forall k :: k in t.audit ==> t.audit[k].eventId == k)
    && forall x, y :: Holds(t, x) && Holds(t, y) && Clash(x, y) ==> x == y
  }

  ghost predicate Apart(a: AppTables, b: AppTables) {
    forall x, y :: Holds(a, x) && Holds(b, y) ==> !Clash(x, y)
  }

  lemma RefusedExactlyWhen(t: AppTables, r: Row)
    requires Coherent(t)
    ensures Refuses(t, r) <==> exists x :: Holds(t, x) && Clash(x, r)
  {
    if Refuses(t, r) {
      match r
      case OfFact(slot, _) => assert Holds(t, OfFact(slot, t.facts.snapshots[slot]));
      case OfCommand(key, _) => assert Holds(t, OfCommand(key, t.facts.commands[key]));
      case OfManifest(m) =>
        var a :| a in t.evidence && (a == m.attemptId || t.evidence[a].root == m.root);
        assert Holds(t, OfManifest(t.evidence[a])) && Clash(OfManifest(t.evidence[a]), r);
      case OfRecord(a) => assert Holds(t, OfRecord(t.audit[a.eventId]));
    }
  }

  lemma RowsOfInsert(t: AppTables, r: Row)
    requires Coherent(t) && !Refuses(t, r)
    ensures forall x :: Holds(Insert(t, r), x) <==> Holds(t, x) || x == r
    ensures Coherent(Insert(t, r))
  {
    RefusedExactlyWhen(t, r);
    hide Refuses;
    forall x
      ensures Holds(Insert(t, r), x) <==> Holds(t, x) || x == r
    {
      if Clash(x, r) && Holds(t, x) {
        assert false;
      }
    }
  }

  lemma ApartIsSymmetric()
    ensures forall a, b :: Apart(a, b) ==> Apart(b, a)
  {
    assert forall x, y :: Clash(x, y) ==> Clash(y, x);
  }

  lemma KeysApart(a: AppTables, b: AppTables)
    requires Coherent(a) && Coherent(b) && Apart(a, b)
    ensures a.facts.snapshots.Keys !! b.facts.snapshots.Keys && a.facts.commands.Keys !! b.facts.commands.Keys
    ensures a.evidence.Keys !! b.evidence.Keys && a.audit.Keys !! b.audit.Keys
  {
    forall k | k in a.facts.snapshots && k in b.facts.snapshots
      ensures false
    {
      assert Holds(a, OfFact(k, a.facts.snapshots[k])) && Holds(b, OfFact(k, b.facts.snapshots[k]));
    }
    forall k | k in a.facts.commands && k in b.facts.commands
      ensures false
    {
      assert Holds(a, OfCommand(k, a.facts.commands[k])) && Holds(b, OfCommand(k, b.facts.commands[k]));
    }
    forall k | k in a.evidence && k in b.evidence
      ensures false
    {
      assert Holds(a, OfManifest(a.evidence[k])) && Holds(b, OfManifest(b.evidence[k]));
    }
    forall k | k in a.audit && k in b.audit
      ensures false
    {
      assert Holds(a, OfRecord(a.audit[k])) && Holds(b, OfRecord(b.audit[k]));
    }
  }

  lemma RowsOfDisjoint(db: AppTables, own: AppTables, x: Row)
    requires db.facts.snapshots.Keys !! own.facts.snapshots.Keys && db.facts.commands.Keys !! own.facts.commands.Keys
    requires db.evidence.Keys !! own.evidence.Keys && db.audit.Keys !! own.audit.Keys
    ensures Holds(Over(db, own), x) <==> Holds(db, x) || Holds(own, x)
  {
  }

  lemma RowsOfOver(db: AppTables, own: AppTables)
    requires Coherent(db) && Coherent(own) && Apart(db, own)
    ensures forall x :: Holds(Over(db, own), x) <==> Holds(db, x) || Holds(own, x)
    ensures Coherent(Over(db, own))
  {
    KeysApart(db, own);
    ApartIsSymmetric();
    hide Holds, Clash;
    forall x
      ensures Holds(Over(db, own), x) <==> Holds(db, x) || Holds(own, x)
    {
      RowsOfDisjoint(db, own, x);
    }
  }

  // ----- Invariant ---------------------------------------------------------

  ghost predicate UnitInv(db: AppTables, unit: Unit) {
    && Coherent(unit.own) && Apart(db, unit.own)
    && (!unit.active || unit.closed ==> unit.own == NO_ROWS)
    && (!Usable(unit) ==> unit.todo == [])
  }

  ghost predicate Inv(s: State) {
    && Coherent(s.db)
    && (forall u :: u in s.units ==> UnitInv(s.db, s.units[u]))
    && forall u, o :: u in s.units && o in s.units && u != o ==> Apart(s.units[u].own, s.units[o].own)
  }

  ghost predicate Grows(a: AppTables, b: AppTables) { forall r :: Holds(a, r) ==> Holds(b, r) }

  lemma NoRowsApart(t: AppTables)
    ensures Coherent(NO_ROWS) && Apart(t, NO_ROWS) && Apart(NO_ROWS, t)
  {
  }

  lemma WithKeeps(s: State, u: Id, e: Effect)
    requires Inv(s) && UnitInv(s.db, e.unit)
    requires forall o :: o in s.units && o != u ==> Apart(s.units[o].own, e.unit.own)
    ensures Inv(With(s, u, e))
  {
    hide Coherent, UnitInv;
    assert forall a, b :: Apart(a, b) ==> Apart(b, a) by { ApartIsSymmetric(); }
    hide Apart;
  }

  /** Steps that write no row. */
  lemma SameRowsKeep(s: State, u: Id, e: Effect)
    requires Inv(s) && u in s.units
    requires e.unit.own == s.units[u].own || e.unit.own == NO_ROWS
    requires !e.unit.active || e.unit.closed ==> e.unit.own == NO_ROWS
    requires !Usable(e.unit) ==> e.unit.todo == []
    ensures Inv(With(s, u, e))
  {
    hide Coherent, Apart;
    NoRowsApart(s.db);
    forall o | o in s.units && o != u
      ensures Apart(s.units[o].own, e.unit.own)
    {
      NoRowsApart(s.units[o].own);
    }
    WithKeeps(s, u, e);
  }

  lemma InsertKeeps(s: State, u: Id)
    requires Inv(s) && Calling(s, u) && !Waits(s, u)
    ensures Inv(With(s, u, InsertUnit(s.db, s.units[u])))
  {
    var unit := s.units[u];
    var r := unit.todo[0];
    assert UnitInv(s.db, unit);
    if Refuses(Over(s.db, unit.own), r) {
      hide Refuses;
      SameRowsKeep(s, u, Abort(unit));
    } else {
      hide Coherent, Holds, Clash, Insert, Waits;
      RowsOfOver(s.db, unit.own);
      RefusedExactlyWhen(Over(s.db, unit.own), r);
      assert !Refuses(unit.own, r) by { RefusedExactlyWhen(unit.own, r); }
      RowsOfInsert(unit.own, r);
      assert Apart(s.db, Insert(unit.own, r));
      forall o | o in s.units && o != u
        ensures Apart(s.units[o].own, Insert(unit.own, r))
      {
        NobodyHolds(s, u, o);
      }
      WithKeeps(s, u, InsertUnit(s.db, unit));
    }
  }

  /** An insert that need not wait clashes with no other unit's row. */
  lemma NobodyHolds(s: State, u: Id, o: Id)
    requires Inv(s) && Calling(s, u) && !Waits(s, u) && !Refuses(Over(s.db, s.units[u].own), s.units[u].todo[0])
    requires o in s.units && o != u
    ensures forall x :: Holds(s.units[o].own, x) ==> !Clash(x, s.units[u].todo[0])
  {
    hide Coherent, Apart, Over, Refuses;
    assert UnitInv(s.db, s.units[o]);
    RefusedExactlyWhen(s.units[o].own, s.units[u].todo[0]);
  }

  lemma InstallKeeps(s: State, step: Step)
    requires Inv(s) && Installs(s, step)
    ensures Inv(With(s.(db := Over(s.db, s.units[step.u].own)), step.u, CommitUnit(s.units[step.u], false)))
    ensures Grows(s.db, Over(s.db, s.units[step.u].own))
  {
    hide Coherent, Over;
    var own := s.units[step.u].own;
    assert UnitInv(s.db, s.units[step.u]);
    RowsOfOver(s.db, own);
    hide Holds, Clash;
    var next := s.(db := Over(s.db, own), units := s.units[step.u := Close(s.units[step.u])]);
    forall o | o in next.units
      ensures UnitInv(next.db, next.units[o])
    {
      NoRowsApart(next.db);
      if o != step.u {
        assert UnitInv(s.db, s.units[o]) && Apart(own, s.units[o].own);
      }
    }
    forall a, b | a in next.units && b in next.units && a != b
      ensures Apart(next.units[a].own, next.units[b].own)
    {
      NoRowsApart(next.units[a].own);
      NoRowsApart(next.units[b].own);
    }
  }

  lemma NextKeepsInv(codecs: map<Id, Codec>, s: State, step: Step)
    requires Inv(s)
    ensures Inv(Next(codecs, s, step)) && Grows(s.db, Next(codecs, s, step).db)
  {
    hide Coherent, Apart, Holds, Plan, Refuses, Waits;
    if Between(s, step.u) {
      assert UnitInv(s.db, s.units[step.u]);
      match step
      case Open(u) =>
      case Enter(u) => SameRowsKeep(s, u, EnterUnit(s.units[u]));
      case Look(u, op) => SameRowsKeep(s, u, LookUnit(codecs, s.db, s.units[u], op));
      case InsertNext(u) =>
      case Interrupt(u) =>
      case Commit(u, fails) =>
        if Installs(s, step) { InstallKeeps(s, step); } else { SameRowsKeep(s, u, CommitUnit(s.units[u], fails)); }
      case Leave(u) => SameRowsKeep(s, u, RollbackUnit(s.units[u]));
    } else if Calling(s, step.u) {
      assert UnitInv(s.db, s.units[step.u]);
      if step.InsertNext? && !Waits(s, step.u) { InsertKeeps(s, step.u); }
      if step.Interrupt? { SameRowsKeep(s, step.u, Abort(s.units[step.u])); }
    } else if step.Open? {
      NoRowsApart(s.db);
      forall o | o in s.units
        ensures Apart(s.units[o].own, NO_ROWS)
      {
        NoRowsApart(s.units[o].own);
      }
      WithKeeps(s, step.u, Effect(Unit(NO_ROWS, [], false, false, false), false));
    }
  }

  /** Over any run keys stay unique, in the tables and between what the open units
      hold back, and no committed row is changed or taken away. */
  lemma {:induction false} KeysStayApart(codecs: map<Id, Codec>, s: State, steps: seq<Step>)
    requires Inv(s)
    ensures Inv(After(codecs, s, steps)) && Grows(s.db, After(codecs, s, steps).db)
  {
    hide Inv, Next, Holds;
    if |steps| > 0 {
      KeysStayApart(codecs, s, steps[..|steps| - 1]);
      NextKeepsInv(codecs, After(codecs, s, steps[..|steps| - 1]), steps[|steps| - 1]);
    }
  }

  // ----- Atomicity ---------------------------------------------------------

  /** What the units have written so far, and where it is. */
  ghost predicate Ledger(codecs: map<Id, Codec>, s: State, steps: seq<Step>, r: Row) {
    var now := After(codecs, s, steps);
    && (Holds(now.db, r) <==>
          Holds(s.db, r) || exists u :: Installed(codecs, s, steps, u) && Wrote(codecs, s, steps, u, r))
    && (forall u :: u !in now.units ==> !Installed(codecs, s, steps, u) && !Wrote(codecs, s, steps, u, r))
    && (forall u :: u in now.units && !now.units[u].closed ==>
          !Installed(codecs, s, steps, u) && (Holds(now.units[u].own, r) <==> Wrote(codecs, s, steps, u, r)))
  }

  lemma OneMoreStep(codecs: map<Id, Codec>, s: State, steps: seq<Step>, u: Id, r: Row)
    requires |steps| > 0
    ensures var front, last := steps[..|steps| - 1], steps[|steps| - 1];
            var before := After(codecs, s, front);
            && (Wrote(codecs, s, steps, u, r) <==> Wrote(codecs, s, front, u, r) || Writes(before, last, u, r))
            && (Installed(codecs, s, steps, u) <==>
                  Installed(codecs, s, front, u) || (last.u == u && Installs(before, last)))
  {
    hide Next, Writes, Installs;
    var front, n := steps[..|steps| - 1], |steps| - 1;
    forall i: nat | i < n
      ensures WroteAt(codecs, s, steps, u, r, i) <==> WroteAt(codecs, s, front, u, r, i)
      ensures InstalledAt(codecs, s, steps, u, i) <==> InstalledAt(codecs, s, front, u, i)
    {
      assert front[..i] == steps[..i];
    }
    if Wrote(codecs, s, steps, u, r) {
      var i: nat :| WroteAt(codecs, s, steps, u, r, i);
      assert i < n ==> WroteAt(codecs, s, front, u, r, i);
    }
    if Installed(codecs, s, steps, u) {
      var i: nat :| InstalledAt(codecs, s, steps, u, i);
      assert i < n ==> InstalledAt(codecs, s, front, u, i);
    }
    assert Writes(After(codecs, s, front), steps[n], u, r) ==> WroteAt(codecs, s, steps, u, r, n);
    assert steps[n].u == u && Installs(After(codecs, s, front), steps[n]) ==> InstalledAt(codecs, s, steps, u, n);
    if Wrote(codecs, s, front, u, r) {
      var i: nat :| WroteAt(codecs, s, front, u, r, i);
      assert WroteAt(codecs, s, steps, u, r, i);
    }
    if Installed(codecs, s, front, u) {
      var i: nat :| InstalledAt(codecs, s, front, u, i);
      assert InstalledAt(codecs, s, steps, u, i);
    }
  }

  /** What one step does to the committed rows. */
  lemma StepCommitsRows(codecs: map<Id, Codec>, s: State, step: Step, r: Row)
    requires Inv(s)
    ensures Holds(Next(codecs, s, step).db, r) <==> Holds(s.db, r) || (Installs(s, step) && Holds(s.units[step.u].own, r))
    ensures Installs(s, step) ==> step.u in s.units && !s.units[step.u].closed
  {
    hide Coherent, Apart, Plan, Refuses, Waits, Over, Insert, Holds;
    if step.u in s.units { assert UnitInv(s.db, s.units[step.u]); }
    if Installs(s, step) { RowsOfOver(s.db, s.units[step.u].own); }
  }

  /** ... and to the rows a unit holds. */
  ghost predicate UnitMoved(s: State, step: Step, next: State, u: Id, r: Row) {
    && (u in s.units ==> u in next.units && (s.units[u].closed ==> next.units[u].closed))
    && (u in next.units && !next.units[u].closed ==>
          !(step.u == u && Installs(s, step))
          && (Holds(next.units[u].own, r) <==>
                (u in s.units && !s.units[u].closed && Holds(s.units[u].own, r)) || Writes(s, step, u, r)))
    && (Writes(s, step, u, r) ==> u in s.units && !s.units[u].closed && u in next.units && !next.units[u].closed)
  }

  lemma StepMovesRows(codecs: map<Id, Codec>, s: State, step: Step, u: Id, r: Row)
    requires Inv(s)
    ensures UnitMoved(s, step, Next(codecs, s, step), u, r)
  {
    hide Inv, Next, UnitMoved;
    if step.u != u {
      OtherMoves(codecs, s, step, u, r);
    } else if step.InsertNext? {
      InsertMoves(codecs, s, u, r);
    } else {
      PlainMoves(codecs, s, step, r);
    }
  }

  lemma OtherMoves(codecs: map<Id, Codec>, s: State, step: Step, u: Id, r: Row)
    requires Inv(s) && step.u != u
    ensures UnitMoved(s, step, Next(codecs, s, step), u, r)
  {
    hide Inv, Next, Holds;
    OthersStay(codecs, s, step, u);
  }

  lemma InsertMoves(codecs: map<Id, Codec>, s: State, u: Id, r: Row)
    requires Inv(s)
    ensures UnitMoved(s, InsertNext(u), Next(codecs, s, InsertNext(u)), u, r)
  {
    hide Inv, Holds, Waits, InsertUnit, Coherent, Apart;
    if Calling(s, u) {
      InsertMovesRows(s, u);
      InvOf(s, u);
      InsertLeavesOpen(s.db, s.units[u]);
    }
  }

  lemma PlainMoves(codecs: map<Id, Codec>, s: State, step: Step, r: Row)
    requires Inv(s) && !step.InsertNext?
    ensures UnitMoved(s, step, Next(codecs, s, step), step.u, r)
  {
    hide Inv, Next, Holds;
    NothingHeld(r);
    NoInsertMoves(codecs, s, step);
  }

  lemma OthersStay(codecs: map<Id, Codec>, s: State, step: Step, u: Id)
    requires step.u != u
    ensures u in s.units <==> u in Next(codecs, s, step).units
    ensures u in s.units ==> Next(codecs, s, step).units[u] == s.units[u]
  {
  }

  lemma InsertLeavesOpen(db: AppTables, unit: Unit)
    ensures InsertUnit(db, unit).unit.closed == unit.closed
    ensures InsertUnit(db, unit).raised ==> InsertUnit(db, unit).unit.own == unit.own
  {
  }

  /** A step that is no insert leaves the unit's rows, or drops them and closes it. */
  lemma NoInsertMoves(codecs: map<Id, Codec>, s: State, step: Step)
    requires !step.InsertNext?
    ensures var next := Next(codecs, s, step);
            step.u in next.units
            ==> if step.u !in s.units then next.units[step.u].own == NO_ROWS
                else
                  && (s.units[step.u].closed ==> next.units[step.u].closed)
                  && (Installs(s, step) ==> next.units[step.u].closed)
                  && (next.units[step.u].own == s.units[step.u].own || next.units[step.u].closed)
    ensures step.u in s.units ==> step.u in Next(codecs, s, step).units
  {
    hide Plan;
  }

  lemma NothingHeld(r: Row)
    ensures !Holds(NO_ROWS, r)
  {
  }

  lemma InsertMovesRows(s: State, u: Id)
    requires Inv(s) && Calling(s, u)
    ensures !InsertUnit(s.db, s.units[u]).raised ==>
              forall x :: Holds(InsertUnit(s.db, s.units[u]).unit.own, x)
                          <==> Holds(s.units[u].own, x) || x == s.units[u].todo[0]
  {
    var unit := s.units[u];
    assert UnitInv(s.db, unit);
    hide Coherent, Holds, Insert;
    if !Refuses(Over(s.db, unit.own), unit.todo[0]) {
      RowsOfOver(s.db, unit.own);
      RefusedExactlyWhen(Over(s.db, unit.own), unit.todo[0]);
      RefusedExactlyWhen(unit.own, unit.todo[0]);
      RowsOfInsert(unit.own, unit.todo[0]);
    }
  }

  lemma LedgerStep(codecs: map<Id, Codec>, s: State, steps: seq<Step>, r: Row)
    requires |steps| > 0 && Ledger(codecs, s, steps[..|steps| - 1], r) && Inv(After(codecs, s, steps[..|steps| - 1]))
    ensures Ledger(codecs, s, steps, r)
  {
    hide Inv, Next, Holds, Writes, Installs, Wrote, Installed;
    var front, last := steps[..|steps| - 1], steps[|steps| - 1];
    var before, now := After(codecs, s, front), After(codecs, s, steps);
    StepCommitsRows(codecs, before, last, r);
    forall u
      ensures UnitMoved(before, last, now, u, r)
      ensures Wrote(codecs, s, steps, u, r) <==> Wrote(codecs, s, front, u, r) || Writes(before, last, u, r)
      ensures Installed(codecs, s, steps, u) <==> Installed(codecs, s, front, u) || (last.u == u && Installs(before, last))
    {
      StepMovesRows(codecs, before, last, u, r);
      OneMoreStep(codecs, s, steps, u, r);
    }
    forall u | Installed(codecs, s, steps, u) && Wrote(codecs, s, steps, u, r)
      ensures Holds(now.db, r)
    {
      if Installed(codecs, s, front, u) {
        assert Wrote(codecs, s, front, u, r);
      } else {
        assert !Writes(before, last, u, r) by { CommitsWriteNothing(before, last, u, r); }
      }
    }
  }

  lemma CommitsWriteNothing(s: State, step: Step, u: Id, r: Row)
    ensures !(Installs(s, step) && Writes(s, step, u, r))
  {
  }

  lemma {:induction false} LedgerHolds(codecs: map<Id, Codec>, s: State, steps: seq<Step>, r: Row)
    requires Inv(s) && s.units == map[]
    ensures Ledger(codecs, s, steps, r)
  {
    hide Inv, Next, Holds, Wrote, Installed;
    if |steps| == 0 {
      NothingYet(codecs, s, r);
    } else {
      LedgerHolds(codecs, s, steps[..|steps| - 1], r);
      KeysStayApart(codecs, s, steps[..|steps| - 1]);
      LedgerStep(codecs, s, steps, r);
    }
  }

  lemma NothingYet(codecs: map<Id, Codec>, s: State, r: Row)
    ensures forall u :: !Installed(codecs, s, [], u) && !Wrote(codecs, s, [], u, r)
  {
  }

  /** Atomicity and conservation: over any run of any number of units, what is
      committed is what was committed at the start and every row written by a unit
      that committed: all the rows of such a unit, and none of any other. */
  lemma OnlyCleanWriteSetsCommit(codecs: map<Id, Codec>, s: State, steps: seq<Step>, r: Row)
    requires Inv(s) && s.units == map[]
    ensures Holds(After(codecs, s, steps).db, r)
            <==> Holds(s.db, r) || exists u :: Installed(codecs, s, steps, u) && Wrote(codecs, s, steps, u, r)
  {
    LedgerHolds(codecs, s, steps, r);
  }

  /** A manifest once committed answers every later call for its Attempt: an equal
      one is replayed and inserts nothing, any other raises. */
  lemma FinalizedOnce(codecs: map<Id, Codec>, s: State, steps: seq<Step>, m: Manifest, again: Manifest, u: Id)
    requires Inv(s) && Holds(s.db, OfManifest(m)) && again.sound && again.attemptId == m.attemptId
    requires Between(After(codecs, s, steps), u) && Usable(After(codecs, s, steps).units[u])
    ensures var now := After(codecs, s, steps);
            var e := LookUnit(codecs, now.db, now.units[u], FinalizeEvidence(again));
            && (e.raised <==> again != m)
            && (again == m ==> e.unit == now.units[u])
  {
    hide Inv, Next;
    KeysStayApart(codecs, s, steps);
    var now := After(codecs, s, steps);
    assert UnitInv(now.db, now.units[u]) && Coherent(now.db) by { InvOf(now, u); }
    RowsOfOver(now.db, now.units[u].own);
    assert Holds(Over(now.db, now.units[u].own), OfManifest(m));
  }

  lemma InvOf(s: State, u: Id)
    requires Inv(s) && u in s.units
    ensures UnitInv(s.db, s.units[u]) && Coherent(s.db)
  {
  }

  // ----- The object --------------------------------------------------------

  /** The next insert of a call, unless something raised before. */
  function Then(e: Effect, db: AppTables): Effect { if e.raised then e else InsertUnit(db, e.unit) }

  class Store {
    var tables: AppTables

    constructor (tables: AppTables)
      ensures this.tables == tables
    {
      this.tables := tables;
    }
  }

  class ApplicationUnitOfWork {
    const codecs: map<Id, Codec>
    const store: Store
    var own: AppTables
    var active: bool
    var aborted: bool
    var closed: bool

    /** The unit between two calls. */
    function Current(): Unit
      reads this
    {
      Unit(own, [], active, aborted, closed)
    }

    constructor (codecs: map<Id, Codec>, store: Store)
      ensures this.codecs == codecs && this.store == store
      ensures Current() == Unit(NO_ROWS, [], false, false, false)
    {
      this.codecs := codecs;
      this.store := store;
      own := NO_ROWS;
      active, aborted, closed := false, false, false;
    }

    method Enter() returns (raised: bool)
      modifies this
      ensures Effect(Current(), raised) == EnterUnit(old(Current()))
    {
      if closed || active {
        return true;
      }
      active := true;
      raised := false;
    }

    /** The reads of the fact store's commit: replay lookup, newest row, version. */
    method ReadFact(c: Command) returns (r: Result<(PayloadDigest, Option<Fact>)>)
      ensures var plan := PlanFact(codecs, Over(store.tables, own).facts, c);
              && (r.Ok? <==> plan.Ok?)
              && (r.Ok? ==> plan.value == RowsOfCommit(c, r.value.0, r.value.1))
    {
      hide Latest, ReplayCommand, Prepare, DecodeFact;
      var facts := Over(store.tables, own).facts;
      var payload :- Prepare(codecs, c);
      var replay :- ReplayCommand(codecs, facts, c, payload);
      if replay.Some? {
        return Ok((payload, replay));
      }
      var current := Latest(facts.snapshots, c.key);
      if current.Some? {
        var slot := Slot(c.key, current.value);
        if DecodeFact(codecs, slot, facts.snapshots[slot]).Err? {
          return Err(PortContract);
        }
      }
      var required :- RequiredVersion(c, current);
      if c.fact.version != required {
        return Err(PortContract);
      }
      return Ok((payload, None));
    }

    /** The fact store's commit: reads, then two inserts; any failure aborts.
        `atFact` and `atCommand` are the tables when each insert gets through. */
    method Commit(c: Command, atFact: AppTables, atCommand: AppTables)
      returns (raised: bool, result: Option<Replay<Fact>>)
      modifies this, store
      ensures Effect(Current(), raised)
              == Then(Then(LookUnit(codecs, old(store.tables), old(Current()), CommitFact(c)), atFact), atCommand)
      ensures raised <==> result.None?
      ensures !raised ==>
        && PlanFact(codecs, old(Over(store.tables, own)).facts, c).Ok?
        && result == Some(PlanFact(codecs, old(Over(store.tables, own)).facts, c).value.1)
    {
      hide PlanFact, RowOfFact, RowOfCommand;
      if closed || aborted || !active {
        aborted := true;
        return true, None;
      }
      var read := ReadFact(c);
      if read.Err? {
        aborted := true;
        return true, None;
      }
      var payload, replay := read.value.0, read.value.1;
      if replay.Some? {
        return false, Some(Replay(replay.value, true));
      }
      // INSERT INTO qep_versioned_fact_snapshots
      store.tables := atFact;
      var slot := Slot(c.key, c.fact.version);
      if slot in store.tables.facts.snapshots || slot in own.facts.snapshots {
        aborted := true;
        return true, None;
      }
      own := own.(facts := own.facts.(snapshots := own.facts.snapshots[slot := RowOfFact(c, payload)]));
      // INSERT INTO qep_versioned_fact_commands
      store.tables := atCommand;
      if c.idempotency in store.tables.facts.commands || c.idempotency in own.facts.commands {
        aborted := true;
        return true, None;
      }
      own := own.(facts := own.facts.(commands := own.facts.commands[c.idempotency := RowOfCommand(c, payload)]));
      return false, Some(Replay(c.fact, false));
    }

    method Finalize(m: Manifest, atInsert: AppTables) returns (raised: bool)
      modifies this, store
      ensures Effect(Current(), raised)
              == Then(LookUnit(codecs, old(store.tables), old(Current()), FinalizeEvidence(m)), atInsert)
    {
      if closed || aborted || !active || !m.sound {
        aborted := true;
        return true;
      }
      var evidence := Over(store.tables, own).evidence;
      if m.attemptId in evidence {
        if evidence[m.attemptId] != m {
          aborted := true;
          return true;
        }
        return false;
      }
      // INSERT INTO qep_evidence_index
      store.tables := atInsert;
      evidence := Over(store.tables, own).evidence;
      if m.attemptId in evidence || exists a :: a in evidence && evidence[a].root == m.root {
        aborted := true;
        return true;
      }
      own := own.(evidence := own.evidence[m.attemptId := m]);
      raised := false;
    }

    method Append(a: AuditRecord, atInsert: AppTables) returns (raised: bool)
      modifies this, store
      ensures Effect(Current(), raised)
              == Then(LookUnit(codecs, old(store.tables), old(Current()), AppendAudit(a)), atInsert)
    {
      if closed || aborted || !active {
        aborted := true;
        return true;
      }
      var audit := Over(store.tables, own).audit;
      if a.eventId in audit {
        if audit[a.eventId] != a {
          aborted := true;
          return true;
        }
        return false;
      }
      // INSERT INTO qep_audit_events
      store.tables := atInsert;
      if a.eventId in store.tables.audit || a.eventId in own.audit {
        aborted := true;
        return true;
      }
      own := own.(audit := own.audit[a.eventId := a]);
      raised := false;
    }

    method CommitAll(databaseFails: bool) returns (raised: bool)
      modifies this, store
      ensures Effect(Current(), raised) == CommitUnit(old(Current()), databaseFails)
      ensures store.tables == if raised then old(store.tables) else old(Over(store.tables, own))
    {
      if closed || aborted || !active {
        return true;
      }
      if databaseFails {
        own, aborted, active, closed := NO_ROWS, true, false, true;
        return true;
      }
      store.tables := Over(store.tables, own);
      own, active, closed := NO_ROWS, false, true;
      raised := false;
    }

    method Rollback() returns (raised: bool)
      modifies this
      ensures Effect(Current(), raised) == RollbackUnit(old(Current()))
    {
      if closed {
        return false;
      }
      if !active {
        return true;
      }
      own, active, closed := NO_ROWS, false, true;
      raised := false;
    }

    method Exit() returns (raised: bool)
      modifies this
      ensures Effect(Current(), raised) == RollbackUnit(old(Current()))
    {
      raised := false;
      if !closed {
        raised := Rollback();
      }
    }
  }
}
