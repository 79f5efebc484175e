/** The versioned fact store on its two tables: append-only snapshots per key and
    the idempotency rows of the commands that wrote them. */
module FactTables {
  import opened Common

  datatype FactKey = FactKey(kind: Id, value: Id)

  datatype Fact = Fact(id: Id, version: nat, content: nat)

  /** An encoder and decoder registered for one kind of fact. */
  datatype Codec = Codec(schema: Id, encode: Fact -> Result<nat>, decode: nat -> Result<Fact>)

  datatype PayloadDigest = PayloadDigest(schema: Id, payload: nat)

  datatype Slot = Slot(key: FactKey, version: nat)

  datatype SnapshotRow = SnapshotRow(factId: Id, schema: Id, digest: PayloadDigest, payload: nat)

  datatype Command = Command(
    key: FactKey,
    expected: Option<nat>,
    fact: Fact,
    idempotency: IdempotencyKey,
    request: Digest,
    status: int,
    ref: Id)

  datatype IdempotencyKey = IdempotencyKey(scope: Id, key: Id)

  /** The command digest covers the key, versions, payload and response. */
  datatype CommandDigest = CommandDigest(key: FactKey, expected: Option<nat>, version: nat, payload: PayloadDigest,
                                         status: int, ref: Id)

  datatype CommandRow = CommandRow(request: Digest, command: CommandDigest, status: int, ref: Id, slot: Slot,
                                   payload: PayloadDigest)

  datatype Facts = Facts(snapshots: map<Slot, SnapshotRow>, commands: map<IdempotencyKey, CommandRow>)

  /** A command whose fact the codec of its kind can store and give back. */
  function Prepare(codecs: map<Id, Codec>, c: Command): Result<PayloadDigest> {
    if c.key.kind !in codecs || c.key.value != c.fact.id then Err(PortContract)
    else
      var codec := codecs[c.key.kind];
      var payload :- codec.encode(c.fact);
      var decoded :- codec.decode(payload);
      :- Need(decoded == c.fact, PortContract);
      Ok(PayloadDigest(codec.schema, payload))
  }

  /** Read one stored row back, checking it against key, digest and codec. */
  function DecodeFact(codecs: map<Id, Codec>, slot: Slot, row: SnapshotRow): Result<Fact> {
    if slot.key.kind !in codecs then Err(PortContract)
    else
      var codec := codecs[slot.key.kind];
      var fact := codec.decode(row.payload);
      if fact.Ok? && row.factId == slot.key.value && row.schema == codec.schema
         && row.digest == PayloadDigest(codec.schema, row.payload) && fact.value.id == slot.key.value
         && fact.value.version == slot.version && codec.encode(fact.value) == Ok(row.payload)
      then fact
      else Err(PortContract)
  }

  function DigestOf(c: Command, payload: PayloadDigest): CommandDigest {
    CommandDigest(c.key, c.expected, c.fact.version, payload, c.status, c.ref)
  }

  function RowOfCommand(c: Command, payload: PayloadDigest): CommandRow {
    CommandRow(c.request, DigestOf(c, payload), c.status, c.ref, Slot(c.key, c.fact.version), payload)
  }

  function RowOfFact(c: Command, payload: PayloadDigest): SnapshotRow {
    SnapshotRow(c.fact.id, payload.schema, payload, payload.payload)
  }

  /** The highest stored version of a key: ORDER BY version DESC LIMIT 1. */
  function Latest(snapshots: map<Slot, SnapshotRow>, key: FactKey): (v: Option<nat>)
    ensures v.Some? ==> Slot(key, v.value) in snapshots
    ensures v.Some? ==> forall s :: s in snapshots && s.key == key ==> s.version <= v.value
    ensures v.None? ==> forall s :: s in snapshots ==> s.key != key
  {
    LatestOf(set s | s in snapshots && s.key == key)
  }

  function LatestOf(slots: set<Slot>): (v: Option<nat>)
    ensures slots == {} ==> v.None?
    ensures v.Some? ==> exists s :: s in slots && s.version == v.value
    ensures forall s :: s in slots ==> v.Some? && s.version <= v.value
  {
    if slots == {} then None
    else
      HighestExists(slots);
      var top: nat :| IsHighest(top, slots);
      Some(top)
  }

  predicate IsHighest(v: nat, slots: set<Slot>) {
    (exists s :: s in slots && s.version == v) && forall s :: s in slots ==> s.version <= v
  }

  lemma HighestExists(slots: set<Slot>)
    requires slots != {}
    ensures exists v: nat :: IsHighest(v, slots)
  {
    var s :| s in slots;
    var rest := slots - {s};
    if rest == {} {
      assert slots == {s};
      assert IsHighest(s.version, slots);
    } else {
      HighestExists(rest);
      var v: nat :| IsHighest(v, rest);
      var top := if v < s.version then s.version else v;
      var w :| w in rest && w.version == v;
      assert w in slots;
      assert forall q :: q in slots ==> q == s || q in rest;
      assert IsHighest(top, slots);
    }
  }

  /** A stored command answers: exact replays only, with the historical fact. */
  function ReplayCommand(codecs: map<Id, Codec>, facts: Facts, c: Command, payload: PayloadDigest): Result<Option<Fact>> {
    if c.idempotency !in facts.commands then Ok(None)
    else
      var stored, slot := facts.commands[c.idempotency], Slot(c.key, c.fact.version);
      :- Need(stored.request == c.request, IdempotencyConflict);
      :- Need(stored == RowOfCommand(c, payload), PortContract);
      var latest := Latest(facts.snapshots, c.key);
      :- Need(latest.Some? && latest.value >= c.fact.version, PortContract);
      var newest :- DecodeFact(codecs, Slot(c.key, latest.value), facts.snapshots[Slot(c.key, latest.value)]);
      :- Need(slot in facts.snapshots, PortContract);
      var fact :- DecodeFact(codecs, slot, facts.snapshots[slot]);
      Ok(Some(fact))
  }

  /** The version a command may write next to the one it saw. */
  function RequiredVersion(c: Command, current: Option<nat>): Result<nat> {
    if c.expected.None? then if current.Some? then Err(PortContract) else Ok(0)
    else if current.None? then Err(PortContract)
    else if current.value != c.expected.value then Err(VersionConflict)
    else Ok(c.expected.value + 1)
  }
}
