/** The Suite aggregate, its rows, and the statements of the suite gateway on one
    suite: load, register, publish a revision, retire. */
module SuiteAggregate {
  import opened Common
  import opened Ordering

  /** `terms` stands for framework, resource profile and revision status. */
  datatype Revision = Revision(id: Id, suiteId: Id, no: nat, spec: Digest, config: Digest, terms: Digest, createdAt: Time)

  datatype Suite = Suite(
    id: Id, projectId: Id, name: Id, version: nat, revisions: seq<Revision>, currentId: Id, retiredAt: Option<Time>)

  /** The suite row with its revision rows, in table order. */
  datatype SuiteRows = SuiteRows(projectId: Id, name: Id, version: nat, retiredAt: Option<Time>, revisions: seq<Revision>)

  function NumberOf(r: Revision): Rank { Rank(r.no, r.id) }

  predicate DistinctIds(revisions: seq<Revision>) {
    forall i, j :: 0 <= i < j < |revisions| ==> revisions[i].id != revisions[j].id
  }

  predicate Contiguous(revisions: seq<Revision>) {
    forall i :: 0 <= i < |revisions| ==> revisions[i].no == i + 1
  }

  predicate Timeline(revisions: seq<Revision>) {
    forall i :: 0 < i < |revisions| ==> revisions[i - 1].createdAt <= revisions[i].createdAt
  }

  /** The checks every Suite value passes when it is built. */
  predicate WellFormed(s: Suite) {
    && s.revisions != [] && DistinctIds(s.revisions) && Contiguous(s.revisions) && Timeline(s.revisions)
    && (forall i :: 0 <= i < |s.revisions| ==> s.revisions[i].suiteId == s.id)
    && s.currentId == s.revisions[|s.revisions| - 1].id
  }

  // ----- Domain commands ---------------------------------------------------

  function PublishRevision(s: Suite, r: Revision, expectedVersion: nat): Result<Suite> {
    if s.version != expectedVersion then Err(VersionConflict)
    else if s.retiredAt.Some? then Err(DomainConflict)
    else if exists i :: 0 <= i < |s.revisions| && s.revisions[i].id == r.id then Err(DomainConflict)
    else
      var next := s.(revisions := s.revisions + [r.(suiteId := s.id, no := |s.revisions| + 1)],
                     currentId := r.id, version := s.version + 1);
      if WellFormed(next) then Ok(next) else Err(DomainValidation)
  }

  function Retire(s: Suite, at: Time, expectedVersion: nat): Result<Suite> {
    if s.version != expectedVersion then Err(VersionConflict)
    else if s.retiredAt.Some? then Err(DomainConflict)
    else Ok(s.(retiredAt := Some(at), version := s.version + 1))
  }

  // ----- Statements --------------------------------------------------------

  /** ORDER BY revision_no, then the Suite value is built and checked. */
  function Load(id: Id, rows: Option<SuiteRows>): Result<Suite> {
    if rows.None? || rows.value.revisions == [] then Err(PortContract)
    else
      var sorted := SortBy(rows.value.revisions, NumberOf);
      if sorted == [] then Err(PortContract)
      else
        var s := Suite(id, rows.value.projectId, rows.value.name, rows.value.version, sorted,
                       sorted[|sorted| - 1].id, rows.value.retiredAt);
        if WellFormed(s) then Ok(s) else Err(DomainValidation)
  }

  /** What a call leaves: its result, the rows its statements made, the snapshot. */
  datatype Done = Done(result: Result<Replay<Suite>>, rows: Option<SuiteRows>, snapshot: Option<Suite>)

  predicate Initial(s: Suite) { s.version == 0 && |s.revisions| == 1 }

  /** get_suite_for_update: one suite a transaction, loaded once. */
  function Get(id: Id, rows: Option<SuiteRows>, snapshot: Option<Suite>): (Result<Suite>, Option<Suite>) {
    if snapshot.Some? then
      (if snapshot.value.id == id then Ok(snapshot.value) else Err(PortContract), snapshot)
    else
      var loaded := Load(id, rows);
      (loaded, if loaded.Ok? then Some(loaded.value) else None)
  }

  predicate SameRegistration(stored: Suite, s: Suite)
    requires stored.revisions != [] && s.revisions != []
  {
    && stored.projectId == s.projectId && stored.name == s.name && stored.currentId == s.currentId
    && stored.revisions[0].spec == s.revisions[0].spec && stored.revisions[0].config == s.revisions[0].config
  }

  /** The branch of register that finds the id present. */
  function Replayed(s: Suite, rows: Option<SuiteRows>, snapshot: Option<Suite>): Done {
    if !Initial(s) then Done(Err(PortContract), rows, snapshot)
    else
      var (loaded, snap) := Get(s.id, rows, snapshot);
      if loaded.Err? then Done(Err(loaded.error), rows, snap)
      else if loaded.value.revisions != [] && SameRegistration(loaded.value, s) then
        Done(Ok(Replay(loaded.value, true)), rows, snap)
      else Done(Err(PortContract), rows, snap)
  }

  /** The branch that inserts: the suite row, whose retirement columns must agree,
      then the first revision. A unique key already taken raises. */
  function Inserted(s: Suite, rows: Option<SuiteRows>, snapshot: Option<Suite>, taken: bool): Done {
    if !Initial(s) then Done(Err(PortContract), rows, snapshot)
    else if rows.Some? || taken || s.retiredAt.Some? then Done(Err(ConstraintViolation), rows, snapshot)
    else Done(Ok(Replay(s, false)), Some(SuiteRows(s.projectId, s.name, s.version, None, s.revisions)), Some(s))
  }

  /** Insert the revision, then advance the version where version and status fit. */
  function Revised(s: Suite, expected: Suite, rows: Option<SuiteRows>, snapshot: Option<Suite>, taken: bool): Done
    requires WellFormed(s) && WellFormed(expected)
  {
    if snapshot != Some(expected) then Done(Err(VersionConflict), rows, snapshot)
    else if s.id != expected.id || s.version != expected.version + 1 || |s.revisions| != |expected.revisions| + 1
            || s.revisions[..|s.revisions| - 1] != expected.revisions then
      Done(Err(PortContract), rows, snapshot)
    else
      var added := s.revisions[|s.revisions| - 1];
      if rows.None? || taken then Done(Err(ConstraintViolation), rows, snapshot)
      else
        var inserted := rows.value.(revisions := rows.value.revisions + [added]);
        if rows.value.version != expected.version || rows.value.retiredAt.Some? then
          Done(Err(VersionConflict), Some(inserted), snapshot)
        else Done(Ok(Replay(s, false)), Some(inserted.(version := s.version)), Some(s))
  }

  function Retired(s: Suite, expected: Suite, rows: Option<SuiteRows>, snapshot: Option<Suite>): Done
    requires WellFormed(s) && WellFormed(expected)
  {
    if snapshot != Some(expected) then Done(Err(VersionConflict), rows, snapshot)
    else if s.id != expected.id || s.retiredAt.None? || s.version != expected.version + 1
            || s.revisions != expected.revisions then
      Done(Err(PortContract), rows, snapshot)
    else if rows.None? || rows.value.version != expected.version || rows.value.retiredAt.Some? then
      Done(Err(VersionConflict), rows, snapshot)
    else
      Done(Ok(Replay(s, false)), Some(rows.value.(retiredAt := s.retiredAt, version := s.version)), Some(s))
  }

  // ----- Rows and values ---------------------------------------------------

  /** The version counts the revisions after the first, and the retirement. */
  predicate RowsInv(id: Id, rows: SuiteRows) {
    && rows.revisions != [] && DistinctIds(rows.revisions) && Contiguous(rows.revisions) && Timeline(rows.revisions)
    && (forall i :: 0 <= i < |rows.revisions| ==> rows.revisions[i].suiteId == id)
    && rows.version == |rows.revisions| - 1 + (if rows.retiredAt.Some? then 1 else 0)
  }

  function SuiteOf(id: Id, rows: SuiteRows): Suite
    requires rows.revisions != []
  {
    Suite(id, rows.projectId, rows.name, rows.version, rows.revisions,
          rows.revisions[|rows.revisions| - 1].id, rows.retiredAt)
  }

  /** A load gives back exactly what the rows hold. */
  lemma LoadInverts(id: Id, rows: SuiteRows)
    requires RowsInv(id, rows)
    ensures Load(id, Some(rows)) == Ok(SuiteOf(id, rows)) && WellFormed(SuiteOf(id, rows))
  {
    SortBySorted(rows.revisions, NumberOf);
    var sorted := SortBy(rows.revisions, NumberOf);
    assert SortedBy(rows.revisions, NumberOf);
    forall y
      ensures y in sorted <==> y in rows.revisions
    {
      assert y in sorted <==> y in multiset(sorted);
      assert y in rows.revisions <==> y in multiset(rows.revisions);
    }
    SortedDetermined(sorted, rows.revisions, NumberOf);
  }

  /** History only grows, a retirement is final, one version has one content. */
  predicate Extends(a: SuiteRows, b: SuiteRows) {
    && a.projectId == b.projectId && a.name == b.name
    && a.revisions <= b.revisions && a.version <= b.version
    && (a.retiredAt.Some? ==> b == a)
    && (a.version == b.version ==> b == a)
  }

  /** The snapshot of an unfailed transaction is about the rows it sees. */
  predicate Matches(s: Suite, rows: SuiteRows) {
    WellFormed(s) && s.revisions == rows.revisions && s.version == rows.version
  }

  lemma RevisedKeeps(s: Suite, expected: Suite, rows: SuiteRows, taken: bool)
    requires WellFormed(s) && Matches(expected, rows) && RowsInv(expected.id, rows)
    ensures var d := Revised(s, expected, Some(rows), Some(expected), taken);
            d.result.Ok? ==> d.rows.Some? && RowsInv(s.id, d.rows.value) && Matches(s, d.rows.value)
                             && Extends(rows, d.rows.value) && |d.rows.value.revisions| == |rows.revisions| + 1
  {
    var d := Revised(s, expected, Some(rows), Some(expected), taken);
    if d.result.Ok? {
      assert s.revisions == s.revisions[..|s.revisions| - 1] + [s.revisions[|s.revisions| - 1]];
      assert d.rows.value.revisions == s.revisions;
    }
  }

  lemma RetiredKeeps(s: Suite, expected: Suite, rows: SuiteRows)
    requires WellFormed(s) && Matches(expected, rows) && RowsInv(expected.id, rows)
    ensures var d := Retired(s, expected, Some(rows), Some(expected));
            d.result.Ok? ==> d.rows.Some? && RowsInv(s.id, d.rows.value) && Matches(s, d.rows.value)
                             && Extends(rows, d.rows.value) && d.rows.value.retiredAt.Some?
  {
  }

  /** A published domain revision is what the next load returns; a domain refusal
      and a gateway refusal go together. */
  lemma RevisionReloads(id: Id, rows: SuiteRows, r: Revision, taken: bool)
    requires RowsInv(id, rows)
    ensures var was := SuiteOf(id, rows);
            var next := PublishRevision(was, r, was.version);
            next.Ok? ==>
              var d := Revised(next.value, was, Some(rows), Some(was), taken);
              (d.result.Ok? <==> !taken) && (d.result.Ok? ==> Load(id, d.rows) == Ok(next.value))
  {
    LoadInverts(id, rows);
    var was := SuiteOf(id, rows);
    var next := PublishRevision(was, r, was.version);
    if next.Ok? && !taken {
      assert next.value.revisions[..|was.revisions|] == was.revisions;
      RevisedKeeps(next.value, was, rows, taken);
      LoadInverts(id, Revised(next.value, was, Some(rows), Some(was), taken).rows.value);
    }
  }

  lemma RetirementReloads(id: Id, rows: SuiteRows, at: Time)
    requires RowsInv(id, rows) && rows.retiredAt.None?
    ensures var was := SuiteOf(id, rows);
            var next := Retire(was, at, was.version);
            next.Ok? && WellFormed(next.value)
            && var d := Retired(next.value, was, Some(rows), Some(was));
               d.result.Ok? && Load(id, d.rows) == Ok(next.value)
  {
    LoadInverts(id, rows);
    LoadInverts(id, rows.(retiredAt := Some(at), version := rows.version + 1));
  }

  /** A registration sent again is replayed exactly as long as no further revision
      was published: the check compares the current revision, not the first. */
  lemma RegistrationReplays(s: Suite, rows: SuiteRows)
    requires WellFormed(s) && Initial(s) && RowsInv(s.id, rows)
    requires rows.projectId == s.projectId && rows.name == s.name && rows.revisions[0] == s.revisions[0]
    ensures Replayed(s, Some(rows), None).result.Ok? <==> |rows.revisions| == 1
    ensures Replayed(s, Some(rows), None).result.Ok? ==>
              Replayed(s, Some(rows), None).result == Ok(Replay(SuiteOf(s.id, rows), true))
  {
    LoadInverts(s.id, rows);
    if |rows.revisions| > 1 {
      assert rows.revisions[|rows.revisions| - 1].id != rows.revisions[0].id;
    }
  }
}
