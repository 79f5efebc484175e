/** Rebuilding the Batch source snapshot from its tables: every Run resolution
    and every cancellation scope item is folded into one resolution per manifest
    item, or the rebuild is refused. */
module BatchRebuild {
  import opened Common
  import opened Ordering
  import opened RunTables
  import opened BatchTables

  /** One row of the Run query: the Run joined with its basis, if any. */
  datatype RunInput = RunInput(
    id: Id,
    phase: Phase,
    outcome: Option<RunOutcome>,
    basisDigest: Option<BasisDigest>,
    basis: Option<RunBasis>)

  /** One row of the Run resolution query. */
  datatype ResolutionInput = ResolutionInput(runId: Id, item: ItemKey, row: ResolutionRow)

  function RunRank(id: Id): Rank { Rank(id, 0) }

  const RunInputKey: RunInput -> Rank := (r: RunInput) => RunRank(r.id)
  const TerminalKey: TerminalRef -> Rank := (r: TerminalRef) => RunRank(r.runId)
  const ScopeKey: ScopeItem -> Rank := (s: ScopeItem) => s.item
  const UnknownKey: UnknownRef -> Rank := (u: UnknownRef) => u.item
  const NonRunKey: NonRunRef -> Rank := (n: NonRunRef) => n.item
  const InputKey: ResolutionInput -> Rank := (r: ResolutionInput) => r.item

  function RunIds(runs: seq<RunInput>): (ids: seq<Id>)
    ensures |ids| == |runs| && forall i :: 0 <= i < |runs| ==> ids[i] == runs[i].id
  {
    seq(|runs|, i requires 0 <= i < |runs| => runs[i].id)
  }

  // ----- Terminal Run references ------------------------------------------

  predicate SoundTerminal(r: RunInput, batchId: Id) {
    && r.basis.Some?
    && r.phase == ClosedPhase
    && r.basisDigest == Some(BasisDigest(r.basis.value))
    && r.outcome == Some(r.basis.value.outcome)
    && r.basis.value.runId == r.id
    && r.basis.value.batchId == batchId
  }

  function TerminalOf(r: RunInput): TerminalRef
    requires r.basis.Some?
  {
    var b := r.basis.value;
    TerminalRef(r.id, b.sourceVersion, BasisDigest(b), b.outcome, b.itemSet)
  }

  function TerminalRefs(runs: seq<RunInput>, batchId: Id): (refs: Result<seq<TerminalRef>>)
    ensures refs.Ok? <==> forall r :: r in runs ==> SoundTerminal(r, batchId)
    ensures refs.Err? ==> refs.error == AuthorityStateConflict
    ensures refs.Ok? ==>
      |refs.value| == |runs| && forall i :: 0 <= i < |runs| ==> runs[i].basis.Some? && refs.value[i] == TerminalOf(runs[i])
  {
    if |runs| == 0 then Ok([])
    else
      var front, last := runs[..|runs| - 1], runs[|runs| - 1];
      assert runs == front + [last];
      var refs :- TerminalRefs(front, batchId);
      :- Need(SoundTerminal(last, batchId), AuthorityStateConflict);
      Ok(refs + [TerminalOf(last)])
  }

  function RefsByRun(refs: seq<TerminalRef>): (m: map<Id, TerminalRef>)
    ensures forall k :: k in m ==> m[k] in refs && m[k].runId == k
    ensures forall i :: 0 <= i < |refs| ==> refs[i].runId in m
  {
    if |refs| == 0 then map[]
    else RefsByRun(refs[..|refs| - 1])[refs[|refs| - 1].runId := refs[|refs| - 1]]
  }

  // ----- Cancellation scope ------------------------------------------------

  function ScopeFromRow(r: ScopeRow, manifest: Manifest, plan: Plan): ScopeItem {
    ScopeItem(r.batchId, r.intent, r.item, manifest.digest, plan.version, plan.digest, r.kind, r.recordedAt)
  }

  predicate SoundScopeRow(r: ScopeRow, manifest: Manifest, plan: Plan) {
    var item := ScopeFromRow(r, manifest, plan);
    r.digest == ScopeDigest(item) && r.payload == item
  }

  function ScopeItems(rows: seq<ScopeRow>, manifest: Manifest, plan: Plan): (items: seq<ScopeItem>)
    ensures |items| == |rows|
    ensures forall i :: 0 <= i < |rows| ==> items[i] == ScopeFromRow(rows[i], manifest, plan)
  {
    seq(|rows|, i requires 0 <= i < |rows| => ScopeFromRow(rows[i], manifest, plan))
  }

  /** Exact delivery replays collapse. */
  function Collapse(items: seq<ScopeItem>): (r: seq<ScopeItem>)
    ensures forall s :: s in r <==> s in items
    ensures forall i, j :: 0 <= i < j < |r| ==> r[i] != r[j]
  {
    if |items| == 0 then []
    else
      var front, last := items[..|items| - 1], items[|items| - 1];
      assert items == front + [last];
      var rest := Collapse(front);
      if last in rest then rest else rest + [last]
  }

  /** One canonical fact per manifest item, all under the authoritative envelope. */
  function Canonicalize(batchId: Id, intent: Digest, manifest: Manifest, plan: Plan, items: seq<ScopeItem>)
    : (r: Result<seq<ScopeItem>>)
    ensures r.Err? ==> r.error == AuthorityStateConflict
  {
    var canonical := SortBy(Collapse(items), ScopeKey);
    var keys := KeysOf(canonical, ScopeKey);
    if |items| == 0 || |manifest.items| == 0 || !IsAscending(manifest.items) || keys != manifest.items then
      Err(AuthorityStateConflict)
    else if forall s :: s in canonical ==>
            s.batchId == batchId && s.intent == intent && s.manifestDigest == manifest.digest
            && s.planVersion == plan.version && s.planDigest == plan.digest
    then Ok(canonical)
    else Err(AuthorityStateConflict)
  }

  predicate SoundIntent(i: IntentRow, manifest: Manifest, plan: Plan, runSet: RunSetDigest) {
    && i.frozenPlan
    && i.manifestDigest == manifest.digest
    && i.planVersion == plan.version
    && i.planDigest == plan.digest
    && i.runSet == runSet
  }

  // ----- Folding resolutions into items -----------------------------------

  datatype Folded = Folded(entries: map<ItemKey, BatchItem>, unknown: seq<UnknownRef>)

  predicate SoundResolution(r: ResolutionInput, refs: map<Id, TerminalRef>) {
    && r.runId in refs
    && r.row.payload.item == r.item
    && r.row.payload.classification == r.row.classification
    && r.row.sourceVersion == refs[r.runId].sourceVersion
    && r.row.entryDigest == EntryDigest(r.row.payload)
    && r.row.classification != NotExecutedItem
    && (r.row.unknownLineage.Some? ==> r.row.payload.adjudication.Some?)
  }

  function ItemOf(r: ResolutionInput, ref: TerminalRef): BatchItem {
    BatchItem(r.item, FromRun(ref.runId, ref.sourceVersion, ref.basis, ref.itemSet, r.row.entryDigest),
              r.row.classification)
  }

  function UnknownOf(r: ResolutionInput): seq<UnknownRef>
    requires r.row.unknownLineage.Some? ==> r.row.payload.adjudication.Some?
  {
    if r.row.unknownLineage.None? then []
    else [UnknownRef(r.item, r.row.entryDigest, r.row.unknownLineage.value, r.row.payload.adjudication.value)]
  }

  function FoldRuns(rows: seq<ResolutionInput>, refs: map<Id, TerminalRef>): (f: Result<Folded>)
    ensures f.Ok? <==> forall r :: r in rows ==> SoundResolution(r, refs)
    ensures f.Err? ==> f.error == AuthorityStateConflict
  {
    if |rows| == 0 then Ok(Folded(map[], []))
    else
      var front, last := rows[..|rows| - 1], rows[|rows| - 1];
      assert rows == front + [last];
      var f :- FoldRuns(front, refs);
      :- Need(SoundResolution(last, refs), AuthorityStateConflict);
      Ok(Folded(f.entries[last.item := ItemOf(last, refs[last.runId])], f.unknown + UnknownOf(last)))
  }

  datatype Scoped = Scoped(entries: map<ItemKey, BatchItem>, nonRun: seq<NonRunRef>)

  function NotExecutedItemOf(s: ScopeItem): BatchItem {
    BatchItem(s.item, FromScope(ScopeDigest(s)), NotExecutedItem)
  }

  /** A fan-out scope item must name the Run and version that resolved its item. */
  predicate FanoutAgrees(s: ScopeItem, entries: map<ItemKey, BatchItem>) {
    && s.kind.RunFanout?
    && s.item in entries
    && entries[s.item].source.FromRun?
    && entries[s.item].source.runId == s.kind.runId
    && entries[s.item].source.sourceVersion == s.kind.sourceVersion
  }

  function FoldScope(items: seq<ScopeItem>, start: map<ItemKey, BatchItem>): (f: Result<Scoped>)
    ensures f.Err? ==> f.error == AuthorityStateConflict
  {
    if |items| == 0 then Ok(Scoped(start, []))
    else
      var last := items[|items| - 1];
      var f :- FoldScope(items[..|items| - 1], start);
      if last.kind.NotExecuted? then
        :- Need(last.item !in f.entries, AuthorityStateConflict);
        Ok(Scoped(f.entries[last.item := NotExecutedItemOf(last)],
                  f.nonRun + [NonRunRef(last.item, ScopeDigest(last))]))
      else
        :- Need(FanoutAgrees(last, f.entries), AuthorityStateConflict);
        Ok(f)
  }

  /** Every manifest item, in order, with its one resolution. */
  function ListItems(keys: seq<ItemKey>, entries: map<ItemKey, BatchItem>): (s: seq<BatchItem>)
    requires forall i :: 0 <= i < |keys| ==> keys[i] in entries
    ensures |s| == |keys| && forall i :: 0 <= i < |keys| ==> s[i] == entries[keys[i]]
  {
    seq(|keys|, i requires 0 <= i < |keys| => entries[keys[i]])
  }

  /** The resolution set checks coverage and that one Run's items agree on one
      basis and one item set which no other Run shares. */
  predicate CoherentSources(s: seq<BatchItem>) {
    forall i, j :: 0 <= i < j < |s| && s[i].source.FromRun? && s[j].source.FromRun? ==>
      var a, b := s[i].source, s[j].source;
      && (a.runId == b.runId ==> a.sourceVersion == b.sourceVersion && a.basis == b.basis && a.itemSet == b.itemSet)
      && (a.basis == b.basis ==> a.runId == b.runId)
      && (a.itemSet == b.itemSet ==> a.runId == b.runId)
      && a.entry != b.entry
  }

  predicate Covers(entries: map<ItemKey, BatchItem>, keys: seq<ItemKey>) {
    && |keys| > 0 && IsAscending(keys)
    && (forall k :: k in entries ==> k in keys)
    && (forall k :: k in keys ==> k in entries)
  }

  // ----- The whole rebuild -------------------------------------------------

  function ScopeFor(e: SourceSnapshot, source: BatchSource, manifest: Manifest, plan: Plan, runSet: RunSetDigest)
    : Result<(Option<Digest>, seq<ScopeItem>)>
  {
    if |source.intents| > 1 then Err(AuthorityStateConflict)
    else if |source.intents| == 1 && !SoundIntent(source.intents[0], manifest, plan, runSet) then
      Err(AuthorityStateConflict)
    else if exists r :: r in source.scope && !SoundScopeRow(r, manifest, plan) then Err(AuthorityStateConflict)
    else if |source.intents| == 0 then
      if |source.scope| > 0 then Err(AuthorityStateConflict) else Ok((None, []))
    else
      var intent := source.intents[0].digest;
      var canonical :- Canonicalize(e.envelope.batchId, intent, manifest, plan, ScopeItems(source.scope, manifest, plan));
      Ok((Some(intent), canonical))
  }

  function Assemble(e: SourceSnapshot, manifest: Manifest, plan: Plan, policy: Policy, runSet: RunSetDigest,
                    intent: Option<Digest>, refs: seq<TerminalRef>, unknown: seq<UnknownRef>, scoped: Scoped)
    : Result<SourceSnapshot>
  {
    if !Covers(scoped.entries, manifest.items) then Err(AuthorityStateConflict)
    else
      var items := ListItems(manifest.items, scoped.entries);
      if !CoherentSources(items) then Err(AuthorityStateConflict)
      else
        var envelope := Envelope(e.envelope.batchId, e.envelope.sourceVersion, manifest.id, manifest.digest, plan.id,
                                 plan.version, plan.digest, runSet);
        var resolutions := ResolutionSetDigest(envelope, items);
        var terminal := SortBy(refs, TerminalKey);
        var unknownRefs := SortBy(unknown, UnknownKey);
        Ok(SourceSnapshot(envelope, manifest.itemCount, policy, resolutions,
                          ProofDigest(resolutions, terminal, unknownRefs), intent, terminal,
                          SortBy(scoped.nonRun, NonRunKey), unknownRefs))
  }

  /** The approved manifest and plan and the policy named by the candidate exist,
      the policy under the suite of the Batch. */
  predicate SourceFound(e: SourceSnapshot, source: BatchSource) {
    && source.manifest.Some? && source.manifest.value.id == e.envelope.manifestId && source.manifest.value.approved
    && source.plan.Some? && source.plan.value.id == e.envelope.planId && source.plan.value.approved
    && FindPolicy(source, e.policy.id, e.policy.version, source.suite).Some?
    && source.manifest.value.itemCount == |source.manifest.value.items|
  }

  /** `e` supplies the identities to look up; the rest comes from the tables. */
  function Rebuild(e: SourceSnapshot, source: BatchSource, runs: seq<RunInput>, resolutions: seq<ResolutionInput>)
    : Result<SourceSnapshot>
  {
    if !SourceFound(e, source) then Err(AuthorityStateConflict)
    else
      var manifest, plan := source.manifest.value, source.plan.value;
      var runSet := RunSetDigest(e.envelope.batchId, RunIds(SortBy(runs, RunInputKey)));
      var refs :- TerminalRefs(runs, e.envelope.batchId);
      var scope :- ScopeFor(e, source, manifest, plan, runSet);
      var folded :- FoldRuns(resolutions, RefsByRun(refs));
      var scoped :- FoldScope(scope.1, folded.entries);
      var policy := FindPolicy(source, e.policy.id, e.policy.version, source.suite).value;
      Assemble(e, manifest, plan, policy, runSet, scope.0, refs, folded.unknown, scoped)
  }
}
