/** When a Batch of closed Runs can become ready, and when a ready Batch can be
    finalized: the checks of both stages decided by what the tables hold. */
module BatchProgress {
  import opened Common
  import opened Ordering
  import opened RunTables
  import opened AssignmentLifecycle
  import opened AssignmentSql
  import opened RunFinalizationSql
  import opened RunLifecycle
  import opened BatchTables
  import opened BatchRebuild
  import opened BatchRebuildLaws
  import opened BatchReadinessSql
  import opened BatchFinalizationSql
  import opened ControlPlaneInvariant

  // ----- The Run queries over closed Runs ---------------------------------

  /** No item is resolved by two Runs. */
  predicate ResolvedApart(runs: map<Id, RunRows>, ids: set<Id>) {
    forall r, q, k :: (r in ids && q in ids && r in runs && q in runs
                       && k in runs[r].resolutions && k in runs[q].resolutions) ==> r == q
  }

  function Listed(runs: map<Id, RunRows>, r: Id, k: ItemKey): ResolutionInput
    requires r in runs && k in runs[r].resolutions
  {
    ResolutionInput(r, k, runs[r].resolutions[k])
  }

  /** A listing holds exactly the resolutions of the Runs, each once. */
  predicate ListsRuns(runs: map<Id, RunRows>, ids: set<Id>, list: seq<ResolutionInput>) {
    && DistinctBy(list, InputKey)
    && (forall x :: x in list ==> x.runId in ids && x.runId in runs && x.item in runs[x.runId].resolutions
                                  && x == Listed(runs, x.runId, x.item))
    && (forall r, k :: r in ids && r in runs && k in runs[r].resolutions ==> Listed(runs, r, k) in list)
  }

  lemma OneRunListed(id: Id, rows: RunRows)
    ensures DistinctBy(ResolutionsOf(id, rows), InputKey)
    ensures forall x :: x in ResolutionsOf(id, rows) ==>
      x.runId == id && x.item in rows.resolutions && x.row == rows.resolutions[x.item]
    ensures forall k :: k in rows.resolutions ==> ResolutionInput(id, k, rows.resolutions[k]) in ResolutionsOf(id, rows)
  {
    var keys := Ascending(rows.resolutions.Keys);
    AscendingLists(rows.resolutions.Keys);
    var list := ResolutionsOf(id, rows);
    assert |list| == |keys|;
    forall i, j | 0 <= i < j < |list|
      ensures InputKey(list[i]) != InputKey(list[j])
    {
      assert Less(keys[i], keys[j]);
    }
    forall x | x in list
      ensures x.runId == id && x.item in rows.resolutions && x.row == rows.resolutions[x.item]
    {
      var i :| 0 <= i < |list| && list[i] == x;
      assert keys[i] in keys;
    }
    forall k | k in rows.resolutions
      ensures ResolutionInput(id, k, rows.resolutions[k]) in list
    {
      assert k in keys;
      var i :| 0 <= i < |keys| && keys[i] == k;
      assert list[i].item == k;
    }
  }

  lemma ExtendListing(runs: map<Id, RunRows>, ids: set<Id>, last: Id, list: seq<ResolutionInput>)
    requires last in runs && last !in ids && ResolvedApart(runs, ids + {last}) && ListsRuns(runs, ids, list)
    ensures ListsRuns(runs, ids + {last}, list + ResolutionsOf(last, runs[last]))
  {
    hide ResolutionsOf;
    OneRunListed(last, runs[last]);
    var z := ResolutionsOf(last, runs[last]);
    forall i, j | 0 <= i < |list| && 0 <= j < |z|
      ensures InputKey(list[i]) != InputKey(z[j])
    {
      assert list[i] in list && z[j] in z;
    }
  }

  function IdSet(ids: seq<Id>): set<Id> { set i | i in ids }

  lemma LastOfIds(ids: seq<Id>)
    requires |ids| > 0 && forall i, j :: 0 <= i < j < |ids| ==> ids[i] != ids[j]
    ensures IdSet(ids) == IdSet(ids[..|ids| - 1]) + {ids[|ids| - 1]} && ids[|ids| - 1] !in IdSet(ids[..|ids| - 1])
  {
    assert ids == ids[..|ids| - 1] + [ids[|ids| - 1]];
  }

  lemma FewerApart(runs: map<Id, RunRows>, a: set<Id>, b: set<Id>)
    requires ResolvedApart(runs, b) && a <= b
    ensures ResolvedApart(runs, a)
  {
  }

  lemma {:induction false} RunsListed(runs: map<Id, RunRows>, ids: seq<Id>)
    requires forall i :: 0 <= i < |ids| ==> ids[i] in runs
    requires forall i, j :: 0 <= i < j < |ids| ==> ids[i] != ids[j]
    requires ResolvedApart(runs, IdSet(ids))
    ensures ListsRuns(runs, IdSet(ids), ListResolutions(runs, ids))
  {
    if |ids| > 0 {
      hide ListsRuns, ResolutionsOf, ResolvedApart, IdSet;
      var front, last := ids[..|ids| - 1], ids[|ids| - 1];
      LastOfIds(ids);
      FewerApart(runs, IdSet(front), IdSet(ids));
      RunsListed(runs, front);
      ExtendListing(runs, IdSet(front), last, ListResolutions(runs, front));
    }
  }

  lemma DistinctRunIds(runs: map<Id, RunRows>, b: Id)
    ensures StrictlyIncreasing(RunIdList(runs, b))
    ensures IdSet(RunIdList(runs, b)) == RunsOf(runs, b)
  {
    var elements := RunRanks(runs, b);
    AscendingLists(elements);
    var ids := RunIdList(runs, b);
    forall i, j | 0 <= i < j < |ids|
      ensures ids[i] < ids[j]
    {
      assert Ascending(elements)[i] in elements && Ascending(elements)[j] in elements;
      assert Less(Ascending(elements)[i], Ascending(elements)[j]);
    }
    forall r | r in RunsOf(runs, b)
      ensures r in ids
    {
      RunListed(runs, b, r);
    }
  }

  lemma QueryLists(runs: map<Id, RunRows>, b: Id)
    requires ResolvedApart(runs, RunsOf(runs, b))
    ensures ListsRuns(runs, RunsOf(runs, b), ResolutionQuery(runs, b))
  {
    hide ListsRuns, ListResolutions, RunIdList, ResolvedApart, IdSet;
    DistinctRunIds(runs, b);
    RunsListed(runs, RunIdList(runs, b));
  }

  /** The Run query comes sorted, and so do the references made from it. */
  lemma QueriesAreSorted(runs: map<Id, RunRows>, b: Id)
    ensures SortBy(RunQuery(runs, b), RunInputKey) == RunQuery(runs, b)
    ensures RunIds(RunQuery(runs, b)) == RunIdList(runs, b)
    ensures TerminalRefs(RunQuery(runs, b), b).Ok? ==>
      var refs := TerminalRefs(RunQuery(runs, b), b).value;
      SortBy(refs, TerminalKey) == refs && SortedBy(refs, TerminalKey)
  {
    DistinctRunIds(runs, b);
    hide RunIdList, RunsOf;
    var query := RunQuery(runs, b);
    assert SortedBy(query, RunInputKey);
    SortOfSorted(query, RunInputKey);
    if TerminalRefs(query, b).Ok? {
      var refs := TerminalRefs(query, b).value;
      assert SortedBy(refs, TerminalKey);
      SortOfSorted(refs, TerminalKey);
    }
  }

  lemma ClosedIsTerminal(id: Id, rows: RunRows)
    requires RunInv(id, rows) && rows.basis.Some?
    ensures SoundTerminal(RunInputOf(id, rows), rows.batchId)
  {
    hide AssignmentInv, ValidEntries, ResolutionMap;
  }

  lemma ReferencesFound(runs: map<Id, RunRows>, b: Id)
    requires RunsInv(runs) && BatchClosed(runs, b)
    ensures TerminalRefs(RunQuery(runs, b), b).Ok?
    ensures var refs := RefsByRun(TerminalRefs(RunQuery(runs, b), b).value);
            forall r :: r in RunsOf(runs, b) ==> r in refs && refs[r] == TerminalOf(RunInputOf(r, runs[r]))
  {
    DistinctRunIds(runs, b);
    hide RunIdList, RunInv, SoundTerminal;
    var ids, query := RunIdList(runs, b), RunQuery(runs, b);
    forall x | x in query
      ensures SoundTerminal(x, b)
    {
      var i :| 0 <= i < |query| && query[i] == x;
      assert RunInv(ids[i], runs[ids[i]]);
      ClosedIsTerminal(ids[i], runs[ids[i]]);
    }
    forall r | r in RunsOf(runs, b)
      ensures r in RefsByRun(TerminalRefs(query, b).value)
      ensures RefsByRun(TerminalRefs(query, b).value)[r] == TerminalOf(RunInputOf(r, runs[r]))
    {
      assert r in IdSet(ids);
      RefOf(runs, b, r);
    }
  }

  lemma RefOf(runs: map<Id, RunRows>, b: Id, r: Id)
    requires TerminalRefs(RunQuery(runs, b), b).Ok? && r in RunIdList(runs, b) && runs[r].basis.Some?
    ensures var refs := RefsByRun(TerminalRefs(RunQuery(runs, b), b).value);
            r in refs && refs[r] == TerminalOf(RunInputOf(r, runs[r]))
  {
    hide RunIdList, SoundTerminal;
    var ids, refs := RunIdList(runs, b), TerminalRefs(RunQuery(runs, b), b).value;
    var byRun := RefsByRun(refs);
    var i :| 0 <= i < |ids| && ids[i] == r;
    assert refs[i].runId in byRun;
    var j :| 0 <= j < |refs| && refs[j] == byRun[r];
    assert ids[j] == r;
  }

  // ----- The Run part of the rebuild --------------------------------------

  /** The item a closed Run contributes. */
  function RunItem(id: Id, rows: RunRows, k: ItemKey): BatchItem
    requires rows.basis.Some? && k in rows.resolutions
  {
    BatchItem(k, FromRun(id, rows.basis.value.sourceVersion, BasisDigest(rows.basis.value), rows.basis.value.itemSet,
                         rows.resolutions[k].entryDigest),
              rows.resolutions[k].classification)
  }

  /** The entries are the items of the closed Runs. */
  predicate HoldsClosed(runs: map<Id, RunRows>, b: Id, entries: map<ItemKey, BatchItem>)
    requires BatchClosed(runs, b)
  {
    && (forall k :: k in entries ==> exists r :: r in RunsOf(runs, b) && k in runs[r].resolutions)
    && (forall r, k :: r in RunsOf(runs, b) && k in runs[r].resolutions ==>
          k in entries && entries[k] == RunItem(r, runs[r], k))
  }

  lemma ResolutionIsEntry(id: Id, rows: RunRows, k: ItemKey)
    requires RunInv(id, rows) && rows.basis.Some? && k in rows.resolutions
    ensures exists i :: 0 <= i < |rows.basis.value.itemSet.preimage|
              && rows.resolutions[k] == RowOfEntry(rows.basis.value.itemSet.preimage[i], rows.basis.value.sourceVersion)
              && rows.basis.value.itemSet.preimage[i].item == k
              && rows.basis.value.itemSet.preimage[i].classification != NotExecutedItem
              && (rows.resolutions[k].unknownLineage.Some? ==> rows.resolutions[k].payload.adjudication.Some?)
  {
    var b := rows.basis.value;
    ResolutionMapContents(b.itemSet.preimage, b.sourceVersion);
    var i :| 0 <= i < |b.itemSet.preimage| && b.itemSet.preimage[i].item == k;
    assert rows.resolutions[k] == RowOfEntry(b.itemSet.preimage[i], b.sourceVersion);
  }

  lemma ResolutionSound(runs: map<Id, RunRows>, refs: map<Id, TerminalRef>, r: Id, k: ItemKey)
    requires r in runs && RunInv(r, runs[r]) && runs[r].basis.Some? && k in runs[r].resolutions
    requires r in refs && refs[r] == TerminalOf(RunInputOf(r, runs[r]))
    ensures SoundResolution(Listed(runs, r, k), refs)
    ensures ItemOf(Listed(runs, r, k), refs[r]) == RunItem(r, runs[r], k)
  {
    ResolutionIsEntry(r, runs[r], k);
    hide RunInv;
  }

  lemma UnknownsSorted(runs: map<Id, RunRows>, b: Id, rows: seq<ResolutionInput>, unknown: seq<UnknownRef>)
    requires ListsRuns(runs, RunsOf(runs, b), rows) && HoldsUnknown(rows, unknown)
    ensures UnknownsOfRuns(SortBy(unknown, UnknownKey), runs, b)
  {
    hide IsUnknownOf;
    SortBySorted(unknown, UnknownKey);
    SameElements(unknown, UnknownKey);
    var refs := SortBy(unknown, UnknownKey);
    forall u | u in refs
      ensures exists r, k :: r in RunsOf(runs, b) && k in runs[r].resolutions && IsUnknownOf(u, Listed(runs, r, k))
    {
      var x :| x in rows && IsUnknownOf(u, x);
      assert x == Listed(runs, x.runId, x.item);
    }
    forall r, k | r in RunsOf(runs, b) && k in runs[r].resolutions && runs[r].resolutions[k].unknownLineage.Some?
      ensures exists u :: u in refs && IsUnknownOf(u, Listed(runs, r, k))
    {
      assert Listed(runs, r, k) in rows;
      var u :| u in unknown && IsUnknownOf(u, Listed(runs, r, k));
    }
  }

  lemma ClosedRunsFold(runs: map<Id, RunRows>, b: Id)
    requires RunsInv(runs) && BatchClosed(runs, b) && ResolvedApart(runs, RunsOf(runs, b))
    ensures TerminalRefs(RunQuery(runs, b), b).Ok?
    ensures var refs := RefsByRun(TerminalRefs(RunQuery(runs, b), b).value);
            && FoldRuns(ResolutionQuery(runs, b), refs).Ok?
            && HoldsClosed(runs, b, FoldRuns(ResolutionQuery(runs, b), refs).value.entries)
            && UnknownsOfRuns(SortBy(FoldRuns(ResolutionQuery(runs, b), refs).value.unknown, UnknownKey), runs, b)
  {
    hide RunQuery, ResolutionQuery, TerminalRefs, RefsByRun, RunInv, DistinctBy, FoldRuns, SoundResolution, ItemOf,
         RunItem, ResolvedApart, TerminalOf, RunInputOf, HoldsUnknown, UnknownsOfRuns;
    ReferencesFound(runs, b);
    QueryLists(runs, b);
    var refs := RefsByRun(TerminalRefs(RunQuery(runs, b), b).value);
    var rows := ResolutionQuery(runs, b);
    forall x | x in rows
      ensures SoundResolution(x, refs) && x.runId in refs
      ensures ItemOf(x, refs[x.runId]) == RunItem(x.runId, runs[x.runId], x.item)
    {
      ResolutionSound(runs, refs, x.runId, x.item);
    }
    FoldRunsContents(rows, refs);
    UnknownsSorted(runs, b, rows, FoldRuns(rows, refs).value.unknown);
    var entries := FoldRuns(rows, refs).value.entries;
    forall k | k in entries
      ensures exists r :: r in RunsOf(runs, b) && k in runs[r].resolutions
    {
      var x :| x in rows && x.item == k;
    }
    forall r, k | r in RunsOf(runs, b) && k in runs[r].resolutions
      ensures k in entries && entries[k] == RunItem(r, runs[r], k)
    {
      assert Listed(runs, r, k) in rows;
    }
  }

  // ----- The cancellation scope -------------------------------------------

  function RowItems(rows: seq<ScopeRow>): set<ItemKey> { set x | x in rows :: x.item }

  predicate RowsSound(rows: seq<ScopeRow>, manifest: Manifest, plan: Plan) {
    forall x :: x in rows ==> SoundScopeRow(x, manifest, plan)
  }

  /** One row per manifest item, repeats aside, all of one Batch and intent. */
  predicate CoversOnce(b: Id, intent: Digest, manifest: Manifest, rows: seq<ScopeRow>) {
    && (forall x :: x in rows ==> x.batchId == b && x.intent == intent)
    && (forall x, y :: x in rows && y in rows && x.item == y.item ==> x == y)
    && RowItems(rows) == ItemSet(manifest.items)
  }

  lemma ManifestAscends(m: Manifest)
    requires SoundManifest(m)
    ensures IsAscending(m.items) && |m.items| > 0
  {
  }

  lemma ItemsOfRows(rows: seq<ScopeRow>, manifest: Manifest, plan: Plan)
    ensures forall x :: x in rows ==> ScopeFromRow(x, manifest, plan) in ScopeItems(rows, manifest, plan)
    ensures forall s :: s in ScopeItems(rows, manifest, plan) ==> exists x :: x in rows && s == ScopeFromRow(x, manifest, plan)
  {
    var items := ScopeItems(rows, manifest, plan);
    forall x | x in rows
      ensures ScopeFromRow(x, manifest, plan) in items
    {
      var i :| 0 <= i < |rows| && rows[i] == x;
      assert items[i] in items;
    }
    forall s | s in items
      ensures exists x :: x in rows && s == ScopeFromRow(x, manifest, plan)
    {
      var i :| 0 <= i < |items| && items[i] == s;
      assert rows[i] in rows;
    }
  }

  function Canonical(items: seq<ScopeItem>): seq<ScopeItem> { SortBy(Collapse(items), ScopeKey) }

  lemma CanonicalElements(items: seq<ScopeItem>)
    ensures forall s :: s in Canonical(items) <==> s in items
  {
    SameElements(Collapse(items), ScopeKey);
  }

  /** Covering rows collapse to the manifest's items, in order. */
  lemma CoveringIsCanonical(b: Id, intent: Digest, manifest: Manifest, plan: Plan, rows: seq<ScopeRow>)
    requires SoundManifest(manifest) && CoversOnce(b, intent, manifest, rows)
    ensures KeysOf(Canonical(ScopeItems(rows, manifest, plan)), ScopeKey) == manifest.items
  {
    var items := ScopeItems(rows, manifest, plan);
    var once := Collapse(items);
    ItemsOfRows(rows, manifest, plan);
    ManifestAscends(manifest);
    forall i, j | 0 <= i < j < |once|
      ensures ScopeKey(once[i]) != ScopeKey(once[j])
    {
      assert once[i] in items && once[j] in items;
    }
    SortBySorted(once, ScopeKey);
    CanonicalElements(items);
    var keys, elements := KeysOf(Canonical(items), ScopeKey), ItemSet(manifest.items);
    forall k
      ensures k in keys <==> k in elements
    {
      if k in keys {
        var i :| 0 <= i < |keys| && keys[i] == k;
        assert Canonical(items)[i] in items;
        var x :| x in rows && Canonical(items)[i] == ScopeFromRow(x, manifest, plan);
        assert k in RowItems(rows);
      }
      if k in elements {
        assert k in RowItems(rows);
        var x :| x in rows && x.item == k;
        var s := ScopeFromRow(x, manifest, plan);
        assert s in Canonical(items);
        var i :| 0 <= i < |Canonical(items)| && Canonical(items)[i] == s;
        assert keys[i] == k;
      }
    }
    AscendingUnique(keys, manifest.items, elements);
  }

  /** Sound rows have a canonical form exactly when they cover the manifest once. */
  lemma CanonicalExactlyWhen(b: Id, intent: Digest, manifest: Manifest, plan: Plan, rows: seq<ScopeRow>)
    requires SoundManifest(manifest) && RowsSound(rows, manifest, plan)
    ensures Canonicalize(b, intent, manifest, plan, ScopeItems(rows, manifest, plan)).Ok? <==>
            CoversOnce(b, intent, manifest, rows)
    ensures CoversOnce(b, intent, manifest, rows) ==>
              Canonicalize(b, intent, manifest, plan, ScopeItems(rows, manifest, plan))
              == Ok(Canonical(ScopeItems(rows, manifest, plan)))
  {
    var items := ScopeItems(rows, manifest, plan);
    ItemsOfRows(rows, manifest, plan);
    ManifestAscends(manifest);
    CanonicalElements(items);
    if CoversOnce(b, intent, manifest, rows) {
      CoveringIsCanonical(b, intent, manifest, plan, rows);
      assert manifest.items[0] in RowItems(rows);
      hide SortBy, Collapse, CoversOnce;
      assert forall s :: s in Canonical(items) ==> exists x :: x in rows && s == ScopeFromRow(x, manifest, plan);
      EnvelopeAgrees(b, intent, manifest, plan, rows);
    } else if Canonicalize(b, intent, manifest, plan, items).Ok? {
      CanonicalCovers(b, intent, manifest, plan, rows);
    }
  }

  lemma EnvelopeAgrees(b: Id, intent: Digest, manifest: Manifest, plan: Plan, rows: seq<ScopeRow>)
    requires CoversOnce(b, intent, manifest, rows)
    ensures forall x :: x in rows ==>
      var s := ScopeFromRow(x, manifest, plan);
      s.batchId == b && s.intent == intent && s.manifestDigest == manifest.digest
      && s.planVersion == plan.version && s.planDigest == plan.digest
  {
  }

  lemma CanonicalCovers(b: Id, intent: Digest, manifest: Manifest, plan: Plan, rows: seq<ScopeRow>)
    requires RowsSound(rows, manifest, plan)
    requires Canonicalize(b, intent, manifest, plan, ScopeItems(rows, manifest, plan)).Ok?
    ensures CoversOnce(b, intent, manifest, rows)
  {
    var items := ScopeItems(rows, manifest, plan);
    CanonicalDistinct(b, intent, manifest, plan, items);
    ItemsOfRows(rows, manifest, plan);
    CanonicalElements(items);
    assert Canonicalize(b, intent, manifest, plan, items).value == Canonical(items);
    assert forall s :: s in Canonical(items) ==> s.batchId == b && s.intent == intent;
    ListCovers(b, intent, manifest, plan, rows, Canonical(items));
  }

  /** A list of the rows' items, each key once and the keys the manifest's. */
  lemma ListCovers(b: Id, intent: Digest, manifest: Manifest, plan: Plan, rows: seq<ScopeRow>, list: seq<ScopeItem>)
    requires RowsSound(rows, manifest, plan)
    requires DistinctBy(list, ScopeKey) && KeysOf(list, ScopeKey) == manifest.items
    requires forall s :: s in list ==> s.batchId == b && s.intent == intent
    requires forall x :: x in rows ==> ScopeFromRow(x, manifest, plan) in list
    requires forall s :: s in list ==> exists x :: x in rows && s == ScopeFromRow(x, manifest, plan)
    ensures CoversOnce(b, intent, manifest, rows)
  {
    var keys := KeysOf(list, ScopeKey);
    forall x | x in rows
      ensures x.batchId == b && x.intent == intent && x.item in ItemSet(manifest.items)
    {
      var i :| 0 <= i < |list| && list[i] == ScopeFromRow(x, manifest, plan);
      assert keys[i] == x.item;
    }
    forall x, y | x in rows && y in rows && x.item == y.item
      ensures x == y
    {
      SameItemSameRow(manifest, plan, rows, list, x, y);
    }
    forall k | k in ItemSet(manifest.items)
      ensures k in RowItems(rows)
    {
      var i :| 0 <= i < |keys| && keys[i] == k;
      assert list[i] in list;
      var x :| x in rows && list[i] == ScopeFromRow(x, manifest, plan);
    }
  }

  lemma SameItemSameRow(manifest: Manifest, plan: Plan, rows: seq<ScopeRow>, list: seq<ScopeItem>, x: ScopeRow, y: ScopeRow)
    requires RowsSound(rows, manifest, plan) && DistinctBy(list, ScopeKey)
    requires x in rows && y in rows && x.item == y.item
    requires ScopeFromRow(x, manifest, plan) in list && ScopeFromRow(y, manifest, plan) in list
    ensures x == y
  {
    var i :| 0 <= i < |list| && list[i] == ScopeFromRow(x, manifest, plan);
    var j :| 0 <= j < |list| && list[j] == ScopeFromRow(y, manifest, plan);
    assert ScopeKey(list[i]) == ScopeKey(list[j]);
    assert SoundScopeRow(x, manifest, plan) && SoundScopeRow(y, manifest, plan);
  }

  // ----- The scope against the Runs ---------------------------------------

  /** The scope says of every manifest item which closed Run resolved it. */
  predicate FanoutOf(runs: map<Id, RunRows>, b: Id, x: ScopeRow) {
    && x.kind.RunFanout? && x.kind.runId in RunsOf(runs, b)
    && x.item in runs[x.kind.runId].resolutions
    && runs[x.kind.runId].basis.Some? && runs[x.kind.runId].basis.value.sourceVersion == x.kind.sourceVersion
  }

  predicate SoundScope(b: Id, source: BatchSource, manifest: Manifest, plan: Plan, runs: map<Id, RunRows>) {
    if source.intents == [] then source.scope == []
    else
      && RowsSound(source.scope, manifest, plan)
      && CoversOnce(b, source.intents[0].digest, manifest, source.scope)
      && forall x :: x in source.scope ==> FanoutOf(runs, b, x)
  }

  lemma {:induction false} FanoutsFold(items: seq<ScopeItem>, entries: map<ItemKey, BatchItem>)
    requires forall s :: s in items ==> FanoutAgrees(s, entries)
    ensures FoldScope(items, entries) == Ok(Scoped(entries, []))
  {
    if |items| > 0 {
      hide FanoutAgrees;
      var front, last := items[..|items| - 1], items[|items| - 1];
      assert items == front + [last];
      FanoutsFold(front, entries);
      assert last.kind.RunFanout? by { IsFanout(last, entries); }
    }
  }

  lemma IsFanout(s: ScopeItem, entries: map<ItemKey, BatchItem>)
    requires FanoutAgrees(s, entries)
    ensures s.kind.RunFanout?
  {
  }

  /** Over the closed Runs' entries, agreeing with the entry is naming the Run. */
  lemma FanoutByTables(runs: map<Id, RunRows>, b: Id, entries: map<ItemKey, BatchItem>, x: ScopeRow,
                       manifest: Manifest, plan: Plan)
    requires BatchClosed(runs, b) && HoldsClosed(runs, b, entries)
    ensures FanoutAgrees(ScopeFromRow(x, manifest, plan), entries) <==> FanoutOf(runs, b, x)
  {
    if x.item in entries {
      var r :| r in RunsOf(runs, b) && x.item in runs[r].resolutions;
      assert entries[x.item] == RunItem(r, runs[r], x.item);
    }
  }

  function IntentOf(source: BatchSource): Option<Digest> {
    if source.intents == [] then None else Some(source.intents[0].digest)
  }

  predicate IntentFits(source: BatchSource, manifest: Manifest, plan: Plan, runSet: RunSetDigest) {
    source.intents == [] || (|source.intents| == 1 && SoundIntent(source.intents[0], manifest, plan, runSet))
  }

  lemma ScopeForExactlyWhen(e: SourceSnapshot, source: BatchSource, manifest: Manifest, plan: Plan, runSet: RunSetDigest)
    requires SoundManifest(manifest)
    ensures ScopeFor(e, source, manifest, plan, runSet).Ok? <==>
            && IntentFits(source, manifest, plan, runSet)
            && if source.intents == [] then source.scope == []
               else RowsSound(source.scope, manifest, plan)
                    && CoversOnce(e.envelope.batchId, source.intents[0].digest, manifest, source.scope)
    ensures ScopeFor(e, source, manifest, plan, runSet).Ok? ==>
              ScopeFor(e, source, manifest, plan, runSet)
              == Ok((IntentOf(source),
                     if source.intents == [] then [] else Canonical(ScopeItems(source.scope, manifest, plan))))
  {
    hide SoundManifest, CoversOnce, Canonicalize, Canonical, SoundScopeRow, SoundIntent;
    if source.intents != [] && RowsSound(source.scope, manifest, plan) {
      CanonicalExactlyWhen(e.envelope.batchId, source.intents[0].digest, manifest, plan, source.scope);
    }
  }

  /** With every manifest item resolved by a closed Run, the scope part of the
      rebuild passes exactly when the scope is sound, and then it adds nothing. */
  lemma ScopePassesExactlyWhen(e: SourceSnapshot, source: BatchSource, manifest: Manifest, plan: Plan,
                               runSet: RunSetDigest, runs: map<Id, RunRows>, entries: map<ItemKey, BatchItem>)
    requires SoundManifest(manifest) && IntentFits(source, manifest, plan, runSet)
    requires BatchClosed(runs, e.envelope.batchId) && HoldsClosed(runs, e.envelope.batchId, entries)
    requires entries.Keys == ItemSet(manifest.items)
    ensures (var scope := ScopeFor(e, source, manifest, plan, runSet);
             scope.Ok? && FoldScope(scope.value.1, entries).Ok?)
            <==> SoundScope(e.envelope.batchId, source, manifest, plan, runs)
    ensures SoundScope(e.envelope.batchId, source, manifest, plan, runs) ==>
              var scope := ScopeFor(e, source, manifest, plan, runSet);
              scope.Ok? && scope.value.0 == IntentOf(source)
              && FoldScope(scope.value.1, entries) == Ok(Scoped(entries, []))
  {
    hide HoldsClosed, FanoutAgrees, FanoutOf, ScopeFor, FoldScope, IntentFits;
    var b, rows := e.envelope.batchId, source.scope;
    ScopeForExactlyWhen(e, source, manifest, plan, runSet);
    var scope := ScopeFor(e, source, manifest, plan, runSet);
    if scope.Ok? {
      var items := if source.intents == [] then [] else Canonical(ScopeItems(rows, manifest, plan));
      if source.intents != [] {
        ItemsOfRows(rows, manifest, plan);
        CanonicalElements(ScopeItems(rows, manifest, plan));
      }
      hide Canonical;
      forall x | x in rows
        ensures FanoutAgrees(ScopeFromRow(x, manifest, plan), entries) <==> FanoutOf(runs, b, x)
      {
        FanoutByTables(runs, b, entries, x, manifest, plan);
      }
      if SoundScope(b, source, manifest, plan, runs) {
        FanoutsFold(items, entries);
      } else if FoldScope(items, entries).Ok? {
        FoldedAreFanouts(items, entries, b, source.intents[0].digest, manifest, plan, rows);
      }
    }
  }

  lemma FoldedAreFanouts(items: seq<ScopeItem>, entries: map<ItemKey, BatchItem>, b: Id, intent: Digest,
                         manifest: Manifest, plan: Plan, rows: seq<ScopeRow>)
    requires items == Canonical(ScopeItems(rows, manifest, plan)) && FoldScope(items, entries).Ok?
    requires SoundManifest(manifest) && CoversOnce(b, intent, manifest, rows) && entries.Keys == ItemSet(manifest.items)
    ensures forall x :: x in rows ==> FanoutAgrees(ScopeFromRow(x, manifest, plan), entries)
  {
    CoveringIsCanonical(b, intent, manifest, plan, rows);
    ManifestAscends(manifest);
    var keys := KeysOf(items, ScopeKey);
    forall i, j | 0 <= i < j < |items|
      ensures ScopeKey(items[i]) != ScopeKey(items[j])
    {
      assert Less(keys[i], keys[j]);
    }
    FoldScopeContents(items, entries);
    ItemsOfRows(rows, manifest, plan);
    CanonicalElements(ScopeItems(rows, manifest, plan));
    hide Canonical, FoldScope, FanoutAgrees, NotExecutedItemOf;
    forall x | x in rows
      ensures FanoutAgrees(ScopeFromRow(x, manifest, plan), entries)
    {
      var s := ScopeFromRow(x, manifest, plan);
      assert s in items && s.item in RowItems(rows);
    }
  }

  // ----- Sources that fit their Runs --------------------------------------

  predicate SourcesApproved(source: BatchSource) {
    && source.manifest.Some? && source.manifest.value.approved && SoundManifest(source.manifest.value)
    && source.plan.Some? && source.plan.value.approved
  }

  /** A policy row that can be looked up, of whatever suite. */
  predicate Filed(source: BatchSource, p: Policy) { FindPolicy(source, p.id, p.version, p.suite) == Some(p) }

  /** Every Run of the Batch is closed over exactly the items of its shard. */
  predicate ShardsFit(b: Id, manifest: Manifest, plan: Plan, runs: map<Id, RunRows>) {
    && OwnsManifest(plan, manifest) && SeatsOnce(plan)
    && plan.shards.Keys == RunsOf(runs, b)
    && (forall r :: r in RunsOf(runs, b) ==>
          runs[r].basis.Some? && plan.shards[r] == ItemKeys(runs[r].basis.value.itemSet.preimage))
    && forall r :: r in RunsOf(runs, b) ==> FrameFits(runs[r], r, manifest, plan)
  }

  /** The Run sits where the plan put it, and its basis is about these sources. */
  predicate FrameFits(rows: RunRows, id: Id, manifest: Manifest, plan: Plan) {
    && rows.basis.Some? && SeatMatches(rows, plan, id)
    && rows.basis.value.frame == Frame(manifest.digest, plan.digest, rows.place.items)
  }

  /** What the tables must hold for a Batch to become ready. */
  predicate ReadySource(b: Id, source: BatchSource, runs: map<Id, RunRows>) {
    && RunsOf(runs, b) != {}
    && SourcesApproved(source)
    && (exists key :: key in source.policies && Filed(source, source.policies[key]))
    && IntentFits(source, source.manifest.value, source.plan.value, RunSetDigest(b, RunIdList(runs, b)))
    && ShardsFit(b, source.manifest.value, source.plan.value, runs)
    && OpportunityRanks(runs, b) == {}
  }

  lemma ClosedResolves(id: Id, rows: RunRows)
    requires RunInv(id, rows) && rows.basis.Some?
    ensures rows.resolutions.Keys == ItemSet(ItemKeys(rows.basis.value.itemSet.preimage))
  {
    var b := rows.basis.value;
    var keys := ItemKeys(b.itemSet.preimage);
    ResolutionMapContents(b.itemSet.preimage, b.sourceVersion);
    hide AssignmentInv;
    forall k
      ensures k in rows.resolutions <==> k in ItemSet(keys)
    {
      if k in rows.resolutions {
        var i :| 0 <= i < |b.itemSet.preimage| && b.itemSet.preimage[i].item == k;
        assert keys[i] == k;
      }
      if k in ItemSet(keys) {
        var i :| 0 <= i < |keys| && keys[i] == k;
      }
    }
  }

  lemma ShardsResolve(b: Id, manifest: Manifest, plan: Plan, runs: map<Id, RunRows>, entries: map<ItemKey, BatchItem>)
    requires RunsInv(runs) && ShardsFit(b, manifest, plan, runs)
    ensures BatchClosed(runs, b) && ResolvedApart(runs, RunsOf(runs, b))
    ensures HoldsClosed(runs, b, entries) ==> entries.Keys == ItemSet(manifest.items)
  {
    hide RunInv, RunItem, SeatsOnce, FrameFits;
    forall r | r in RunsOf(runs, b)
      ensures runs[r].resolutions.Keys == ItemSet(plan.shards[r])
    {
      assert RunInv(r, runs[r]);
      ClosedResolves(r, runs[r]);
    }
    if HoldsClosed(runs, b, entries) {
      forall k
        ensures k in entries <==> k in ItemSet(manifest.items)
      {
        if k in entries {
          var r :| r in RunsOf(runs, b) && k in runs[r].resolutions;
          assert k in ItemSet(plan.shards[r]);
        }
        if k in ItemSet(manifest.items) {
          var r :| r in plan.shards && k in plan.shards[r];
          assert k in ItemSet(plan.shards[r]);
          assert r in RunsOf(runs, b) && k in runs[r].resolutions;
        }
      }
    }
  }

  predicate ItemOfSomeRun(x: BatchItem, runs: map<Id, RunRows>, b: Id) {
    exists r :: r in RunsOf(runs, b) && runs[r].basis.Some? && x.item in runs[r].resolutions
                && x == RunItem(r, runs[r], x.item)
  }

  /** The entries are the items of the Batch's Runs, each from its Run. */
  predicate ItemsOfRuns(entries: seq<BatchItem>, runs: map<Id, RunRows>, b: Id) {
    && (forall i :: 0 <= i < |entries| ==> ItemOfSomeRun(entries[i], runs, b))
    && (forall r, k :: r in RunsOf(runs, b) && runs[r].basis.Some? && k in runs[r].resolutions ==>
          RunItem(r, runs[r], k) in entries)
  }

  /** The unknown references are those of the Batch's Runs, in order. */
  predicate UnknownsOfRuns(refs: seq<UnknownRef>, runs: map<Id, RunRows>, b: Id) {
    && SortedBy(refs, UnknownKey)
    && (forall u :: u in refs ==>
          exists r, k :: r in RunsOf(runs, b) && k in runs[r].resolutions && IsUnknownOf(u, Listed(runs, r, k)))
    && (forall r, k :: r in RunsOf(runs, b) && k in runs[r].resolutions && runs[r].resolutions[k].unknownLineage.Some? ==>
          exists u :: u in refs && IsUnknownOf(u, Listed(runs, r, k)))
  }

  /** An item made from a closed Run names that Run in all its digests. */
  predicate FromClosedRun(s: BatchItem, k: ItemKey, runs: map<Id, RunRows>) {
    && s.item == k && s.source.FromRun? && s.source.runId in runs
    && runs[s.source.runId].basis == Some(s.source.basis.preimage)
    && s.source.basis.preimage.runId == s.source.runId
    && s.source.sourceVersion == s.source.basis.preimage.sourceVersion
    && s.source.itemSet == s.source.basis.preimage.itemSet
    && s.source.itemSet.runId == s.source.runId
    && s.source.entry.preimage.item == k
  }

  lemma RunItemNames(runs: map<Id, RunRows>, r: Id, k: ItemKey)
    requires r in runs && RunInv(r, runs[r]) && runs[r].basis.Some? && k in runs[r].resolutions
    ensures FromClosedRun(RunItem(r, runs[r], k), k, runs)
  {
    ResolutionIsEntry(r, runs[r], k);
    hide AssignmentInv, ValidEntries, ResolutionMap;
  }

  lemma ItemsFromClosedRuns(runs: map<Id, RunRows>, b: Id, keys: seq<ItemKey>, entries: map<ItemKey, BatchItem>)
    requires RunsInv(runs) && BatchClosed(runs, b) && HoldsClosed(runs, b, entries)
    requires forall i :: 0 <= i < |keys| ==> keys[i] in entries
    ensures forall i :: 0 <= i < |keys| ==> FromClosedRun(ListItems(keys, entries)[i], keys[i], runs)
  {
    hide RunInv, RunItem, FromClosedRun;
    forall i | 0 <= i < |keys|
      ensures FromClosedRun(ListItems(keys, entries)[i], keys[i], runs)
    {
      var k := keys[i];
      assert k in entries;
      var r :| r in RunsOf(runs, b) && k in runs[r].resolutions;
      assert RunInv(r, runs[r]);
      RunItemNames(runs, r, k);
    }
  }

  lemma {:induction false} ClosedItemsCohere(keys: seq<ItemKey>, items: seq<BatchItem>, runs: map<Id, RunRows>)
    requires |items| == |keys| && IsAscending(keys)
    requires forall i :: 0 <= i < |keys| ==> FromClosedRun(items[i], keys[i], runs)
    ensures CoherentSources(items)
    ensures forall i, j :: 0 <= i < j < |items| ==> items[i].item != items[j].item
  {
    forall i, j | 0 <= i < j < |items|
      ensures items[i].item != items[j].item
    {
      assert Less(keys[i], keys[j]);
    }
  }

  lemma ListedFromRuns(runs: map<Id, RunRows>, b: Id, keys: seq<ItemKey>, entries: map<ItemKey, BatchItem>)
    requires BatchClosed(runs, b) && HoldsClosed(runs, b, entries)
    requires forall k :: k in keys <==> k in entries
    ensures ItemsOfRuns(ListItems(keys, entries), runs, b)
    ensures forall i :: 0 <= i < |keys| ==> ListItems(keys, entries)[i].item == keys[i]
  {
    var items := ListItems(keys, entries);
    forall i | 0 <= i < |items|
      ensures items[i].item == keys[i] && ItemOfSomeRun(items[i], runs, b)
    {
      assert keys[i] in entries;
      var r :| r in RunsOf(runs, b) && keys[i] in runs[r].resolutions;
    }
    forall r, k | r in RunsOf(runs, b) && runs[r].basis.Some? && k in runs[r].resolutions
      ensures RunItem(r, runs[r], k) in items
    {
      assert k in keys;
      var i :| 0 <= i < |keys| && keys[i] == k;
      assert items[i] == RunItem(r, runs[r], k);
    }
  }

  /** The closed Runs' items cover the manifest and agree with one another. */
  lemma EntriesCohere(runs: map<Id, RunRows>, b: Id, manifest: Manifest, entries: map<ItemKey, BatchItem>)
    requires RunsInv(runs) && BatchClosed(runs, b) && HoldsClosed(runs, b, entries)
    requires SoundManifest(manifest) && entries.Keys == ItemSet(manifest.items)
    ensures Covers(entries, manifest.items)
    ensures CoherentSources(ListItems(manifest.items, entries))
    ensures ItemsOfRuns(ListItems(manifest.items, entries), runs, b)
    ensures forall i :: 0 <= i < |manifest.items| ==> ListItems(manifest.items, entries)[i].item == manifest.items[i]
  {
    hide HoldsClosed, FromClosedRun, CoherentSources, RunsInv, ItemsOfRuns;
    ManifestAscends(manifest);
    assert forall k :: k in manifest.items <==> k in entries;
    ListedFromRuns(runs, b, manifest.items, entries);
    ItemsFromClosedRuns(runs, b, manifest.items, entries);
    ClosedItemsCohere(manifest.items, ListItems(manifest.items, entries), runs);
  }

  // ----- The rebuild of a ready Batch -------------------------------------

  /** What a rebuild that succeeds gives back. */
  predicate RebuiltAs(e: SourceSnapshot, value: SourceSnapshot, source: BatchSource, runs: map<Id, RunRows>)
    requires SourcesApproved(source)
  {
    var b, m, plan := e.envelope.batchId, source.manifest.value, source.plan.value;
    && value.envelope == Envelope(b, e.envelope.sourceVersion, m.id, m.digest, plan.id, plan.version, plan.digest,
                                  RunSetDigest(b, RunIdList(runs, b)))
    && value.itemCount == m.itemCount && value.intent == IntentOf(source)
    && FindPolicy(source, e.policy.id, e.policy.version, source.suite) == Some(value.policy)
    && value.resolutionSet.envelope == value.envelope
    && |value.resolutionSet.entries| == |m.items| > 0
    && (forall i :: 0 <= i < |m.items| ==> value.resolutionSet.entries[i].item == m.items[i])
    && CoherentSources(value.resolutionSet.entries) && ItemsOfRuns(value.resolutionSet.entries, runs, b)
    && TerminalRefs(RunQuery(runs, b), b) == Ok(value.terminalRefs)
    && SortedBy(value.terminalRefs, TerminalKey)
    && value.nonRunRefs == [] && UnknownsOfRuns(value.unknownRefs, runs, b)
    && value.proof == ProofDigest(value.resolutionSet, value.terminalRefs, value.unknownRefs)
  }

  /** The rebuild of a Batch that fits its Runs succeeds exactly when its
      cancellation scope is sound. */
  lemma RebuildExactlyWhen(e: SourceSnapshot, source: BatchSource, runs: map<Id, RunRows>)
    requires RunsInv(runs) && ReadySource(e.envelope.batchId, source, runs) && SourceFound(e, source)
    ensures var b := e.envelope.batchId;
            var rebuilt := Rebuild(e, source, RunQuery(runs, b), ResolutionQuery(runs, b));
            && (rebuilt.Ok? <==> SoundScope(b, source, source.manifest.value, source.plan.value, runs))
            && (rebuilt.Ok? ==> RebuiltAs(e, rebuilt.value, source, runs))
  {
    hide RunInv, RunQuery, ResolutionQuery, RunIdList, OpportunityRanks, TerminalRefs, RefsByRun, FoldRuns, FoldScope,
         ScopeFor, HoldsClosed, SoundScope, IntentFits, ShardsFit, SoundManifest, Covers, CoherentSources, BatchClosed,
         ItemsOfRuns, UnknownsOfRuns, SortedBy, FindPolicy, ResolvedApart;
    var b, m, plan := e.envelope.batchId, source.manifest.value, source.plan.value;
    ShardsResolve(b, m, plan, runs, map[]);
    ClosedRunsFold(runs, b);
    QueriesAreSorted(runs, b);
    var refs := TerminalRefs(RunQuery(runs, b), b).value;
    var folded := FoldRuns(ResolutionQuery(runs, b), RefsByRun(refs)).value;
    ShardsResolve(b, m, plan, runs, folded.entries);
    var runSet := RunSetDigest(b, RunIdList(runs, b));
    ScopePassesExactlyWhen(e, source, m, plan, runSet, runs, folded.entries);
    EntriesCohere(runs, b, m, folded.entries);
    ManifestAscends(m);
  }

  /** A rebuild looks at the names in its argument only. */
  lemma RebuildReadsNames(e: SourceSnapshot, other: SourceSnapshot, source: BatchSource, runs: seq<RunInput>,
                          resolutions: seq<ResolutionInput>)
    requires e.envelope.batchId == other.envelope.batchId && e.envelope.sourceVersion == other.envelope.sourceVersion
    requires e.envelope.manifestId == other.envelope.manifestId && e.envelope.planId == other.envelope.planId
    requires e.policy.id == other.policy.id && e.policy.version == other.policy.version
    ensures Rebuild(e, source, runs, resolutions) == Rebuild(other, source, runs, resolutions)
  {
  }

  // ----- A candidate for the finalizer ------------------------------------

  /** A snapshot that carries only the names a rebuild looks up. */
  function Named(b: Id, version: nat, source: BatchSource, policy: Policy): SourceSnapshot
    requires SourcesApproved(source)
  {
    var m, plan := source.manifest.value, source.plan.value;
    var envelope := Envelope(b, version, m.id, m.digest, plan.id, plan.version, plan.digest, RunSetDigest(b, []));
    var nothing := ResolutionSetDigest(envelope, []);
    SourceSnapshot(envelope, 0, policy, nothing, ProofDigest(nothing, [], []), None, [], [], [])
  }

  /** A Batch that fits its Runs has a snapshot the rebuild gives back, of any
      version and under any policy of its suite, exactly when its scope is sound. */
  lemma SnapshotExactlyWhen(b: Id, version: nat, source: BatchSource, policy: Policy, runs: map<Id, RunRows>)
    requires RunsInv(runs) && ReadySource(b, source, runs)
    ensures SoundScope(b, source, source.manifest.value, source.plan.value, runs)
            && Filed(source, policy) && policy.suite == source.suite ==>
              exists e :: RebuildsNow(e, source, runs) && RebuiltAs(Named(b, version, source, policy), e, source, runs)
    ensures forall e: SourceSnapshot :: e.envelope.batchId == b && RebuildsNow(e, source, runs) ==>
              && SoundScope(b, source, source.manifest.value, source.plan.value, runs)
              && RebuiltAs(e, e, source, runs)
  {
    hide RunsInv, IntentFits, ShardsFit, SoundManifest, OpportunityRanks, SoundScope, Rebuild, RunQuery, ResolutionQuery,
         RunIdList, RebuiltAs;
    var named := Named(b, version, source, policy);
    if SoundScope(b, source, source.manifest.value, source.plan.value, runs)
       && Filed(source, policy) && policy.suite == source.suite
    {
      assert SourceFound(named, source) by { NamesAreFound(b, version, source, policy, runs); }
      RebuildExactlyWhen(named, source, runs);
      var e := Rebuild(named, source, RunQuery(runs, b), ResolutionQuery(runs, b)).value;
      RebuiltNames(named, e, source, runs);
      RebuildReadsNames(named, e, source, RunQuery(runs, b), ResolutionQuery(runs, b));
      assert RebuildsNow(e, source, runs);
    }
    forall e: SourceSnapshot | e.envelope.batchId == b && RebuildsNow(e, source, runs)
      ensures SoundScope(b, source, source.manifest.value, source.plan.value, runs) && RebuiltAs(e, e, source, runs)
    {
      RebuildNeedsFound(e, source, runs);
      RebuildExactlyWhen(e, source, runs);
    }
  }

  /** What is rebuilt has the names that were looked up. */
  lemma RebuiltNames(named: SourceSnapshot, e: SourceSnapshot, source: BatchSource, runs: map<Id, RunRows>)
    requires SourcesApproved(source) && SourceFound(named, source) && RebuiltAs(named, e, source, runs)
    ensures e.envelope.batchId == named.envelope.batchId && e.envelope.sourceVersion == named.envelope.sourceVersion
    ensures e.envelope.manifestId == named.envelope.manifestId && e.envelope.planId == named.envelope.planId
    ensures e.policy.id == named.policy.id && e.policy.version == named.policy.version
  {
    hide SoundManifest, RunIdList, TerminalRefs, RunQuery, ItemsOfRuns, UnknownsOfRuns, CoherentSources;
  }

  lemma NamesAreFound(b: Id, version: nat, source: BatchSource, policy: Policy, runs: map<Id, RunRows>)
    requires ReadySource(b, source, runs) && Filed(source, policy) && policy.suite == source.suite
    ensures SourceFound(Named(b, version, source, policy), source)
  {
    hide IntentFits, ShardsFit, OpportunityRanks;
  }

  lemma RebuildNeedsFound(e: SourceSnapshot, source: BatchSource, runs: map<Id, RunRows>)
    requires RebuildsNow(e, source, runs)
    ensures SourceFound(e, source)
  {
  }

  /** A readiness payload names the sources. */
  predicate AgreesWith(p: ReadinessPayload, source: BatchSource)
    requires SourcesApproved(source)
  {
    var m, plan := source.manifest.value, source.plan.value;
    && p.manifestId == m.id && p.manifestDigest == m.digest && p.itemCount == m.itemCount
    && p.planId == plan.id && p.planVersion == plan.version && p.planDigest == plan.digest
    && Filed(source, p.policyDigest.preimage) && p.intent == IntentOf(source)
  }

  /** The rebuilt snapshot of the fact's version is what the fact allows. */
  lemma RebuiltIsBound(b: Id, rows: BatchRows, e: SourceSnapshot, runs: map<Id, RunRows>)
    requires RunsInv(runs) && SoundFact(b, rows) && FactHolds(rows.facts[0].payload, runs)
    requires SourcesApproved(rows.source) && AgreesWith(rows.facts[0].payload, rows.source)
    requires rows.facts[0].payload.policyDigest.preimage.suite == rows.source.suite
    requires RebuiltAs(Named(b, rows.facts[0].batchVersion, rows.source, rows.facts[0].payload.policyDigest.preimage), e,
                       rows.source, runs)
    requires TerminalBases(e.terminalRefs) == rows.facts[0].payload.runBases
    ensures ReadinessBinding(rows.row, Some(rows.facts[0]), e)
  {
    hide RunsInv, RunIdList, RunQuery, OpportunityRanks, TerminalRefs, SoundManifest;
  }

  // ----- A candidate for readiness ----------------------------------------

  function ClosureFor(rows: RunRows): RunClosure
    requires rows.basis.Some? && |rows.handoffs| > 0
  {
    RunClosure(rows.basis.value, rows.basis.value.itemSet.preimage, rows.handoffs[0])
  }

  /** The snapshot of a Batch as its tables stand. */
  function Standing(b: Id, version: nat, source: BatchSource, policy: Policy, runs: map<Id, RunRows>): (s: ReadinessSnapshot)
    requires SourcesApproved(source) && forall r :: r in RunsOf(runs, b) ==> runs[r].basis.Some? && |runs[r].handoffs| > 0
  {
    var ids := RunIdList(runs, b);
    ReadinessSnapshot(b, version, source.manifest.value, source.plan.value, policy, ids, IntentOf(source),
                      seq(|ids|, i requires 0 <= i < |ids| => ClosureFor(runs[ids[i]])), [], [])
  }

  lemma ClosedMatches(id: Id, rows: RunRows)
    requires RunInv(id, rows) && rows.basis.Some? && rows.place.items == rows.basis.value.frame.items
    ensures |rows.handoffs| > 0
    ensures RunRowMatches(rows, ClosureFor(rows)) && DetailMatches(rows, ClosureFor(rows))
    ensures var c := ClosureFor(rows);
            && c.basis.runId == id && c.basis.batchId == rows.batchId
            && c.basis.itemSet == EntrySetDigest(id, c.basis.sourceVersion, c.entries)
            && ValidEntries(c.entries) && c.handoff.basis == c.basis && c.handoff.entries == c.entries
  {
    hide AssignmentInv, AuditOutcome, ClassOf, ResolutionMap;
    var b := rows.basis.value;
    ResolutionMapContents(b.itemSet.preimage, b.sourceVersion);
    ClosedResolves(id, rows);
    AscendingCardinality(ItemKeys(b.itemSet.preimage));
    assert |rows.resolutions| == |rows.resolutions.Keys|;
  }

  lemma AllClosed(b: Id, source: BatchSource, runs: map<Id, RunRows>)
    requires RunsInv(runs) && ReadySource(b, source, runs)
    ensures forall r :: r in RunsOf(runs, b) ==> runs[r].basis.Some? && |runs[r].handoffs| > 0
    ensures forall r :: r in RunsOf(runs, b) ==>
      RunRowMatches(runs[r], ClosureFor(runs[r])) && DetailMatches(runs[r], ClosureFor(runs[r]))
    ensures forall r :: r in RunsOf(runs, b) ==> SeatMatches(runs[r], source.plan.value, r)
  {
    hide RunInv, RunIdList, SoundManifest, OwnsManifest, SoundIntent, ClosureFor, RunRowMatches, DetailMatches,
         OpportunityRanks;
    forall r | r in RunsOf(runs, b)
      ensures runs[r].basis.Some? && |runs[r].handoffs| > 0
      ensures RunRowMatches(runs[r], ClosureFor(runs[r])) && DetailMatches(runs[r], ClosureFor(runs[r]))
    {
      assert RunInv(r, runs[r]);
      ClosedMatches(r, runs[r]);
    }
  }

  lemma StandingIsValid(b: Id, version: nat, source: BatchSource, policy: Policy, runs: map<Id, RunRows>)
    requires RunsInv(runs) && ReadySource(b, source, runs)
    requires forall r :: r in RunsOf(runs, b) ==> runs[r].basis.Some? && |runs[r].handoffs| > 0
    ensures ValidReadiness(Standing(b, version, source, policy, runs))
  {
    hide RunsInv, RunIdList, SoundManifest, OwnsManifest, SoundIntent, ClosureFor, ClosureOf, OpportunityRanks;
    DistinctRunIds(runs, b);
    var s := Standing(b, version, source, policy, runs);
    forall i | 0 <= i < |s.runIds|
      ensures ClosureOf(s.closures[i], s.runIds[i], s)
    {
      StandingCloses(b, version, source, policy, runs, i);
    }
    assert IdSet(s.runIds) == (set i | i in s.runIds);
    var r :| r in RunsOf(runs, b);
    assert r in IdSet(s.runIds);
  }

  /** Tables that fit have a candidate that passes every readiness check. */
  lemma StandingPasses(b: Id, version: nat, source: BatchSource, policy: Policy, runs: map<Id, RunRows>)
    requires RunsInv(runs) && ReadySource(b, source, runs) && Filed(source, policy)
    ensures forall r :: r in RunsOf(runs, b) ==> runs[r].basis.Some? && |runs[r].handoffs| > 0
    ensures var s := Standing(b, version, source, policy, runs);
            ValidReadiness(s) && IsReady(s) && ReadyNow(s, source, runs)
  {
    hide RunsInv, RunsMatch, OpportunitiesMatch, SoundManifest, OwnsManifest, SoundIntent, DetailMatches, ValidReadiness,
         OpportunityRanks, ShardsFit, RunIdList, ClosureFor, RunRowMatches;
    AllClosed(b, source, runs);
    StandingIsValid(b, version, source, policy, runs);
    StandingMatches(b, version, source, policy, runs);
    NoOpportunities(Standing(b, version, source, policy, runs), runs);
  }

  lemma NoOpportunities(s: ReadinessSnapshot, runs: map<Id, RunRows>)
    requires OpportunityRanks(runs, s.batchId) == {} && s.opportunities == []
    ensures OpportunitiesMatch(s, runs)
  {
    hide OpportunityRanks;
    AscendingLists(OpportunityRanks(runs, s.batchId));
  }

  lemma StandingMatches(b: Id, version: nat, source: BatchSource, policy: Policy, runs: map<Id, RunRows>)
    requires SourcesApproved(source)
    requires forall r :: r in RunsOf(runs, b) ==> runs[r].basis.Some? && |runs[r].handoffs| > 0
    requires forall r :: r in RunsOf(runs, b) ==> RunRowMatches(runs[r], ClosureFor(runs[r]))
    requires forall r :: r in RunsOf(runs, b) ==> SeatMatches(runs[r], source.plan.value, r)
    ensures RunsMatch(Standing(b, version, source, policy, runs), runs)
  {
    hide RunIdList, SoundManifest, ClosureFor, RunRowMatches, SeatMatches;
    DistinctRunIds(runs, b);
    var s := Standing(b, version, source, policy, runs);
    assert IdSet(s.runIds) == (set i | i in s.runIds);
  }

  lemma StandingCloses(b: Id, version: nat, source: BatchSource, policy: Policy, runs: map<Id, RunRows>, i: nat)
    requires RunsInv(runs) && ReadySource(b, source, runs) && i < |RunIdList(runs, b)|
    requires forall r :: r in RunsOf(runs, b) ==> runs[r].basis.Some? && |runs[r].handoffs| > 0
    ensures var s := Standing(b, version, source, policy, runs);
            ClosureOf(s.closures[i], s.runIds[i], s)
  {
    hide RunInv, RunIdList, SoundManifest, OwnsManifest, SoundIntent, OpportunityRanks;
    var r := RunIdList(runs, b)[i];
    assert RunInv(r, runs[r]);
    ClosedMatches(r, runs[r]);
  }

  /** A candidate that passes every readiness check describes tables that fit. */
  lemma ReadyMeansFits(s: ReadinessSnapshot, source: BatchSource, runs: map<Id, RunRows>)
    requires RunsInv(runs) && ValidReadiness(s) && IsReady(s) && ReadyNow(s, source, runs)
    ensures ReadySource(s.batchId, source, runs) && AgreesWith(PayloadOf(s), source)
  {
    hide RunInv, SoundManifest, OwnsManifest, SoundIntent, DetailMatches, ValidEntries, OpportunityRanks, SeatsOnce,
         SeatMatches;
    var b := s.batchId;
    RankedIds(s.runIds, runs, b);
    AscendingLists(OpportunityRanks(runs, b));
    assert s.runIds[0] in (set i | i in s.runIds);
    forall r | r in RunsOf(runs, b)
      ensures runs[r].basis.Some? && s.plan.shards[r] == ItemKeys(runs[r].basis.value.itemSet.preimage)
      ensures FrameFits(runs[r], r, s.manifest, s.plan)
    {
      assert r in (set i | i in s.runIds);
      var i :| 0 <= i < |s.runIds| && s.runIds[i] == r;
      assert RunRowMatches(runs[s.runIds[i]], s.closures[i]) && ClosureOf(s.closures[i], s.runIds[i], s);
    }
  }
}
