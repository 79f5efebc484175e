/** Laws of the rebuild: manifest items split exactly into Run-resolved and
    not-executed ones, fan-out facts agree with the Runs, and the order in which
    rows are read does not matter. */
module BatchRebuildLaws {
  import opened Common
  import opened Ordering
  import opened RunTables
  import opened BatchTables
  import opened BatchRebuild

  // ----- What the folds contain -------------------------------------------

  predicate HoldsRuns(rows: seq<ResolutionInput>, refs: map<Id, TerminalRef>, entries: map<ItemKey, BatchItem>) {
    && (forall r :: r in rows ==> r.runId in refs)
    && (forall k :: k in entries ==> exists r :: r in rows && r.item == k)
    && (forall r :: r in rows ==> r.item in entries && entries[r.item] == ItemOf(r, refs[r.runId]))
  }

  predicate IsUnknownOf(u: UnknownRef, r: ResolutionInput) {
    && r.row.unknownLineage.Some? && r.row.payload.adjudication.Some?
    && u == UnknownRef(r.item, r.row.entryDigest, r.row.unknownLineage.value, r.row.payload.adjudication.value)
  }

  predicate HoldsUnknown(rows: seq<ResolutionInput>, unknown: seq<UnknownRef>) {
    && DistinctBy(unknown, UnknownKey)
    && (forall u :: u in unknown ==> exists r :: r in rows && IsUnknownOf(u, r))
    && (forall r :: r in rows && r.row.unknownLineage.Some? ==> exists u :: u in unknown && IsUnknownOf(u, r))
  }

  lemma LastIsNew<T>(s: seq<T>, key: T -> Rank)
    requires |s| > 0 && DistinctBy(s, key)
    ensures DistinctBy(s[..|s| - 1], key)
    ensures forall x :: x in s[..|s| - 1] ==> key(x) != key(s[|s| - 1])
  {
    forall x | x in s[..|s| - 1]
      ensures key(x) != key(s[|s| - 1])
    {
      var i :| 0 <= i < |s| - 1 && s[..|s| - 1][i] == x;
      assert s[i] == x;
    }
  }

  lemma ExtendRuns(front: seq<ResolutionInput>, last: ResolutionInput, refs: map<Id, TerminalRef>,
                   entries: map<ItemKey, BatchItem>)
    requires HoldsRuns(front, refs, entries) && last.runId in refs
    requires forall r :: r in front ==> r.item != last.item
    ensures HoldsRuns(front + [last], refs, entries[last.item := ItemOf(last, refs[last.runId])])
  {
    hide ItemOf;
    var rows, after := front + [last], entries[last.item := ItemOf(last, refs[last.runId])];
    assert last in rows;
    forall k | k in after
      ensures exists r :: r in rows && r.item == k
    {
      if k != last.item {
        var r :| r in front && r.item == k;
        assert r in rows;
      }
    }
  }

  lemma {:induction false} FoldRunsContents(rows: seq<ResolutionInput>, refs: map<Id, TerminalRef>)
    requires DistinctBy(rows, InputKey)
    requires FoldRuns(rows, refs).Ok?
    ensures HoldsRuns(rows, refs, FoldRuns(rows, refs).value.entries)
    ensures HoldsUnknown(rows, FoldRuns(rows, refs).value.unknown)
  {
    if |rows| > 0 {
      hide HoldsRuns, HoldsUnknown;
      var front, last := rows[..|rows| - 1], rows[|rows| - 1];
      assert rows == front + [last];
      LastIsNew(rows, InputKey);
      FoldRunsContents(front, refs);
      var f := FoldRuns(front, refs).value;
      ExtendRuns(front, last, refs, f.entries);
      ExtendUnknown(front, last, f.unknown);
    } else {
      NothingFolded(refs);
    }
  }

  lemma NothingFolded(refs: map<Id, TerminalRef>)
    ensures HoldsRuns([], refs, map[]) && HoldsUnknown([], [])
  {
  }

  lemma ExtendUnknown(front: seq<ResolutionInput>, last: ResolutionInput, unknown: seq<UnknownRef>)
    requires HoldsUnknown(front, unknown)
    requires forall r :: r in front ==> r.item != last.item
    requires last.row.unknownLineage.Some? ==> last.row.payload.adjudication.Some?
    ensures HoldsUnknown(front + [last], unknown + UnknownOf(last))
  {
    var rows, after := front + [last], unknown + UnknownOf(last);
    if last.row.unknownLineage.Some? {
      var u := UnknownOf(last)[0];
      assert after == unknown + [u] && IsUnknownOf(u, last);
      forall i | 0 <= i < |unknown|
        ensures UnknownKey(unknown[i]) != UnknownKey(u)
      {
        assert unknown[i] in unknown;
      }
      assert last in rows && u in after;
    } else {
      assert after == unknown;
    }
    forall r | r in rows && r.row.unknownLineage.Some?
      ensures exists u :: u in after && IsUnknownOf(u, r)
    {
      if r in front {
        var u :| u in unknown && IsUnknownOf(u, r);
        assert u in after;
      }
    }
  }

  /** A scope fold adds exactly its not-executed items, each to an item no Run
      resolved, and every fan-out item agrees with the Run entries. */
  predicate HoldsScope(items: seq<ScopeItem>, start: map<ItemKey, BatchItem>, f: Scoped) {
    && (forall k :: k in start ==> k in f.entries && f.entries[k] == start[k])
    && (forall k :: k in f.entries && k !in start ==> exists s :: s in items && s.kind.NotExecuted? && s.item == k)
    && (forall s :: s in items && s.kind.NotExecuted? ==>
          s.item !in start && s.item in f.entries && f.entries[s.item] == NotExecutedItemOf(s))
    && (forall s :: s in items && s.kind.RunFanout? ==> FanoutAgrees(s, start))
  }

  lemma ExtendScope(front: seq<ScopeItem>, last: ScopeItem, start: map<ItemKey, BatchItem>, f: Scoped)
    requires HoldsScope(front, start, f)
    requires forall s :: s in front ==> s.item != last.item
    ensures last.kind.NotExecuted? && last.item !in f.entries ==>
      HoldsScope(front + [last], start, Scoped(f.entries[last.item := NotExecutedItemOf(last)],
                                               f.nonRun + [NonRunRef(last.item, ScopeDigest(last))]))
    ensures FanoutAgrees(last, f.entries) ==> HoldsScope(front + [last], start, f)
  {
    hide NotExecutedItemOf;
    var items := front + [last];
    assert last in items;
    var after := f.entries[last.item := NotExecutedItemOf(last)];
    forall k | k in after && k !in start && last.kind.NotExecuted?
      ensures exists s :: s in items && s.kind.NotExecuted? && s.item == k
    {
      if k != last.item {
        var s :| s in front && s.kind.NotExecuted? && s.item == k;
        assert s in items;
      }
    }
    forall k | k in f.entries && k !in start
      ensures exists s :: s in items && s.kind.NotExecuted? && s.item == k
    {
      var s :| s in front && s.kind.NotExecuted? && s.item == k;
      assert s in items;
    }
  }

  lemma {:induction false} FoldScopeContents(items: seq<ScopeItem>, start: map<ItemKey, BatchItem>)
    requires DistinctBy(items, ScopeKey)
    requires FoldScope(items, start).Ok?
    ensures HoldsScope(items, start, FoldScope(items, start).value)
  {
    if |items| > 0 {
      hide HoldsScope, FanoutAgrees;
      var front, last := items[..|items| - 1], items[|items| - 1];
      assert items == front + [last];
      LastIsNew(items, ScopeKey);
      FoldScopeContents(front, start);
      ExtendScope(front, last, start, FoldScope(front, start).value);
    } else {
      NothingScoped(start);
    }
  }

  lemma NothingScoped(start: map<ItemKey, BatchItem>)
    ensures HoldsScope([], start, Scoped(start, []))
  {
  }

  lemma CanonicalDistinct(batchId: Id, intent: Digest, manifest: Manifest, plan: Plan, items: seq<ScopeItem>)
    requires Canonicalize(batchId, intent, manifest, plan, items).Ok?
    ensures var c := Canonicalize(batchId, intent, manifest, plan, items).value;
            && KeysOf(c, ScopeKey) == manifest.items && IsAscending(manifest.items)
            && SortedBy(c, ScopeKey) && DistinctBy(c, ScopeKey)
  {
    var c := Canonicalize(batchId, intent, manifest, plan, items).value;
    var keys := KeysOf(c, ScopeKey);
    forall i, j | 0 <= i < j < |c|
      ensures Less(ScopeKey(c[i]), ScopeKey(c[j]))
    {
      assert Less(keys[i], keys[j]);
    }
  }

  lemma {:induction false} SortByKeeps<T>(s: seq<T>, key: T -> Rank)
    ensures multiset(SortBy(s, key)) == multiset(s)
  {
    if |s| > 0 {
      var front, last := s[..|s| - 1], s[|s| - 1];
      assert s == front + [last];
      SortByKeeps(front, key);
      InsertByKeeps(last, SortBy(front, key), key);
    }
  }

  // ----- Partition ---------------------------------------------------------

  function ResolvedItems(rows: seq<ResolutionInput>): set<ItemKey> {
    set r | r in rows :: r.item
  }

  function NotExecutedItems(rows: seq<ScopeRow>): set<ItemKey> {
    set r | r in rows && r.kind.NotExecuted? :: r.item
  }

  function ItemSet(items: seq<ItemKey>): set<ItemKey> {
    set k | k in items
  }

  lemma {:induction false} AscendingCardinality(s: seq<Rank>)
    requires IsAscending(s)
    ensures |ItemSet(s)| == |s|
  {
    if |s| > 0 {
      var front, last := s[..|s| - 1], s[|s| - 1];
      assert s == front + [last];
      AscendingCardinality(front);
      assert last !in front;
      assert ItemSet(s) == ItemSet(front) + {last};
    } else {
      assert ItemSet(s) == {};
    }
  }

  /** The Run-resolved items and the not-executed items split the manifest. */
  predicate SplitsManifest(manifest: seq<ItemKey>, resolved: set<ItemKey>, notExecuted: set<ItemKey>, itemCount: nat) {
    && resolved !! notExecuted
    && resolved + notExecuted == ItemSet(manifest)
    && |resolved| + |notExecuted| == itemCount
  }

  lemma {:induction false} DisjointSum(a: set<ItemKey>, b: set<ItemKey>)
    requires a !! b
    ensures |a + b| == |a| + |b|
  {
  }

  function RowFacts(rows: seq<ScopeRow>): set<(ItemKey, ScopeKind)> {
    set r | r in rows :: (r.item, r.kind)
  }

  function ScopeFacts(items: seq<ScopeItem>): set<(ItemKey, ScopeKind)> {
    set s | s in items :: (s.item, s.kind)
  }

  lemma CanonicalFacts(batchId: Id, intent: Digest, manifest: Manifest, plan: Plan, rows: seq<ScopeRow>)
    requires Canonicalize(batchId, intent, manifest, plan, ScopeItems(rows, manifest, plan)).Ok?
    ensures var c := Canonicalize(batchId, intent, manifest, plan, ScopeItems(rows, manifest, plan)).value;
            DistinctBy(c, ScopeKey) && ScopeFacts(c) == RowFacts(rows)
  {
    var items := ScopeItems(rows, manifest, plan);
    CanonicalDistinct(batchId, intent, manifest, plan, items);
    var c := Canonicalize(batchId, intent, manifest, plan, items).value;
    SameElements(Collapse(items), ScopeKey);
    assert forall s :: s in c <==> s in items;
    hide Canonicalize, Collapse, SortBy;
    forall r | r in rows
      ensures (r.item, r.kind) in ScopeFacts(c)
    {
      var i :| 0 <= i < |rows| && rows[i] == r;
      assert items[i] in items;
    }
    forall s | s in c
      ensures (s.item, s.kind) in RowFacts(rows)
    {
      var i :| 0 <= i < |items| && items[i] == s;
      assert rows[i] in rows;
    }
  }

  lemma SameElements<T(!new)>(items: seq<T>, key: T -> Rank)
    ensures forall s :: s in SortBy(items, key) <==> s in items
  {
    SortByKeeps(items, key);
    forall s
      ensures s in SortBy(items, key) <==> s in items
    {
      assert s in SortBy(items, key) <==> s in multiset(SortBy(items, key));
      assert s in items <==> s in multiset(items);
    }
  }

  /** The scope the rebuild folds is canonical and holds the facts of the rows. */
  lemma ScopeForRows(e: SourceSnapshot, source: BatchSource, manifest: Manifest, plan: Plan, runSet: RunSetDigest)
    requires ScopeFor(e, source, manifest, plan, runSet).Ok?
    ensures var items := ScopeFor(e, source, manifest, plan, runSet).value.1;
            DistinctBy(items, ScopeKey) && ScopeFacts(items) == RowFacts(source.scope)
  {
    hide Canonicalize;
    if |source.intents| == 1 {
      CanonicalFacts(e.envelope.batchId, source.intents[0].digest, manifest, plan, source.scope);
    }
  }

  /** The key set of a successful fold, split into its two origins. */
  lemma FoldedKeys(rows: seq<ResolutionInput>, refs: map<Id, TerminalRef>, folded: map<ItemKey, BatchItem>,
                   scope: seq<ScopeRow>, items: seq<ScopeItem>, scoped: Scoped)
    requires HoldsRuns(rows, refs, folded) && HoldsScope(items, folded, scoped)
    requires ScopeFacts(items) == RowFacts(scope)
    ensures folded.Keys == ResolvedItems(rows)
    ensures scoped.entries.Keys == ResolvedItems(rows) + NotExecutedItems(scope)
    ensures ResolvedItems(rows) !! NotExecutedItems(scope)
  {
    hide ItemOf, NotExecutedItemOf, FanoutAgrees;
    forall k | k in scoped.entries && k !in folded
      ensures k in NotExecutedItems(scope)
    {
      var s :| s in items && s.kind.NotExecuted? && s.item == k;
      assert (s.item, s.kind) in ScopeFacts(items);
    }
    forall k | k in NotExecutedItems(scope)
      ensures k in scoped.entries && k !in folded
    {
      var r :| r in scope && r.kind.NotExecuted? && r.item == k;
      assert (r.item, r.kind) in RowFacts(scope);
      var s :| s in items && (s.item, s.kind) == (r.item, r.kind);
    }
    assert forall k :: k in folded <==> k in ResolvedItems(rows);
  }

  /** When every item has at most one Run resolution and the rebuild succeeds,
      Run-resolved and not-executed items split the manifest exactly and their
      counts add up; every item of the result is the manifest's next item and
      comes from the side that holds it; every fan-out fact names the Run and
      version its item was resolved by. */
  lemma RebuildPartitions(e: SourceSnapshot, source: BatchSource, runs: seq<RunInput>, resolutions: seq<ResolutionInput>)
    requires DistinctBy(resolutions, InputKey)
    requires Rebuild(e, source, runs, resolutions).Ok?
    ensures var manifest := source.manifest.value.items;
            var s := Rebuild(e, source, runs, resolutions).value;
            && SplitsManifest(manifest, ResolvedItems(resolutions), NotExecutedItems(source.scope), s.itemCount)
            && |s.resolutionSet.entries| == |manifest| == s.itemCount
            && (forall i :: 0 <= i < |manifest| ==> s.resolutionSet.entries[i].item == manifest[i])
            && (forall i :: 0 <= i < |manifest| ==>
                  (s.resolutionSet.entries[i].source.FromRun? <==> manifest[i] in ResolvedItems(resolutions)))
    ensures forall r :: r in source.scope && r.kind.RunFanout? ==>
      ResolvedBy(Rebuild(e, source, runs, resolutions).value.resolutionSet.entries, r.item, r.kind.runId,
                 r.kind.sourceVersion)
  {
    hide SoundTerminal, CoherentSources, SoundResolution, SortBy;
    var manifest, plan := source.manifest.value, source.plan.value;
    var runSet := RunSetDigest(e.envelope.batchId, RunIds(SortBy(runs, RunInputKey)));
    var refs := RefsByRun(TerminalRefs(runs, e.envelope.batchId).value);
    var items := ScopeFor(e, source, manifest, plan, runSet).value.1;
    var folded := FoldRuns(resolutions, refs).value;
    var scoped := FoldScope(items, folded.entries).value;
    FoldPartitions(resolutions, refs, e, source, runSet, manifest.items);
  }

  /** The same, for the folds inside the rebuild. */
  lemma FoldPartitions(rows: seq<ResolutionInput>, refs: map<Id, TerminalRef>, e: SourceSnapshot, source: BatchSource,
                       runSet: RunSetDigest, manifest: seq<ItemKey>)
    requires DistinctBy(rows, InputKey)
    requires source.manifest.Some? && source.plan.Some?
    requires ScopeFor(e, source, source.manifest.value, source.plan.value, runSet).Ok?
    requires FoldRuns(rows, refs).Ok?
    requires var items := ScopeFor(e, source, source.manifest.value, source.plan.value, runSet).value.1;
             FoldScope(items, FoldRuns(rows, refs).value.entries).Ok?
    requires var items := ScopeFor(e, source, source.manifest.value, source.plan.value, runSet).value.1;
             Covers(FoldScope(items, FoldRuns(rows, refs).value.entries).value.entries, manifest)
    ensures var items := ScopeFor(e, source, source.manifest.value, source.plan.value, runSet).value.1;
            var entries := FoldScope(items, FoldRuns(rows, refs).value.entries).value.entries;
            && SplitsManifest(manifest, ResolvedItems(rows), NotExecutedItems(source.scope), |manifest|)
            && (forall k :: k in entries ==> entries[k].item == k)
            && (forall k :: k in entries ==> (entries[k].source.FromRun? <==> k in ResolvedItems(rows)))
            && forall r :: r in source.scope && r.kind.RunFanout? ==>
                 ResolvedBy(ListItems(manifest, entries), r.item, r.kind.runId, r.kind.sourceVersion)
  {
    hide ScopeFor, FoldRuns, FoldScope, ResolvedItems, NotExecutedItems, HoldsUnknown, DistinctBy, HoldsRuns;
    var items := ScopeFor(e, source, source.manifest.value, source.plan.value, runSet).value.1;
    var folded := FoldRuns(rows, refs).value.entries;
    var scoped := FoldScope(items, folded).value;
    FoldRunsContents(rows, refs);
    ScopeForRows(e, source, source.manifest.value, source.plan.value, runSet);
    FoldScopeContents(items, folded);
    FoldedKeys(rows, refs, folded, source.scope, items, scoped);
    AscendingCardinality(manifest);
    DisjointSum(ResolvedItems(rows), NotExecutedItems(source.scope));
    assert ItemSet(manifest) == scoped.entries.Keys;
    EntriesNameTheirItems(rows, refs, folded, items, scoped);
    forall r | r in source.scope && r.kind.RunFanout?
      ensures ResolvedBy(ListItems(manifest, scoped.entries), r.item, r.kind.runId, r.kind.sourceVersion)
    {
      assert (r.item, r.kind) in RowFacts(source.scope);
      var s :| s in items && (s.item, s.kind) == (r.item, r.kind);
      assert FanoutAgrees(s, folded);
      var i :| 0 <= i < |manifest| && manifest[i] == r.item;
      assert ListItems(manifest, scoped.entries)[i] == scoped.entries[r.item];
    }
  }

  predicate ResolvedBy(entries: seq<BatchItem>, item: ItemKey, runId: Id, sourceVersion: nat) {
    exists i :: 0 <= i < |entries| && entries[i].item == item && entries[i].source.FromRun?
                && entries[i].source.runId == runId && entries[i].source.sourceVersion == sourceVersion
  }

  lemma EntriesNameTheirItems(rows: seq<ResolutionInput>, refs: map<Id, TerminalRef>, folded: map<ItemKey, BatchItem>,
                              items: seq<ScopeItem>, scoped: Scoped)
    requires HoldsRuns(rows, refs, folded) && HoldsScope(items, folded, scoped)
    ensures forall k :: k in scoped.entries ==> scoped.entries[k].item == k
    ensures forall k :: k in scoped.entries ==> (scoped.entries[k].source.FromRun? <==> k in folded)
  {
    forall k | k in scoped.entries
      ensures scoped.entries[k].item == k && (scoped.entries[k].source.FromRun? <==> k in folded)
    {
      if k in folded {
        var r :| r in rows && r.item == k;
        assert folded[k] == ItemOf(r, refs[r.runId]);
      } else {
        var s :| s in items && s.kind.NotExecuted? && s.item == k;
        assert scoped.entries[k] == NotExecutedItemOf(s);
      }
    }
  }

  // ----- Order independence -----------------------------------------------

  ghost predicate SameRows<T(!new)>(s: seq<T>, t: seq<T>) {
    forall x :: x in s <==> x in t
  }

  lemma CollapsedDistinct(items: seq<ScopeItem>, other: seq<ScopeItem>)
    requires DistinctBy(SortBy(Collapse(items), ScopeKey), ScopeKey) && SameRows(items, other)
    ensures DistinctBy(Collapse(other), ScopeKey)
  {
    hide SortBy;
    var c, o := SortBy(Collapse(items), ScopeKey), Collapse(other);
    SameElements(Collapse(items), ScopeKey);
    forall i, j | 0 <= i < j < |o|
      ensures ScopeKey(o[i]) != ScopeKey(o[j])
    {
      assert o[i] in o && o[j] in o;
      assert o[i] in items && o[j] in items;
      assert o[i] in c && o[j] in c;
    }
  }

  lemma CanonicalOrderIndependent(batchId: Id, intent: Digest, manifest: Manifest, plan: Plan, items: seq<ScopeItem>,
                                  other: seq<ScopeItem>)
    requires SameRows(items, other)
    requires Canonicalize(batchId, intent, manifest, plan, items).Ok?
    ensures Canonicalize(batchId, intent, manifest, plan, other) == Canonicalize(batchId, intent, manifest, plan, items)
  {
    CanonicalDistinct(batchId, intent, manifest, plan, items);
    hide SortBy, Collapse;
    CollapsedDistinct(items, other);
    CollapsedDistinct(items, items);
    SortByOrderIndependent(Collapse(items), Collapse(other), ScopeKey);
    assert |items| > 0 && items[0] in other;
  }

  lemma SameScopeItems(rows: seq<ScopeRow>, other: seq<ScopeRow>, manifest: Manifest, plan: Plan)
    requires SameRows(rows, other)
    ensures SameRows(ScopeItems(rows, manifest, plan), ScopeItems(other, manifest, plan))
  {
    ScopeItemsIncluded(rows, other, manifest, plan);
    ScopeItemsIncluded(other, rows, manifest, plan);
  }

  lemma ScopeItemsIncluded(rows: seq<ScopeRow>, other: seq<ScopeRow>, manifest: Manifest, plan: Plan)
    requires SameRows(rows, other)
    ensures forall s :: s in ScopeItems(rows, manifest, plan) ==> s in ScopeItems(other, manifest, plan)
  {
    var items, others := ScopeItems(rows, manifest, plan), ScopeItems(other, manifest, plan);
    forall s | s in items
      ensures s in others
    {
      var i :| 0 <= i < |items| && items[i] == s;
      assert rows[i] in other;
      var j :| 0 <= j < |other| && other[j] == rows[i];
      assert others[j] == s;
    }
  }

  lemma ScopeOrderIndependent(e: SourceSnapshot, source: BatchSource, scope: seq<ScopeRow>, manifest: Manifest,
                              plan: Plan, runSet: RunSetDigest)
    requires SameRows(source.scope, scope)
    ensures ScopeFor(e, source.(scope := scope), manifest, plan, runSet) == ScopeFor(e, source, manifest, plan, runSet)
  {
    hide SoundScopeRow, SoundIntent, ScopeItems, Canonicalize;
    var items, others := ScopeItems(source.scope, manifest, plan), ScopeItems(scope, manifest, plan);
    SameScopeItems(source.scope, scope, manifest, plan);
    assert |scope| > 0 ==> scope[0] in source.scope;
    assert |source.scope| > 0 ==> source.scope[0] in scope;
    if |source.intents| == 1 {
      var intent := source.intents[0].digest;
      if Canonicalize(e.envelope.batchId, intent, manifest, plan, items).Ok? {
        CanonicalOrderIndependent(e.envelope.batchId, intent, manifest, plan, items, others);
      } else if Canonicalize(e.envelope.batchId, intent, manifest, plan, others).Ok? {
        CanonicalOrderIndependent(e.envelope.batchId, intent, manifest, plan, others, items);
      }
    }
  }

  lemma RefsOrderIndependent(runs: seq<RunInput>, other: seq<RunInput>, batchId: Id)
    requires SameRows(runs, other) && DistinctBy(runs, RunInputKey) && DistinctBy(other, RunInputKey)
    ensures TerminalRefs(runs, batchId).Ok? <==> TerminalRefs(other, batchId).Ok?
    ensures TerminalRefs(runs, batchId).Ok? ==>
      var a, b := TerminalRefs(runs, batchId).value, TerminalRefs(other, batchId).value;
      SortBy(a, TerminalKey) == SortBy(b, TerminalKey) && RefsByRun(a) == RefsByRun(b)
  {
    hide SoundTerminal, SortBy, RefsByRun;
    if TerminalRefs(runs, batchId).Ok? {
      var a, b := TerminalRefs(runs, batchId).value, TerminalRefs(other, batchId).value;
      RefsFollowRuns(runs, a);
      RefsFollowRuns(other, b);
      RefsIncluded(runs, other, a, b);
      RefsIncluded(other, runs, b, a);
      SortByOrderIndependent(a, b, TerminalKey);
      RefMapsEqual(a, b);
    }
  }

  predicate FollowRuns(runs: seq<RunInput>, refs: seq<TerminalRef>) {
    |refs| == |runs| && forall i :: 0 <= i < |runs| ==> runs[i].basis.Some? && refs[i] == TerminalOf(runs[i])
  }

  lemma RefsFollowRuns(runs: seq<RunInput>, refs: seq<TerminalRef>)
    requires FollowRuns(runs, refs) && DistinctBy(runs, RunInputKey)
    ensures DistinctBy(refs, TerminalKey)
  {
    forall i, j | 0 <= i < j < |refs|
      ensures TerminalKey(refs[i]) != TerminalKey(refs[j])
    {
      assert RunInputKey(runs[i]) != RunInputKey(runs[j]);
    }
  }

  lemma RefsIncluded(runs: seq<RunInput>, other: seq<RunInput>, a: seq<TerminalRef>, b: seq<TerminalRef>)
    requires SameRows(runs, other) && FollowRuns(runs, a) && FollowRuns(other, b)
    ensures forall x :: x in a ==> x in b
  {
    forall x | x in a
      ensures x in b
    {
      var i :| 0 <= i < |a| && a[i] == x;
      assert runs[i] in other;
      var j :| 0 <= j < |other| && other[j] == runs[i];
      assert b[j] == x;
    }
  }

  lemma RefMapsEqual(a: seq<TerminalRef>, b: seq<TerminalRef>)
    requires DistinctBy(a, TerminalKey) && SameRows(a, b)
    ensures RefsByRun(a) == RefsByRun(b)
  {
    var m, n := RefsByRun(a), RefsByRun(b);
    hide RefsByRun;
    forall k
      ensures k in m <==> k in n
      ensures k in m ==> m[k] == n[k]
    {
      if k in m {
        assert m[k] in b;
        var j :| 0 <= j < |b| && b[j] == m[k];
      }
      if k in n {
        assert n[k] in a;
        var j :| 0 <= j < |a| && a[j] == n[k];
        var i :| 0 <= i < |a| && a[i] == m[k];
        assert TerminalKey(a[i]) == TerminalKey(a[j]);
      }
    }
  }

  lemma FoldOrderIndependent(rows: seq<ResolutionInput>, other: seq<ResolutionInput>, refs: map<Id, TerminalRef>)
    requires SameRows(rows, other) && DistinctBy(rows, InputKey) && DistinctBy(other, InputKey)
    ensures FoldRuns(rows, refs).Ok? <==> FoldRuns(other, refs).Ok?
    ensures FoldRuns(rows, refs).Ok? ==>
      var a, b := FoldRuns(rows, refs).value, FoldRuns(other, refs).value;
      a.entries == b.entries && SortBy(a.unknown, UnknownKey) == SortBy(b.unknown, UnknownKey)
  {
    hide SoundResolution, SortBy;
    if FoldRuns(rows, refs).Ok? {
      FoldRunsContents(rows, refs);
      FoldRunsContents(other, refs);
      var a, b := FoldRuns(rows, refs).value, FoldRuns(other, refs).value;
      hide FoldRuns;
      EntriesDetermined(rows, other, refs, a.entries, b.entries);
      UnknownIncluded(rows, other, a.unknown, b.unknown);
      UnknownIncluded(other, rows, b.unknown, a.unknown);
      hide HoldsRuns;
      SortByOrderIndependent(a.unknown, b.unknown, UnknownKey);
    }
  }

  lemma EntriesDetermined(rows: seq<ResolutionInput>, other: seq<ResolutionInput>, refs: map<Id, TerminalRef>,
                          a: map<ItemKey, BatchItem>, b: map<ItemKey, BatchItem>)
    requires SameRows(rows, other) && HoldsRuns(rows, refs, a) && HoldsRuns(other, refs, b)
    ensures a == b
  {
    hide ItemOf;
    forall k
      ensures k in a <==> k in b
      ensures k in a ==> a[k] == b[k]
    {
      if k in a {
        var r :| r in rows && r.item == k;
        assert r in other;
      }
      if k in b {
        var r :| r in other && r.item == k;
        assert r in rows;
      }
    }
  }

  lemma UnknownIncluded(rows: seq<ResolutionInput>, other: seq<ResolutionInput>, a: seq<UnknownRef>, b: seq<UnknownRef>)
    requires SameRows(rows, other) && HoldsUnknown(rows, a) && HoldsUnknown(other, b)
    ensures forall u :: u in a ==> u in b
  {
    forall u | u in a
      ensures u in b
    {
      var r :| r in rows && IsUnknownOf(u, r);
      assert r in other;
      var v :| v in b && IsUnknownOf(v, r);
    }
  }

  /** The result depends on which rows the queries return, not on their order. */
  lemma RebuildOrderIndependent(e: SourceSnapshot, source: BatchSource, scope: seq<ScopeRow>, runs: seq<RunInput>,
                                runs': seq<RunInput>, resolutions: seq<ResolutionInput>,
                                resolutions': seq<ResolutionInput>)
    requires SameRows(source.scope, scope)
    requires SameRows(runs, runs') && DistinctBy(runs, RunInputKey) && DistinctBy(runs', RunInputKey)
    requires SameRows(resolutions, resolutions') && DistinctBy(resolutions, InputKey)
             && DistinctBy(resolutions', InputKey)
    ensures Rebuild(e, source, runs, resolutions) == Rebuild(e, source.(scope := scope), runs', resolutions')
  {
    if SourceFound(e, source) {
      var manifest, plan := source.manifest.value, source.plan.value;
      SortByOrderIndependent(runs, runs', RunInputKey);
      var runSet := RunSetDigest(e.envelope.batchId, RunIds(SortBy(runs, RunInputKey)));
      RefsOrderIndependent(runs, runs', e.envelope.batchId);
      ScopeOrderIndependent(e, source, scope, manifest, plan, runSet);
      var refs := TerminalRefs(runs, e.envelope.batchId);
      if refs.Ok? {
        FoldOrderIndependent(resolutions, resolutions', RefsByRun(refs.value));
      }
      hide SortBy, TerminalRefs, RefsByRun, ScopeFor, FoldRuns, FoldScope, Covers, CoherentSources, ListItems;
    }
  }
}
