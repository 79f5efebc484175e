/** The basis of a Batch as its tables decide it: over closed Runs that fit the
    sources everything in a basis is derived, and its outcome, or the refusal of
    any outcome, is read off the resolution rows, the policy and the intent. */
module BatchVerdict {
  import opened Common
  import opened Ordering
  import opened RunTables
  import opened RunFinalizationSql
  import opened RunLifecycle
  import opened BatchTables
  import opened BatchOutcome
  import opened BatchRebuild
  import opened BatchRebuildLaws
  import opened BatchReadinessSql
  import opened BatchFinalizationSql
  import opened ControlPlaneInvariant
  import opened BatchProgress

  // ----- Rows of a closed Run and entries of its basis --------------------

  /** The reference the rebuild makes to a closed Run. */
  function RunRef(id: Id, rows: RunRows): TerminalRef
    requires rows.basis.Some?
  {
    TerminalOf(RunInputOf(id, rows))
  }

  lemma EntryHasRow(id: Id, rows: RunRows, e: ResolutionEntry)
    requires RunInv(id, rows) && rows.basis.Some? && e in rows.basis.value.itemSet.preimage
    ensures e.item in rows.resolutions
    ensures rows.resolutions[e.item] == RowOfEntry(e, rows.basis.value.sourceVersion)
    ensures RunItem(id, rows, e.item) == Derived(RunRef(id, rows), e)
  {
    hide ValidTerminal, AuditOutcome, ClassOf, ResolutionMap;
    var b := rows.basis.value;
    ResolutionMapContents(b.itemSet.preimage, b.sourceVersion);
    var i :| 0 <= i < |b.itemSet.preimage| && b.itemSet.preimage[i] == e;
  }

  lemma RowHasEntry(id: Id, rows: RunRows, k: ItemKey) returns (e: ResolutionEntry)
    requires RunInv(id, rows) && rows.basis.Some? && k in rows.resolutions
    ensures e in rows.basis.value.itemSet.preimage && e.item == k
    ensures rows.resolutions[k] == RowOfEntry(e, rows.basis.value.sourceVersion)
    ensures RunItem(id, rows, k) == Derived(RunRef(id, rows), e)
    ensures e.classification == ClassOf(e) && (e.unknownLineage.Some? ==> e.adjudication.Some?)
  {
    ResolutionIsEntry(id, rows, k);
    hide ValidTerminal, AuditOutcome, ClassOf, ResolutionMap;
    var i :| 0 <= i < |rows.basis.value.itemSet.preimage|
             && rows.resolutions[k] == RowOfEntry(rows.basis.value.itemSet.preimage[i], rows.basis.value.sourceVersion)
             && rows.basis.value.itemSet.preimage[i].item == k;
    e := rows.basis.value.itemSet.preimage[i];
  }

  // ----- References --------------------------------------------------------

  /** The references are those of the Batch's Runs, one each. */
  predicate RefsOfRuns(refs: seq<TerminalRef>, runs: map<Id, RunRows>, b: Id) {
    && (forall x :: x in refs ==> exists r :: r in RunsOf(runs, b) && runs[r].basis.Some? && x == RunRef(r, runs[r]))
    && (forall r :: r in RunsOf(runs, b) && runs[r].basis.Some? ==> RunRef(r, runs[r]) in refs)
  }

  lemma RefsAreOfRuns(runs: map<Id, RunRows>, b: Id, refs: seq<TerminalRef>)
    requires RunsInv(runs) && BatchClosed(runs, b) && TerminalRefs(RunQuery(runs, b), b) == Ok(refs)
    ensures RefsOfRuns(refs, runs, b) && RefIds(refs) == RunIdList(runs, b)
  {
    hide RunInv, RunIdList, SoundTerminal;
    ReferencesFound(runs, b);
    var ids := RunIdList(runs, b);
    forall x | x in refs
      ensures exists r :: r in RunsOf(runs, b) && runs[r].basis.Some? && x == RunRef(r, runs[r])
    {
      var i :| 0 <= i < |refs| && refs[i] == x;
      assert ids[i] in RunsOf(runs, b);
    }
    forall r | r in RunsOf(runs, b) && runs[r].basis.Some?
      ensures RunRef(r, runs[r]) in refs
    {
      assert RefsByRun(refs)[r] in refs;
    }
  }

  lemma ClosedRunRef(id: Id, rows: RunRows, v: Envelope, manifest: Manifest, plan: Plan)
    requires RunInv(id, rows) && rows.basis.Some? && FrameFits(rows, id, manifest, plan)
    requires v.batchId == rows.batchId && v.manifestDigest == manifest.digest && v.planDigest == plan.digest
    ensures RefOfRun(RunRef(id, rows), v)
  {
    hide AssignmentLifecycle.AssignmentInv, ValidEntries, AuditOutcome, ResolutionMap;
  }

  // ----- What is derived ---------------------------------------------------

  lemma ItemsAreDerived(entries: seq<BatchItem>, refs: seq<TerminalRef>, runs: map<Id, RunRows>, b: Id)
    requires RunsInv(runs) && ItemsOfRuns(entries, runs, b) && RefsOfRuns(refs, runs, b)
    ensures ItemsFit(entries, refs) && forall i :: 0 <= i < |entries| ==> entries[i].source.FromRun?
  {
    hide RunInv, RunItem, RunRef, Derived;
    forall i | 0 <= i < |entries|
      ensures entries[i].source.FromRun? && entries[i].classification != NotExecutedItem
      ensures exists x, e :: x in refs && e in x.itemSet.preimage && entries[i] == Derived(x, e)
    {
      assert ItemOfSomeRun(entries[i], runs, b);
      var r :| r in RunsOf(runs, b) && runs[r].basis.Some? && entries[i].item in runs[r].resolutions
               && entries[i] == RunItem(r, runs[r], entries[i].item);
      assert RunInv(r, runs[r]);
      var e := RowHasEntry(r, runs[r], entries[i].item);
      var x := RunRef(r, runs[r]);
      RefNames(r, runs[r], e);
      assert x in refs && e in x.itemSet.preimage && entries[i] == Derived(x, e);
    }
    forall x, e | x in refs && e in x.itemSet.preimage
      ensures Derived(x, e) in entries
    {
      var r :| r in RunsOf(runs, b) && runs[r].basis.Some? && x == RunRef(r, runs[r]);
      assert RunInv(r, runs[r]);
      RefNames(r, runs[r], e);
      EntryHasRow(r, runs[r], e);
    }
  }

  lemma RefNames(id: Id, rows: RunRows, e: ResolutionEntry)
    requires rows.basis.Some?
    ensures RunRef(id, rows).itemSet == rows.basis.value.itemSet
    ensures Derived(RunRef(id, rows), e).source.FromRun?
    ensures Derived(RunRef(id, rows), e).classification == e.classification
  {
  }

  lemma UnknownsAreDerived(s: SourceSnapshot, runs: map<Id, RunRows>, b: Id)
    requires RunsInv(runs) && BatchClosed(runs, b) && UnknownsOfRuns(s.unknownRefs, runs, b)
    requires RefsOfRuns(s.terminalRefs, runs, b)
    ensures UnknownsFit(s)
  {
    hide RunInv, RunItem, RunRef, Derived, SortedBy;
    forall u | u in s.unknownRefs
      ensures exists x, e :: x in s.terminalRefs && e in x.itemSet.preimage && IsUnknown(u, e)
    {
      var r, k :| r in RunsOf(runs, b) && k in runs[r].resolutions && IsUnknownOf(u, Listed(runs, r, k));
      assert RunInv(r, runs[r]);
      var e := RowHasEntry(r, runs[r], k);
      RefNames(r, runs[r], e);
      assert RunRef(r, runs[r]) in s.terminalRefs && IsUnknown(u, e);
    }
    forall x, e | x in s.terminalRefs && e in x.itemSet.preimage && e.unknownLineage.Some? && e.adjudication.Some?
      ensures UnknownRefOf(e) in s.unknownRefs
    {
      var r :| r in RunsOf(runs, b) && runs[r].basis.Some? && x == RunRef(r, runs[r]);
      assert RunInv(r, runs[r]);
      RefNames(r, runs[r], e);
      EntryHasRow(r, runs[r], e);
      var u :| u in s.unknownRefs && IsUnknownOf(u, Listed(runs, r, e.item));
      assert u == UnknownRefOf(e);
    }
  }

  /** Everything in the basis of a rebuilt snapshot but its outcome is as the basis
      demands, so the basis is valid exactly with the outcome of the truth table. */
  lemma ValidExactlyWithOutcome(named: SourceSnapshot, e: SourceSnapshot, source: BatchSource, runs: map<Id, RunRows>,
                                outcome: BatchState)
    requires RunsInv(runs) && ReadySource(named.envelope.batchId, source, runs) && RebuiltAs(named, e, source, runs)
    ensures ValidBasis(BatchBasis(e, e.resolutionSet.entries, outcome)) <==>
            Evaluate(CountsOf(e.resolutionSet.entries), e.policy, e.intent) == Ok(outcome)
  {
    hide RunsInv, RunIdList, RunQuery, TerminalRefs, IntentFits, OpportunityRanks, CountsOf, Evaluate, SoundManifest,
         ItemsOfRuns, UnknownsOfRuns, RefsOfRuns, CoherentSources, FindPolicy, SortedBy, OwnsManifest, SeatsOnce, FrameFits,
         ItemsFit, UnknownsFit, RefOfRun;
    var b, m, plan := named.envelope.batchId, source.manifest.value, source.plan.value;
    ShardsResolve(b, m, plan, runs, map[]);
    RefsAreOfRuns(runs, b, e.terminalRefs);
    RefsAreRunBases(e.terminalRefs, e.envelope, runs, b, m, plan);
    ItemsAreDerived(e.resolutionSet.entries, e.terminalRefs, runs, b);
    UnknownsAreDerived(e, runs, b);
    ManifestAscends(m);
    assert BatchItemKeys(e.resolutionSet.entries) == m.items;
    NothingSorted();
    ManifestCounts(m);
  }

  lemma ManifestCounts(m: Manifest)
    requires SoundManifest(m)
    ensures m.itemCount == |m.items|
  {
  }

  lemma NothingSorted()
    ensures SortedBy<NonRunRef>([], NonRunKey)
  {
  }

  lemma RefsAreRunBases(refs: seq<TerminalRef>, v: Envelope, runs: map<Id, RunRows>, b: Id, manifest: Manifest, plan: Plan)
    requires RunsInv(runs) && RefsOfRuns(refs, runs, b) && ShardsFit(b, manifest, plan, runs)
    requires v.batchId == b && v.manifestDigest == manifest.digest && v.planDigest == plan.digest
    ensures forall x :: x in refs ==> RefOfRun(x, v)
  {
    hide RunInv, RefOfRun, FrameFits, OwnsManifest, SeatsOnce;
    forall x | x in refs
      ensures RefOfRun(x, v)
    {
      var r :| r in RunsOf(runs, b) && runs[r].basis.Some? && x == RunRef(r, runs[r]);
      assert RunInv(r, runs[r]);
      ClosedRunRef(r, runs[r], v, manifest, plan);
    }
  }

  // ----- The outcome, read off the tables ---------------------------------

  /** No item of the Batch was resolved as cancelled. */
  predicate NothingCancelled(b: Id, runs: map<Id, RunRows>) {
    forall r, k :: r in RunsOf(runs, b) && k in runs[r].resolutions ==> runs[r].resolutions[k].classification != CancelledItem
  }

  /** What the evaluation asks: a policy of the Batch's suite that is supported,
      and an intent for anything cancelled. */
  predicate Evaluable(b: Id, source: BatchSource, policy: Policy, runs: map<Id, RunRows>) {
    policy.suite == source.suite && Supported(policy) && (source.intents != [] || NothingCancelled(b, runs))
  }

  lemma CancelledInTables(entries: seq<BatchItem>, runs: map<Id, RunRows>, b: Id)
    requires RunsInv(runs) && BatchClosed(runs, b) && ItemsOfRuns(entries, runs, b)
    ensures (forall x :: x in entries ==> !CancelScoped(x)) <==> NothingCancelled(b, runs)
  {
    hide RunInv;
    forall x | x in entries && CancelScoped(x)
      ensures !NothingCancelled(b, runs)
    {
      var i :| 0 <= i < |entries| && entries[i] == x;
      assert ItemOfSomeRun(entries[i], runs, b);
      var r :| r in RunsOf(runs, b) && runs[r].basis.Some? && x.item in runs[r].resolutions
               && x == RunItem(r, runs[r], x.item);
      assert RunInv(r, runs[r]);
      var e := RowHasEntry(r, runs[r], x.item);
      assert runs[r].resolutions[x.item].classification == CancelledItem;
    }
    forall r, k | r in RunsOf(runs, b) && k in runs[r].resolutions && runs[r].resolutions[k].classification == CancelledItem
      ensures exists x :: x in entries && CancelScoped(x)
    {
      assert RunItem(r, runs[r], k) in entries && CancelScoped(RunItem(r, runs[r], k));
    }
  }

  /** A rebuilt snapshot has an outcome exactly when its policy is supported and,
      without an intent, no resolution row of the Batch says cancelled. */
  lemma EvaluableExactlyWhen(named: SourceSnapshot, e: SourceSnapshot, source: BatchSource, runs: map<Id, RunRows>)
    requires RunsInv(runs) && ReadySource(named.envelope.batchId, source, runs) && RebuiltAs(named, e, source, runs)
    ensures Evaluate(CountsOf(e.resolutionSet.entries), e.policy, e.intent).Ok?
            <==> Evaluable(named.envelope.batchId, source, e.policy, runs)
  {
    hide RunsInv, RunIdList, RunQuery, TerminalRefs, IntentFits, OpportunityRanks, CountsOf, Evaluate, SoundManifest,
         ItemsOfRuns, UnknownsOfRuns, CoherentSources, SortedBy, OwnsManifest, SeatsOnce, FrameFits, NothingCancelled;
    var b := named.envelope.batchId;
    ShardsResolve(b, source.manifest.value, source.plan.value, runs, map[]);
    OutcomeMeans(e.resolutionSet.entries, e.policy, e.intent);
    CancelledInTables(e.resolutionSet.entries, runs, b);
  }

  // ----- Counting rows -----------------------------------------------------

  /** The items the Batch's Runs resolved with class `c`. */
  function Classed(runs: map<Id, RunRows>, b: Id, c: Classification): set<ItemKey> {
    set r, k | r in RunsOf(runs, b) && k in runs[r].resolutions && runs[r].resolutions[k].classification == c :: k
  }

  /** The resolution rows of the Batch, counted. */
  function RowCounts(source: BatchSource, runs: map<Id, RunRows>, b: Id): Counts
    requires SourcesApproved(source)
  {
    Counts(source.manifest.value.itemCount, |Classed(runs, b, PassedItem)|, |Classed(runs, b, TestFailedItem)|,
           |Classed(runs, b, InfraFailedItem)|, |Classed(runs, b, CancelledItem)|, |Classed(runs, b, UnknownLineageItem)|,
           |Classed(runs, b, NotExecutedItem)|)
  }

  lemma CountsRow(entries: seq<BatchItem>, runs: map<Id, RunRows>, b: Id, c: Classification)
    requires RunsInv(runs) && BatchClosed(runs, b) && ItemsOfRuns(entries, runs, b)
    requires forall i, j :: 0 <= i < j < |entries| ==> entries[i].item != entries[j].item
    ensures CountOf(entries, c) == |Classed(runs, b, c)|
  {
    hide RunInv;
    var items := Classed(runs, b, c);
    forall k
      ensures k in items <==> exists i :: 0 <= i < |entries| && entries[i].item == k && entries[i].classification == c
    {
      if k in items {
        var r :| r in RunsOf(runs, b) && k in runs[r].resolutions && runs[r].resolutions[k].classification == c;
        assert RunItem(r, runs[r], k) in entries;
        var i :| 0 <= i < |entries| && entries[i] == RunItem(r, runs[r], k);
      }
      if i :| 0 <= i < |entries| && entries[i].item == k && entries[i].classification == c {
        assert ItemOfSomeRun(entries[i], runs, b);
      }
    }
    CountedByItem(entries, |entries|, c, items);
  }

  /** The counts of a rebuilt snapshot are those of the resolution rows. */
  lemma CountsAreRows(named: SourceSnapshot, e: SourceSnapshot, source: BatchSource, runs: map<Id, RunRows>)
    requires RunsInv(runs) && ReadySource(named.envelope.batchId, source, runs) && RebuiltAs(named, e, source, runs)
    ensures CountsOf(e.resolutionSet.entries) == RowCounts(source, runs, named.envelope.batchId)
  {
    hide RunsInv, RunIdList, RunQuery, TerminalRefs, IntentFits, OpportunityRanks, ItemsOfRuns, UnknownsOfRuns,
         CoherentSources, SortedBy, OwnsManifest, SeatsOnce, FrameFits, CountOf, Classed, FindPolicy;
    var b, m, entries := named.envelope.batchId, source.manifest.value, e.resolutionSet.entries;
    ShardsResolve(b, m, source.plan.value, runs, map[]);
    assert forall i, j :: 0 <= i < j < |entries| ==> entries[i].item != entries[j].item;
    CountsRow(entries, runs, b, PassedItem);
    CountsRow(entries, runs, b, TestFailedItem);
    CountsRow(entries, runs, b, InfraFailedItem);
    CountsRow(entries, runs, b, CancelledItem);
    CountsRow(entries, runs, b, UnknownLineageItem);
    CountsRow(entries, runs, b, NotExecutedItem);
  }
}
