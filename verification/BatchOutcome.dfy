/** The outcome of a Batch: its resolutions counted by class, and the truth table
    that reads the outcome off the counts, the policy and the cancellation intent. */
module BatchOutcome {
  import opened Common
  import opened RunTables
  import opened BatchTables

  datatype Counts = Counts(
    total: nat,
    passed: nat,
    testFailed: nat,
    infraFailed: nat,
    cancelled: nat,
    unknown: nat,
    notExecuted: nat)

  /** The places among the first `n` entries that hold class `c`. */
  function Places(entries: seq<BatchItem>, n: nat, c: Classification): set<nat>
    requires n <= |entries|
  {
    set i: nat | i < n && entries[i].classification == c
  }

  function CountOf(entries: seq<BatchItem>, c: Classification): nat { |Places(entries, |entries|, c)| }

  function CountsOf(entries: seq<BatchItem>): Counts {
    Counts(|entries|, CountOf(entries, PassedItem), CountOf(entries, TestFailedItem), CountOf(entries, InfraFailedItem),
           CountOf(entries, CancelledItem), CountOf(entries, UnknownLineageItem), CountOf(entries, NotExecutedItem))
  }

  /** The counter of a class. */
  function Counter(n: Counts, c: Classification): nat {
    match c
    case PassedItem => n.passed
    case TestFailedItem => n.testFailed
    case InfraFailedItem => n.infraFailed
    case CancelledItem => n.cancelled
    case UnknownLineageItem => n.unknown
    case NotExecutedItem => n.notExecuted
  }

  /** The policies that can be evaluated at all. */
  predicate Supported(p: Policy) { !p.retryPass && p.selector.None? }

  /** The truth table. */
  function Evaluate(counts: Counts, policy: Policy, intent: Option<Digest>): Result<BatchState> {
    var cancelScoped := counts.cancelled + counts.notExecuted;
    if counts.total == 0 || !Supported(policy) || (cancelScoped > 0 && intent.None?) then Err(DomainValidation)
    else if cancelScoped == counts.total
       && counts.passed + counts.testFailed + counts.infraFailed + counts.unknown == 0 then Ok(CancelledBatch)
    else if cancelScoped + counts.unknown > 0 then Ok(PartialBatch)
    else if counts.infraFailed > 0 || counts.testFailed > policy.maxTestFailed then Ok(FailedBatch)
    else Ok(SucceededBatch)
  }

  // ----- What the table says of the entries -------------------------------

  lemma OneMorePlace(entries: seq<BatchItem>, n: nat, c: Classification)
    requires n < |entries|
    ensures |Places(entries, n + 1, c)| == |Places(entries, n, c)| + (if entries[n].classification == c then 1 else 0)
  {
    if entries[n].classification == c {
      assert Places(entries, n + 1, c) == Places(entries, n, c) + {n};
    } else {
      assert Places(entries, n + 1, c) == Places(entries, n, c);
    }
  }

  /** Every entry is counted once. */
  lemma {:induction false} CountsAddUp(entries: seq<BatchItem>, n: nat)
    requires n <= |entries|
    ensures |Places(entries, n, PassedItem)| + |Places(entries, n, TestFailedItem)|
            + |Places(entries, n, InfraFailedItem)| + |Places(entries, n, CancelledItem)|
            + |Places(entries, n, UnknownLineageItem)| + |Places(entries, n, NotExecutedItem)| == n
  {
    if n > 0 {
      CountsAddUp(entries, n - 1);
      forall c
        ensures |Places(entries, n, c)|
                == |Places(entries, n - 1, c)| + (if entries[n - 1].classification == c then 1 else 0)
      {
        OneMorePlace(entries, n - 1, c);
      }
    }
  }

  lemma NoneCounted(entries: seq<BatchItem>, c: Classification)
    ensures CountOf(entries, c) == 0 <==> forall e :: e in entries ==> e.classification != c
  {
    if i: nat :| i < |entries| && entries[i].classification == c {
      assert i in Places(entries, |entries|, c) && entries[i] in entries;
    } else {
      assert Places(entries, |entries|, c) == {};
    }
  }

  /** The counter loop over the entries. */
  method CountResolutions(entries: seq<BatchItem>) returns (counts: Counts)
    ensures counts == CountsOf(entries)
  {
    counts := Counts(|entries|, 0, 0, 0, 0, 0, 0);
    assert forall c :: Places(entries, 0, c) == {};
    for i := 0 to |entries|
      invariant counts.total == |entries|
      invariant forall c :: Counter(counts, c) == |Places(entries, i, c)|
    {
      ghost var before, found := counts, entries[i].classification;
      match entries[i].classification {
        case PassedItem => counts := counts.(passed := counts.passed + 1);
        case TestFailedItem => counts := counts.(testFailed := counts.testFailed + 1);
        case InfraFailedItem => counts := counts.(infraFailed := counts.infraFailed + 1);
        case CancelledItem => counts := counts.(cancelled := counts.cancelled + 1);
        case UnknownLineageItem => counts := counts.(unknown := counts.unknown + 1);
        case NotExecutedItem => counts := counts.(notExecuted := counts.notExecuted + 1);
      }
      forall c
        ensures Counter(counts, c) == |Places(entries, i + 1, c)|
      {
        OneMorePlace(entries, i, c);
        assert Counter(counts, c) == Counter(before, c) + (if found == c then 1 else 0);
      }
    }
    assert Counter(counts, PassedItem) == CountOf(entries, PassedItem)
           && Counter(counts, TestFailedItem) == CountOf(entries, TestFailedItem)
           && Counter(counts, InfraFailedItem) == CountOf(entries, InfraFailedItem)
           && Counter(counts, CancelledItem) == CountOf(entries, CancelledItem)
           && Counter(counts, UnknownLineageItem) == CountOf(entries, UnknownLineageItem)
           && Counter(counts, NotExecutedItem) == CountOf(entries, NotExecutedItem);
  }

  predicate CancelScoped(e: BatchItem) { e.classification == CancelledItem || e.classification == NotExecutedItem }

  /** The outcome, read off the entries: refused exactly for an unsupported policy
      or a cancelled item without an intent; CANCELLED when nothing else was the
      matter, PARTIAL when anything was cancelled or is unknown, FAILED when an item
      failed on the infrastructure or too many failed, SUCCEEDED otherwise. */
  lemma OutcomeMeans(entries: seq<BatchItem>, policy: Policy, intent: Option<Digest>)
    requires |entries| > 0
    ensures var r := Evaluate(CountsOf(entries), policy, intent);
            && (r.Ok? <==> Supported(policy) && (intent.Some? || forall e :: e in entries ==> !CancelScoped(e)))
            && (r.Ok? ==>
                  && (r.value == CancelledBatch <==> forall e :: e in entries ==> CancelScoped(e))
                  && (r.value == PartialBatch <==>
                        && (exists e :: e in entries && !CancelScoped(e))
                        && (exists e :: e in entries && (CancelScoped(e) || e.classification == UnknownLineageItem)))
                  && (r.value == FailedBatch <==>
                        && (forall e :: e in entries ==> !CancelScoped(e) && e.classification != UnknownLineageItem)
                        && ((exists e :: e in entries && e.classification == InfraFailedItem)
                            || CountOf(entries, TestFailedItem) > policy.maxTestFailed))
                  && (r.value == SucceededBatch <==>
                        && (forall e :: e in entries ==> e.classification == PassedItem || e.classification == TestFailedItem)
                        && CountOf(entries, TestFailedItem) <= policy.maxTestFailed))
  {
    CountsAddUp(entries, |entries|);
    NoneCounted(entries, PassedItem);
    NoneCounted(entries, TestFailedItem);
    NoneCounted(entries, InfraFailedItem);
    NoneCounted(entries, CancelledItem);
    NoneCounted(entries, UnknownLineageItem);
    NoneCounted(entries, NotExecutedItem);
    hide Places;
    assert entries[0] in entries;
  }

  /** Entries of distinct items are counted by their items. */
  lemma {:induction false} CountedByItem(entries: seq<BatchItem>, n: nat, c: Classification, items: set<ItemKey>)
    requires n <= |entries| && forall i, j :: 0 <= i < j < |entries| ==> entries[i].item != entries[j].item
    requires forall k :: k in items <==> exists i :: 0 <= i < n && entries[i].item == k && entries[i].classification == c
    ensures |Places(entries, n, c)| == |items|
  {
    if n == 0 {
      assert items == {} && Places(entries, n, c) == {};
    } else {
      var last := entries[n - 1];
      OneMorePlace(entries, n - 1, c);
      CountedByItem(entries, n - 1, c, if last.classification == c then items - {last.item} else items);
      assert last.classification == c ==> last.item in items;
    }
  }
}
