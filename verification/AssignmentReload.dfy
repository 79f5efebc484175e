/** Reloading after publication. The reader orders assignments by
    (offered_at, id) and the aggregate insists that the current one is last, so
    a reload gives back the published Run exactly when offers are stored in
    that order. */
module AssignmentReload {
  import opened Common
  import opened Ordering
  import opened RunAggregate
  import opened RunTables
  import opened AssignmentSql
  import opened AssignmentLifecycle

  function OfferRank(a: Assignment): Rank { Rank(a.offeredAt, a.id) }

  function OfferRankSeq(s: seq<Assignment>): (r: seq<Rank>)
    ensures |r| == |s| && forall i :: 0 <= i < |s| ==> r[i] == OfferRank(s[i])
  {
    seq(|s|, i requires 0 <= i < |s| => OfferRank(s[i]))
  }

  /** The assignments are in the order the reader would list them. */
  predicate InStoredOrder(s: seq<Assignment>) { IsAscending(OfferRankSeq(s)) }

  lemma RanksListRows(rows: RunRows, run: Run)
    requires Represents(rows, run) && run.state != Running
    ensures Lists(OfferRankSeq(run.assignments), OfferRanks(rows.assignments))
  {
    hide AssignmentFromRow;
    var ranks := OfferRankSeq(run.assignments);
    forall i | 0 <= i < |run.assignments|
      ensures ranks[i] in OfferRanks(rows.assignments)
    {
      assert Stored(rows.assignments, run.assignments[i]);
      StoredColumns(rows.assignments, run.assignments[i]);
    }
    forall r | r in OfferRanks(rows.assignments)
      ensures r in ranks
    {
      var k :| k in rows.assignments && r == Rank(rows.assignments[k].offeredAt, k);
      assert HasId(run.assignments, k);
      var i :| 0 <= i < |run.assignments| && run.assignments[i].id == k;
      StoredColumns(rows.assignments, run.assignments[i]);
      assert ranks[i] == r;
    }
  }

  /** The listed ids are those of the Run's assignments, in the same order. */
  lemma StoredOrderListsIds(rows: RunRows, run: Run)
    requires Represents(rows, run) && run.state != Running && InStoredOrder(run.assignments)
    ensures |InOfferOrder(rows.assignments)| == |run.assignments|
    ensures forall i :: 0 <= i < |run.assignments| ==> InOfferOrder(rows.assignments)[i] == run.assignments[i].id
  {
    hide AssignmentFromRow;
    var elements := OfferRanks(rows.assignments);
    RanksListRows(rows, run);
    AscendingLists(elements);
    AscendingUnique(OfferRankSeq(run.assignments), Ascending(elements), elements);
    var ranks := Ascending(elements);
    forall i | 0 <= i < |run.assignments|
      ensures InOfferOrder(rows.assignments)[i] == run.assignments[i].id
    {
      assert ranks[i] == OfferRank(run.assignments[i]);
    }
  }

  lemma LoadedInStoredOrder(rows: map<Id, AssignmentRow>, history: seq<Assignment>)
    requires DecodeAll(rows, InOfferOrder(rows)) == Ok(history)
    ensures InStoredOrder(history)
  {
    var ids := InOfferOrder(rows);
    var ranks := Ascending(OfferRanks(rows));
    AscendingLists(OfferRanks(rows));
    hide AssignmentFromRow;
    forall i | 0 <= i < |history|
      ensures OfferRank(history[i]) == ranks[i]
    {
      assert ranks[i] in OfferRanks(rows);
      DecodedKeepsId(ids[i], rows[ids[i]]);
      assert Stored(rows, history[i]);
      StoredColumns(rows, history[i]);
    }
    assert OfferRankSeq(history) == ranks;
  }

  lemma DecodesTo(rows: RunRows, run: Run)
    requires Represents(rows, run) && run.state != Running && InStoredOrder(run.assignments)
    ensures DecodeAll(rows.assignments, InOfferOrder(rows.assignments)) == Ok(run.assignments)
  {
    hide AssignmentFromRow, InOfferOrder;
    StoredOrderListsIds(rows, run);
    var ids := InOfferOrder(rows.assignments);
    forall i | 0 <= i < |ids|
      ensures AssignmentFromRow(ids[i], rows.assignments[ids[i]]) == Ok(run.assignments[i])
    {
      assert Stored(rows.assignments, run.assignments[i]);
    }
    var d := DecodeAll(rows.assignments, ids);
    assert d.value == run.assignments;
  }

  lemma CurrentIsLastActive(run: Run)
    requires ValidRun(run) && run.state == Assigned
    ensures LastActive(run.assignments).Some? && run.current == Some(LastActive(run.assignments).value.id)
  {
    hide ValidAssignment;
    AssignedPointers(run);
    CurrentIsLast(run);
  }

  /** Reloading a queued or assigned Run gives back the published value exactly
      when its offers are in stored order. */
  lemma RehydrationInverts(id: Id, rows: RunRows, run: Run)
    requires ValidRun(run) && run.id == id && Represents(rows, run)
    requires run.state == Queued || run.state == Assigned
    ensures Rehydrate(id, rows) == Ok(run) <==> InStoredOrder(run.assignments)
  {
    hide ValidHistory, InStoredOrder, InOfferOrder, AssignmentFromRow;
    var ids := InOfferOrder(rows.assignments);
    WaitingHasNoAttempt(run);
    if InStoredOrder(run.assignments) {
      DecodesTo(rows, run);
      if run.state == Assigned {
        AssignedPointers(run);
        CurrentIsLastActive(run);
      }
    } else if Rehydrate(id, rows) == Ok(run) {
      LoadedInStoredOrder(rows.assignments, run.assignments);
    }
  }

  lemma WaitingHasNoAttempt(run: Run)
    requires ValidRun(run) && (run.state == Queued || run.state == Assigned)
    ensures run.attempts == [] && run.fence == 0
    ensures run.state == Queued ==> run.current.None?
    ensures run.state == Assigned ==> |run.assignments| > 0
  {
    FenceCountsAttempts(run);
  }

  /** A running Run reloads as its committed assignment and current attempt. */
  function Projected(run: Run): Run
    requires |run.assignments| > 0
  {
    run.(assignments := [run.assignments[|run.assignments| - 1]])
  }

  lemma RunningReload(id: Id, rows: RunRows, run: Run)
    requires AssignmentInv(id, rows) && ValidRun(run) && run.id == id && Represents(rows, run)
    requires run.state == Running
    ensures |run.assignments| > 0 && Rehydrate(id, rows) == Ok(Projected(run))
  {
    hide ValidRun, AssignmentFromRow, InOfferOrder, RowInv, ValidAssignment;
    RunningPointers(run);
    ProjectedValid(run);
    var c := run.assignments[|run.assignments| - 1];
    var ids := InOfferOrder(rows.assignments);
    assert Stored(rows.assignments, c);
    StoredColumns(rows.assignments, c);
    InOfferOrderComplete(rows.assignments, c.id);
    var found := FirstCommitted(rows.assignments, ids);
    assert found == Some(c.id) by {
      var i :| 0 <= i < |ids| && ids[i] == c.id;
      assert rows.assignments[ids[i]].state == Committed;
    }
    assert rows.attempts == [rows.attempts[0]];
    assert AttemptAtFence(rows.attempts, rows.row.fence) == Some(rows.attempts[0]);
    assert run.attempts == [AttemptFromRow(rows.attempts[0])];
  }

  lemma RunningPointers(run: Run)
    requires ValidRun(run) && run.state == Running
    ensures |run.assignments| > 0 && run.assignments[|run.assignments| - 1].state == Committed
    ensures run.current == Some(run.assignments[|run.assignments| - 1].id) && |run.attempts| == 1
  {
    CurrentIsLast(run);
  }

  lemma ProjectedValid(run: Run)
    requires ValidRun(run) && run.state == Running && |run.assignments| > 0
    ensures ValidRun(Projected(run))
  {
    RunningPointers(run);
    hide ValidAssignment;
    CurrentIsLast(run);
    var p := Projected(run);
    assert p.assignments == [run.assignments[|run.assignments| - 1]];
    assert ValidHistory(p);
    CurrentIsLast(p);
  }

  // ----- Publish, then reload ---------------------------------------------

  /** Checkable before offering: the new offer sorts after the latest one. */
  predicate OffersLater(run: Run, aid: Id, offeredAt: Time) {
    |run.assignments| == 0
    || Less(OfferRank(run.assignments[|run.assignments| - 1]), Rank(offeredAt, aid))
  }

  lemma AppendKeepsOrder(s: seq<Assignment>, a: Assignment)
    requires InStoredOrder(s)
    ensures InStoredOrder(s + [a]) <==> |s| == 0 || Less(OfferRank(s[|s| - 1]), OfferRank(a))
  {
    var before, after := OfferRankSeq(s), OfferRankSeq(s + [a]);
    assert after == before + [OfferRank(a)];
    if |s| > 0 && IsAscending(after) {
      assert Less(after[|s| - 1], after[|s|]);
    }
  }

  lemma ReplaceKeepsOrder(s: seq<Assignment>, u: Assignment)
    requires forall i :: 0 <= i < |s| && s[i].id == u.id ==> s[i].offeredAt == u.offeredAt
    ensures InStoredOrder(ReplaceById(s, u)) <==> InStoredOrder(s)
  {
    assert OfferRankSeq(ReplaceById(s, u)) == OfferRankSeq(s);
  }

  /** Offer, then reload: the published Run comes back if and only if the offer
      sorts after the latest one; otherwise the reload is refused. */
  lemma OfferThenReload(id: Id, rows: RunRows, run: Run, aid: Id, worker: WorkerRef, spec: Digest,
                        offeredAt: Time, expiresAt: Time, expectedVersion: nat, offered: Run, taken: Taken)
    requires AssignmentInv(id, rows) && Rehydrate(id, rows) == Ok(run)
    requires Offer(run, aid, worker, spec, offeredAt, expiresAt, expectedVersion) == Ok(offered)
    requires aid !in taken.assignments
    ensures OfferRows(rows, Some(run), offered, run, taken).Ok?
    ensures var reload := Rehydrate(id, OfferRows(rows, Some(run), offered, run, taken).value);
            if OffersLater(run, aid, offeredAt) then reload == Ok(offered) else reload.Err?
  {
    hide ValidRun, Offer, AssignmentInv, Represents, InStoredOrder, ValidAssignment, OfferRows, Rehydrate;
    RehydrateRepresents(id, rows);
    OfferPublishes(id, rows, run, aid, worker, spec, offeredAt, expiresAt, expectedVersion, offered, taken);
    OfferShape(run, aid, worker, spec, offeredAt, expiresAt, expectedVersion, offered);
    var next := OfferRows(rows, Some(run), offered, run, taken).value;
    var a := Assignment(aid, worker, spec, Offered, offeredAt, expiresAt, None, None, None);
    RehydrationInverts(id, rows, run);
    AppendKeepsOrder(run.assignments, a);
    RehydrationInverts(id, next, offered);
    assert |run.assignments| > 0 ==>
        offered.assignments[|run.assignments| - 1] == run.assignments[|run.assignments| - 1];
    if !OffersLater(run, aid, offeredAt) && Rehydrate(id, next).Ok? {
      ReloadPutsActiveLast(id, next, offered);
      assert false;
    }
  }

  /** A reload that succeeds has the active assignment last, so every other one
      sorts before it. */
  lemma ReloadPutsActiveLast(id: Id, rows: RunRows, run: Run)
    requires AssignmentInv(id, rows) && ValidRun(run) && Represents(rows, run) && run.id == id
    requires run.state == Assigned
    requires Rehydrate(id, rows).Ok?
    ensures |run.assignments| > 0
    ensures forall i :: 0 <= i < |run.assignments| - 1 ==>
      Less(OfferRank(run.assignments[i]), OfferRank(run.assignments[|run.assignments| - 1]))
  {
    hide ValidRun, AssignmentFromRow, RowInv, AssignmentInv, Rehydrate, ValidAssignment;
    var loaded := Rehydrate(id, rows).value;
    RehydrateRepresents(id, rows);
    CurrentRow(id, rows, run);
    CurrentRow(id, rows, loaded);
    LoadedOrder(id, rows);
    var last := |run.assignments| - 1;
    SameLast(rows.assignments, run, loaded);
    forall i | 0 <= i < last
      ensures Less(OfferRank(run.assignments[i]), OfferRank(run.assignments[last]))
    {
      assert Stored(rows.assignments, run.assignments[i]);
      assert HasId(loaded.assignments, run.assignments[i].id);
      EarlierThanLast(rows.assignments, run.assignments[i], loaded.assignments);
    }
  }

  /** Both Runs end with the one active row. */
  lemma SameLast(rows: map<Id, AssignmentRow>, run: Run, loaded: Run)
    requires |run.assignments| > 0 && |loaded.assignments| > 0
    requires Stored(rows, run.assignments[|run.assignments| - 1])
    requires Stored(rows, loaded.assignments[|loaded.assignments| - 1])
    requires OnlyActive(rows, run.assignments[|run.assignments| - 1].id)
    requires OnlyActive(rows, loaded.assignments[|loaded.assignments| - 1].id)
    ensures run.assignments[|run.assignments| - 1] == loaded.assignments[|loaded.assignments| - 1]
  {
    hide AssignmentFromRow;
  }

  lemma EarlierThanLast(rows: map<Id, AssignmentRow>, a: Assignment, loaded: seq<Assignment>)
    requires InStoredOrder(loaded) && Stored(rows, a) && HasId(loaded, a.id)
    requires forall i :: 0 <= i < |loaded| ==> Stored(rows, loaded[i])
    requires loaded[|loaded| - 1].id != a.id
    ensures Less(OfferRank(a), OfferRank(loaded[|loaded| - 1]))
  {
    hide AssignmentFromRow;
    var j :| 0 <= j < |loaded| && loaded[j].id == a.id;
    assert Stored(rows, loaded[j]);
    var ranks := OfferRankSeq(loaded);
    assert Less(ranks[j], ranks[|loaded| - 1]);
  }

  lemma LoadedOrder(id: Id, rows: RunRows)
    requires Rehydrate(id, rows).Ok?
    requires rows.row.phase == AssignedPhase || rows.row.phase == QueuedPhase
    ensures InStoredOrder(Rehydrate(id, rows).value.assignments)
  {
    hide ValidRun, InStoredOrder, InOfferOrder;
    LoadedInStoredOrder(rows.assignments, DecodeAll(rows.assignments, InOfferOrder(rows.assignments)).value);
  }

  /** Claiming an assignment and reloading gives back the published Run. */
  lemma ClaimThenReload(id: Id, rows: RunRows, run: Run, aid: Id, worker: WorkerRef, observedAt: Time,
                        expectedVersion: nat, claimed: Run)
    requires AssignmentInv(id, rows) && Rehydrate(id, rows) == Ok(run)
    requires Claim(run, aid, worker, observedAt, expectedVersion) == Ok(claimed)
    ensures ClaimRows(rows, Some(run), claimed, run).Ok?
    ensures Rehydrate(id, ClaimRows(rows, Some(run), claimed, run).value) == Ok(claimed)
  {
    RehydrateRepresents(id, rows);
    ClaimPublishes(id, rows, run, aid, worker, observedAt, expectedVersion, claimed);
    CurrentRow(id, rows, run);
    hide ValidHistory, ValidAssignment, AssignmentInv, Represents, InStoredOrder, ClaimRows, Rehydrate, OnlyActive, RowInv, Stored;
    RehydrationInverts(id, rows, run);
    var u := run.CurrentAssignment().value.(state := Claimed, claimedAt := Some(observedAt));
    assert claimed.assignments == ReplaceById(run.assignments, u);
    ReplaceKeepsOrder(run.assignments, u);
    RehydrationInverts(id, ClaimRows(rows, Some(run), claimed, run).value, claimed);
  }

  /** Closing an assignment, or replaying its closure, and reloading gives back
      the published Run with the closures of its whole history. */
  lemma CloseThenReload(id: Id, rows: RunRows, run: Run, closure: Closure, expectedVersion: nat, closed: Run)
    requires AssignmentInv(id, rows) && Rehydrate(id, rows) == Ok(run) && run.state != Running
    requires ClosePrecommit(run, closure, expectedVersion) == Ok(closed)
    ensures CloseRows(rows, Some(run), closed, run).Ok?
    ensures Rehydrate(id, CloseRows(rows, Some(run), closed, run).value) == Ok(closed)
  {
    hide ValidHistory, ValidAssignment, AssignmentInv, Represents, InStoredOrder, CloseRows, Rehydrate, OnlyActive,
         RowInv, Stored, ClosureFromJson;
    RehydrateRepresents(id, rows);
    ClosePublishes(id, rows, run, closure, expectedVersion, closed);
    if closed != run {
      assert run.state == Assigned;
      CurrentRow(id, rows, run);
      RehydrationInverts(id, rows, run);
      var u := run.CurrentAssignment().value.(state := ClosedState(closure.kind), closure := Some(closure));
      assert closed.assignments == ReplaceById(run.assignments, u);
      ReplaceKeepsOrder(run.assignments, u);
      RehydrationInverts(id, CloseRows(rows, Some(run), closed, run).value, closed);
    }
  }

  /** Committing a start and reloading gives back the published Run projected to
      its committed assignment and its attempt. */
  lemma CommitThenReload(id: Id, rows: RunRows, run: Run, aid: Id, worker: WorkerRef, startKey: Id, spec: Digest,
                         attemptId: Id, observedAt: Time, expectedVersion: nat, commit: CommitResult, taken: Taken)
    requires AssignmentInv(id, rows) && Rehydrate(id, rows) == Ok(run)
    requires CommitStart(run, aid, worker, startKey, spec, attemptId, observedAt, expectedVersion) == Ok(commit)
    requires !commit.replayed && attemptId !in taken.attempts && startKey !in taken.startKeys
    ensures CommitRows(rows, Some(run), commit, run, taken).Ok? && |commit.run.assignments| > 0
    ensures Rehydrate(id, CommitRows(rows, Some(run), commit, run, taken).value) == Ok(Projected(commit.run))
  {
    hide ValidHistory, AssignmentInv, Represents, CommitRows, Rehydrate, AttemptRowOf, ValidPointers;
    RehydrateRepresents(id, rows);
    CommitPublishes(id, rows, run, aid, worker, startKey, spec, attemptId, observedAt, expectedVersion, commit, taken);
    RunningReload(id, CommitRows(rows, Some(run), commit, run, taken).value, commit.run);
  }

  // ----- A re-offer that cannot be reloaded -------------------------------

  /** Assignment 2, offered and released by its worker at time 5. */
  function ReleasedAtFive(): Assignment {
    var w := WorkerRef(1, 1);
    Assignment(2, w, Digest(0), ReleasedPrestart, 5, 9, None, None,
               Some(Closure(2, 7, Released, 5, 5, Some(w), None)))
  }

  function RowsAfterRelease(): RunRows {
    var a := ReleasedAtFive();
    var r := AssignmentRow(a.worker, a.spec, a.state, a.offeredAt, a.expiresAt, None, None, None, None, 1,
                           AssignmentPayload(a));
    RunRows(0, {}, Place(0, Seat(0, 0), Digest(0)), RunRow(QueuedPhase, None, None, 0, 0, 3, None), map[2 := r], [], None,
            map[], [])
  }

  function RunAfterRelease(): Run {
    Run(1, Queued, 3, 0, [ReleasedAtFive()], None, [])
  }

  /** Offering assignment 1 at the very instant assignment 2 was offered and
      released is accepted, and leaves rows that no gateway can load again. */
  lemma SameInstantReofferIsStuck()
    ensures Rehydrate(1, RowsAfterRelease()) == Ok(RunAfterRelease())
    ensures var offered := Offer(RunAfterRelease(), 1, WorkerRef(1, 1), Digest(0), 5, 9, 3);
            && offered.Ok?
            && var published := OfferRows(RowsAfterRelease(), Some(RunAfterRelease()), offered.value,
                                          RunAfterRelease(), Taken({}, {}, {}));
               published.Ok? && Rehydrate(1, published.value).Err?
  {
    hide ValidRun, Rehydrate, AssignmentFromRow, Offer, OfferRows;
    ReleasedRowsReload();
    ReofferAccepted();
    OfferThenReload(1, RowsAfterRelease(), RunAfterRelease(), 1, WorkerRef(1, 1), Digest(0), 5, 9, 3,
                    RunAfterReoffer(), Taken({}, {}, {}));
  }

  function RunAfterReoffer(): Run {
    var b := Assignment(1, WorkerRef(1, 1), Digest(0), Offered, 5, 9, None, None, None);
    Run(1, Assigned, 4, 0, [ReleasedAtFive(), b], Some(1), [])
  }

  lemma ReleasedRowsReload()
    ensures Rehydrate(1, RowsAfterRelease()) == Ok(RunAfterRelease())
    ensures AssignmentInv(1, RowsAfterRelease())
  {
    hide Rehydrate, AssignmentFromRow, AssignmentPayload;
    var run := RunAfterRelease();
    ReleasedRowReadsBack();
    assert HasId(run.assignments, 2) by {
      assert run.assignments[0].id == 2;
    }
    RehydrationInverts(1, RowsAfterRelease(), run);
  }

  lemma ReleasedRowReadsBack()
    ensures AssignmentFromRow(2, RowsAfterRelease().assignments[2]) == Ok(ReleasedAtFive())
    ensures Lookup(RowsAfterRelease().assignments[2].payload, OpportunityKindField).None?
  {
    hide AssignmentFromRow;
    AssignmentRowRoundTrip(ReleasedAtFive(), RowsAfterRelease().assignments[2]);
  }

  lemma ReofferAccepted()
    ensures Offer(RunAfterRelease(), 1, WorkerRef(1, 1), Digest(0), 5, 9, 3) == Ok(RunAfterReoffer())
  {
    var run := RunAfterRelease();
    OfferedExampleValid(RunAfterReoffer());
    hide ValidRun;
    assert run.assignments + [RunAfterReoffer().assignments[1]] == RunAfterReoffer().assignments;
  }

  lemma OfferedExampleValid(run: Run)
    requires run == RunAfterReoffer()
    ensures ValidRun(run)
  {
    assert ValidAssignment(run.assignments[0]) && ValidAssignment(run.assignments[1]);
    assert ValidHistory(run);
    CurrentIsLast(run);
  }
}
