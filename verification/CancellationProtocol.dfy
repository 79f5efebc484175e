/** Cancellation, closure and rejection transactions over whole runs: at most one
    intent, a closure only at the version right after it, and never both a
    closure and a rejection. Batches move on by ordinary transitions in between. */
module CancellationProtocol {
  import opened Common
  import opened BatchTables
  import opened Preexecution

  datatype Loaded = Loaded(from: Rows, batch: Batch)

  /** A transaction holding the lock of one Batch. */
  datatype Tx = Tx(batchId: Id, candidate: Candidate, base: Rows, view: Rows, loaded: Option<Loaded>)

  datatype Sys = Sys(rows: map<Id, Rows>, txs: map<Id, Tx>)

  datatype Step =
    | Lock(t: Id, b: Id, a: Candidate, caller: Caller)
    | Load(t: Id)
    | Cancel(t: Id, i: Intent)
    | Close(t: Id, proof: Proof)
    | RejectBatch(t: Id, r: Rejection, proof: Proof)
    | HandOff(t: Id, runSet: Digest, h: Handoff)
    | CommitTx(t: Id)
    | Rollback(t: Id)
    | Advance(b: Id, target: BatchState)
    | BumpEpoch(b: Id, epoch: nat)

  predicate Locked(sys: Sys, b: Id) {
    exists t :: t in sys.txs && sys.txs[t].batchId == b
  }

  /** One publication: the domain result of the loaded Batch, then its rows. */
  function Publish(tx: Tx, step: Step): Result<Rows> {
    if tx.loaded.None? then Err(PortContract)
    else
      var snapshot := tx.loaded.value.batch;
      match step
      case Cancel(_, i) =>
        var batch :- RequestCancel(snapshot, i, snapshot.version);
        CancelRows(tx.view, tx.candidate, snapshot, batch, i)
      case Close(_, proof) =>
        var batch :- FinalizeCancel(snapshot, proof, snapshot.version);
        CloseRows(tx.view, tx.candidate, snapshot, batch)
      case RejectBatch(_, r, proof) =>
        var batch :- Reject(snapshot, r, proof, snapshot.version);
        RejectRows(tx.view, tx.candidate, snapshot, batch, r)
      case HandOff(_, runSet, h) =>
        var published :- HandoffRows(tx.view, tx.candidate, tx.batchId, snapshot, runSet, h);
        Ok(published.0)
      case _ => Err(PortContract)
  }

  function Next(sys: Sys, step: Step): Sys {
    match step
    case Lock(t, b, a, caller) =>
      if t !in sys.txs && b in sys.rows && !Locked(sys, b) && Authorize(b, sys.rows[b], a, caller).Ok? then
        sys.(txs := sys.txs[t := Tx(b, a, sys.rows[b], sys.rows[b], None)])
      else sys
    case Load(t) =>
      if t in sys.txs then
        var tx := sys.txs[t];
        var batch := LoadBatch(tx.batchId, tx.view);
        if batch.Ok? then sys.(txs := sys.txs[t := tx.(loaded := Some(Loaded(tx.view, batch.value)))])
        else sys.(txs := sys.txs - {t})
      else sys
    case CommitTx(t) =>
      if t in sys.txs then Sys(sys.rows[sys.txs[t].batchId := sys.txs[t].view], sys.txs - {t}) else sys
    case Rollback(t) => sys.(txs := sys.txs - {t})
    case Advance(b, target) =>
      if b in sys.rows && !Locked(sys, b) && LoadBatch(b, sys.rows[b]).Ok?
         && Transition(LoadBatch(b, sys.rows[b]).value, target).Ok? then
        sys.(rows := sys.rows[b := sys.rows[b].(state := target, version := sys.rows[b].version + 1)])
      else sys
    case BumpEpoch(b, epoch) =>
      if b in sys.rows && !Locked(sys, b) then sys.(rows := sys.rows[b := sys.rows[b].(writeEpoch := epoch)])
      else sys
    case _ =>
      if step.t in sys.txs then
        var tx := sys.txs[step.t];
        var view := Publish(tx, step);
        if view.Ok? then sys.(txs := sys.txs[step.t := tx.(view := view.value)])
        else sys.(txs := sys.txs - {step.t})
      else sys
  }

  function After(sys: Sys, steps: seq<Step>): Sys {
    if |steps| == 0 then sys else Next(After(sys, steps[..|steps| - 1]), steps[|steps| - 1])
  }

  // ----- Invariant ---------------------------------------------------------

  /** Rows that load into a valid Batch, whose stored handoffs can be rebuilt. */
  predicate RowsInv(id: Id, rows: Rows) {
    && LoadBatch(id, rows).Ok?
    && (forall h :: h in rows.handoffs ==> RebuildHandoff(PayloadOf(h), LoadBatch(id, rows).value.intent) == Ok(h))
    && (forall h, k :: h in rows.handoffs && k in rows.handoffs && h.trigger == k.trigger ==> h == k)
  }

  /** How the rows of a Batch may differ later. */
  predicate Later(a: Rows, b: Rows) {
    && a.version <= b.version
    && (a.version == b.version ==>
          b.state == a.state && b.intents == a.intents && b.rejections == a.rejections && b.basis == a.basis)
    && (a.basis.Some? ==> b.version == a.version)
    && (a.intents != [] ==>
          && b.intents == a.intents
          && (b.version == a.version || (b.version == a.version + 1 && b.basis.Some? && b.basis.value.command.ByIntent?)))
    && (forall h :: h in a.handoffs ==> h in b.handoffs)
  }

  predicate TxInv(rows: map<Id, Rows>, tx: Tx) {
    && tx.batchId in rows && rows[tx.batchId] == tx.base
    && RowsInv(tx.batchId, tx.view) && Later(tx.base, tx.view)
    && (tx.loaded.Some? ==>
          && LoadBatch(tx.batchId, tx.loaded.value.from) == Ok(tx.loaded.value.batch)
          && Later(tx.loaded.value.from, tx.view))
  }

  predicate SysInv(sys: Sys) {
    && (forall b :: b in sys.rows ==> RowsInv(b, sys.rows[b]))
    && (forall t :: t in sys.txs ==> TxInv(sys.rows, sys.txs[t]))
    && (forall t, u :: t in sys.txs && u in sys.txs && t != u ==> sys.txs[t].batchId != sys.txs[u].batchId)
  }

  // ----- Publications ------------------------------------------------------

  /** When the version guard passes, the loaded Batch is the current one. */
  lemma SnapshotIsCurrent(tx: Tx)
    requires tx.loaded.Some? && tx.view.version == tx.loaded.value.batch.version
    requires LoadBatch(tx.batchId, tx.loaded.value.from) == Ok(tx.loaded.value.batch)
    requires Later(tx.loaded.value.from, tx.view)
    ensures LoadBatch(tx.batchId, tx.view) == Ok(tx.loaded.value.batch)
  {
    hide ValidBatch;
  }

  lemma PublishCancelKeeps(rows: map<Id, Rows>, tx: Tx, t: Id, i: Intent)
    requires TxInv(rows, tx) && Publish(tx, Cancel(t, i)).Ok?
    ensures var after := Publish(tx, Cancel(t, i)).value;
            && RowsInv(tx.batchId, after) && Later(tx.view, after)
            && tx.view.intents == [] && after.intents == [i] && i.sourceVersion + 1 == after.version
  {
    hide RebuildHandoff, PayloadOf;
    SnapshotIsCurrent(tx);
    var after := Publish(tx, Cancel(t, i)).value;
    var batch := RequestCancel(tx.loaded.value.batch, i, tx.loaded.value.batch.version).value;
    assert batch != tx.loaded.value.batch;
    assert after.intents == [i];
    assert LoadBatch(tx.batchId, after) == Ok(batch);
    forall h | h in after.handoffs
      ensures RebuildHandoff(PayloadOf(h), Some(i)) == Ok(h)
    {
      RebuiltWithoutIntent(h, Some(i));
    }
  }

  /** A handoff that rebuilds without any intent does not depend on one. */
  lemma RebuiltWithoutIntent(h: Handoff, intent: Option<Intent>)
    requires RebuildHandoff(PayloadOf(h), None) == Ok(h)
    ensures RebuildHandoff(PayloadOf(h), intent) == Ok(h)
  {
  }

  lemma PublishCloseKeeps(rows: map<Id, Rows>, tx: Tx, t: Id, proof: Proof)
    requires TxInv(rows, tx) && Publish(tx, Close(t, proof)).Ok?
    ensures var after := Publish(tx, Close(t, proof)).value;
            && RowsInv(tx.batchId, after) && Later(tx.view, after)
            && |tx.view.intents| == 1 && after.version == tx.view.intents[0].sourceVersion + 2
            && after.state == CancelledBatch && after.basis.Some? && after.basis.value.command.ByIntent?
  {
    hide RebuildHandoff, PayloadOf;
    SnapshotIsCurrent(tx);
    var after := Publish(tx, Close(t, proof)).value;
    var batch := FinalizeCancel(tx.loaded.value.batch, proof, tx.loaded.value.batch.version).value;
    assert LoadBatch(tx.batchId, after) == Ok(batch);
  }

  lemma PublishRejectKeeps(rows: map<Id, Rows>, tx: Tx, t: Id, r: Rejection, proof: Proof)
    requires TxInv(rows, tx) && Publish(tx, RejectBatch(t, r, proof)).Ok?
    ensures var after := Publish(tx, RejectBatch(t, r, proof)).value;
            && RowsInv(tx.batchId, after) && Later(tx.view, after)
            && tx.view.intents == [] && after.rejections == [r] && after.state == RejectedBatch
  {
    hide RebuildHandoff, PayloadOf, Reject, ValidBatch;
    SnapshotIsCurrent(tx);
    var snapshot := tx.loaded.value.batch;
    var after := Publish(tx, RejectBatch(t, r, proof)).value;
    var batch := Reject(snapshot, r, proof, snapshot.version).value;
    LoadedIsValid(tx.batchId, tx.view);
    RejectShape(snapshot, r, proof);
    assert after.rejections == [r];
    assert LoadBatch(tx.batchId, after) == Ok(batch);
  }

  lemma LoadedIsValid(id: Id, rows: Rows)
    requires LoadBatch(id, rows).Ok?
    ensures ValidBatch(LoadBatch(id, rows).value)
  {
  }

  /** A rejection of a Batch that has no terminal basis yet. */
  lemma RejectShape(b: Batch, r: Rejection, proof: Proof)
    requires ValidBatch(b) && b.basis.None? && Reject(b, r, proof, b.version).Ok?
    ensures b.intent.None? && b.rejection.None? && r.sourceVersion == b.version
    ensures Reject(b, r, proof, b.version).value
            == b.(state := RejectedBatch, version := b.version + 1, rejection := Some(r),
                  basis := Some(Basis(b.version, b.state, ByRejection(r), proof, RejectedBatch)))
    ensures ValidBatch(Reject(b, r, proof, b.version).value)
  {
  }

  lemma PublishHandoffKeeps(rows: map<Id, Rows>, tx: Tx, t: Id, runSet: Digest, h: Handoff)
    requires TxInv(rows, tx) && Publish(tx, HandOff(t, runSet, h)).Ok?
    ensures var after := Publish(tx, HandOff(t, runSet, h)).value;
            && RowsInv(tx.batchId, after) && Later(tx.view, after) && h in after.handoffs
            && after == tx.view.(handoffs := after.handoffs)
            && (after.handoffs == tx.view.handoffs || after.handoffs == tx.view.handoffs + [h])
  {
    var after := Publish(tx, HandOff(t, runSet, h)).value;
    if after != tx.view {
      assert after == tx.view.(handoffs := tx.view.handoffs + [h]);
      LoadIgnoresHandoffs(tx.batchId, tx.view, after);
      IntentStays(tx);
      assert RebuildHandoff(PayloadOf(h), LoadBatch(tx.batchId, after).value.intent) == Ok(h);
      hide RebuildHandoff, PayloadOf, LoadBatch;
    }
  }

  lemma LoadIgnoresHandoffs(id: Id, a: Rows, b: Rows)
    requires b == a.(handoffs := b.handoffs)
    ensures LoadBatch(id, a) == LoadBatch(id, b)
  {
  }

  /** An intent in the loaded Batch is still the Batch's intent. */
  lemma IntentStays(tx: Tx)
    requires tx.loaded.Some? && LoadBatch(tx.batchId, tx.loaded.value.from) == Ok(tx.loaded.value.batch)
    requires Later(tx.loaded.value.from, tx.view) && LoadBatch(tx.batchId, tx.view).Ok?
    ensures tx.loaded.value.batch.intent.Some? ==>
      LoadBatch(tx.batchId, tx.view).value.intent == tx.loaded.value.batch.intent
  {
    hide ValidBatch;
  }

  lemma PublishKeeps(rows: map<Id, Rows>, tx: Tx, step: Step)
    requires TxInv(rows, tx) && Publish(tx, step).Ok?
    ensures TxInv(rows, tx.(view := Publish(tx, step).value))
  {
    hide RowsInv, Later, CancelRows, CloseRows, RejectRows, HandoffRows, RequestCancel, FinalizeCancel, Reject, LoadBatch;
    match step {
      case Cancel(t, i) => PublishCancelKeeps(rows, tx, t, i);
      case Close(t, proof) => PublishCloseKeeps(rows, tx, t, proof);
      case RejectBatch(t, r, proof) => PublishRejectKeeps(rows, tx, t, r, proof);
      case HandOff(t, runSet, h) => PublishHandoffKeeps(rows, tx, t, runSet, h);
      case _ =>
    }
    StillLater(rows, tx, Publish(tx, step).value);
  }

  lemma StillLater(rows: map<Id, Rows>, tx: Tx, after: Rows)
    requires TxInv(rows, tx) && RowsInv(tx.batchId, after) && Later(tx.view, after)
    ensures TxInv(rows, tx.(view := after))
  {
    LaterStep(tx.batchId, tx.base, tx.view, after);
    if tx.loaded.Some? {
      LaterStep(tx.batchId, tx.loaded.value.from, tx.view, after);
    }
    hide RowsInv, Later, LoadBatch;
  }

  lemma LaterStep(id: Id, a: Rows, b: Rows, c: Rows)
    requires LoadBatch(id, b).Ok? && LoadBatch(id, c).Ok? && Later(a, b) && Later(b, c)
    ensures Later(a, c)
  {
  }

  // ----- Whole runs --------------------------------------------------------

  lemma TransitionKeeps(id: Id, rows: Rows, target: BatchState)
    requires RowsInv(id, rows) && Transition(LoadBatch(id, rows).value, target).Ok?
    ensures RowsInv(id, rows.(state := target, version := rows.version + 1))
    ensures Later(rows, rows.(state := target, version := rows.version + 1))
  {
    hide RebuildHandoff, PayloadOf;
    var after := rows.(state := target, version := rows.version + 1);
    assert LoadBatch(id, after) == Transition(LoadBatch(id, rows).value, target);
  }

  predicate AllLater(a: map<Id, Rows>, b: map<Id, Rows>) {
    forall x :: x in a ==> x in b && Later(a[x], b[x])
  }

  /** Installing or dropping one transaction's own state. */
  lemma PutKeeps(sys: Sys, t: Id, tx: Tx)
    requires SysInv(sys) && TxInv(sys.rows, tx)
    requires forall u :: u in sys.txs && u != t ==> sys.txs[u].batchId != tx.batchId
    ensures SysInv(sys.(txs := sys.txs[t := tx]))
  {
    hide RowsInv, TxInv;
  }

  lemma DropKeeps(sys: Sys, t: Id)
    requires SysInv(sys)
    ensures SysInv(sys.(txs := sys.txs - {t}))
  {
    hide RowsInv, TxInv;
  }

  /** Moving the rows of an unlocked Batch on. */
  lemma RowsKeep(sys: Sys, b: Id, after: Rows)
    requires SysInv(sys) && b in sys.rows && !Locked(sys, b)
    requires RowsInv(b, after) && Later(sys.rows[b], after)
    ensures SysInv(sys.(rows := sys.rows[b := after]))
    ensures AllLater(sys.rows, sys.rows[b := after])
  {
    hide RowsInv, LoadBatch;
    forall t | t in sys.txs
      ensures TxInv(sys.rows[b := after], sys.txs[t])
    {
      assert TxInv(sys.rows, sys.txs[t]) && sys.txs[t].batchId != b;
    }
  }

  lemma SameRowsLater(sys: Sys)
    ensures AllLater(sys.rows, sys.rows)
  {
  }

  lemma LockKeeps(sys: Sys, t: Id, b: Id, a: Candidate, caller: Caller)
    requires SysInv(sys)
    ensures SysInv(Next(sys, Lock(t, b, a, caller)))
  {
    if t !in sys.txs && b in sys.rows && !Locked(sys, b) {
      assert RowsInv(b, sys.rows[b]);
      hide RowsInv, Authorize;
      PutKeeps(sys, t, Tx(b, a, sys.rows[b], sys.rows[b], None));
    }
  }

  lemma LoadKeeps(sys: Sys, t: Id)
    requires SysInv(sys)
    ensures SysInv(Next(sys, Load(t)))
  {
    if t in sys.txs {
      var tx := sys.txs[t];
      assert TxInv(sys.rows, tx);
      hide RowsInv, LoadBatch;
      var batch := LoadBatch(tx.batchId, tx.view);
      DropKeeps(sys, t);
      if batch.Ok? {
        PutKeeps(sys, t, tx.(loaded := Some(Loaded(tx.view, batch.value))));
      }
    }
  }

  lemma CommitKeeps(sys: Sys, t: Id)
    requires SysInv(sys)
    ensures SysInv(Next(sys, CommitTx(t))) && AllLater(sys.rows, Next(sys, CommitTx(t)).rows)
  {
    hide RowsInv, LoadBatch, Later, Publish, Transition, Authorize, AllLater;
    SameRowsLater(sys);
    if t in sys.txs {
      var tx := sys.txs[t];
      assert TxInv(sys.rows, tx);
      DropKeeps(sys, t);
      RowsKeep(sys.(txs := sys.txs - {t}), tx.batchId, tx.view);
    }
  }

  lemma PublicationKeeps(sys: Sys, step: Step)
    requires SysInv(sys) && (step.Cancel? || step.Close? || step.RejectBatch? || step.HandOff?)
    ensures SysInv(Next(sys, step))
  {
    if step.t in sys.txs {
      var tx := sys.txs[step.t];
      hide RowsInv, Publish, TxInv;
      DropKeeps(sys, step.t);
      if Publish(tx, step).Ok? {
        PublishKeeps(sys.rows, tx, step);
        PutKeeps(sys, step.t, tx.(view := Publish(tx, step).value));
      }
    }
  }

  lemma AdvanceKeeps(sys: Sys, b: Id, target: BatchState)
    requires SysInv(sys)
    ensures SysInv(Next(sys, Advance(b, target))) && AllLater(sys.rows, Next(sys, Advance(b, target)).rows)
  {
    hide RowsInv, LoadBatch, Later, TxInv, Transition;
    SameRowsLater(sys);
    if b in sys.rows && !Locked(sys, b) && LoadBatch(b, sys.rows[b]).Ok?
       && Transition(LoadBatch(b, sys.rows[b]).value, target).Ok?
    {
      TransitionKeeps(b, sys.rows[b], target);
      RowsKeep(sys, b, sys.rows[b].(state := target, version := sys.rows[b].version + 1));
    }
  }

  lemma EpochKeeps(b: Id, rows: Rows, epoch: nat)
    requires RowsInv(b, rows)
    ensures RowsInv(b, rows.(writeEpoch := epoch)) && Later(rows, rows.(writeEpoch := epoch))
  {
    hide RebuildHandoff, LoadBatch;
    EpochIgnored(b, rows, epoch);
  }

  lemma BumpKeeps(sys: Sys, b: Id, epoch: nat)
    requires SysInv(sys)
    ensures SysInv(Next(sys, BumpEpoch(b, epoch))) && AllLater(sys.rows, Next(sys, BumpEpoch(b, epoch)).rows)
  {
    hide RowsInv, LoadBatch, Later, TxInv;
    SameRowsLater(sys);
    if b in sys.rows && !Locked(sys, b) {
      EpochKeeps(b, sys.rows[b], epoch);
      RowsKeep(sys, b, sys.rows[b].(writeEpoch := epoch));
    }
  }

  /** Every step keeps the invariant and moves every Batch forward only. */
  lemma NextKeepsInv(sys: Sys, step: Step)
    requires SysInv(sys)
    ensures SysInv(Next(sys, step)) && AllLater(sys.rows, Next(sys, step).rows)
  {
    hide SysInv, AllLater, Publish, LoadBatch, Transition, Authorize;
    SameRowsLater(sys);
    match step
    case Lock(t, b, a, caller) => LockKeeps(sys, t, b, a, caller);
    case Load(t) => LoadKeeps(sys, t);
    case CommitTx(t) => CommitKeeps(sys, t);
    case Rollback(t) => DropKeeps(sys, t);
    case Advance(b, target) => AdvanceKeeps(sys, b, target);
    case BumpEpoch(b, epoch) => BumpKeeps(sys, b, epoch);
    case _ => PublicationKeeps(sys, step);
  }

  lemma {:induction false} RowsOnlyMoveOn(sys: Sys, steps: seq<Step>)
    requires SysInv(sys)
    ensures SysInv(After(sys, steps)) && AllLater(sys.rows, After(sys, steps).rows)
  {
    SameRowsLater(sys);
    if |steps| > 0 {
      hide Next;
      var front := steps[..|steps| - 1];
      RowsOnlyMoveOn(sys, front);
      NextKeepsInv(After(sys, front), steps[|steps| - 1]);
      AllLaterStep(sys, After(sys, front), After(sys, steps));
    }
  }

  lemma AllLaterStep(a: Sys, b: Sys, c: Sys)
    requires SysInv(a) && SysInv(b) && SysInv(c) && AllLater(a.rows, b.rows) && AllLater(b.rows, c.rows)
    ensures AllLater(a.rows, c.rows)
  {
    forall x | x in a.rows
      ensures Later(a.rows[x], c.rows[x])
    {
      assert RowsInv(x, b.rows[x]) && RowsInv(x, c.rows[x]);
      hide RowsInv, TxInv;
      LaterStep(x, a.rows[x], b.rows[x], c.rows[x]);
    }
  }

  /** The two ways to end before execution. */
  predicate ClosedByIntent(rows: Rows) { rows.basis.Some? && rows.basis.value.command.ByIntent? }

  predicate ClosedByRejection(rows: Rows) { rows.basis.Some? && rows.basis.value.command.ByRejection? }

  /** From a recorded intent on, over any run: the intent stays, nothing but its
      closure changes state or version, the closure's source is the version right
      after the intent's, and once there it is final. */
  lemma OnlyTheClosureFollowsAnIntent(sys: Sys, steps: seq<Step>, b: Id)
    requires SysInv(sys) && b in sys.rows && sys.rows[b].intents != [] && sys.rows[b].basis.None?
    ensures b in After(sys, steps).rows
    ensures var rows, i := After(sys, steps).rows[b], sys.rows[b].intents[0];
            && rows.intents == [i]
            && (|| (rows.basis.None? && rows.version == i.sourceVersion + 1 && rows.state == sys.rows[b].state)
                || (ClosedByIntent(rows) && rows.basis.value.sourceVersion == i.sourceVersion + 1
                    && rows.version == i.sourceVersion + 2 && rows.state == CancelledBatch))
  {
    RowsOnlyMoveOn(sys, steps);
    assert RowsInv(b, sys.rows[b]) && RowsInv(b, After(sys, steps).rows[b]);
    assert Later(sys.rows[b], After(sys, steps).rows[b]);
    hide After, RebuildHandoff, TxInv;
    ClosedIsCancelled(b, sys.rows[b]);
    ClosedIsCancelled(b, After(sys, steps).rows[b]);
    hide LoadBatch;
  }

  lemma ClosedIsCancelled(b: Id, rows: Rows)
    requires LoadBatch(b, rows).Ok?
    ensures ClosedByIntent(rows) ==> rows.state == CancelledBatch && rows.basis.value.sourceVersion + 1 == rows.version
    ensures rows.basis.Some? && |rows.intents| == 1 ==> ClosedByIntent(rows)
    ensures |rows.intents| == 1 && rows.basis.None? ==> rows.intents[0].sourceVersion + 1 == rows.version
    ensures |rows.intents| == 1 && rows.basis.Some? ==>
      rows.intents[0].sourceVersion + 1 == rows.basis.value.sourceVersion
  {
  }

  /** A terminal basis is written at most once per Batch, with at most one intent
      and one rejection, and never both: whichever ends the Batch excludes the
      other for ever. */
  lemma ClosureAndRejectionExclude(sys: Sys, steps: seq<Step>, b: Id)
    requires SysInv(sys) && b in sys.rows
    ensures b in After(sys, steps).rows
    ensures var rows := After(sys, steps).rows[b];
            && |rows.intents| <= 1 && |rows.rejections| <= 1
            && (ClosedByIntent(rows) ==> |rows.intents| == 1 && rows.rejections == [])
            && (ClosedByRejection(rows) ==> |rows.rejections| == 1 && rows.intents == [])
            && (rows.basis.None? ==> rows.rejections == [])
    ensures sys.rows[b].basis.Some? ==>
      After(sys, steps).rows[b].basis == sys.rows[b].basis && After(sys, steps).rows[b].state == sys.rows[b].state
  {
    RowsOnlyMoveOn(sys, steps);
    assert RowsInv(b, After(sys, steps).rows[b]);
    assert Later(sys.rows[b], After(sys, steps).rows[b]);
    hide After, RebuildHandoff, TxInv;
  }

  /** Every stored handoff can be rebuilt from its payload and the Batch's intent,
      in every reachable state, and there is one per trigger. */
  lemma StoredHandoffsRebuild(sys: Sys, steps: seq<Step>, b: Id, h: Handoff)
    requires SysInv(sys) && b in sys.rows && h in sys.rows[b].handoffs
    ensures b in After(sys, steps).rows && h in After(sys, steps).rows[b].handoffs
    ensures LoadBatch(b, After(sys, steps).rows[b]).Ok?
    ensures RebuildHandoff(PayloadOf(h), LoadBatch(b, After(sys, steps).rows[b]).value.intent) == Ok(h)
    ensures forall k :: k in After(sys, steps).rows[b].handoffs && k.trigger == h.trigger ==> k == h
  {
    RowsOnlyMoveOn(sys, steps);
    assert RowsInv(b, After(sys, steps).rows[b]);
    assert Later(sys.rows[b], After(sys, steps).rows[b]);
    hide After, RebuildHandoff, PayloadOf, LoadBatch, TxInv;
  }

  lemma EpochIgnored(b: Id, rows: Rows, epoch: nat)
    ensures LoadBatch(b, rows.(writeEpoch := epoch)) == LoadBatch(b, rows)
  {
  }
}
