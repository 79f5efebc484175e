/** The run table of the store as a queue: the statements that create, start,
    cancel, fail and delete runs, and how many runs an owner has in flight. */
module RunQueue {
  import opened Common
  import opened Ordering

  datatype Status = Queued | Running | Succeeded | Failed | Cancelled

  datatype Row = Row(owner: Id, createdAt: Time, status: Status, worker: Option<Id>)

  type Rows = map<Id, Row>

  predicate InFlight(r: Row) { r.status == Queued || r.status == Running }

  function InFlightOf(rows: Rows, owner: Id): set<Id> {
    set id | id in rows && rows[id].owner == owner && InFlight(rows[id])
  }

  function RankOf(rows: Rows, id: Id): Rank
    requires id in rows
  {
    Rank(rows[id].createdAt, id)
  }

  function Waiting(rows: Rows, locked: set<Id>): set<Id> {
    set id | id in rows && id !in locked && rows[id].status == Queued
  }

  /** ORDER BY created_at, id with SKIP LOCKED and LIMIT 1. */
  predicate IsNext(rows: Rows, locked: set<Id>, id: Id) {
    && id in Waiting(rows, locked)
    && forall other :: other in Waiting(rows, locked) && other != id ==> Less(RankOf(rows, id), RankOf(rows, other))
  }

  function Start(rows: Rows, id: Id): Rows
    requires id in rows
  {
    rows[id := rows[id].(status := Running)]
  }

  function CancelIfInFlight(rows: Rows, id: Id): Rows {
    if id in rows && InFlight(rows[id]) then rows[id := rows[id].(status := Cancelled)] else rows
  }

  predicate Interrupted(r: Row, worker: Option<Id>) {
    r.status == Running && (worker.Some? ==> r.worker == worker)
  }

  function MarkInterrupted(rows: Rows, worker: Option<Id>): (r: Rows)
    ensures r.Keys == rows.Keys
    ensures forall id :: id in rows ==>
      r[id] == if Interrupted(rows[id], worker) then rows[id].(status := Failed) else rows[id]
  {
    map id | id in rows :: if Interrupted(rows[id], worker) then rows[id].(status := Failed) else rows[id]
  }

  /** The execution's own last write. */
  function Finish(rows: Rows, id: Id, ok: bool): Rows {
    if id in rows then rows[id := rows[id].(status := if ok then Succeeded else Failed)] else rows
  }

  lemma NextExists(rows: Rows, locked: set<Id>)
    requires Waiting(rows, locked) != {}
    ensures exists id :: IsNext(rows, locked, id)
  {
    var ranks := set id | id in Waiting(rows, locked) :: RankOf(rows, id);
    var some :| some in Waiting(rows, locked);
    assert RankOf(rows, some) in ranks;
    LeastExists(ranks);
    var least :| IsLeast(least, ranks);
    var id :| id in Waiting(rows, locked) && RankOf(rows, id) == least;
    assert IsNext(rows, locked, id) by {
      forall other | other in Waiting(rows, locked) && other != id
        ensures Less(RankOf(rows, id), RankOf(rows, other))
      {
        assert RankOf(rows, other) in ranks;
      }
    }
  }

  class Store {
    var rows: Rows

    constructor ()
      ensures rows == map[]
    {
      rows := map[];
    }

    /** The one queued, unlocked run that comes first, if any, becomes running. */
    method DequeueNextQueued(locked: set<Id>) returns (next: Option<Id>)
      modifies this
      ensures next.None? <==> Waiting(old(rows), locked) == {}
      ensures next.None? ==> rows == old(rows)
      ensures next.Some? ==> IsNext(old(rows), locked, next.value) && rows == Start(old(rows), next.value)
    {
      if Waiting(rows, locked) == {} {
        return None;
      }
      NextExists(rows, locked);
      var id :| id in rows && IsNext(rows, locked, id);
      rows := rows[id := rows[id].(status := Running)];
      next := Some(id);
    }

    method CancelIfInflight(id: Id) returns (cancelled: bool)
      modifies this
      ensures rows == CancelIfInFlight(old(rows), id)
      ensures cancelled <==> id in old(rows) && InFlight(old(rows)[id])
    {
      cancelled := id in rows && InFlight(rows[id]);
      if cancelled {
        rows := rows[id := rows[id].(status := Cancelled)];
      }
    }

    /** No owner gains a run in flight; exactly the interrupted ones are lost, and
        the runs still waiting wait in the same order. */
    method MarkInterruptedRuns(worker: Option<Id>) returns (count: nat)
      modifies this
      ensures rows == MarkInterrupted(old(rows), worker)
      ensures count == |set id | id in old(rows) && Interrupted(old(rows)[id], worker)|
      ensures forall owner ::
        InFlightOf(rows, owner) == (set id | id in InFlightOf(old(rows), owner) && !Interrupted(old(rows)[id], worker))
      ensures worker.None? ==> forall id :: id in rows ==> rows[id].status != Running
      ensures forall locked, id :: IsNext(rows, locked, id) <==> IsNext(old(rows), locked, id)
    {
      count := |set id | id in rows && Interrupted(rows[id], worker)|;
      ghost var before := rows;
      rows := MarkInterrupted(rows, worker);
      InterruptKeepsOrder(before, worker);
    }

    /** At most the deleted run leaves the queue; the others keep their order. */
    method DeleteRun(id: Id) returns (deleted: bool)
      modifies this
      ensures rows == old(rows) - {id} && (deleted <==> id in old(rows))
      ensures forall owner :: InFlightOf(rows, owner) == InFlightOf(old(rows), owner) - {id}
      ensures forall locked, next :: next != id && IsNext(old(rows), locked, next) ==> IsNext(rows, locked, next)
    {
      deleted := id in rows;
      ghost var before := rows;
      rows := rows - {id};
      DeleteKeepsOrder(before, id);
    }

    /** With the owner's lock held and no other writer: count, refuse at the limit,
        save. The cap is kept, and no other owner gains a run. */
    method CreateIfBelowInflightLimit(id: Id, run: Row, limit: nat) returns (created: bool)
      modifies this
      ensures created <==> |InFlightOf(old(rows), run.owner)| < limit
      ensures rows == if created then old(rows)[id := run] else old(rows)
      ensures created ==> |InFlightOf(rows, run.owner)| <= limit
      ensures created && InFlight(run) ==> id in InFlightOf(rows, run.owner)
      ensures forall owner :: InFlightOf(rows, owner) <= InFlightOf(old(rows), owner) + (if owner == run.owner then {id} else {})
    {
      var count := |InFlightOf(rows, run.owner)|;
      created := count < limit;
      if created {
        ghost var before := InFlightOf(rows, run.owner);
        rows := rows[id := run];
        SubsetIsSmaller(InFlightOf(rows, run.owner), before + {id});
      }
    }
  }

  lemma DeleteKeepsOrder(rows: Rows, id: Id)
    ensures forall locked, next :: next != id && IsNext(rows, locked, next) ==> IsNext(rows - {id}, locked, next)
  {
    forall locked, next | next != id && IsNext(rows, locked, next)
      ensures IsNext(rows - {id}, locked, next)
    {
      assert Waiting(rows - {id}, locked) == Waiting(rows, locked) - {id};
    }
  }

  lemma InterruptKeepsOrder(rows: Rows, worker: Option<Id>)
    ensures forall locked, id :: IsNext(MarkInterrupted(rows, worker), locked, id) <==> IsNext(rows, locked, id)
  {
    var after := MarkInterrupted(rows, worker);
    forall locked
      ensures Waiting(after, locked) == Waiting(rows, locked)
    {
    }
    forall locked, id
      ensures IsNext(after, locked, id) <==> IsNext(rows, locked, id)
    {
      assert Waiting(after, locked) == Waiting(rows, locked);
    }
  }
}
