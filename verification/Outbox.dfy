/** The outbox table under any number of publishers that claim, deliver, record
    and crash, and a repair scan that returns stuck leases. Rows are identified
    by their position; rows are appended and never removed. */
module Outbox {
  import opened Common

  datatype Status = Pending | Leased | Published | Quarantined

  datatype Row = Row(status: Status, attempts: nat, availableAt: Time, leasedAt: Option<Time>)

  /** What a publisher keeps of a claimed row: its id and the attempts it had. */
  datatype Claim = Claim(id: nat, attempts: nat)

  /** The next claim to handle, and how its delivery went, once it happened. */
  datatype Worker = Worker(claims: seq<Claim>, outcome: Option<bool>)

  datatype Sys = Sys(rows: seq<Row>, workers: map<Id, Worker>, delivered: set<nat>)

  datatype Config = Config(maxAttempts: nat, backoff: nat)

  datatype Step =
    | ClaimBatch(w: Id, ids: seq<nat>, limit: nat, now: Time)
    | Deliver(w: Id, ok: bool)
    | Record(w: Id, now: Time)
    | Crash(w: Id)
    | Repair(timeout: nat, now: Time)
    | Append(now: Time)

  predicate Claimable(rows: seq<Row>, id: nat, now: Time) {
    id < |rows| && rows[id].status == Pending && rows[id].availableAt <= now
  }

  /** The claim statement may take any claimable rows, each once, up to the limit:
      rows locked by a concurrent claim are skipped. */
  predicate MayClaim(rows: seq<Row>, ids: seq<nat>, limit: nat, now: Time) {
    && |ids| <= limit
    && (forall i :: 0 <= i < |ids| ==> Claimable(rows, ids[i], now))
    && (forall i, j :: 0 <= i < j < |ids| ==> ids[i] != ids[j])
  }

  function Lease(rows: seq<Row>, ids: seq<nat>, now: Time): (r: seq<Row>)
    ensures |r| == |rows|
    ensures forall k :: 0 <= k < |rows| ==>
      r[k] == if k in ids then rows[k].(status := Leased, leasedAt := Some(now)) else rows[k]
  {
    seq(|rows|, k requires 0 <= k < |rows| =>
      if k in ids then rows[k].(status := Leased, leasedAt := Some(now)) else rows[k])
  }

  function ClaimsOf(rows: seq<Row>, ids: seq<nat>): (claims: seq<Claim>)
    requires forall i :: 0 <= i < |ids| ==> ids[i] < |rows|
    ensures |claims| == |ids|
    ensures forall i :: 0 <= i < |ids| ==> claims[i] == Claim(ids[i], rows[ids[i]].attempts)
  {
    seq(|ids|, i requires 0 <= i < |ids| => Claim(ids[i], rows[ids[i]].attempts))
  }

  /** UPDATE ... WHERE id AND status = 'leased'. */
  function RecordSuccess(rows: seq<Row>, c: Claim): seq<Row> {
    if c.id < |rows| && rows[c.id].status == Leased then rows[c.id := rows[c.id].(status := Published)] else rows
  }

  /** The attempt count written is the captured one plus one. */
  function RecordFailure(cfg: Config, rows: seq<Row>, c: Claim, now: Time): seq<Row> {
    if c.id < |rows| && rows[c.id].status == Leased then
      if c.attempts + 1 >= cfg.maxAttempts then
        rows[c.id := rows[c.id].(status := Quarantined, attempts := c.attempts + 1)]
      else
        rows[c.id := rows[c.id].(status := Pending, attempts := c.attempts + 1, availableAt := now + cfg.backoff)]
    else rows
  }

  predicate Stuck(r: Row, timeout: nat, now: Time) {
    r.status == Leased && r.leasedAt.Some? && r.leasedAt.value < now - timeout
  }

  function Repaired(rows: seq<Row>, timeout: nat, now: Time): (r: seq<Row>)
    ensures |r| == |rows|
    ensures forall k :: 0 <= k < |rows| ==>
      r[k] == if Stuck(rows[k], timeout, now) then rows[k].(status := Pending, availableAt := now) else rows[k]
  {
    seq(|rows|, k requires 0 <= k < |rows| =>
      if Stuck(rows[k], timeout, now) then rows[k].(status := Pending, availableAt := now) else rows[k])
  }

  function Next(cfg: Config, sys: Sys, step: Step): Sys {
    match step
    case ClaimBatch(w, ids, limit, now) =>
      if w !in sys.workers && MayClaim(sys.rows, ids, limit, now) then
        Sys(Lease(sys.rows, ids, now), sys.workers[w := Worker(ClaimsOf(sys.rows, ids), None)], sys.delivered)
      else sys
    case Deliver(w, ok) =>
      if w in sys.workers && |sys.workers[w].claims| > 0 && sys.workers[w].outcome.None? then
        Sys(sys.rows, sys.workers[w := sys.workers[w].(outcome := Some(ok))],
            if ok then sys.delivered + {sys.workers[w].claims[0].id} else sys.delivered)
      else sys
    case Record(w, now) =>
      if w in sys.workers && |sys.workers[w].claims| > 0 && sys.workers[w].outcome.Some? then
        var c := sys.workers[w].claims[0];
        Sys(if sys.workers[w].outcome.value then RecordSuccess(sys.rows, c) else RecordFailure(cfg, sys.rows, c, now),
            sys.workers[w := Worker(sys.workers[w].claims[1..], None)], sys.delivered)
      else sys
    case Crash(w) => sys.(workers := sys.workers - {w})
    case Repair(timeout, now) => sys.(rows := Repaired(sys.rows, timeout, now))
    case Append(now) => sys.(rows := sys.rows + [Row(Pending, 0, now, None)])
  }

  function After(cfg: Config, sys: Sys, steps: seq<Step>): Sys {
    if |steps| == 0 then sys else Next(cfg, After(cfg, sys, steps[..|steps| - 1]), steps[|steps| - 1])
  }

  // ----- Safety ------------------------------------------------------------

  predicate RowInv(cfg: Config, r: Row, delivered: bool) {
    match r.status
    case Pending => r.attempts < cfg.maxAttempts
    case Leased => r.attempts < cfg.maxAttempts
    case Published => delivered
    case Quarantined => r.attempts == cfg.maxAttempts
  }

  predicate WorkerInv(cfg: Config, sys: Sys, w: Worker) {
    && (forall i :: 0 <= i < |w.claims| ==> w.claims[i].id < |sys.rows| && w.claims[i].attempts < cfg.maxAttempts)
    && (w.outcome.Some? ==> |w.claims| > 0)
    && (w.outcome == Some(true) ==> w.claims[0].id in sys.delivered)
  }

  predicate SysInv(cfg: Config, sys: Sys) {
    && cfg.maxAttempts >= 1
    && (forall k :: 0 <= k < |sys.rows| ==> RowInv(cfg, sys.rows[k], k in sys.delivered))
    && (forall w :: w in sys.workers ==> WorkerInv(cfg, sys, sys.workers[w]))
  }

  predicate Finished(r: Row) { r.status == Published || r.status == Quarantined }

  /** No row is lost, and a finished row never changes again. */
  predicate Kept(a: seq<Row>, b: seq<Row>) {
    |a| <= |b| && forall k :: 0 <= k < |a| && Finished(a[k]) ==> b[k] == a[k]
  }

  lemma NextKeepsInv(cfg: Config, sys: Sys, step: Step)
    requires SysInv(cfg, sys)
    ensures SysInv(cfg, Next(cfg, sys, step)) && Kept(sys.rows, Next(cfg, sys, step).rows)
    ensures sys.delivered <= Next(cfg, sys, step).delivered
  {
    var next := Next(cfg, sys, step);
    forall w | w in next.workers
      ensures WorkerInv(cfg, next, next.workers[w])
    {
      if w in sys.workers {
        assert WorkerInv(cfg, sys, sys.workers[w]);
      }
    }
  }

  /** Over any interleaving of publishers, crashes and repairs: no row is lost,
      published and quarantined rows never change, a published row was delivered,
      unfinished rows have attempts left, quarantined ones have used them all. */
  lemma {:induction false} OutboxIsSafe(cfg: Config, sys: Sys, steps: seq<Step>)
    requires SysInv(cfg, sys)
    ensures SysInv(cfg, After(cfg, sys, steps)) && Kept(sys.rows, After(cfg, sys, steps).rows)
  {
    if |steps| > 0 {
      hide SysInv, Next;
      OutboxIsSafe(cfg, sys, steps[..|steps| - 1]);
      NextKeepsInv(cfg, After(cfg, sys, steps[..|steps| - 1]), steps[|steps| - 1]);
    }
  }

  // ----- When attempts only grow ------------------------------------------

  /** Every open claim is the one lease on its row, with the current count. */
  predicate Exclusive(sys: Sys) {
    && (forall w, i :: w in sys.workers && 0 <= i < |sys.workers[w].claims| ==>
          var c := sys.workers[w].claims[i];
          c.id < |sys.rows| && sys.rows[c.id].status == Leased && sys.rows[c.id].attempts == c.attempts)
    && (forall w, i, v, j :: w in sys.workers && v in sys.workers && 0 <= i < |sys.workers[w].claims|
                             && 0 <= j < |sys.workers[v].claims| && (w != v || i != j) ==>
          sys.workers[w].claims[i].id != sys.workers[v].claims[j].id)
  }

  /** The repair takes no row that a live publisher still holds. */
  predicate RepairsAbandoned(sys: Sys, step: Step) {
    step.Repair? ==>
      forall w, i :: w in sys.workers && 0 <= i < |sys.workers[w].claims| && sys.workers[w].claims[i].id < |sys.rows| ==>
        !Stuck(sys.rows[sys.workers[w].claims[i].id], step.timeout, step.now)
  }

  predicate AttemptsGrow(a: seq<Row>, b: seq<Row>) {
    |a| <= |b| && forall k :: 0 <= k < |a| ==> a[k].attempts <= b[k].attempts
  }

  lemma ClaimKeepsExclusive(cfg: Config, sys: Sys, w: Id, ids: seq<nat>, limit: nat, now: Time)
    requires Exclusive(sys) && w !in sys.workers && MayClaim(sys.rows, ids, limit, now)
    ensures Exclusive(Next(cfg, sys, ClaimBatch(w, ids, limit, now)))
    ensures AttemptsGrow(sys.rows, Next(cfg, sys, ClaimBatch(w, ids, limit, now)).rows)
  {
    var next := Next(cfg, sys, ClaimBatch(w, ids, limit, now));
    forall v, i | v in sys.workers && 0 <= i < |sys.workers[v].claims|
      ensures sys.workers[v].claims[i].id !in ids
    {
      assert sys.rows[sys.workers[v].claims[i].id].status == Leased;
    }
    assert next.workers == sys.workers[w := Worker(ClaimsOf(sys.rows, ids), None)];
  }

  lemma RecordKeepsExclusive(cfg: Config, sys: Sys, w: Id, now: Time)
    requires Exclusive(sys) && w in sys.workers && |sys.workers[w].claims| > 0
    ensures Exclusive(Next(cfg, sys, Record(w, now)))
    ensures AttemptsGrow(sys.rows, Next(cfg, sys, Record(w, now)).rows)
  {
    var c, rest := sys.workers[w].claims[0], sys.workers[w].claims[1..];
    var next := Next(cfg, sys, Record(w, now));
    assert forall i :: 0 <= i < |rest| ==> rest[i] == sys.workers[w].claims[i + 1] && rest[i].id != c.id;
    assert forall v, i :: v in sys.workers && v != w && 0 <= i < |sys.workers[v].claims| ==>
        sys.workers[v].claims[i].id != c.id;
    if sys.workers[w].outcome.Some? {
      assert forall k :: 0 <= k < |sys.rows| && k != c.id ==> next.rows[k] == sys.rows[k];
      assert next.workers == sys.workers[w := Worker(rest, None)];
    }
  }

  lemma StepKeepsExclusive(cfg: Config, sys: Sys, step: Step)
    requires Exclusive(sys) && RepairsAbandoned(sys, step)
    ensures Exclusive(Next(cfg, sys, step)) && AttemptsGrow(sys.rows, Next(cfg, sys, step).rows)
  {
    hide RecordSuccess, RecordFailure, MayClaim;
    match step
    case ClaimBatch(w, ids, limit, now) =>
      if w !in sys.workers && MayClaim(sys.rows, ids, limit, now) {
        ClaimKeepsExclusive(cfg, sys, w, ids, limit, now);
      }
    case Record(w, now) =>
      if w in sys.workers && |sys.workers[w].claims| > 0 {
        RecordKeepsExclusive(cfg, sys, w, now);
      }
    case Deliver(w, ok) => DeliverKeepsExclusive(cfg, sys, w, ok);
    case Crash(w) =>
    case Repair(timeout, now) =>
    case Append(now) =>
  }

  lemma DeliverKeepsExclusive(cfg: Config, sys: Sys, w: Id, ok: bool)
    requires Exclusive(sys)
    ensures Exclusive(Next(cfg, sys, Deliver(w, ok))) && Next(cfg, sys, Deliver(w, ok)).rows == sys.rows
  {
    var next := Next(cfg, sys, Deliver(w, ok));
    assert forall v :: v in next.workers ==> v in sys.workers && next.workers[v].claims == sys.workers[v].claims;
  }

  /** As long as every repair takes only abandoned leases, attempts never drop. */
  lemma {:induction false} AttemptsOnlyGrow(cfg: Config, sys: Sys, steps: seq<Step>)
    requires Exclusive(sys)
    requires forall i :: 0 <= i < |steps| ==> RepairsAbandoned(After(cfg, sys, steps[..i]), steps[i])
    ensures Exclusive(After(cfg, sys, steps)) && AttemptsGrow(sys.rows, After(cfg, sys, steps).rows)
  {
    if |steps| > 0 {
      hide Exclusive, Next, RepairsAbandoned;
      var front := steps[..|steps| - 1];
      forall i | 0 <= i < |front|
        ensures RepairsAbandoned(After(cfg, sys, front[..i]), front[i])
      {
        assert front[..i] == steps[..i] && front[i] == steps[i];
      }
      AttemptsOnlyGrow(cfg, sys, front);
      assert steps[..|steps| - 1] == front;
      StepKeepsExclusive(cfg, After(cfg, sys, front), steps[|steps| - 1]);
    }
  }

  /** One failure record lowers the count exactly when the count it captured has
      fallen behind the row by two or more. */
  lemma FailureLowersAttempts(cfg: Config, rows: seq<Row>, c: Claim, now: Time)
    requires c.id < |rows| && rows[c.id].status == Leased
    ensures RecordFailure(cfg, rows, c, now)[c.id].attempts < rows[c.id].attempts <==> c.attempts + 1 < rows[c.id].attempts
    ensures forall k :: 0 <= k < |rows| && k != c.id ==> RecordFailure(cfg, rows, c, now)[k] == rows[k]
  {
  }

  /** A failure recorded from a count that has fallen behind the row. */
  predicate StaleRecord(sys: Sys, step: Step, k: nat) {
    && step.Record? && step.w in sys.workers && |sys.workers[step.w].claims| > 0
    && sys.workers[step.w].outcome == Some(false) && sys.workers[step.w].claims[0].id == k
    && k < |sys.rows| && sys.rows[k].status == Leased
    && sys.workers[step.w].claims[0].attempts + 1 < sys.rows[k].attempts
  }

  /** Of all steps exactly these lower the count of a row. */
  lemma AttemptsDropExactlyWhen(cfg: Config, sys: Sys, step: Step, k: nat)
    requires k < |sys.rows|
    ensures k < |Next(cfg, sys, step).rows|
    ensures Next(cfg, sys, step).rows[k].attempts < sys.rows[k].attempts <==> StaleRecord(sys, step, k)
  {
    if step.Record? && step.w in sys.workers && |sys.workers[step.w].claims| > 0 {
      var c := sys.workers[step.w].claims[0];
      if c.id < |sys.rows| && sys.rows[c.id].status == Leased {
        FailureLowersAttempts(cfg, sys.rows, c, step.now);
      }
    }
  }

  /** So over any run a row ends with fewer attempts only if some step recorded a
      failure from a count left behind. */
  lemma {:induction false} DropsComeFromStaleRecords(cfg: Config, sys: Sys, steps: seq<Step>, k: nat)
    requires k < |sys.rows|
    ensures k < |After(cfg, sys, steps).rows|
    ensures After(cfg, sys, steps).rows[k].attempts < sys.rows[k].attempts ==>
              exists i :: 0 <= i < |steps| && StaleRecord(After(cfg, sys, steps[..i]), steps[i], k)
  {
    hide Next, StaleRecord;
    if |steps| > 0 {
      var front, n := steps[..|steps| - 1], |steps| - 1;
      DropsComeFromStaleRecords(cfg, sys, front, k);
      AttemptsDropExactlyWhen(cfg, After(cfg, sys, front), steps[n], k);
      if After(cfg, sys, front).rows[k].attempts < sys.rows[k].attempts {
        var i :| 0 <= i < |front| && StaleRecord(After(cfg, sys, front[..i]), front[i], k);
        assert front[..i] == steps[..i];
      }
    }
  }

  // ----- A run in which attempts drop -------------------------------------

  /** Publisher 9 claims row 0 and is slow; its lease is repaired and publishers
      1, 2 and 3 claim the row in turn; when 9 at last records its failure, the
      row that 3 is delivering falls from two attempts to one. */
  function SlowPublisherRun(): seq<Step> {
    [ClaimBatch(9, [0], 1, 0), Deliver(9, false), Repair(1, 5),
     ClaimBatch(1, [0], 1, 5), Deliver(1, false), Record(1, 6),
     ClaimBatch(2, [0], 1, 6), Deliver(2, false), Record(2, 7),
     ClaimBatch(3, [0], 1, 7)]
  }

  function OneRow(status: Status, attempts: nat, availableAt: Time, leasedAt: Option<Time>): seq<Row> {
    [Row(status, attempts, availableAt, leasedAt)]
  }

  /** The state after each step of that run. */
  function SlowPublisherState(i: nat): Sys
    requires i <= 10
  {
    var slow, failed := Worker([Claim(0, 0)], Some(false)), Worker([], None);
    if i == 0 then Sys(OneRow(Pending, 0, 0, None), map[], {})
    else if i == 1 then Sys(OneRow(Leased, 0, 0, Some(0)), map[9 := Worker([Claim(0, 0)], None)], {})
    else if i == 2 then Sys(OneRow(Leased, 0, 0, Some(0)), map[9 := slow], {})
    else if i == 3 then Sys(OneRow(Pending, 0, 5, Some(0)), map[9 := slow], {})
    else if i == 4 then Sys(OneRow(Leased, 0, 5, Some(5)), map[9 := slow, 1 := Worker([Claim(0, 0)], None)], {})
    else if i == 5 then Sys(OneRow(Leased, 0, 5, Some(5)), map[9 := slow, 1 := slow], {})
    else if i == 6 then Sys(OneRow(Pending, 1, 6, Some(5)), map[9 := slow, 1 := failed], {})
    else if i == 7 then
      Sys(OneRow(Leased, 1, 6, Some(6)), map[9 := slow, 1 := failed, 2 := Worker([Claim(0, 1)], None)], {})
    else if i == 8 then
      Sys(OneRow(Leased, 1, 6, Some(6)), map[9 := slow, 1 := failed, 2 := Worker([Claim(0, 1)], Some(false))], {})
    else if i == 9 then Sys(OneRow(Pending, 2, 7, Some(6)), map[9 := slow, 1 := failed, 2 := failed], {})
    else
      Sys(OneRow(Leased, 2, 7, Some(7)),
          map[9 := slow, 1 := failed, 2 := failed, 3 := Worker([Claim(0, 2)], None)], {})
  }

  lemma ClaimOne(cfg: Config, r: Row, workers: map<Id, Worker>, w: Id, now: Time)
    requires r.status == Pending && r.availableAt <= now && w !in workers
    ensures Next(cfg, Sys([r], workers, {}), ClaimBatch(w, [0], 1, now))
            == Sys([r.(status := Leased, leasedAt := Some(now))], workers[w := Worker([Claim(0, r.attempts)], None)], {})
  {
    assert ClaimsOf([r], [0]) == [Claim(0, r.attempts)];
    assert Lease([r], [0], now) == [r.(status := Leased, leasedAt := Some(now))];
  }

  lemma FailOne(cfg: Config, r: Row, workers: map<Id, Worker>, w: Id, c: Claim, now: Time)
    requires w in workers && workers[w].claims == [c] && c.id == 0 && r.status == Leased && c.attempts + 1 < cfg.maxAttempts
    ensures workers[w].outcome.None? ==>
              Next(cfg, Sys([r], workers, {}), Deliver(w, false)) == Sys([r], workers[w := Worker([c], Some(false))], {})
    ensures workers[w].outcome == Some(false) ==>
              Next(cfg, Sys([r], workers, {}), Record(w, now))
              == Sys([Row(Pending, c.attempts + 1, now + cfg.backoff, r.leasedAt)], workers[w := Worker([], None)], {})
  {
    assert [c][1..] == [];
  }

  lemma RepairOne(cfg: Config, r: Row, workers: map<Id, Worker>, timeout: nat, now: Time)
    requires Stuck(r, timeout, now)
    ensures Next(cfg, Sys([r], workers, {}), Repair(timeout, now))
            == Sys([r.(status := Pending, availableAt := now)], workers, {})
  {
    assert Repaired([r], timeout, now) == [r.(status := Pending, availableAt := now)];
  }

  lemma SlowPublisherStep(i: nat)
    requires i < 10
    ensures Next(Config(5, 0), SlowPublisherState(i), SlowPublisherRun()[i]).rows == SlowPublisherState(i + 1).rows
    ensures Next(Config(5, 0), SlowPublisherState(i), SlowPublisherRun()[i]).workers == SlowPublisherState(i + 1).workers
    ensures Next(Config(5, 0), SlowPublisherState(i), SlowPublisherRun()[i]).delivered == {}
  {
    hide Next;
    var cfg, s := Config(5, 0), SlowPublisherState(i);
    match SlowPublisherRun()[i]
    case ClaimBatch(w, _, _, now) => ClaimOne(cfg, s.rows[0], s.workers, w, now);
    case Deliver(w, _) => FailOne(cfg, s.rows[0], s.workers, w, s.workers[w].claims[0], 0);
    case Record(w, now) => FailOne(cfg, s.rows[0], s.workers, w, s.workers[w].claims[0], now);
    case Repair(timeout, now) => RepairOne(cfg, s.rows[0], s.workers, timeout, now);
    case _ =>
  }

  lemma {:induction false} SlowPublisherReaches(i: nat)
    requires i <= 10
    ensures After(Config(5, 0), SlowPublisherState(0), SlowPublisherRun()[..i]) == SlowPublisherState(i)
  {
    hide Next, SlowPublisherState, SlowPublisherRun;
    if i > 0 {
      SlowPublisherReaches(i - 1);
      TenSteps();
      PrefixStep(Config(5, 0), SlowPublisherState(0), SlowPublisherRun(), i - 1);
      SlowPublisherStep(i - 1);
      NothingDelivered(i);
    }
  }

  lemma TenSteps()
    ensures |SlowPublisherRun()| == 10
  {
  }

  lemma NothingDelivered(i: nat)
    requires i <= 10
    ensures SlowPublisherState(i).delivered == {}
  {
  }

  /** Attempts can drop when a lease is repaired under a live publisher. */
  lemma SlowPublisherLowersAttempts()
    ensures var cfg := Config(5, 0);
            var before := After(cfg, Sys([Row(Pending, 0, 0, None)], map[], {}), SlowPublisherRun());
            && |before.rows| == 1 && before.rows[0].attempts == 2 && before.rows[0].status == Leased
            && |Next(cfg, before, Record(9, 8)).rows| == 1 && Next(cfg, before, Record(9, 8)).rows[0].attempts == 1
  {
    hide Next, SlowPublisherRun, After;
    SlowPublisherReaches(10);
    TenSteps();
    assert SlowPublisherRun()[..10] == SlowPublisherRun();
    assert SlowPublisherState(0).rows == [Row(Pending, 0, 0, None)];
    var s := SlowPublisherState(10);
    FailOne(Config(5, 0), s.rows[0], s.workers, 9, Claim(0, 0), 8);
  }

  lemma PrefixStep(cfg: Config, sys: Sys, steps: seq<Step>, i: nat)
    requires i < |steps|
    ensures After(cfg, sys, steps[..i + 1]) == Next(cfg, After(cfg, sys, steps[..i]), steps[i])
  {
    assert steps[..i + 1][..i] == steps[..i];
  }
}
