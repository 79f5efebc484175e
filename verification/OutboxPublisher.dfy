/** One publisher over the outbox: the claim, the delivery loop with its three
    report lists, and why draining the outbox terminates. */
module OutboxPublisher {
  import opened Common
  import opened Ordering
  import opened Outbox

  datatype Report = Report(published: seq<nat>, retried: seq<nat>, quarantined: seq<nat>)

  /** Attempts a row has left while it is unfinished. */
  function Left(cfg: Config, r: Row): nat {
    if Finished(r) || r.attempts >= cfg.maxAttempts then 0 else cfg.maxAttempts - r.attempts
  }

  function Potential(cfg: Config, rows: seq<Row>): nat {
    if |rows| == 0 then 0 else Potential(cfg, rows[..|rows| - 1]) + Left(cfg, rows[|rows| - 1])
  }

  lemma {:induction false} PotentialUpdate(cfg: Config, rows: seq<Row>, k: nat, r: Row)
    requires k < |rows|
    ensures Potential(cfg, rows[k := r]) + Left(cfg, rows[k]) == Potential(cfg, rows) + Left(cfg, r)
  {
    var n := |rows| - 1;
    if k < n {
      PotentialUpdate(cfg, rows[..n], k, r);
      assert rows[k := r][..n] == rows[..n][k := r];
    } else {
      assert rows[k := r][..n] == rows[..n];
    }
  }

  lemma {:induction false} SamePotential(cfg: Config, a: seq<Row>, b: seq<Row>)
    requires |a| == |b| && forall k :: 0 <= k < |a| ==> Left(cfg, a[k]) == Left(cfg, b[k])
    ensures Potential(cfg, a) == Potential(cfg, b)
  {
    if |a| > 0 {
      SamePotential(cfg, a[..|a| - 1], b[..|b| - 1]);
    }
  }

  function Ids(claims: seq<Claim>): (ids: seq<nat>)
    ensures |ids| == |claims| && forall i :: 0 <= i < |claims| ==> ids[i] == claims[i].id
  {
    seq(|claims|, i requires 0 <= i < |claims| => claims[i].id)
  }

  /** The table agrees with the report on what happened to one claimed row. */
  predicate Handled(cfg: Config, before: Row, after: Row, report: Report, id: nat, now: Time) {
    || (id in report.published && id !in report.retried && id !in report.quarantined
        && after.status == Published && after.attempts == before.attempts)
    || (id in report.retried && id !in report.published && id !in report.quarantined
        && after.status == Pending && after.attempts == before.attempts + 1 && after.attempts < cfg.maxAttempts
        && after.availableAt == now + cfg.backoff)
    || (id in report.quarantined && id !in report.published && id !in report.retried
        && after.status == Quarantined && after.attempts == before.attempts + 1 && after.attempts == cfg.maxAttempts)
  }

  function Add(report: Report, kind: Status, id: nat): Report {
    match kind
    case Published => report.(published := report.published + [id])
    case Quarantined => report.(quarantined := report.quarantined + [id])
    case _ => report.(retried := report.retried + [id])
  }

  /** The first `i` claims are handled, the others still leased, all else untouched. */
  ghost predicate Progress(cfg: Config, before: seq<Row>, rows: seq<Row>, claimed: seq<nat>, i: nat, report: Report, now: Time) {
    && i <= |claimed| && |rows| == |before|
    && (forall j :: 0 <= j < |claimed| ==> claimed[j] < |before|)
    && (forall j :: i <= j < |claimed| ==>
          rows[claimed[j]] == before[claimed[j]].(status := Leased, leasedAt := Some(now)))
    && (forall k :: 0 <= k < |rows| && k !in claimed ==> rows[k] == before[k])
    && (forall j :: 0 <= j < i ==> Handled(cfg, before[claimed[j]], rows[claimed[j]], report, claimed[j], now))
    && (forall id :: id in report.published + report.retried + report.quarantined <==> id in claimed[..i])
    && |report.published| + |report.retried| + |report.quarantined| == i
  }

  lemma ProgressStep(cfg: Config, before: seq<Row>, rows: seq<Row>, claimed: seq<nat>, i: nat, report: Report, now: Time,
                     r: Row)
    requires Progress(cfg, before, rows, claimed, i, report, now) && i < |claimed|
    requires forall j, k :: 0 <= j < k < |claimed| ==> claimed[j] != claimed[k]
    requires Handled(cfg, before[claimed[i]], r, Add(Report([], [], []), r.status, claimed[i]), claimed[i], now)
    ensures Progress(cfg, before, rows[claimed[i] := r], claimed, i + 1, Add(report, r.status, claimed[i]), now)
  {
    hide Handled;
    var id, next, grown := claimed[i], rows[claimed[i] := r], Add(report, r.status, claimed[i]);
    assert claimed[..i + 1] == claimed[..i] + [id];
    forall j | 0 <= j < i
      ensures Handled(cfg, before[claimed[j]], next[claimed[j]], grown, claimed[j], now)
    {
      StaysHandled(cfg, before[claimed[j]], rows[claimed[j]], report, claimed[j], now, r.status, id);
    }
    assert id !in claimed[..i];
    NowHandled(cfg, before[id], r, report, id, now);
  }

  lemma StaysHandled(cfg: Config, before: Row, after: Row, report: Report, id: nat, now: Time, kind: Status, other: nat)
    requires Handled(cfg, before, after, report, id, now) && other != id
    ensures Handled(cfg, before, after, Add(report, kind, other), id, now)
  {
  }

  lemma NowHandled(cfg: Config, before: Row, after: Row, report: Report, id: nat, now: Time)
    requires Handled(cfg, before, after, Add(Report([], [], []), after.status, id), id, now)
    requires id !in report.published + report.retried + report.quarantined
    ensures Handled(cfg, before, after, Add(report, after.status, id), id, now)
  {
  }

  predicate NoneLeased(rows: seq<Row>) {
    forall k :: 0 <= k < |rows| ==> rows[k].status != Leased
  }

  predicate HasAttempts(cfg: Config, rows: seq<Row>) {
    forall k :: 0 <= k < |rows| && !Finished(rows[k]) ==> rows[k].attempts < cfg.maxAttempts
  }

  lemma CurrentClaim(cfg: Config, before: seq<Row>, rows: seq<Row>, claimed: seq<nat>, i: nat, report: Report, now: Time)
    requires Progress(cfg, before, rows, claimed, i, report, now) && i < |claimed|
    ensures |rows| == |before| && claimed[i] < |rows|
    ensures rows[claimed[i]] == before[claimed[i]].(status := Leased, leasedAt := Some(now))
  {
  }

  /** The kind of report entry a delivery leads to. */
  function Kind(cfg: Config, c: Claim, ok: bool): Status {
    if ok then Published else if c.attempts + 1 >= cfg.maxAttempts then Quarantined else Pending
  }

  function Recorded(cfg: Config, rows: seq<Row>, c: Claim, ok: bool, now: Time): seq<Row> {
    if ok then RecordSuccess(rows, c) else RecordFailure(cfg, rows, c, now)
  }

  lemma AddOne(report: Report, kind: Status, id: nat)
    ensures Add(report, kind, id) == match kind
                                     case Published => Report(report.published + [id], report.retried, report.quarantined)
                                     case Quarantined => Report(report.published, report.retried, report.quarantined + [id])
                                     case _ => Report(report.published, report.retried + [id], report.quarantined)
  {
  }

  /** What one claim statement leaves the publisher with. */
  predicate ClaimedFrom(cfg: Config, before: seq<Row>, claims: seq<Claim>, limit: nat, now: Time) {
    HasAttempts(cfg, before) && MayClaim(before, Ids(claims), limit, now) && claims == ClaimsOf(before, Ids(claims))
  }

  lemma ProgressStarts(cfg: Config, before: seq<Row>, claims: seq<Claim>, limit: nat, now: Time)
    requires ClaimedFrom(cfg, before, claims, limit, now)
    ensures Progress(cfg, before, Lease(before, Ids(claims), now), Ids(claims), 0, Report([], [], []), now)
    ensures Potential(cfg, Lease(before, Ids(claims), now)) == Potential(cfg, before)
  {
    var leased := Lease(before, Ids(claims), now);
    forall k | 0 <= k < |before|
      ensures Left(cfg, before[k]) == Left(cfg, leased[k])
    {
      if k in Ids(claims) {
        assert Claimable(before, k, now);
      }
    }
    SamePotential(cfg, before, leased);
  }

  lemma RecordStep(cfg: Config, before: seq<Row>, rows: seq<Row>, claims: seq<Claim>, i: nat, report: Report,
                   limit: nat, now: Time, ok: bool)
    requires ClaimedFrom(cfg, before, claims, limit, now) && i < |claims|
    requires Progress(cfg, before, rows, Ids(claims), i, report, now)
    requires Potential(cfg, rows) + i <= Potential(cfg, before)
    ensures Progress(cfg, before, Recorded(cfg, rows, claims[i], ok, now), Ids(claims), i + 1,
                     Add(report, Kind(cfg, claims[i], ok), claims[i].id), now)
    ensures Potential(cfg, Recorded(cfg, rows, claims[i], ok, now)) + i + 1 <= Potential(cfg, before)
  {
    hide Progress, Potential;
    var c, claimed := claims[i], Ids(claims);
    CurrentClaim(cfg, before, rows, claimed, i, report, now);
    assert Claimable(before, claimed[i], now);
    var next := Recorded(cfg, rows, c, ok, now);
    assert next == rows[c.id := next[c.id]];
    ProgressStep(cfg, before, rows, claimed, i, report, now, next[c.id]);
    PotentialUpdate(cfg, rows, c.id, next[c.id]);
  }

  /** One publisher, with the claims it has left to deliver. */
  function Alone(rows: seq<Row>, left: seq<Claim>, delivered: set<nat>): Sys {
    Sys(rows, map[0 := Worker(left, None)], delivered)
  }

  lemma RowsOf(rows: seq<Row>, left: seq<Claim>, delivered: set<nat>)
    ensures Alone(rows, left, delivered).rows == rows
  {
  }

  lemma AfterOne(cfg: Config, sys: Sys, steps: seq<Step>, step: Step)
    ensures After(cfg, sys, steps + [step]) == Next(cfg, After(cfg, sys, steps), step)
  {
    assert (steps + [step])[..|steps|] == steps;
  }

  lemma ClaimSteps(cfg: Config, before: seq<Row>, claims: seq<Claim>, limit: nat, now: Time)
    requires ClaimedFrom(cfg, before, claims, limit, now)
    ensures After(cfg, Sys(before, map[], {}), [ClaimBatch(0, Ids(claims), limit, now)])
            == Alone(Lease(before, Ids(claims), now), claims, {})
  {
    var step := ClaimBatch(0, Ids(claims), limit, now);
    assert [step][..0] == [];
    assert map[][0 := Worker(claims, None)] == map[0 := Worker(claims, None)];
  }

  /** Delivering and recording one claim are two steps of the machine. */
  lemma HandleSteps(cfg: Config, sys: Sys, steps: seq<Step>, rows: seq<Row>, left: seq<Claim>, delivered: set<nat>,
                    ok: bool, now: Time)
    requires |left| > 0 && After(cfg, sys, steps) == Alone(rows, left, delivered)
    ensures After(cfg, sys, steps + [Deliver(0, ok)] + [Record(0, now)])
            == Alone(Recorded(cfg, rows, left[0], ok, now), left[1..], if ok then delivered + {left[0].id} else delivered)
  {
    AfterOne(cfg, sys, steps, Deliver(0, ok));
    AfterOne(cfg, sys, steps + [Deliver(0, ok)], Record(0, now));
    var w := Worker(left, Some(ok));
    assert map[0 := Worker(left, None)][0 := w] == map[0 := w];
    assert map[0 := w][0 := Worker(left[1..], None)] == map[0 := Worker(left[1..], None)];
    hide RecordSuccess, RecordFailure;
  }

  lemma ProgressDone(cfg: Config, before: seq<Row>, rows: seq<Row>, claimed: seq<nat>, report: Report, now: Time)
    requires HasAttempts(cfg, before) && Progress(cfg, before, rows, claimed, |claimed|, report, now)
    ensures forall j :: 0 <= j < |claimed| ==>
      claimed[j] < |before| == |rows| && Handled(cfg, before[claimed[j]], rows[claimed[j]], report, claimed[j], now)
    ensures forall k :: 0 <= k < |rows| && k !in claimed ==> rows[k] == before[k]
    ensures forall id :: id in report.published + report.retried + report.quarantined <==> id in claimed
    ensures |report.published| + |report.retried| + |report.quarantined| == |claimed| && |rows| == |before|
    ensures HasAttempts(cfg, rows)
  {
    hide Handled;
    assert claimed[..|claimed|] == claimed;
    KeepsAttempts(cfg, before, rows, claimed, report, now);
  }

  lemma KeepsAttempts(cfg: Config, before: seq<Row>, rows: seq<Row>, claimed: seq<nat>, report: Report, now: Time)
    requires HasAttempts(cfg, before) && Progress(cfg, before, rows, claimed, |claimed|, report, now)
    ensures HasAttempts(cfg, rows)
  {
    forall k | 0 <= k < |rows| && !Finished(rows[k])
      ensures rows[k].attempts < cfg.maxAttempts
    {
      if k in claimed {
        var j :| 0 <= j < |claimed| && claimed[j] == k;
        assert Handled(cfg, before[k], rows[k], report, k, now);
      }
    }
  }

  /** The claimable ids in the order of the claim statement. */
  method OrderClaimable(rows: seq<Row>, now: Time) returns (ids: seq<nat>)
    ensures forall id: nat :: id in ids <==> Claimable(rows, id, now)
    ensures forall i, j :: 0 <= i < j < |ids| ==> ids[i] != ids[j]
    ensures forall i, j :: 0 <= i < j < |ids| && ids[i] < |rows| && ids[j] < |rows| ==>
      rows[ids[i]].availableAt <= rows[ids[j]].availableAt
  {
    var found: seq<nat> := [];
    var k := 0;
    while k < |rows|
      invariant 0 <= k <= |rows|
      invariant forall id: nat :: id in found <==> id < k && Claimable(rows, id, now)
      invariant forall i, j :: 0 <= i < j < |found| ==> found[i] < found[j]
    {
      if rows[k].status == Pending && rows[k].availableAt <= now {
        assert forall i :: 0 <= i < |found| ==> found[i] in found;
        found := found + [k];
      }
      k := k + 1;
    }
    var key := (id: nat) => if id < |rows| then Rank(rows[id].availableAt, id) else Rank(0, id);
    assert DistinctBy(found, key);
    SortBySorted(found, key);
    ids := SortBy(found, key);
    forall id: nat
      ensures id in ids <==> id in found
    {
      assert id in ids <==> id in multiset(ids);
      assert id in found <==> id in multiset(found);
    }
    forall i, j | 0 <= i < j < |ids|
      ensures ids[i] != ids[j]
      ensures ids[i] < |rows| && ids[j] < |rows| ==> rows[ids[i]].availableAt <= rows[ids[j]].availableAt
    {
      assert Less(key(ids[i]), key(ids[j]));
    }
  }

  /** The earliest claimable ids, at most `limit` of them. */
  method EarliestClaimable(rows: seq<Row>, limit: nat, now: Time) returns (ids: seq<nat>)
    ensures MayClaim(rows, ids, limit, now)
    ensures |ids| == limit || forall k :: 0 <= k < |rows| && Claimable(rows, k, now) ==> k in ids
    ensures forall k, id :: 0 <= k < |rows| && Claimable(rows, k, now) && k !in ids && id in ids ==>
      id < |rows| && rows[id].availableAt <= rows[k].availableAt
  {
    var order := OrderClaimable(rows, now);
    ids := order[..if limit < |order| then limit else |order|];
    assert forall j :: 0 <= j < |ids| ==> ids[j] == order[j] && order[j] in order;
    assert forall j :: 0 <= j < |order| && order[j] !in ids ==> j >= |ids|;
  }

  class Publisher {
    const cfg: Config
    var rows: seq<Row>

    constructor (cfg: Config, rows: seq<Row>)
      ensures this.cfg == cfg && this.rows == rows
    {
      this.cfg := cfg;
      this.rows := rows;
    }

    /** One statement: lease the earliest claimable rows, at most `limit`. */
    method ClaimBatch(limit: nat, now: Time) returns (claims: seq<Claim>)
      modifies this
      ensures MayClaim(old(rows), Ids(claims), limit, now)
      ensures rows == Lease(old(rows), Ids(claims), now) && claims == ClaimsOf(old(rows), Ids(claims))
      ensures HasAttempts(cfg, old(rows)) ==> ClaimedFrom(cfg, old(rows), claims, limit, now)
      ensures |claims| == limit || forall k :: 0 <= k < |old(rows)| && Claimable(old(rows), k, now) ==> k in Ids(claims)
      ensures forall k, id :: 0 <= k < |old(rows)| && Claimable(old(rows), k, now) && k !in Ids(claims) && id in Ids(claims) ==>
        id < |old(rows)| && old(rows)[id].availableAt <= old(rows)[k].availableAt
    {
      var ids := EarliestClaimable(rows, limit, now);
      claims := ClaimsOf(rows, ids);
      assert Ids(claims) == ids;
      hide *;
      rows := Lease(rows, ids, now);
    }

    method RecordDeliverySuccess(c: Claim, ghost now: Time)
      modifies this
      ensures rows == Recorded(cfg, old(rows), c, true, now) && Kind(cfg, c, true) == Published
    {
      if c.id < |rows| && rows[c.id].status == Leased {
        rows := rows[c.id := rows[c.id].(status := Published)];
      }
    }

    method RecordDeliveryFailure(c: Claim, now: Time) returns (isQuarantined: bool)
      modifies this
      ensures rows == Recorded(cfg, old(rows), c, false, now)
      ensures Kind(cfg, c, false) == if isQuarantined then Quarantined else Pending
    {
      var attempts := c.attempts + 1;
      isQuarantined := attempts >= cfg.maxAttempts;
      if c.id < |rows| && rows[c.id].status == Leased {
        if isQuarantined {
          rows := rows[c.id := rows[c.id].(status := Quarantined, attempts := attempts)];
        } else {
          rows := rows[c.id := rows[c.id].(status := Pending, attempts := attempts, availableAt := now + cfg.backoff)];
        }
      }
    }

    /** Deliver every claimed row and record the result; `sink` says which
        deliveries of this call succeed. The call is a run of the machine of
        Outbox, so what holds of every run of it holds here. */
    method PublishPending(limit: nat, now: Time, sink: nat -> bool)
      returns (report: Report, claimed: seq<nat>, ghost steps: seq<Step>)
      requires cfg.maxAttempts >= 1 && HasAttempts(cfg, rows)
      modifies this
      ensures MayClaim(old(rows), claimed, limit, now) && |rows| == |old(rows)| && HasAttempts(cfg, rows)
      ensures |claimed| == limit || forall k :: 0 <= k < |old(rows)| && Claimable(old(rows), k, now) ==> k in claimed
      ensures forall i :: 0 <= i < |claimed| ==>
        claimed[i] < |old(rows)| && Handled(cfg, old(rows)[claimed[i]], rows[claimed[i]], report, claimed[i], now)
      ensures forall k :: 0 <= k < |rows| && k !in claimed ==> rows[k] == old(rows)[k]
      ensures forall id :: id in report.published + report.retried + report.quarantined <==> id in claimed
      ensures |report.published| + |report.retried| + |report.quarantined| == |claimed|
      ensures Potential(cfg, rows) + |claimed| <= Potential(cfg, old(rows))
      ensures After(cfg, Sys(old(rows), map[], {}), steps).rows == rows
    {
      hide *;
      ghost var before := rows;
      var claims := ClaimBatch(limit, now);
      claimed := Ids(claims);
      var published: seq<nat>, retried: seq<nat>, quarantined: seq<nat> := [], [], [];
      ProgressStarts(cfg, before, claims, limit, now);
      steps := [Outbox.ClaimBatch(0, claimed, limit, now)];
      ClaimSteps(cfg, before, claims, limit, now);
      ghost var delivered: set<nat> := {};
      var i := 0;
      assert claims[i..] == claims;
      while i < |claims|
        invariant 0 <= i <= |claims|
        invariant Progress(cfg, before, rows, claimed, i, Report(published, retried, quarantined), now)
        invariant Potential(cfg, rows) + i <= Potential(cfg, before)
        invariant After(cfg, Sys(before, map[], {}), steps) == Alone(rows, claims[i..], delivered)
      {
        var c := claims[i];
        HandleSteps(cfg, Sys(before, map[], {}), steps, rows, claims[i..], delivered, sink(i), now);
        assert claims[i..][0] == c && claims[i..][1..] == claims[i + 1..];
        steps := steps + [Deliver(0, sink(i))] + [Record(0, now)];
        delivered := if sink(i) then delivered + {c.id} else delivered;
        ghost var settled := Report(published, retried, quarantined);
        RecordStep(cfg, before, rows, claims, i, settled, limit, now, sink(i));
        if sink(i) {
          RecordDeliverySuccess(c, now);
          published := published + [c.id];
        } else {
          var isQuarantined := RecordDeliveryFailure(c, now);
          if isQuarantined {
            quarantined := quarantined + [c.id];
          } else {
            retried := retried + [c.id];
          }
        }
        AddOne(settled, Kind(cfg, c, sink(i)), c.id);
        i := i + 1;
      }
      report := Report(published, retried, quarantined);
      ProgressDone(cfg, before, rows, claimed, report, now);
      RowsOf(rows, claims[i..], delivered);
    }

    /** Polling a single publisher, whatever the sink does, ends with every row
        published or quarantined. */
    method Drain(limit: nat, sink: nat -> nat -> bool)
      requires limit >= 1 && cfg.maxAttempts >= 1
      requires HasAttempts(cfg, rows) && NoneLeased(rows)
      modifies this
      ensures |rows| == |old(rows)| && forall k :: 0 <= k < |rows| ==> Finished(rows[k])
      ensures forall k :: 0 <= k < |rows| && Finished(old(rows)[k]) ==> rows[k] == old(rows)[k]
    {
      var round := 0;
      while exists k :: 0 <= k < |rows| && rows[k].status == Pending
        invariant HasAttempts(cfg, rows) && NoneLeased(rows) && |rows| == |old(rows)|
        invariant forall k :: 0 <= k < |rows| && Finished(old(rows)[k]) ==> rows[k] == old(rows)[k]
        decreases Potential(cfg, rows)
      {
        var k :| 0 <= k < |rows| && rows[k].status == Pending;
        ghost var before := rows;
        var _, claimed, _ := PublishPending(limit, rows[k].availableAt, sink(round));
        assert Claimable(before, k, before[k].availableAt);
        assert |claimed| > 0;
        forall j | 0 <= j < |rows|
          ensures rows[j].status != Leased
          ensures Finished(before[j]) ==> rows[j] == before[j]
        {
          if j in claimed {
            var i :| 0 <= i < |claimed| && claimed[i] == j;
            assert Claimable(before, claimed[i], before[k].availableAt);
          }
        }
        round := round + 1;
      }
    }
  }
}
