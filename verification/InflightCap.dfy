/** The in-flight cap under interleaving: creates take an advisory lock for their
    owner, count in a later statement, and save; dequeues, cancels, interrupt
    recovery, deletes and finishing runs happen in between. */
module InflightCap {
  import opened Common
  import opened RunQueue

  /** Where an open create stands. The lock is held from Locked on, to the end. */
  datatype Phase = Begun | Locked | Counted(count: nat) | Saved(atCount: nat)

  datatype Create = Create(id: Id, run: Row, limit: nat, phase: Phase)

  datatype Sys = Sys(rows: Rows, creates: map<Id, Create>)

  datatype Step =
    | Begin(tx: Id, id: Id, run: Row, limit: nat)
    | TakeLock(tx: Id)
    | Count(tx: Id)
    | Save(tx: Id)
    | Commit(tx: Id)
    | Rollback(tx: Id)
    | Dequeue(locked: set<Id>, id: Id)
    | Cancel(id: Id)
    | Interrupt(worker: Option<Id>)
    | Delete(id: Id)
    | End(id: Id, ok: bool)

  predicate HoldsLock(c: Create) { !c.phase.Begun? }

  /** The lock key is a hash of the owner; two owners may share a key. */
  predicate LockFree(sys: Sys, key: Id -> Id, k: Id) {
    forall tx :: tx in sys.creates && HoldsLock(sys.creates[tx]) ==> key(sys.creates[tx].run.owner) != k
  }

  function Enter(sys: Sys, tx: Id, phase: Phase): Sys
    requires tx in sys.creates
  {
    sys.(creates := sys.creates[tx := sys.creates[tx].(phase := phase)])
  }

  function NextCreate(sys: Sys, key: Id -> Id, step: Step): Sys {
    match step
    case Begin(tx, id, run, limit) =>
      if tx in sys.creates then sys else sys.(creates := sys.creates[tx := Create(id, run, limit, Begun)])
    case TakeLock(tx) =>
      if tx in sys.creates && sys.creates[tx].phase.Begun? && LockFree(sys, key, key(sys.creates[tx].run.owner)) then
        Enter(sys, tx, Locked)
      else sys
    case Count(tx) =>
      if tx in sys.creates && sys.creates[tx].phase.Locked? then
        Enter(sys, tx, Counted(|InFlightOf(sys.rows, sys.creates[tx].run.owner)|))
      else sys
    case Save(tx) =>
      if tx in sys.creates && sys.creates[tx].phase.Counted?
         && sys.creates[tx].phase.count < sys.creates[tx].limit then
        Enter(sys, tx, Saved(sys.creates[tx].phase.count))
      else sys
    case Commit(tx) =>
      if tx in sys.creates && sys.creates[tx].phase.Saved? then
        Sys(sys.rows[sys.creates[tx].id := sys.creates[tx].run], sys.creates - {tx})
      else if tx in sys.creates && sys.creates[tx].phase.Counted?
              && sys.creates[tx].phase.count >= sys.creates[tx].limit then
        sys.(creates := sys.creates - {tx})
      else sys
    case _ => sys
  }

  function Next(sys: Sys, key: Id -> Id, step: Step): Sys {
    match step
    case Rollback(tx) => sys.(creates := sys.creates - {tx})
    case Dequeue(locked, id) => if IsNext(sys.rows, locked, id) then sys.(rows := Start(sys.rows, id)) else sys
    case Cancel(id) => sys.(rows := CancelIfInFlight(sys.rows, id))
    case Interrupt(worker) => sys.(rows := MarkInterrupted(sys.rows, worker))
    case Delete(id) => sys.(rows := sys.rows - {id})
    case End(id, ok) => sys.(rows := Finish(sys.rows, id, ok))
    case _ => NextCreate(sys, key, step)
  }

  function After(sys: Sys, key: Id -> Id, steps: seq<Step>): Sys {
    if |steps| == 0 then sys else Next(After(sys, key, steps[..|steps| - 1]), key, steps[|steps| - 1])
  }

  // ----- The cap -----------------------------------------------------------

  predicate CreateInv(rows: Rows, c: Create, cap: nat) {
    && c.limit <= cap
    && (c.phase.Counted? ==> |InFlightOf(rows, c.run.owner)| <= c.phase.count)
    && (c.phase.Saved? ==> |InFlightOf(rows, c.run.owner)| <= c.phase.atCount < c.limit)
  }

  ghost predicate SysInv(sys: Sys, key: Id -> Id, cap: nat) {
    && (forall owner :: |InFlightOf(sys.rows, owner)| <= cap)
    && (forall tx :: tx in sys.creates ==> CreateInv(sys.rows, sys.creates[tx], cap))
    && (forall tx, other :: tx in sys.creates && other in sys.creates && tx != other
                            && HoldsLock(sys.creates[tx]) && HoldsLock(sys.creates[other]) ==>
          key(sys.creates[tx].run.owner) != key(sys.creates[other].run.owner))
  }

  ghost predicate NoneGains(a: Rows, b: Rows) {
    forall owner :: InFlightOf(b, owner) <= InFlightOf(a, owner)
  }

  lemma NoneGainsKeepsInv(sys: Sys, rows: Rows, key: Id -> Id, cap: nat)
    requires SysInv(sys, key, cap) && NoneGains(sys.rows, rows)
    ensures SysInv(sys.(rows := rows), key, cap)
  {
    forall owner
      ensures |InFlightOf(rows, owner)| <= |InFlightOf(sys.rows, owner)|
    {
      SubsetIsSmaller(InFlightOf(rows, owner), InFlightOf(sys.rows, owner));
    }
  }

  /** Of two lock holders only one can be counting for an owner, so the committing
      create still finds no more runs than it counted. */
  lemma CommitKeepsInv(sys: Sys, tx: Id, key: Id -> Id, cap: nat)
    requires SysInv(sys, key, cap) && tx in sys.creates && sys.creates[tx].phase.Saved?
    ensures SysInv(Next(sys, key, Commit(tx)), key, cap)
  {
    var c := sys.creates[tx];
    var next := Next(sys, key, Commit(tx));
    forall owner
      ensures InFlightOf(next.rows, owner) <= InFlightOf(sys.rows, owner) + (if owner == c.run.owner then {c.id} else {})
    {
    }
    forall owner
      ensures |InFlightOf(next.rows, owner)| <= |InFlightOf(sys.rows, owner)| + (if owner == c.run.owner then 1 else 0)
    {
      var extra := if owner == c.run.owner then {c.id} else {};
      SubsetIsSmaller(InFlightOf(next.rows, owner), InFlightOf(sys.rows, owner) + extra);
    }
    assert CreateInv(sys.rows, c, cap);
    forall other | other in next.creates
      ensures CreateInv(next.rows, next.creates[other], cap)
    {
      assert CreateInv(sys.rows, sys.creates[other], cap);
      if HoldsLock(sys.creates[other]) {
        assert key(sys.creates[other].run.owner) != key(c.run.owner);
      }
    }
  }

  lemma NextKeepsInv(sys: Sys, step: Step, key: Id -> Id, cap: nat)
    requires SysInv(sys, key, cap) && (step.Begin? ==> step.limit <= cap)
    ensures SysInv(Next(sys, key, step), key, cap)
  {
    if step.Dequeue? || step.Cancel? || step.Interrupt? || step.Delete? || step.End? {
      hide SysInv, IsNext;
      var rows := Next(sys, key, step).rows;
      assert NoneGains(sys.rows, rows);
      NoneGainsKeepsInv(sys, rows, key, cap);
    } else if step.Commit? && step.tx in sys.creates && sys.creates[step.tx].phase.Saved? {
      hide SysInv;
      CommitKeepsInv(sys, step.tx, key, cap);
    } else {
      hide InFlightOf;
    }
  }

  /** Whatever the interleaving, and even where two owners share a lock key, no
      owner ever has more runs in flight than the largest limit in use. */
  lemma {:induction false} CapHolds(sys: Sys, steps: seq<Step>, key: Id -> Id, cap: nat, owner: Id)
    requires SysInv(sys, key, cap)
    requires forall i :: 0 <= i < |steps| && steps[i].Begin? ==> steps[i].limit <= cap
    ensures SysInv(After(sys, key, steps), key, cap)
    ensures |InFlightOf(After(sys, key, steps).rows, owner)| <= cap
  {
    if |steps| > 0 {
      CapHolds(sys, steps[..|steps| - 1], key, cap, owner);
      NextKeepsInv(After(sys, key, steps[..|steps| - 1]), steps[|steps| - 1], key, cap);
    }
  }
}
