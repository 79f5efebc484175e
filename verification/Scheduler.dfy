/** The poller, its semaphore and its tasks as a step machine: a slot is taken,
    a run dequeued, a task started; tasks end and their callbacks give the slot
    back; cancels, dequeue errors, shutdowns and restarts happen in between. */
module Scheduler {
  import opened Common
  import opened Ordering
  import opened RunQueue

  /** `ended` is set once the task is done, before its callback has run. */
  datatype Task = Task(run: Id, ended: bool)

  /** Off, waiting for a slot (or asleep), or holding one across the dequeue. */
  datatype Poller = Off | Waits | Holds

  /** What one dequeue saw and took. */
  datatype Started = Started(run: Id, rank: Rank, seen: set<Id>)

  datatype Sys = Sys(
    rows: Rows, used: set<Id>,
    permits: nat, tasks: map<Id, Task>, keyed: map<Id, Id>, poller: Poller, lost: nat,
    started: seq<Started>)

  datatype Step =
    | StartPoller
    | Acquire
    | DequeueFails
    | DequeueNone(locked: set<Id>)
    | Dequeue(locked: set<Id>, run: Id, task: Id)
    | StartFails(locked: set<Id>, run: Id)
    | TaskEnds(task: Id)
    | Callback(task: Id, key: Option<Id>)
    | Shutdown(taken: Option<Id>)
    | Enqueue(run: Id, row: Row)
    | Cancel(run: Id)
    | Interrupt(worker: Option<Id>)
    | Delete(run: Id)
    | End(run: Id, ok: bool)

  function Taken(sys: Sys, locked: set<Id>, run: Id): Sys
    requires run in sys.rows
  {
    sys.(rows := Start(sys.rows, run),
         started := sys.started + [Started(run, RankOf(sys.rows, run), Waiting(sys.rows, locked))])
  }

  /** The callback deletes at most one entry of the key map: one naming its task. */
  predicate MayUnkey(keyed: map<Id, Id>, task: Id, key: Option<Id>) {
    match key
    case Some(k) => k in keyed && keyed[k] == task
    case None => forall k :: k in keyed ==> keyed[k] != task
  }

  function Unkeyed(keyed: map<Id, Id>, key: Option<Id>): map<Id, Id> {
    match key
    case Some(k) => keyed - {k}
    case None => keyed
  }

  function NextPoller(sys: Sys, step: Step): Sys {
    match step
    case StartPoller => if sys.poller.Off? then sys.(poller := Waits) else sys
    case Acquire =>
      if sys.poller.Waits? && sys.permits > 0 then sys.(poller := Holds, permits := sys.permits - 1) else sys
    case DequeueFails =>
      if sys.poller.Holds? then sys.(poller := Waits, permits := sys.permits + 1) else sys
    case DequeueNone(locked) =>
      if sys.poller.Holds? && Waiting(sys.rows, locked) == {} then
        sys.(poller := Waits, permits := sys.permits + 1)
      else sys
    case Dequeue(locked, run, task) =>
      if sys.poller.Holds? && IsNext(sys.rows, locked, run) && task !in sys.tasks then
        Taken(sys, locked, run).(poller := Waits, tasks := sys.tasks[task := Task(run, false)],
                                 keyed := sys.keyed[run := task])
      else sys
    case StartFails(locked, run) =>
      if sys.poller.Holds? && IsNext(sys.rows, locked, run) then
        Taken(sys, locked, run).(poller := Waits, permits := sys.permits + 1)
      else sys
    case Shutdown(taken) =>
      var stopped := sys.(poller := Off, lost := if sys.poller.Holds? then sys.lost + 1 else sys.lost);
      if sys.poller.Holds? && taken.Some? && IsNext(sys.rows, {}, taken.value) then
        stopped.(rows := Start(sys.rows, taken.value),
                 started := sys.started + [Started(taken.value, RankOf(sys.rows, taken.value), Waiting(sys.rows, {}))])
      else stopped
    case _ => sys
  }

  function Next(sys: Sys, step: Step): Sys {
    match step
    case TaskEnds(task) =>
      if task in sys.tasks then sys.(tasks := sys.tasks[task := sys.tasks[task].(ended := true)]) else sys
    case Callback(task, key) =>
      if task in sys.tasks && sys.tasks[task].ended && MayUnkey(sys.keyed, task, key) then
        sys.(tasks := sys.tasks - {task}, keyed := Unkeyed(sys.keyed, key), permits := sys.permits + 1)
      else sys
    case Enqueue(run, row) =>
      if run !in sys.used then sys.(rows := sys.rows[run := row], used := sys.used + {run}) else sys
    case Cancel(run) => sys.(rows := CancelIfInFlight(sys.rows, run))
    case Interrupt(worker) => sys.(rows := MarkInterrupted(sys.rows, worker))
    case Delete(run) => sys.(rows := sys.rows - {run})
    case End(run, ok) => sys.(rows := Finish(sys.rows, run, ok))
    case _ => NextPoller(sys, step)
  }

  function After(sys: Sys, steps: seq<Step>): Sys {
    if |steps| == 0 then sys else Next(After(sys, steps[..|steps| - 1]), steps[|steps| - 1])
  }

  // ----- Slots -------------------------------------------------------------

  function Held(sys: Sys): nat { if sys.poller.Holds? then 1 else 0 }

  function Live(sys: Sys): set<Id> {
    set t | t in sys.tasks && !sys.tasks[t].ended
  }

  predicate SlotInv(sys: Sys, max: nat) {
    sys.permits + |sys.tasks| + Held(sys) + sys.lost == max
  }

  predicate NotWaiting(sys: Sys, run: Id) {
    run in sys.used && (run in sys.rows ==> sys.rows[run].status != Queued)
  }

  /** Every key names an existing task and every task has one key, its run. */
  predicate KeyInv(sys: Sys) {
    && (forall k :: k in sys.keyed ==> sys.keyed[k] in sys.tasks && sys.tasks[sys.keyed[k]].run == k)
    && (forall t :: t in sys.tasks ==> sys.tasks[t].run in sys.keyed && sys.keyed[sys.tasks[t].run] == t)
    && (forall t :: t in sys.tasks ==> NotWaiting(sys, sys.tasks[t].run))
    && sys.rows.Keys <= sys.used
  }

  /** A started run never waits again, and a run a dequeue saw and passed over
      ranks after the one it took. */
  predicate StartInv(sys: Sys) {
    && (forall i :: 0 <= i < |sys.started| ==> NotWaiting(sys, sys.started[i].run) && sys.started[i].seen <= sys.used)
    && (forall i, j :: 0 <= i < j < |sys.started| ==> InOrder(sys.started[i], sys.started[j]))
    && (forall i, run :: 0 <= i < |sys.started| && run in sys.started[i].seen && run in sys.rows
                         && sys.rows[run].status == Queued ==>
          Less(sys.started[i].rank, RankOf(sys.rows, run)))
    && sys.rows.Keys <= sys.used
  }

  /** Different runs, and in (created_at, id) order if the later was there to take. */
  predicate InOrder(a: Started, b: Started) {
    a.run != b.run && (b.run in a.seen ==> Less(a.rank, b.rank))
  }

  predicate SysInv(sys: Sys, max: nat) { SlotInv(sys, max) && KeyInv(sys) && StartInv(sys) }

  lemma Removed(tasks: map<Id, Task>, t: Id)
    requires t in tasks
    ensures |tasks - {t}| + 1 == |tasks|
  {
    assert (tasks - {t}).Keys == tasks.Keys - {t};
    assert |tasks.Keys - {t}| + 1 == |tasks.Keys|;
  }

  lemma Added(tasks: map<Id, Task>, t: Id, task: Task)
    ensures |tasks[t := task]| == |tasks| + if t in tasks then 0 else 1
  {
    assert tasks[t := task].Keys == tasks.Keys + {t};
    assert t in tasks ==> tasks.Keys + {t} == tasks.Keys;
  }

  /** The steps of the poller other than a start leave tasks alone. */
  lemma PollerKeepsSlots(sys: Sys, step: Step, max: nat)
    requires SlotInv(sys, max) && !step.Dequeue?
    ensures SlotInv(NextPoller(sys, step), max)
  {
    hide IsNext, MarkInterrupted;
    assert NextPoller(sys, step).tasks == sys.tasks;
  }

  lemma DequeueKeepsSlots(sys: Sys, step: Step, max: nat)
    requires SlotInv(sys, max) && step.Dequeue?
    ensures SlotInv(NextPoller(sys, step), max)
  {
    hide IsNext;
    Added(sys.tasks, step.task, Task(step.run, false));
  }

  lemma NextKeepsSlots(sys: Sys, step: Step, max: nat)
    requires SlotInv(sys, max)
    ensures SlotInv(Next(sys, step), max)
  {
    hide NextPoller, MarkInterrupted, CancelIfInFlight, Finish;
    if step.Dequeue? {
      DequeueKeepsSlots(sys, step, max);
    } else {
      PollerKeepsSlots(sys, step, max);
    }
    if step.TaskEnds? && step.task in sys.tasks {
      Added(sys.tasks, step.task, sys.tasks[step.task].(ended := true));
    } else if step.Callback? && step.task in sys.tasks {
      Removed(sys.tasks, step.task);
    }
  }

  /** Rows keep their rank, none starts to wait, and none appears but by enqueue. */
  predicate RowsAge(a: Rows, b: Rows) {
    b.Keys <= a.Keys && forall id :: id in b ==>
      b[id].createdAt == a[id].createdAt && (b[id].status == Queued ==> a[id].status == Queued)
  }

  lemma RowsAgeKeepsInv(sys: Sys, rows: Rows)
    requires KeyInv(sys) && StartInv(sys) && RowsAge(sys.rows, rows)
    ensures KeyInv(sys.(rows := rows)) && StartInv(sys.(rows := rows))
  {
  }

  lemma EnqueueKeepsInv(sys: Sys, run: Id, row: Row)
    requires KeyInv(sys) && StartInv(sys) && run !in sys.used
    ensures KeyInv(sys.(rows := sys.rows[run := row], used := sys.used + {run}))
    ensures StartInv(sys.(rows := sys.rows[run := row], used := sys.used + {run}))
  {
  }

  lemma TakenKeepsInv(sys: Sys, locked: set<Id>, run: Id)
    requires KeyInv(sys) && StartInv(sys) && IsNext(sys.rows, locked, run)
    ensures KeyInv(Taken(sys, locked, run)) && StartInv(Taken(sys, locked, run))
    ensures NotWaiting(Taken(sys, locked, run), run) && run !in sys.keyed
  {
    var next := Taken(sys, locked, run);
    RowsAgeKeepsInv(sys, next.rows);
    assert sys.rows[run].status == Queued;
    forall i | 0 <= i < |sys.started|
      ensures InOrder(sys.started[i], next.started[|sys.started|])
    {
      assert NotWaiting(sys, sys.started[i].run);
    }
    assert run in sys.keyed ==> NotWaiting(sys, run);
  }

  lemma NewTaskKeepsKeys(sys: Sys, run: Id, task: Id)
    requires KeyInv(sys) && NotWaiting(sys, run) && run !in sys.keyed && task !in sys.tasks
    ensures KeyInv(sys.(tasks := sys.tasks[task := Task(run, false)], keyed := sys.keyed[run := task]))
  {
  }

  /** Keys and starts look only at rows, tasks, keys and the start history. */
  lemma SameKeysAndStarts(a: Sys, b: Sys)
    requires KeyInv(a) && StartInv(a)
    requires a.rows == b.rows && a.used == b.used && a.tasks == b.tasks && a.keyed == b.keyed && a.started == b.started
    ensures KeyInv(b) && StartInv(b)
  {
  }

  lemma TasksKeepInv(sys: Sys, step: Step)
    requires KeyInv(sys) && StartInv(sys) && (step.TaskEnds? || step.Callback?)
    ensures KeyInv(Next(sys, step)) && StartInv(Next(sys, step))
  {
  }

  lemma PollerKeepsInv(sys: Sys, step: Step)
    requires KeyInv(sys) && StartInv(sys)
    ensures KeyInv(NextPoller(sys, step)) && StartInv(NextPoller(sys, step))
  {
    hide KeyInv, StartInv, NotWaiting;
    var next := NextPoller(sys, step);
    match step
    case Dequeue(locked, run, task) =>
      if sys.poller.Holds? && IsNext(sys.rows, locked, run) && task !in sys.tasks {
        TakenKeepsInv(sys, locked, run);
        NewTaskKeepsKeys(Taken(sys, locked, run), run, task);
        StartsIgnoreTasks(Taken(sys, locked, run), next);
        SameKeys(Taken(sys, locked, run).(tasks := next.tasks, keyed := next.keyed), next);
      } else {
        SameKeysAndStarts(sys, next);
      }
    case StartFails(locked, run) =>
      if sys.poller.Holds? && IsNext(sys.rows, locked, run) {
        TakenKeepsInv(sys, locked, run);
        SameKeysAndStarts(Taken(sys, locked, run), next);
      } else {
        SameKeysAndStarts(sys, next);
      }
    case Shutdown(taken) =>
      if sys.poller.Holds? && taken.Some? && IsNext(sys.rows, {}, taken.value) {
        TakenKeepsInv(sys, {}, taken.value);
        SameKeysAndStarts(Taken(sys, {}, taken.value), next);
      } else {
        SameKeysAndStarts(sys, next);
      }
    case _ => SameKeysAndStarts(sys, next);
  }

  lemma StartsIgnoreTasks(a: Sys, b: Sys)
    requires StartInv(a) && a.rows == b.rows && a.used == b.used && a.started == b.started
    ensures StartInv(b)
  {
  }

  lemma SameKeys(a: Sys, b: Sys)
    requires KeyInv(a) && a.rows == b.rows && a.used == b.used && a.tasks == b.tasks && a.keyed == b.keyed
    ensures KeyInv(b)
  {
  }

  lemma NextKeepsInv(sys: Sys, step: Step, max: nat)
    requires SysInv(sys, max)
    ensures SysInv(Next(sys, step), max)
  {
    hide KeyInv, StartInv, NextPoller, SlotInv;
    NextKeepsSlots(sys, step, max);
    match step
    case TaskEnds(task) => TasksKeepInv(sys, step);
    case Callback(task, key) => TasksKeepInv(sys, step);
    case Enqueue(run, row) => if run !in sys.used { EnqueueKeepsInv(sys, run, row); }
    case Cancel(run) => RowsAgeKeepsInv(sys, Next(sys, step).rows);
    case Interrupt(worker) => RowsAgeKeepsInv(sys, Next(sys, step).rows);
    case Delete(run) => RowsAgeKeepsInv(sys, Next(sys, step).rows);
    case End(run, ok) => RowsAgeKeepsInv(sys, Next(sys, step).rows);
    case _ => PollerKeepsInv(sys, step);
  }

  // ----- Over whole runs ---------------------------------------------------

  predicate LosesSlot(sys: Sys, step: Step) { step.Shutdown? && sys.poller.Holds? }

  lemma {:induction false} RunKeepsInv(sys: Sys, steps: seq<Step>, max: nat)
    requires SysInv(sys, max)
    ensures SysInv(After(sys, steps), max)
  {
    if |steps| > 0 {
      hide SysInv, Next;
      RunKeepsInv(sys, steps[..|steps| - 1], max);
      NextKeepsInv(After(sys, steps[..|steps| - 1]), steps[|steps| - 1], max);
    }
  }

  /** Free permits, tasks, the poller's slot and the slots lost to shutdowns
      always add up, so the tasks never exceed the bound; and every task has one
      key, which cancel finds it by. */
  lemma SlotsAreConserved(sys: Sys, steps: seq<Step>, max: nat)
    requires SysInv(sys, max)
    ensures var end := After(sys, steps);
            && end.permits + |end.tasks| + Held(end) + end.lost == max
            && |Live(end)| <= max
            && (forall t, k :: t in end.tasks ==> ((k in end.keyed && end.keyed[k] == t) <==> k == end.tasks[t].run))
  {
    RunKeepsInv(sys, steps, max);
    var end := After(sys, steps);
    SubsetIsSmaller(Live(end), end.tasks.Keys);
  }

  lemma StepLosesSlot(sys: Sys, step: Step)
    ensures Next(sys, step).lost == sys.lost + if LosesSlot(sys, step) then 1 else 0
  {
  }

  predicate NoSlotLost(sys: Sys, steps: seq<Step>) {
    forall i :: 0 <= i < |steps| ==> !LosesSlot(After(sys, steps[..i]), steps[i])
  }

  lemma NoSlotLostSplits(sys: Sys, steps: seq<Step>)
    requires |steps| > 0
    ensures NoSlotLost(sys, steps) <==>
            NoSlotLost(sys, steps[..|steps| - 1]) && !LosesSlot(After(sys, steps[..|steps| - 1]), steps[|steps| - 1])
  {
    hide After, LosesSlot;
    var front := steps[..|steps| - 1];
    assert forall i :: 0 <= i < |front| ==> front[..i] == steps[..i] && front[i] == steps[i];
  }

  /** A slot is lost for good exactly when a shutdown interrupts the poller while
      it holds one: the whole bound is usable iff that never happened. */
  lemma {:induction false} SlotsLostByShutdownOnly(sys: Sys, steps: seq<Step>)
    ensures sys.lost <= After(sys, steps).lost
    ensures After(sys, steps).lost == sys.lost <==> NoSlotLost(sys, steps)
  {
    hide Next, LosesSlot, NoSlotLost;
    if |steps| > 0 {
      var front := steps[..|steps| - 1];
      SlotsLostByShutdownOnly(sys, front);
      StepLosesSlot(After(sys, front), steps[|steps| - 1]);
      NoSlotLostSplits(sys, steps);
    } else {
      NoneLost(sys);
    }
  }

  lemma NoneLost(sys: Sys)
    ensures NoSlotLost(sys, [])
  {
  }

  /** Each run is started at most once, and a run that was waiting and unlocked
      when an earlier one was taken has the later (created_at, id). */
  lemma StartsInOrder(sys: Sys, steps: seq<Step>, max: nat, i: nat, j: nat)
    requires SysInv(sys, max) && i < j < |After(sys, steps).started|
    ensures var started := After(sys, steps).started;
            && started[i].run != started[j].run
            && (started[j].run in started[i].seen ==> Less(started[i].rank, started[j].rank))
  {
    RunKeepsInv(sys, steps, max);
    assert InOrder(After(sys, steps).started[i], After(sys, steps).started[j]);
  }
}
