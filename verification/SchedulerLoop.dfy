/** The scheduler object: its poller loop, the done callback and cancel, each
    shown to take steps of the machine in Scheduler, with anything that can happen
    around them while the poller is suspended. */
module SchedulerLoop {
  import opened Common
  import opened RunQueue
  import opened Scheduler

  /** How the awaited dequeue and the task creation after it go. */
  datatype Outcome = DequeueRaises | StartRaises | Goes

  /** A step of the surroundings, or the event loop running a done callback. */
  datatype Event = Outside(step: Step) | Done(task: Id)

  /** One round of the loop: what happens while the poller waits for a slot, what
      happens while it awaits the dequeue, and how the dequeue goes. */
  datatype Round = Round(waiting: seq<Event>, dequeuing: seq<Event>, locked: set<Id>, outcome: Outcome)

  /** Everything but the poller's own steps and the callbacks. */
  predicate IsOutside(step: Step) {
    step.StartPoller? || step.TaskEnds? || step.Shutdown? || step.Enqueue? || step.Cancel? || step.Interrupt?
    || step.Delete? || step.End?
  }

  lemma AfterOne(sys: Sys, steps: seq<Step>, step: Step)
    ensures After(sys, steps + [step]) == Next(After(sys, steps), step)
  {
    assert (steps + [step])[..|steps|] == steps;
  }

  class AsyncioScheduler {
    const store: Store
    var permits: nat
    var tasks: map<Id, Task>
    var keyed: map<Id, Id>
    var cancelled: set<Id>
    var poller: Poller
    var nextTask: Id
    /** The run ids handed out so far, by whoever creates runs. */
    var used: set<Id>
    ghost var lost: nat
    ghost var started: seq<Started>

    constructor (store: Store, maxConcurrency: nat)
      ensures this.store == store && Valid()
      ensures View() == Sys(store.rows, store.rows.Keys, maxConcurrency, map[], map[], Off, 0, [])
      ensures SysInv(View(), maxConcurrency)
    {
      this.store := store;
      permits, tasks, keyed, cancelled, poller, nextTask := maxConcurrency, map[], map[], {}, Off, 0;
      used, lost, started := store.rows.Keys, 0, [];
    }

    ghost function View(): Sys
      reads this, store
    {
      Sys(store.rows, used, permits, tasks, keyed, poller, lost, started)
    }

    predicate Valid()
      reads this
    {
      forall t :: t in tasks ==> t < nextTask
    }

    /** True exactly when the key has a task that is not done; the store and the
        slots are left alone. */
    method Cancel(key: Id) returns (found: bool)
      requires KeyInv(View())
      modifies this
      ensures View() == old(View()) && (old(Valid()) ==> Valid())
      ensures found <==> exists t :: t in tasks && tasks[t].run == key && !tasks[t].ended
      ensures forall t :: t in tasks && tasks[t].run == key && !tasks[t].ended ==> cancelled == old(cancelled) + {t}
      ensures !found ==> cancelled == old(cancelled)
    {
      found := key in keyed && keyed[key] in tasks && !tasks[keyed[key]].ended;
      if found {
        cancelled := cancelled + {keyed[key]};
      }
    }

    method OnTaskDone(task: Id) returns (ghost step: Step)
      requires task in tasks && tasks[task].ended
      modifies this
      ensures step.Callback? && View() == Next(old(View()), step) && (old(Valid()) ==> Valid())
      ensures task !in tasks && permits == old(permits) + 1 && poller == old(poller)
    {
      tasks := tasks - {task};
      ghost var key := None;
      ghost var was := keyed;
      var rest := keyed.Keys;
      while rest != {}
        invariant rest <= keyed.Keys && keyed == was && key == None
        invariant forall k :: k in keyed && k !in rest ==> keyed[k] != task
        decreases rest
      {
        var k :| k in rest;
        if keyed[k] == task {
          keyed := keyed - {k};
          key := Some(k);
          break;
        }
        rest := rest - {k};
      }
      permits := permits + 1;
      step := Callback(task, key);
    }

    /** One step of the surroundings: start, shutdown, a task that ends, and the
        writers of the run table. */
    method Happens(step: Step)
      requires Valid() && IsOutside(step)
      modifies this, store
      ensures Valid() && View() == Next(old(View()), step)
    {
      match step {
        case StartPoller =>
          if poller == Off {
            poller := Waits;
          }
        case TaskEnds(task) =>
          if task in tasks {
            tasks := tasks[task := tasks[task].(ended := true)];
          }
        case Shutdown(taken) => Stop(taken);
        case Enqueue(run, row) =>
          if run !in used {
            used := used + {run};
            store.rows := store.rows[run := row];
          }
        case Cancel(run) => var _ := store.CancelIfInflight(run);
        case Interrupt(worker) => var _ := store.MarkInterruptedRuns(worker);
        case Delete(run) => var _ := store.DeleteRun(run);
        case End(run, ok) => store.rows := Finish(store.rows, run, ok);
        case _ =>
      }
    }

    /** Shutdown ends the poller wherever it is suspended; a slot it holds is not
        given back, and the dequeue it awaits may or may not have been committed. */
    method Stop(taken: Option<Id>)
      requires Valid()
      modifies this, store
      ensures Valid() && View() == Next(old(View()), Shutdown(taken))
    {
      if poller == Holds {
        lost := lost + 1;
        if taken.Some? && IsNext(store.rows, {}, taken.value) {
          started := started + [Started(taken.value, RankOf(store.rows, taken.value), Waiting(store.rows, {}))];
          store.rows := Start(store.rows, taken.value);
        }
      }
      poller := Off;
    }

    /** What happens while the poller is suspended, in any order. */
    method Meanwhile(events: seq<Event>) returns (ghost steps: seq<Step>)
      requires Valid()
      modifies this, store
      ensures Valid() && View() == After(old(View()), steps)
    {
      hide Next;
      steps := [];
      for i := 0 to |events|
        invariant Valid() && View() == After(old(View()), steps)
      {
        match events[i] {
          case Outside(step) =>
            if IsOutside(step) {
              AfterOne(old(View()), steps, step);
              steps := steps + [step];
              Happens(step);
            }
          case Done(task) =>
            if task in tasks && tasks[task].ended {
              ghost var step := OnTaskDone(task);
              AfterOne(old(View()), steps, step);
              steps := steps + [step];
            }
        }
      }
    }

    /** With a slot in hand: dequeue, and start a task or give the slot back. */
    method DequeueAndStart(locked: set<Id>, outcome: Outcome) returns (ghost step: Step)
      requires Valid() && poller == Holds
      modifies this, store
      ensures Valid() && poller == Waits
      ensures View() == Next(old(View()), step)
    {
      hide IsNext;
      poller := Waits;
      if outcome.DequeueRaises? {
        permits := permits + 1;
        return DequeueFails;
      }
      ghost var rows := store.rows;
      var next := store.DequeueNextQueued(locked);
      match next {
        case None =>
          permits := permits + 1;
          step := DequeueNone(locked);
        case Some(run) =>
          started := started + [Started(run, RankOf(rows, run), Waiting(rows, locked))];
          if outcome.StartRaises? {
            permits := permits + 1;
            step := StartFails(locked, run);
          } else {
            step := Dequeue(locked, run, nextTask);
            tasks := tasks[nextTask := Task(run, false)];
            keyed := keyed[run := nextTask];
            nextTask := nextTask + 1;
          }
      }
    }

    method Acquire()
      requires Valid() && poller == Waits && permits > 0
      modifies this
      ensures Valid() && poller == Holds && View() == Next(old(View()), Step.Acquire)
    {
      AcquireStep(View());
      hide Next;
      poller, permits := Holds, permits - 1;
    }

    /** One turn of the loop body. */
    method Turn(round: Round) returns (ghost steps: seq<Step>)
      requires Valid()
      modifies this, store
      ensures Valid() && View() == After(old(View()), steps)
    {
      hide Next, After;
      steps := Meanwhile(round.waiting);
      if poller == Waits && permits > 0 {
        AfterOne(old(View()), steps, Step.Acquire);
        steps := steps + [Step.Acquire];
        Acquire();
        ghost var rest := Meanwhile(round.dequeuing);
        AfterAll(old(View()), steps, rest);
        steps := steps + rest;
        if poller == Holds {
          ghost var step := DequeueAndStart(round.locked, round.outcome);
          AfterOne(old(View()), steps, step);
          steps := steps + [step];
        }
      }
    }

    /** The loop, and the loops that restarts put in its place, with any steps of
        the surroundings at every await: each such execution is a run of the
        machine, so there are never more tasks than slots. */
    method PollerLoop(rounds: seq<Round>, ghost max: nat) returns (ghost steps: seq<Step>)
      requires Valid() && SysInv(View(), max)
      modifies this, store
      ensures Valid() && View() == After(old(View()), steps)
      ensures SysInv(View(), max) && |tasks| <= max
    {
      hide Next, SysInv;
      steps := [];
      ghost var begin := View();
      for i := 0 to |rounds|
        invariant Valid() && View() == After(begin, steps)
      {
        ghost var turn := Turn(rounds[i]);
        AfterAll(begin, steps, turn);
        steps := steps + turn;
      }
      RunKeepsInv(begin, steps, max);
      SlotsAreConserved(begin, steps, max);
    }
  }

  lemma AcquireStep(sys: Sys)
    requires sys.poller == Waits && sys.permits > 0
    ensures Next(sys, Step.Acquire) == sys.(poller := Holds, permits := sys.permits - 1)
  {
  }

  lemma {:induction false} AfterAll(sys: Sys, first: seq<Step>, second: seq<Step>)
    ensures After(sys, first + second) == After(After(sys, first), second)
  {
    if |second| > 0 {
      var front := second[..|second| - 1];
      AfterAll(sys, first, front);
      assert (first + second)[..|first + second| - 1] == first + front;
    } else {
      assert first + second == first;
    }
  }
}
