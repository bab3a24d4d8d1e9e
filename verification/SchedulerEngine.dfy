/**
 The scheduler's shared objects, updated in place (src/native/scheduler.rs):
 the semaphore, the atomic waiting counter with its drop guard, and the
 requests.  Each method is one atomic step, proved to be the corresponding
 action of the state machine and to keep its invariant.
 */
module SchedulerEngine {
  import opened Wrappers
  import opened Scheduler
  import opened SchedulerProofs

  class NativeSchedulerEngine {
    const config: Config
    var free: nat
    var waiting: int
    var queue: seq<Ticket>
    var tasks: map<TaskId, Task>
    var nextTicket: nat
    ghost var releases: nat
    ghost var grants: seq<nat>
    ghost var starts: seq<nat>

    ghost function Snapshot(): State
      reads this
    {
      State(free, waiting, queue, tasks, nextTicket, releases, grants, starts)
    }

    ghost predicate Valid()
      reads this
    {
      Inv(config, Snapshot())
    }

    constructor (requested: Config)
      ensures config == NewConfig(requested)
      ensures Valid() && Snapshot() == Initial(config)
    {
      config := NewConfig(requested);
      free, waiting, queue := NewConfig(requested).maxConcurrent, 0, [];
      tasks, nextTicket := map[], 0;
      releases, grants, starts := 0, [], [];
      new;
      InitialInv(config);
    }

    method SetPhase(t: TaskId, phase: Phase)
      requires t in tasks
      modifies this`tasks
      ensures Snapshot() == At(old(Snapshot()), t, phase)
    {
      tasks := tasks[t := tasks[t].(phase := phase)];
    }

    /** The permit's `Drop`: hand it to the head of the queue, or free it. */
    method ReleasePermit()
      requires queue != [] ==> queue[0].task in tasks
      modifies this
      ensures Snapshot() == Release(old(Snapshot()))
    {
      releases := releases + 1;
      if queue == [] {
        free := free + 1;
      } else {
        var head := queue[0];
        queue := queue[1..];
        grants := grants + [head.number];
        SetPhase(head.task, Granted);
      }
    }

    method SubmitRequest(t: TaskId, metadata: Metadata)
      requires Valid() && t !in tasks
      modifies this
      ensures Valid() && Snapshot() == Step(config, old(Snapshot()), Submit(t, metadata))
    {
      hide Inv;
      InvQueueInTasks(config, Snapshot());
      StepKeepsInv(config, Snapshot(), Submit(t, metadata));
      tasks := tasks[t := Task(metadata, Submitted, 0, None)];
    }

    /** The first `reject_cancelled_request`. */
    method RejectCancelled(t: TaskId)
      requires Valid() && Enabled(Snapshot(), CheckFirst(t))
      modifies this
      ensures Valid() && Snapshot() == Step(config, old(Snapshot()), CheckFirst(t))
    {
      hide Inv;
      InvQueueInTasks(config, Snapshot());
      StepKeepsInv(config, Snapshot(), CheckFirst(t));
      var cancelled := IsCancelled(tasks[t].metadata);
      SetPhase(t, if cancelled then Done(Cancelled) else Checked);
    }

    /** `try_acquire_owned`. */
    method TryAcquirePermit(t: TaskId)
      requires Valid() && Enabled(Snapshot(), TryAcquire(t))
      modifies this
      ensures Valid() && Snapshot() == Step(config, old(Snapshot()), TryAcquire(t))
    {
      hide Inv;
      InvQueueInTasks(config, Snapshot());
      StepKeepsInv(config, Snapshot(), TryAcquire(t));
      if free > 0 {
        free := free - 1;
        SetPhase(t, Admitted);
      } else {
        SetPhase(t, Adding);
      }
    }

    /** The optimistic `fetch_add` of the wait guard. */
    method EnterFetchAdd(t: TaskId)
      requires Valid() && Enabled(Snapshot(), EnterAdd(t))
      modifies this
      ensures Valid() && Snapshot() == Step(config, old(Snapshot()), EnterAdd(t))
    {
      hide Inv;
      InvQueueInTasks(config, Snapshot());
      StepKeepsInv(config, Snapshot(), EnterAdd(t));
      var queuedBefore := waiting;
      waiting := waiting + 1;
      if queuedBefore >= config.maxQueued {
        SetPhase(t, Undoing);
      } else {
        tasks := tasks[t := tasks[t].(phase := Guarded, queuedBefore := queuedBefore)];
      }
    }

    /** The `fetch_sub` that takes a refused addition back. */
    method EnterFetchSub(t: TaskId)
      requires Valid() && Enabled(Snapshot(), EnterUndo(t))
      modifies this
      ensures Valid() && Snapshot() == Step(config, old(Snapshot()), EnterUndo(t))
    {
      hide Inv;
      InvQueueInTasks(config, Snapshot());
      StepKeepsInv(config, Snapshot(), EnterUndo(t));
      waiting := waiting - 1;
      SetPhase(t, Done(QueueFull));
    }

    /** The first poll of `acquire_owned`: take a free permit or join the queue. */
    method PollAcquireOwned(t: TaskId)
      requires Valid() && Enabled(Snapshot(), PollAcquire(t))
      modifies this
      ensures Valid() && Snapshot() == Step(config, old(Snapshot()), PollAcquire(t))
    {
      hide Inv;
      InvQueueInTasks(config, Snapshot());
      StepKeepsInv(config, Snapshot(), PollAcquire(t));
      if free > 0 {
        free := free - 1;
        SetPhase(t, Granted);
      } else {
        queue := queue + [Ticket(t, nextTicket)];
        tasks := tasks[t := tasks[t].(phase := Queued, ticket := Some(nextTicket))];
        nextTicket := nextTicket + 1;
      }
    }

    /** `drop(wait_guard)` once the permit is held. */
    method DropWaitGuardHoldingPermit(t: TaskId)
      requires Valid() && Enabled(Snapshot(), DropGuard(t))
      modifies this
      ensures Valid() && Snapshot() == Step(config, old(Snapshot()), DropGuard(t))
    {
      hide Inv;
      InvQueueInTasks(config, Snapshot());
      StepKeepsInv(config, Snapshot(), DropGuard(t));
      waiting := waiting - 1;
      SetPhase(t, Admitted);
    }

    /** The second check, the metadata stamps, and the inner engine's call. */
    method EnterInnerEngine(t: TaskId, waitMs: nat)
      requires Valid() && Enabled(Snapshot(), CheckSecond(t, waitMs))
      modifies this
      ensures Valid() && Snapshot() == Step(config, old(Snapshot()), CheckSecond(t, waitMs))
    {
      hide Inv, Stamped;
      InvQueueInTasks(config, Snapshot());
      StepKeepsInv(config, Snapshot(), CheckSecond(t, waitMs));
      var task := tasks[t];
      if IsCancelled(task.metadata) {
        SetPhase(t, Done(Cancelled));
        ReleasePermit();
      } else {
        tasks := tasks[t := task.(phase := Running, metadata := Stamped(config, task.metadata, task.queuedBefore, waitMs))];
        starts := if task.ticket.Some? then starts + [task.ticket.value] else starts;
      }
    }

    method FinishRequest(t: TaskId)
      requires Valid() && Enabled(Snapshot(), Finish(t))
      modifies this
      ensures Valid() && Snapshot() == Step(config, old(Snapshot()), Finish(t))
    {
      hide Inv;
      InvQueueInTasks(config, Snapshot());
      StepKeepsInv(config, Snapshot(), Finish(t));
      SetPhase(t, Done(Finished));
      ReleasePermit();
    }

    /** The caller drops the request's future at an await point. */
    method DropRequestFuture(t: TaskId)
      requires Valid() && Enabled(Snapshot(), DropFuture(t))
      modifies this
      ensures Valid() && Snapshot() == Step(config, old(Snapshot()), DropFuture(t))
    {
      hide Inv;
      InvQueueInTasks(config, Snapshot());
      StepKeepsInv(config, Snapshot(), DropFuture(t));
      var phase := tasks[t].phase;
      if phase.Submitted? {
        SetPhase(t, Done(Abandoned));
      } else if phase.Queued? {
        queue := Without(queue, t);
        SetPhase(t, Unwinding);
      } else if phase.Granted? {
        SetPhase(t, Unwinding);
        ReleasePermit();
      } else {
        SetPhase(t, Done(Abandoned));
        ReleasePermit();
      }
    }

    /** The wait guard's `Drop` after its future was dropped. */
    method DropAbandonedGuard(t: TaskId)
      requires Valid() && Enabled(Snapshot(), DropWaitGuard(t))
      modifies this
      ensures Valid() && Snapshot() == Step(config, old(Snapshot()), DropWaitGuard(t))
    {
      hide Inv;
      InvQueueInTasks(config, Snapshot());
      StepKeepsInv(config, Snapshot(), DropWaitGuard(t));
      waiting := waiting - 1;
      SetPhase(t, Done(Abandoned));
    }

    /** No permit was free: enter the wait guard and poll for a permit, undisturbed. */
    method EnterGuard(t: TaskId, ghost s: State, ghost metadata: Metadata)
      requires Valid() && QueueInTasks(s) && t !in s.tasks && s.free == 0
      requires Snapshot() == With(s, t, Task(metadata, Adding, 0, None))
      modifies this
      ensures Valid() && Snapshot() == Entered(config, s, t, metadata)
    {
      AddingAlone(config, s, t, metadata);
      PollingAlone(config, s, t, metadata);
      hide Inv, Step, Enabled, QueueInTasks, Entered;
      EnterFetchAdd(t);
      if tasks[t].phase.Undoing? {
        EnterFetchSub(t);
      } else {
        PollAcquireOwned(t);
      }
    }

    /** With the first check behind it: take a permit and start, or enter the wait guard. */
    method AcquireAndStart(t: TaskId, waitMs: nat, ghost s: State, ghost metadata: Metadata)
      requires Valid() && QueueInTasks(s) && t !in s.tasks && !IsCancelled(metadata)
      requires Snapshot() == With(s, t, Task(metadata, Checked, 0, None))
      modifies this
      ensures Valid() && Snapshot() == Polled(config, s, t, metadata, waitMs)
    {
      AcquiringAlone(config, s, t, metadata);
      hide Inv, Step, Enabled, Stamped, IsCancelled, QueueInTasks, Entered;
      TryAcquirePermit(t);
      if tasks[t].phase.Admitted? {
        assert Snapshot() == Taken(s, t, metadata);
        hide With, Polled, Taken;
        StartingAlone(config, s, t, metadata, waitMs);
        EnterInnerEngine(t, waitMs);
      } else {
        EnterGuard(t, s, metadata);
      }
    }

    /**
     The first poll of a scheduled request when nobody comes in between: it is
     refused as cancelled, runs at once, is refused without a trace in the
     counter, or queues at the end behind all that wait.
     */
    method FirstPoll(t: TaskId, metadata: Metadata, waitMs: nat)
      requires Valid() && t !in tasks
      modifies this
      ensures Valid() && Snapshot() == Polled(config, old(Snapshot()), t, metadata, waitMs)
    {
      ghost var s := Snapshot();
      InvQueueInTasks(config, s);
      ArrivingAlone(config, s, t, metadata);
      hide Inv, Step, Enabled, Stamped, QueueInTasks, Entered;
      SubmitRequest(t, metadata);
      RejectCancelled(t);
      if tasks[t].phase.Checked? {
        AcquireAndStart(t, waitMs, s, metadata);
      }
    }
  }

  // ------------------------------------------------ one request by itself

  function With(s: State, t: TaskId, task: Task): State {
    s.(tasks := s.tasks[t := task])
  }

  /** Refused at the limit with the counter as it was, or last in the queue. */
  function Entered(c: Config, s: State, t: TaskId, m: Metadata): State {
    if s.waiting >= c.maxQueued then With(s, t, Task(m, Done(QueueFull), 0, None))
    else
      With(s.(waiting := s.waiting + 1, queue := s.queue + [Ticket(t, s.nextTicket)], nextTicket := s.nextTicket + 1),
           t, Task(m, Queued, s.waiting, Some(s.nextTicket)))
  }

  /** What becomes of a request that nobody interrupts, and of the engine. */
  function Polled(c: Config, s: State, t: TaskId, m: Metadata, waitMs: nat): State {
    if IsCancelled(m) then With(s, t, Task(m, Done(Cancelled), 0, None))
    else if s.free > 0 then With(s.(free := s.free - 1), t, Task(Stamped(c, m, 0, waitMs), Running, 0, None))
    else Entered(c, s, t, m)
  }

  lemma ArrivingAlone(c: Config, s: State, t: TaskId, m: Metadata)
    requires QueueInTasks(s) && t !in s.tasks
    ensures Enabled(s, Submit(t, m)) && Step(c, s, Submit(t, m)) == With(s, t, Task(m, Submitted, 0, None))
    ensures var submitted := With(s, t, Task(m, Submitted, 0, None));
      Enabled(submitted, CheckFirst(t)) &&
      Step(c, submitted, CheckFirst(t)) == With(s, t, Task(m, if IsCancelled(m) then Done(Cancelled) else Checked, 0, None))
  {
    hide Stamped, IsCancelled;
  }

  lemma AcquiringAlone(c: Config, s: State, t: TaskId, m: Metadata)
    requires QueueInTasks(s) && t !in s.tasks
    ensures var checked := With(s, t, Task(m, Checked, 0, None));
      Enabled(checked, TryAcquire(t)) &&
      Step(c, checked, TryAcquire(t))
        == if s.free > 0 then Taken(s, t, m) else With(s, t, Task(m, Adding, 0, None))
  {
    hide Stamped, IsCancelled;
  }

  /** A free permit is taken before anything else is touched. */
  function Taken(s: State, t: TaskId, m: Metadata): State
    requires s.free > 0
  {
    With(s.(free := s.free - 1), t, Task(m, Admitted, 0, None))
  }

  lemma StartingAlone(c: Config, s: State, t: TaskId, m: Metadata, waitMs: nat)
    requires QueueInTasks(s) && t !in s.tasks && s.free > 0 && !IsCancelled(m)
    ensures Enabled(Taken(s, t, m), CheckSecond(t, waitMs))
    ensures Step(c, Taken(s, t, m), CheckSecond(t, waitMs)) == Polled(c, s, t, m, waitMs)
  {
    hide Stamped, IsCancelled;
  }

  lemma AddingAlone(c: Config, s: State, t: TaskId, m: Metadata)
    requires QueueInTasks(s) && t !in s.tasks
    ensures var adding, added := With(s, t, Task(m, Adding, 0, None)), s.(waiting := s.waiting + 1);
      Enabled(adding, EnterAdd(t)) &&
      Step(c, adding, EnterAdd(t))
        == With(added, t, if s.waiting >= c.maxQueued then Task(m, Undoing, 0, None) else Task(m, Guarded, s.waiting, None))
  {
  }

  lemma PollingAlone(c: Config, s: State, t: TaskId, m: Metadata)
    requires QueueInTasks(s) && t !in s.tasks && s.free == 0
    ensures var undoing := With(s.(waiting := s.waiting + 1), t, Task(m, Undoing, 0, None));
      Enabled(undoing, EnterUndo(t)) && (s.waiting >= c.maxQueued ==> Step(c, undoing, EnterUndo(t)) == Entered(c, s, t, m))
    ensures var guarded := With(s.(waiting := s.waiting + 1), t, Task(m, Guarded, s.waiting, None));
      Enabled(guarded, PollAcquire(t)) && (s.waiting < c.maxQueued ==> Step(c, guarded, PollAcquire(t)) == Entered(c, s, t, m))
  {
  }
}
