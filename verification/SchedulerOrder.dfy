/**
 Two limits of the scheduler's promises (src/native/scheduler.rs): in which
 order queued requests start, and when the queue counts as full.
 */
module SchedulerOrder {
  import opened Wrappers
  import opened Scheduler
  import opened SchedulerProofs

  // ------------------------------------------------------------ start order

  /** A permit is held under this ticket, and the engine has not been entered. */
  predicate AboutToStart(task: Task) {
    (task.phase.Granted? || task.phase.Admitted?) && task.ticket.Some?
  }

  /** A ticket is only handed out by the queue. */
  predicate BeforeQueue(phase: Phase) {
    phase.Submitted? || phase.Checked? || phase.Adding? || phase.Undoing? || phase.Guarded?
  }

  /** Tickets start in order, and every start precedes all tickets still to start. */
  ghost predicate StartsInOrder(s: State) {
    (forall i, j :: 0 <= i < j < |s.starts| ==> s.starts[i] < s.starts[j]) &&
    (forall n :: n in s.starts ==> n in s.grants) &&
    (forall t :: t in s.tasks && BeforeQueue(s.tasks[t].phase) ==> s.tasks[t].ticket.None?) &&
    (forall t, n :: t in s.tasks && AboutToStart(s.tasks[t]) && n in s.starts ==> n < s.tasks[t].ticket.value) &&
    (forall t :: t in s.tasks && AboutToStart(s.tasks[t]) ==> s.tasks[t].ticket.value in s.grants)
  }

  lemma TwoMembers(s: set<TaskId>, t: TaskId, u: TaskId)
    requires t in s && u in s && t != u
    ensures |s| >= 2
  {
    OneFewer(s, t);
    OneFewer(s - {t}, u);
  }

  /** With one permit there is one holder. */
  lemma OneHolder(c: Config, s: State, t: TaskId, u: TaskId)
    requires Inv(c, s) && c.maxConcurrent <= 1
    requires t in s.tasks && u in s.tasks && HoldsPermit(s.tasks[t].phase) && HoldsPermit(s.tasks[u].phase)
    ensures t == u
  {
    if t != u {
      TwoMembers(Those(s.tasks, HoldsPermit), t, u);
    }
  }

  lemma ReleaseKeepsStarts(c: Config, s: State)
    requires Owing(c, s, 1) && StartsInOrder(s) && s.queue != []
    ensures s.queue[0] in s.queue && StartsInOrder(Release(s))
  {
  }

  /** Moving one task on, without starting it and without a new ticket to start. */
  lemma MoveKeepsStarts(s: State, s': State, t: TaskId, task: Task)
    requires StartsInOrder(s)
    requires s'.tasks == s.tasks[t := task] && s'.starts == s.starts && s'.grants == s.grants
    requires AboutToStart(task) ==> t in s.tasks && AboutToStart(s.tasks[t]) && task.ticket == s.tasks[t].ticket
    requires BeforeQueue(task.phase) ==> task.ticket.None?
    ensures StartsInOrder(s')
  {
  }

  /** Starting the only holder. */
  lemma StartKeepsStarts(s: State, s': State, u: TaskId, task: Task)
    requires StartsInOrder(s) && u in s.tasks && AboutToStart(s.tasks[u])
    requires forall t :: t in s.tasks && t != u ==> !AboutToStart(s.tasks[t])
    requires s'.tasks == s.tasks[u := task] && task.phase.Running?
    requires s'.starts == s.starts + [s.tasks[u].ticket.value] && s'.grants == s.grants
    ensures StartsInOrder(s')
  {
    forall i, j | 0 <= i < j < |s'.starts|
      ensures s'.starts[i] < s'.starts[j]
    {
      assert s'.starts[i] in s.starts;
    }
  }

  lemma OnlyOneAboutToStart(c: Config, s: State, u: TaskId)
    requires Inv(c, s) && c.maxConcurrent <= 1 && u in s.tasks && HoldsPermit(s.tasks[u].phase)
    ensures forall t :: t in s.tasks && t != u ==> !AboutToStart(s.tasks[t])
  {
    forall t | t in s.tasks && t != u && AboutToStart(s.tasks[t])
      ensures false
    {
      OneHolder(c, s, t, u);
    }
  }

  lemma FreeKeepsStarts(s: State)
    requires StartsInOrder(s) && s.queue == []
    ensures StartsInOrder(Release(s))
  {
  }

  /** Everything but entering the engine and giving a permit back. */
  lemma MovesKeepStarts(s: State, s': State, c: Config, a: Action)
    requires StartsInOrder(s) && QueueInTasks(s) && Enabled(s, a) && s' == Step(c, s, a)
    requires !a.CheckSecond? && (IsQuiet(s, a) || a.PollAcquire? || (a.DropFuture? && s.tasks[a.task].phase.Queued?))
    ensures StartsInOrder(s')
  {
    assert !a.Submit? && BeforeQueue(s.tasks[a.task].phase) ==> s.tasks[a.task].ticket.None?;
    hide StartsInOrder;
    MoveKeepsStarts(s, s', a.task, s'.tasks[a.task]);
  }

  lemma EnterKeepsStarts(c: Config, s: State, u: TaskId, waitMs: nat)
    requires Inv(c, s) && QueueInTasks(s) && c.maxConcurrent <= 1 && StartsInOrder(s)
    requires Enabled(s, CheckSecond(u, waitMs)) && !IsCancelled(s.tasks[u].metadata)
    ensures StartsInOrder(Step(c, s, CheckSecond(u, waitMs)))
  {
    hide Inv, Stamped, StartsInOrder;
    var s' := Step(c, s, CheckSecond(u, waitMs));
    OnlyOneAboutToStart(c, s, u);
    if s.tasks[u].ticket.Some? {
      StartKeepsStarts(s, s', u, s'.tasks[u]);
    } else {
      MoveKeepsStarts(s, s', u, s'.tasks[u]);
    }
  }

  lemma LetGoKeepsStarts(c: Config, s: State, u: TaskId, phase: Phase)
    requires Inv(c, s) && StartsInOrder(s) && u in s.tasks && HoldsPermit(s.tasks[u].phase)
    requires if s.tasks[u].phase.Granted? then phase.Unwinding? else phase.Done?
    ensures QueueInTasks(At(s, u, phase))
    ensures StartsInOrder(Release(At(s, u, phase)))
  {
    InvQueueInTasks(c, s);
    HolderLetsGo(c, s, u, phase);
    var letGo := At(s, u, phase);
    hide Inv, Owing, StartsInOrder;
    MoveKeepsStarts(s, letGo, u, letGo.tasks[u]);
    if s.queue != [] {
      ReleaseKeepsStarts(c, letGo);
    } else {
      FreeKeepsStarts(letGo);
    }
  }

  lemma StepKeepsStarts(c: Config, s: State, a: Action)
    requires Inv(c, s) && c.maxConcurrent <= 1 && StartsInOrder(s)
    ensures StartsInOrder(Step(c, s, a))
  {
    hide Inv, Stamped, StartsInOrder;
    InvQueueInTasks(c, s);
    if Enabled(s, a) {
      var u := a.task;
      if a.CheckSecond? && !IsCancelled(s.tasks[u].metadata) {
        EnterKeepsStarts(c, s, u, a.waitMs);
      } else if IsQuiet(s, a) || a.PollAcquire? || (a.DropFuture? && s.tasks[u].phase.Queued?) {
        MovesKeepStarts(s, Step(c, s, a), c, a);
      } else {
        LetGoKeepsStarts(c, s, u, LetGoPhase(s, a));
      }
    }
  }

  lemma {:induction false} RunKeepsStarts(c: Config, s: State, actions: seq<Action>)
    requires Inv(c, s) && c.maxConcurrent <= 1 && StartsInOrder(s)
    ensures StartsInOrder(Run(c, s, actions))
    decreases |actions|
  {
    hide Inv, StartsInOrder, Step;
    if actions == [] {
    } else {
      StepKeepsInv(c, s, actions[0]);
      StepKeepsStarts(c, s, actions[0]);
      RunKeepsStarts(c, Step(c, s, actions[0]), actions[1..]);
    }
  }

  ghost predicate Increasing(numbers: seq<nat>) {
    forall i, j :: 0 <= i < j < |numbers| ==> numbers[i] < numbers[j]
  }

  /** With one permit, the default, queued requests enter the engine in queue order. */
  lemma OnePermitStartsInQueueOrder(c: Config, actions: seq<Action>)
    requires c.maxConcurrent <= 1
    ensures Increasing(Run(c, Initial(c), actions).starts)
  {
    InitialInv(c);
    RunKeepsStarts(c, Initial(c), actions);
  }

  // ------------------------------------------------- no queue, nothing to order

  predicate NobodyQueues(s: State) {
    s.starts == [] && s.queue == [] && forall t :: t in s.tasks ==> s.tasks[t].ticket.None? && !HoldsGuard(s.tasks[t].phase)
  }

  /** A quiet step hands out no ticket, and starts a ticket only if the task has one. */
  lemma QuietTickets(c: Config, s: State, a: Action)
    requires QueueInTasks(s) && Enabled(s, a) && IsQuiet(s, a)
    ensures var s' := Step(c, s, a);
      a.task in s'.tasks && s'.tasks[a.task].ticket == (if a.Submit? then None else s.tasks[a.task].ticket) &&
      (s'.starts == s.starts || s'.tasks[a.task].ticket.Some?)
  {
    hide Stamped, IsCancelled, Without, Release, QueueInTasks;
    assert QueueInTasks(s);
  }

  lemma QuietKeepsNobody(c: Config, s: State, a: Action)
    requires Inv(c, s) && c.maxQueued == 0 && NobodyQueues(s) && QueueInTasks(s) && Enabled(s, a) && IsQuiet(s, a)
    ensures NobodyQueues(Step(c, s, a))
  {
    CounterNeverUnderflows(c, s);
    QuietMoves(c, s, a);
    QuietTickets(c, s, a);
    hide Inv, Step;
  }

  lemma ReleaseKeepsNobody(s: State, t: TaskId, phase: Phase)
    requires NobodyQueues(s) && t in s.tasks && !HoldsGuard(phase)
    ensures QueueInTasks(At(s, t, phase)) && NobodyQueues(Release(At(s, t, phase)))
  {
  }

  lemma StepKeepsNobody(c: Config, s: State, a: Action)
    requires Inv(c, s) && c.maxQueued == 0 && NobodyQueues(s)
    ensures NobodyQueues(Step(c, s, a))
  {
    InvQueueInTasks(c, s);
    if Enabled(s, a) {
      if IsQuiet(s, a) {
        QuietKeepsNobody(c, s, a);
      } else {
        hide Inv, IsCancelled, Without, Release, Stamped;
        ReleaseKeepsNobody(s, a.task, LetGoPhase(s, a));
      }
    }
  }

  lemma {:induction false} NoQueueNoStarts(c: Config, s: State, actions: seq<Action>)
    requires Inv(c, s) && c.maxQueued == 0 && NobodyQueues(s)
    ensures NobodyQueues(Run(c, s, actions))
    decreases |actions|
  {
    hide Inv, NobodyQueues, Step;
    if actions == [] {
    } else {
      StepKeepsInv(c, s, actions[0]);
      StepKeepsNobody(c, s, actions[0]);
      NoQueueNoStarts(c, Step(c, s, actions[0]), actions[1..]);
    }
  }

  // ------------------------------------------------------- building runs

  /** Submits a request and drives it to its place in the queue. */
  function QueueUp(t: TaskId): seq<Action> {
    AddToCounter(t) + [PollAcquire(t)]
  }

  /** Submits a request that finds no permit and adds itself to the counter. */
  function AddToCounter(t: TaskId): seq<Action> {
    [Submit(t, map[]), CheckFirst(t), TryAcquire(t), EnterAdd(t)]
  }

  /** Submits a request that finds a free permit. */
  function GoStraightIn(t: TaskId): seq<Action> {
    [Submit(t, map[]), CheckFirst(t), TryAcquire(t), CheckSecond(t)]
  }

  lemma {:induction false} RunAppend(c: Config, s: State, first: seq<Action>, second: seq<Action>)
    ensures Run(c, s, first + second) == Run(c, Run(c, s, first), second)
    decreases |first|
  {
    if first == [] {
      assert first + second == second;
    } else {
      assert (first + second)[1..] == first[1..] + second;
      RunAppend(c, Step(c, s, first[0]), first[1..], second);
    }
  }

  lemma RunFour(c: Config, s: State, a: Action, b: Action, d: Action, e: Action)
    ensures Run(c, s, [a, b, d, e]) == Step(c, Step(c, Step(c, Step(c, s, a), b), d), e)
  {
    hide Step;
    RunTwo(c, s, a, b);
    assert [a, b] + [d, e] == [a, b, d, e];
    RunAppend(c, s, [a, b], [d, e]);
    RunTwo(c, Step(c, Step(c, s, a), b), d, e);
  }

  lemma RunTwo(c: Config, s: State, a: Action, b: Action)
    ensures Run(c, s, [a, b]) == Step(c, Step(c, s, a), b)
  {
    hide Step;
    assert [a, b][1..] == [b] && [b][1..] == [];
    assert Run(c, s, [a, b]) == Run(c, Step(c, s, a), [b]);
    assert Run(c, Step(c, s, a), [b]) == Run(c, Step(c, Step(c, s, a), b), []);
  }

  /** The first two steps of any request that is not cancelled. */
  lemma Arrives(c: Config, s: State, t: TaskId)
    requires t !in s.tasks && QueueInTasks(s)
    ensures Step(c, Step(c, s, Submit(t, map[])), CheckFirst(t)) == s.(tasks := s.tasks[t := Task(map[], Checked, 0, None)])
  {
  }

  lemma StraightIn(c: Config, s: State, t: TaskId)
    requires t !in s.tasks && s.free > 0 && QueueInTasks(s)
    ensures Run(c, s, GoStraightIn(t))
         == s.(free := s.free - 1, tasks := s.tasks[t := Task(Stamped(c, map[], 0, 0), Running, 0, None)])
  {
    hide Stamped;
    RunFour(c, s, Submit(t, map[]), CheckFirst(t), TryAcquire(t), CheckSecond(t));
    Arrives(c, s, t);
    var s2 := s.(tasks := s.tasks[t := Task(map[], Checked, 0, None)]);
    var s3 := Step(c, s2, TryAcquire(t));
    assert s3 == s.(free := s.free - 1, tasks := s.tasks[t := Task(map[], Admitted, 0, None)]);
    assert Step(c, s3, CheckSecond(t)).tasks == s.tasks[t := Task(Stamped(c, map[], 0, 0), Running, 0, None)];
  }

  /** With no permit free, a request adds itself to the counter and is guarded or refused. */
  lemma Adds(c: Config, s: State, t: TaskId)
    requires t !in s.tasks && s.free == 0 && QueueInTasks(s)
    ensures Run(c, s, AddToCounter(t)) == s.(waiting := s.waiting + 1, tasks := s.tasks[t :=
      if s.waiting < c.maxQueued then Task(map[], Guarded, s.waiting, None) else Task(map[], Undoing, 0, None)])
  {
    RunFour(c, s, Submit(t, map[]), CheckFirst(t), TryAcquire(t), EnterAdd(t));
    Arrives(c, s, t);
    var s2 := s.(tasks := s.tasks[t := Task(map[], Checked, 0, None)]);
    var s3 := Step(c, s2, TryAcquire(t));
    assert s3 == s.(tasks := s.tasks[t := Task(map[], Adding, 0, None)]);
    var s4 := Step(c, s3, EnterAdd(t));
    assert s4.tasks == s.tasks[t := s4.tasks[t]];
  }

  lemma Queues(c: Config, s: State, t: TaskId)
    requires t !in s.tasks && s.free == 0 && QueueInTasks(s) && s.waiting < c.maxQueued
    ensures Run(c, s, QueueUp(t))
         == s.(waiting := s.waiting + 1, queue := s.queue + [Ticket(t, s.nextTicket)], nextTicket := s.nextTicket + 1,
               tasks := s.tasks[t := Task(map[], Queued, s.waiting, Some(s.nextTicket))])
  {
    RunAppend(c, s, AddToCounter(t), [PollAcquire(t)]);
    Adds(c, s, t);
    var s4 := Run(c, s, AddToCounter(t));
    var s5 := Step(c, s4, PollAcquire(t));
    assert s5.tasks == s.tasks[t := Task(map[], Queued, s.waiting, Some(s.nextTicket))];
    assert Run(c, s4, [PollAcquire(t)]) == Run(c, s5, []);
  }

  // ------------------------------------------------- two permits, two waiters

  /** Requests 0 to n - 1 take a permit each. */
  function FillPermits(n: nat): seq<Action> {
    if n == 0 then [] else FillPermits(n - 1) + GoStraightIn(n - 1)
  }

  /** Requests 0 to n - 1 run, and nothing else has happened. */
  predicate OnlyRunning(c: Config, s: State, n: nat) {
    s.free + n == c.maxConcurrent && s.waiting == 0 && s.queue == [] && s.starts == [] && s.nextTicket == 0 &&
    (forall t :: t in s.tasks ==> t < n && s.tasks[t].phase.Running?) && (forall t: nat :: t < n ==> t in s.tasks)
  }

  lemma {:induction false} FillsPermits(c: Config, n: nat)
    requires n <= c.maxConcurrent
    ensures OnlyRunning(c, Run(c, Initial(c), FillPermits(n)), n)
  {
    hide Run, Stamped;
    if n == 0 {
      RunNothing(c, Initial(c));
    } else {
      FillsPermits(c, n - 1);
      RunAppend(c, Initial(c), FillPermits(n - 1), GoStraightIn(n - 1));
      StraightIn(c, Run(c, Initial(c), FillPermits(n - 1)), n - 1);
    }
  }

  lemma RunNothing(c: Config, s: State)
    ensures Run(c, s, []) == s
  {
  }

  /** Request `v` queues, `u` finishes, and `v` drops its guard: it is about to check again. */
  function TakeOver(u: TaskId, v: TaskId): seq<Action> {
    QueueUp(v) + [Finish(u), DropGuard(v)]
  }

  lemma TakesOver(c: Config, s: State, u: TaskId, v: TaskId)
    requires s.free == 0 && s.waiting == 0 < c.maxQueued && s.queue == []
    requires u in s.tasks && s.tasks[u].phase.Running? && v !in s.tasks
    ensures Run(c, s, TakeOver(u, v))
         == s.(nextTicket := s.nextTicket + 1, releases := s.releases + 1, grants := s.grants + [s.nextTicket],
               tasks := s.tasks[u := s.tasks[u].(phase := Done(Finished))][v := Task(map[], Admitted, 0, Some(s.nextTicket))])
  {
    RunAppend(c, s, QueueUp(v), [Finish(u), DropGuard(v)]);
    Queues(c, s, v);
    hide Run, QueueUp, Step;
    var s1 := Run(c, s, QueueUp(v));
    RunTwo(c, s1, Finish(u), DropGuard(v));
    FinishHandsOn(c, s1, u, v, s.nextTicket);
    GuardDrops(c, Step(c, s1, Finish(u)), v);
    assert s1.tasks[u := s1.tasks[u].(phase := Done(Finished))]
        == s.tasks[u := s.tasks[u].(phase := Done(Finished))][v := s1.tasks[v]];
  }

  lemma GuardDrops(c: Config, s: State, v: TaskId)
    requires v in s.tasks && s.tasks[v].phase.Granted? && s.queue == []
    ensures Step(c, s, DropGuard(v))
         == s.(waiting := s.waiting - 1, tasks := s.tasks[v := s.tasks[v].(phase := Admitted)])
  {
  }

  /** Finishing hands the permit to the only waiter. */
  lemma FinishHandsOn(c: Config, s: State, u: TaskId, v: TaskId, number: nat)
    requires s.queue == [Ticket(v, number)] && u in s.tasks && v in s.tasks && u != v && s.tasks[u].phase.Running?
    ensures Step(c, s, Finish(u))
         == s.(queue := [], releases := s.releases + 1, grants := s.grants + [number],
               tasks := s.tasks[u := s.tasks[u].(phase := Done(Finished))][v := s.tasks[v].(phase := Granted)])
  {
    assert s.queue[1..] == [];
  }

  /** All permits run, two requests queue and are granted in order; the later one is polled first. */
  function OvertakingRun(permits: nat): seq<Action> {
    FillPermits(permits) + TakeOver(0, permits) + TakeOver(1, permits + 1) + [CheckSecond(permits + 1), CheckSecond(permits)]
  }

  lemma BothEnter(c: Config, s: State, u: TaskId, v: TaskId, m: nat, n: nat)
    requires s.queue == [] && u != v && u in s.tasks && v in s.tasks
    requires s.tasks[u] == Task(map[], Admitted, 0, Some(m)) && s.tasks[v] == Task(map[], Admitted, 0, Some(n))
    ensures Run(c, s, [CheckSecond(v), CheckSecond(u)]).starts == (s.starts + [n]) + [m]
  {
    hide Stamped, Run;
    RunTwo(c, s, CheckSecond(v), CheckSecond(u));
  }

  /**
   With several permits and a queue the promise is weaker: permits are
   granted in queue order, but granted requests may enter the engine in either.
   */
  lemma SeveralPermitsMayReorder(c: Config)
    requires c.maxConcurrent >= 2 && c.maxQueued >= 1
    ensures Run(c, Initial(c), OvertakingRun(c.maxConcurrent)).starts == [1, 0]
  {
    hide Run, TakeOver, FillPermits;
    var k := c.maxConcurrent;
    var s0 := Initial(c);
    FillsPermits(c, k);
    RunAppend(c, s0, FillPermits(k), TakeOver(0, k));
    TakesOver(c, Run(c, s0, FillPermits(k)), 0, k);
    RunAppend(c, s0, FillPermits(k) + TakeOver(0, k), TakeOver(1, k + 1));
    TakesOver(c, Run(c, s0, FillPermits(k) + TakeOver(0, k)), 1, k + 1);
    var waited := FillPermits(k) + TakeOver(0, k) + TakeOver(1, k + 1);
    RunAppend(c, s0, waited, [CheckSecond(k + 1), CheckSecond(k)]);
    BothEnter(c, Run(c, s0, waited), k, k + 1, 0, 1);
  }

  /**
   MAIN: every run starts queued requests in queue order if and only if there is
   one permit, or no queue.
   */
  lemma StartsInQueueOrderIff(c: Config)
    ensures (forall actions :: Increasing(Run(c, Initial(c), actions).starts)) <==> c.maxConcurrent <= 1 || c.maxQueued == 0
  {
    hide Run;
    if c.maxConcurrent <= 1 {
      forall actions
        ensures Increasing(Run(c, Initial(c), actions).starts)
      {
        OnePermitStartsInQueueOrder(c, actions);
      }
    } else if c.maxQueued == 0 {
      InitialInv(c);
      forall actions
        ensures Increasing(Run(c, Initial(c), actions).starts)
      {
        NoQueueNoStarts(c, Initial(c), actions);
      }
    } else {
      SeveralPermitsMayReorder(c);
      var starts: seq<nat> := [1, 0];
      assert starts[0] > starts[1];
    }
  }

  // --------------------------------------------------------- a full queue

  /**
   When `enter` refuses: live guards and additions not yet undone fill the limit.
   Otherwise the request keeps in mind how many of them it found.
   */
  lemma RefusedIff(c: Config, actions: seq<Action>, t: TaskId)
    requires Enabled(Run(c, Initial(c), actions), EnterAdd(t))
    ensures var s := Run(c, Initial(c), actions);
      var s' := Step(c, s, EnterAdd(t));
      t in s'.tasks &&
      (s'.tasks[t].phase.Undoing? <==> Count(s.tasks, HoldsGuard) + Count(s.tasks, IsUndoing) >= c.maxQueued) &&
      (s'.tasks[t].phase.Guarded? <==> Count(s.tasks, HoldsGuard) + Count(s.tasks, IsUndoing) < c.maxQueued) &&
      (s'.tasks[t].phase.Guarded? ==> s'.tasks[t].queuedBefore == Count(s.tasks, HoldsGuard) + Count(s.tasks, IsUndoing))
  {
    InitialInv(c);
    RunKeepsInv(c, Initial(c), actions);
    InvQueueInTasks(c, Run(c, Initial(c), actions));
  }

  /**
   All permits are out, `guards` requests wait in the queue, `undoing` are about to
   take their addition back, and the numbers from `next` on are not in use.
   */
  ghost predicate Standing(c: Config, s: State, guards: nat, undoing: nat, next: TaskId) {
    Inv(c, s) && s.free == 0 && Count(s.tasks, HoldsGuard) == guards && Count(s.tasks, IsUndoing) == undoing &&
    forall t :: t in s.tasks ==> t < next && (HoldsGuard(s.tasks[t].phase) ==> s.tasks[t].phase.Queued?)
  }

  lemma OneQueues(c: Config, s: State, guards: nat, undoing: nat, next: TaskId)
    requires Standing(c, s, guards, undoing, next) && guards + undoing < c.maxQueued
    ensures Standing(c, Run(c, s, QueueUp(next)), guards + 1, undoing, next + 1)
  {
    hide Run, QueueUp, Ordered, GuardsBounded, NoneCancelled, PositionsBounded, Count;
    InvQueueInTasks(c, s);
    RunKeepsInv(c, s, QueueUp(next));
    Queues(c, s, next);
    CountsUpdate(s.tasks, next, Task(map[], Queued, s.waiting, Some(s.nextTicket)));
  }

  lemma OneAdds(c: Config, s: State, guards: nat, undoing: nat, next: TaskId)
    requires Standing(c, s, guards, undoing, next) && guards + undoing >= c.maxQueued
    ensures Standing(c, Run(c, s, AddToCounter(next)), guards, undoing + 1, next + 1)
  {
    hide Run, AddToCounter, Ordered, GuardsBounded, NoneCancelled, PositionsBounded, Count;
    InvQueueInTasks(c, s);
    RunKeepsInv(c, s, AddToCounter(next));
    Adds(c, s, next);
    CountsUpdate(s.tasks, next, Task(map[], Undoing, 0, None));
  }

  lemma GivesUp(c: Config, s: State, t: TaskId)
    requires QueueInTasks(s) && t in s.tasks && s.tasks[t].phase.Queued?
    ensures Run(c, s, [DropFuture(t), DropWaitGuard(t)]) == s.(waiting := s.waiting - 1, queue := Without(s.queue, t),
      tasks := s.tasks[t := s.tasks[t].(phase := Done(Abandoned))])
  {
    hide IsCancelled, Stamped;
    RunTwo(c, s, DropFuture(t), DropWaitGuard(t));
    WithoutMembers(s.queue, t);
    var s1 := At(s.(queue := Without(s.queue, t)), t, Unwinding);
    assert Step(c, s, DropFuture(t)) == s1;
    assert QueueInTasks(s1) by { hide Without; assert forall x :: x in s1.queue ==> x in s.queue; }
    assert Step(c, s1, DropWaitGuard(t)).tasks == s.tasks[t := s.tasks[t].(phase := Done(Abandoned))];
  }

  lemma OneGivesUp(c: Config, s: State, guards: nat, undoing: nat, next: TaskId) returns (actions: seq<Action>)
    requires Standing(c, s, guards, undoing, next) && guards > 0
    ensures Standing(c, Run(c, s, actions), guards - 1, undoing, next)
  {
    hide Run, Inv, Count, Without, Step;
    NoneCounted(s.tasks, HoldsGuard);
    var t :| t in s.tasks && HoldsGuard(s.tasks[t].phase);
    actions := [DropFuture(t), DropWaitGuard(t)];
    InvQueueInTasks(c, s);
    RunKeepsInv(c, s, actions);
    GivesUp(c, s, t);
    CountsUpdate(s.tasks, t, s.tasks[t].(phase := Done(Abandoned)));
  }

  lemma {:induction false} ManyQueue(c: Config, s: State, guards: nat, undoing: nat, next: TaskId, n: nat) returns (actions: seq<Action>)
    requires Standing(c, s, guards, undoing, next) && guards + undoing + n <= c.maxQueued
    ensures Standing(c, Run(c, s, actions), guards + n, undoing, next + n)
    decreases n
  {
    hide Run, Standing, QueueUp;
    if n == 0 {
      actions := [];
      RunNothing(c, s);
    } else {
      OneQueues(c, s, guards, undoing, next);
      var rest := ManyQueue(c, Run(c, s, QueueUp(next)), guards + 1, undoing, next + 1, n - 1);
      actions := QueueUp(next) + rest;
      RunAppend(c, s, QueueUp(next), rest);
    }
  }

  lemma {:induction false} ManyAdd(c: Config, s: State, guards: nat, undoing: nat, next: TaskId, n: nat) returns (actions: seq<Action>)
    requires Standing(c, s, guards, undoing, next) && guards + undoing >= c.maxQueued
    ensures Standing(c, Run(c, s, actions), guards, undoing + n, next + n)
    decreases n
  {
    hide Run, Standing, AddToCounter;
    if n == 0 {
      actions := [];
      RunNothing(c, s);
    } else {
      OneAdds(c, s, guards, undoing, next);
      var rest := ManyAdd(c, Run(c, s, AddToCounter(next)), guards, undoing + 1, next + 1, n - 1);
      actions := AddToCounter(next) + rest;
      RunAppend(c, s, AddToCounter(next), rest);
    }
  }

  lemma {:induction false} AllGiveUp(c: Config, s: State, guards: nat, undoing: nat, next: TaskId) returns (actions: seq<Action>)
    requires Standing(c, s, guards, undoing, next)
    ensures Standing(c, Run(c, s, actions), 0, undoing, next)
    decreases guards
  {
    hide Run, Standing;
    if guards == 0 {
      actions := [];
      RunNothing(c, s);
    } else {
      var first := OneGivesUp(c, s, guards, undoing, next);
      var rest := AllGiveUp(c, Run(c, s, first), guards - 1, undoing, next);
      actions := first + rest;
      RunAppend(c, s, first, rest);
    }
  }

  /** Submits a request that finds no permit and is about to add itself to the counter. */
  function Reach(t: TaskId): seq<Action> {
    [Submit(t, map[]), CheckFirst(t)] + [TryAcquire(t)]
  }

  lemma Reaches(c: Config, s: State, t: TaskId)
    requires t !in s.tasks && s.free == 0 && QueueInTasks(s)
    ensures Run(c, s, Reach(t)) == s.(tasks := s.tasks[t := Task(map[], Adding, 0, None)])
  {
    RunAppend(c, s, [Submit(t, map[]), CheckFirst(t)], [TryAcquire(t)]);
    RunTwo(c, s, Submit(t, map[]), CheckFirst(t));
    Arrives(c, s, t);
    var s2 := s.(tasks := s.tasks[t := Task(map[], Checked, 0, None)]);
    var s3 := Step(c, s2, TryAcquire(t));
    assert s3 == s.(tasks := s.tasks[t := Task(map[], Adding, 0, None)]);
    assert Run(c, s2, [TryAcquire(t)]) == Run(c, s3, []);
  }

  lemma FilledStands(c: Config)
    ensures Standing(c, Run(c, Initial(c), FillPermits(c.maxConcurrent)), 0, 0, c.maxConcurrent)
  {
    hide Run, FillPermits;
    InitialInv(c);
    RunKeepsInv(c, Initial(c), FillPermits(c.maxConcurrent));
    FillsPermits(c, c.maxConcurrent);
    var s := Run(c, Initial(c), FillPermits(c.maxConcurrent));
    NoneCounted(s.tasks, HoldsGuard);
    NoneCounted(s.tasks, IsUndoing);
  }

  /** The request is refused although fewer requests wait than may. */
  ghost predicate RefusedWithRoom(c: Config, s: State, t: TaskId) {
    RefusedNow(c, s, t) && Count(s.tasks, HoldsGuard) < c.maxQueued
  }

  predicate RefusedNow(c: Config, s: State, t: TaskId) {
    Enabled(s, EnterAdd(t)) && t in Step(c, s, EnterAdd(t)).tasks && Step(c, s, EnterAdd(t)).tasks[t].phase.Undoing?
  }

  /**
   Under every configuration some run refuses a request "queue is full" while
   nobody at all is waiting: the queue fills, as many requests again add themselves
   and are refused, and before those undo their additions all that waited give up.
   */
  lemma FullWithoutWaiters(c: Config) returns (actions: seq<Action>, t: TaskId)
    ensures var s := Run(c, Initial(c), actions);
      RefusedNow(c, s, t) && Count(s.tasks, HoldsGuard) == 0 && s.queue == []
  {
    hide Run, Standing, Inv, FillPermits;
    var s0, m, k := Initial(c), c.maxQueued, c.maxConcurrent;
    FilledStands(c);
    var queueing := ManyQueue(c, Run(c, s0, FillPermits(k)), 0, 0, k, m);
    RunAppend(c, s0, FillPermits(k), queueing);
    var adding := ManyAdd(c, Run(c, s0, FillPermits(k) + queueing), m, 0, k + m, m);
    RunAppend(c, s0, FillPermits(k) + queueing, adding);
    var leaving := AllGiveUp(c, Run(c, s0, FillPermits(k) + queueing + adding), m, m, k + m + m);
    RunAppend(c, s0, FillPermits(k) + queueing + adding, leaving);
    var before := FillPermits(k) + queueing + adding + leaving;
    t := k + m + m;
    actions := before + Reach(t);
    RunAppend(c, s0, before, Reach(t));
    AloneIsRefused(c, Run(c, s0, before), m, t);
  }

  lemma WaitersHoldGuards(c: Config, s: State)
    requires Inv(c, s)
    ensures s.queue != [] ==> Count(s.tasks, HoldsGuard) > 0
  {
    if s.queue != [] {
      assert s.queue[0] in s.queue;
      NoneCounted(s.tasks, HoldsGuard);
    }
  }

  lemma AloneIsRefused(c: Config, s: State, undoing: nat, t: TaskId)
    requires Standing(c, s, 0, undoing, t) && undoing >= c.maxQueued
    ensures var s' := Run(c, s, Reach(t));
      RefusedNow(c, s', t) && Count(s'.tasks, HoldsGuard) == 0 && s'.queue == []
  {
    hide Run, Reach, Ordered, GuardsBounded, NoneCancelled, PositionsBounded, Count;
    InvQueueInTasks(c, s);
    Reaches(c, s, t);
    WaitersHoldGuards(c, s);
    CountsUpdate(s.tasks, t, Task(map[], Adding, 0, None));
  }

  /** So a request can be refused although the queue has room exactly where there is a queue. */
  lemma RefusedWithRoomIff(c: Config)
    ensures (exists actions, t :: RefusedWithRoom(c, Run(c, Initial(c), actions), t)) <==> c.maxQueued >= 1
  {
    hide Run, RefusedNow;
    if c.maxQueued >= 1 {
      var actions, t := FullWithoutWaiters(c);
      assert RefusedWithRoom(c, Run(c, Initial(c), actions), t);
    }
  }
}
