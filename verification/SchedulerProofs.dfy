/**
 What every run of the scheduler keeps (src/native/scheduler.rs): permits and
 the waiting counter balance, the queue is bounded and first-in first-out, a
 cancelled request never runs, and a queued request is served in bounded time.
 */
module SchedulerProofs {
  import opened Wrappers
  import opened Scheduler

  // ------------------------------------------------------------- counting tasks

  predicate HoldsPermit(phase: Phase) {
    phase.Granted? || phase.Admitted? || phase.Running?
  }

  predicate HoldsGuard(phase: Phase) {
    phase.Guarded? || phase.Queued? || phase.Granted? || phase.Unwinding?
  }

  predicate IsUndoing(phase: Phase) {
    phase.Undoing?
  }

  ghost function Those(tasks: map<TaskId, Task>, p: Phase -> bool): set<TaskId> {
    set t | t in tasks && p(tasks[t].phase)
  }

  ghost function Count(tasks: map<TaskId, Task>, p: Phase -> bool): nat {
    |Those(tasks, p)|
  }

  function Flag01(b: bool): nat {
    if b then 1 else 0
  }

  lemma OneFewer(s: set<TaskId>, t: TaskId)
    ensures |s - {t}| + Flag01(t in s) == |s|
  {
  }

  lemma CountUpdate(tasks: map<TaskId, Task>, t: TaskId, task: Task, p: Phase -> bool)
    ensures Count(tasks[t := task], p) + Flag01(t in tasks && p(tasks[t].phase)) == Count(tasks, p) + Flag01(p(task.phase))
  {
    var before, after := Those(tasks, p), Those(tasks[t := task], p);
    assert after - {t} == before - {t};
    OneFewer(before, t);
    OneFewer(after, t);
  }

  lemma NoneCounted(tasks: map<TaskId, Task>, p: Phase -> bool)
    ensures Count(tasks, p) == 0 <==> forall t :: t in tasks ==> !p(tasks[t].phase)
  {
    if forall t :: t in tasks ==> !p(tasks[t].phase) {
      assert Those(tasks, p) == {};
    } else {
      var t :| t in tasks && p(tasks[t].phase);
      assert t in Those(tasks, p);
    }
  }

  /** All three counts at once, when only the phase of `t` may change. */
  lemma CountsUpdate(tasks: map<TaskId, Task>, t: TaskId, task: Task)
    ensures Count(tasks[t := task], HoldsPermit) + Flag01(t in tasks && HoldsPermit(tasks[t].phase))
         == Count(tasks, HoldsPermit) + Flag01(HoldsPermit(task.phase))
    ensures Count(tasks[t := task], HoldsGuard) + Flag01(t in tasks && HoldsGuard(tasks[t].phase))
         == Count(tasks, HoldsGuard) + Flag01(HoldsGuard(task.phase))
    ensures Count(tasks[t := task], IsUndoing) + Flag01(t in tasks && IsUndoing(tasks[t].phase))
         == Count(tasks, IsUndoing) + Flag01(IsUndoing(task.phase))
  {
    CountUpdate(tasks, t, task, HoldsPermit);
    CountUpdate(tasks, t, task, HoldsGuard);
    CountUpdate(tasks, t, task, IsUndoing);
  }

  // --------------------------------------------------------------- the invariant

  /** The counter is the live guards plus the additions about to be undone. */
  ghost predicate CounterBalances(s: State) {
    s.waiting == Count(s.tasks, HoldsGuard) + Count(s.tasks, IsUndoing)
  }

  ghost predicate GuardsBounded(c: Config, s: State) {
    Count(s.tasks, HoldsGuard) <= c.maxQueued
  }

  /** The queue lists exactly the queued tasks, each under its ticket. */
  ghost predicate QueueMatches(s: State) {
    (forall x :: x in s.queue ==>
      x.task in s.tasks && s.tasks[x.task].phase.Queued? && s.tasks[x.task].ticket == Some(x.number) &&
      x.number < s.nextTicket) &&
    (forall t :: t in s.tasks && s.tasks[t].phase.Queued? ==>
      s.tasks[t].ticket.Some? && Ticket(t, s.tasks[t].ticket.value) in s.queue)
  }

  /** Tickets queue in the order they were handed out. */
  ghost predicate QueueSorted(queue: seq<Ticket>) {
    forall i, j :: 0 <= i < j < |queue| ==> queue[i].number < queue[j].number
  }

  /** Permits go to tickets in order, so every grant precedes every waiter. */
  ghost predicate GrantsInOrder(s: State) {
    (forall i, j :: 0 <= i < j < |s.grants| ==> s.grants[i] < s.grants[j]) &&
    (forall n, x :: n in s.grants && x in s.queue ==> n < x.number) &&
    (forall n :: n in s.grants ==> n < s.nextTicket)
  }

  /** While anyone queues, no permit is free for a newcomer. */
  predicate NoOvertaking(s: State) {
    s.queue != [] ==> s.free == 0
  }

  /** Past the first check and not yet finished, a task is not cancelled. */
  predicate NoneCancelled(s: State) {
    forall t :: t in s.tasks && !s.tasks[t].phase.Submitted? && !s.tasks[t].phase.Done? ==>
      !IsCancelled(s.tasks[t].metadata)
  }

  /** Who queued saw fewer than the limit ahead of it. */
  predicate PositionsBounded(c: Config, s: State) {
    forall t :: t in s.tasks ==>
      0 <= s.tasks[t].queuedBefore && (s.tasks[t].queuedBefore == 0 || s.tasks[t].queuedBefore < c.maxQueued)
  }

  ghost predicate Balanced(c: Config, s: State, owed: nat) {
    s.free + Count(s.tasks, HoldsPermit) + owed == c.maxConcurrent &&
    CounterBalances(s) && GuardsBounded(c, s)
  }

  ghost predicate Ordered(s: State) {
    QueueMatches(s) && QueueSorted(s.queue) && GrantsInOrder(s)
  }

  /** Everything a run keeps; `owed` permits are between two owners. */
  ghost predicate Owing(c: Config, s: State, owed: nat) {
    Balanced(c, s, owed) && Ordered(s) && NoOvertaking(s) && NoneCancelled(s) && PositionsBounded(c, s)
  }

  ghost predicate Inv(c: Config, s: State) {
    Owing(c, s, 0)
  }

  lemma InvQueueInTasks(c: Config, s: State)
    requires Inv(c, s)
    ensures QueueInTasks(s)
  {
  }

  // --------------------------------------------------------- one step keeps it

  /** The order only depends on who is queued, and with which ticket. */
  lemma OrderUntouched(s: State, s': State, t: TaskId, task: Task)
    requires Ordered(s)
    requires s'.queue == s.queue && s'.grants == s.grants && s'.nextTicket == s.nextTicket
    requires s'.tasks == s.tasks[t := task]
    requires (t in s.tasks ==> !s.tasks[t].phase.Queued?) && !task.phase.Queued?
    ensures Ordered(s')
  {
  }

  /** What one task takes out of the two counters' balances. */
  function Permits(tasks: map<TaskId, Task>, t: TaskId): nat {
    Flag01(t in tasks && HoldsPermit(tasks[t].phase))
  }

  function Guards(tasks: map<TaskId, Task>, t: TaskId): nat {
    Flag01(t in tasks && HoldsGuard(tasks[t].phase))
  }

  function Undos(tasks: map<TaskId, Task>, t: TaskId): nat {
    Flag01(t in tasks && IsUndoing(tasks[t].phase))
  }

  /** A task that changes phase must pay for what it newly holds. */
  lemma BalanceMoves(c: Config, s: State, s': State, t: TaskId, task: Task, owed: nat, owed': nat)
    requires Balanced(c, s, owed)
    requires s'.tasks == s.tasks[t := task]
    requires s'.free + Permits(s'.tasks, t) + owed' == s.free + Permits(s.tasks, t) + owed
    requires s'.waiting - Guards(s'.tasks, t) - Undos(s'.tasks, t) == s.waiting - Guards(s.tasks, t) - Undos(s.tasks, t)
    requires Guards(s'.tasks, t) > Guards(s.tasks, t) ==> s.waiting < c.maxQueued
    ensures Balanced(c, s', owed')
  {
    CountsUpdate(s.tasks, t, task);
  }

  /** A task that only changes phase. */
  lemma PhaseKeepsRest(c: Config, s: State, s': State, t: TaskId, phase: Phase)
    requires t in s.tasks && !s.tasks[t].phase.Submitted? && !s.tasks[t].phase.Done?
    requires NoneCancelled(s) && PositionsBounded(c, s)
    requires s'.tasks == s.tasks[t := s.tasks[t].(phase := phase)]
    ensures NoneCancelled(s') && PositionsBounded(c, s')
  {
    hide IsCancelled;
  }

  lemma SortedHeadIsLeast(queue: seq<Ticket>)
    requires QueueSorted(queue) && queue != []
    ensures QueueSorted(queue[1..])
    ensures forall x :: x in queue[1..] ==> x in queue && queue[0].number < x.number
  {
  }

  /** Granting the head keeps the order. */
  lemma HeadKeepsMatch(s: State)
    requires Ordered(s) && s.queue != []
    ensures s.queue[0] in s.queue && QueueMatches(Release(s))
  {
    var s' := Release(s);
    SortedHeadIsLeast(s.queue);
    hide QueueSorted, GrantsInOrder;
    forall u | u in s'.tasks && s'.tasks[u].phase.Queued?
      ensures s'.tasks[u].ticket.Some? && Ticket(u, s'.tasks[u].ticket.value) in s'.queue
    {
      assert Ticket(u, s.tasks[u].ticket.value) in s.queue;
    }
  }

  lemma HeadKeepsGrants(s: State)
    requires Ordered(s) && s.queue != []
    ensures s.queue[0] in s.queue && GrantsInOrder(Release(s))
  {
    var s', head := Release(s), s.queue[0];
    SortedHeadIsLeast(s.queue);
    assert head in s.queue && head.number < s.nextTicket;
    assert forall n :: n in s'.grants <==> n in s.grants || n == head.number;
    hide QueueSorted, QueueMatches;
    forall i, j | 0 <= i < j < |s'.grants|
      ensures s'.grants[i] < s'.grants[j]
    {
      assert s'.grants[i] in s.grants;
    }
  }

  /** Handing the owed permit on, or freeing it, settles the debt. */
  lemma ReleaseSettles(c: Config, s: State)
    requires Owing(c, s, 1)
    ensures s.queue != [] ==> s.queue[0] in s.queue
    ensures Inv(c, Release(s))
  {
    if s.queue == [] {
    } else {
      HeadKeepsMatch(s);
      HeadKeepsGrants(s);
      SortedHeadIsLeast(s.queue);
      var s', head := Release(s), s.queue[0];
      assert s.tasks[head.task].phase.Queued?;
      hide QueueMatches, GrantsInOrder, QueueSorted, Balanced, NoneCancelled, PositionsBounded;
      BalanceMoves(c, s, s', head.task, s.tasks[head.task].(phase := Granted), 1, 0);
      PhaseKeepsRest(c, s, s', head.task, Granted);
    }
  }

  /** A permit holder that ends, or is dropped, owes its permit. */
  lemma HolderLetsGo(c: Config, s: State, t: TaskId, phase: Phase)
    requires Inv(c, s) && t in s.tasks && HoldsPermit(s.tasks[t].phase)
    requires if s.tasks[t].phase.Granted? then phase.Unwinding? else phase.Done?
    ensures Owing(c, At(s, t, phase), 1)
  {
    hide Ordered, Balanced;
    var task := s.tasks[t].(phase := phase);
    BalanceMoves(c, s, At(s, t, phase), t, task, 0, 1);
    OrderUntouched(s, At(s, t, phase), t, task);
  }

  lemma {:induction false} WithoutMembers(queue: seq<Ticket>, t: TaskId)
    ensures forall x :: x in Without(queue, t) <==> x in queue && x.task != t
    decreases |queue|
  {
    if queue == [] {
    } else {
      WithoutMembers(queue[1..], t);
      assert forall x :: x in queue <==> x == queue[0] || x in queue[1..];
    }
  }

  lemma {:induction false} WithoutSorted(queue: seq<Ticket>, t: TaskId)
    requires QueueSorted(queue)
    ensures QueueSorted(Without(queue, t))
    decreases |queue|
  {
    if queue == [] {
    } else {
      SortedHeadIsLeast(queue);
      WithoutMembers(queue[1..], t);
      WithoutSorted(queue[1..], t);
      var rest := Without(queue[1..], t);
      forall j | 0 <= j < |rest|
        ensures queue[0].number < rest[j].number
      {
        assert rest[j] in rest;
      }
    }
  }

  /** The queue without `t` is the queue of the others. */
  lemma LeavingKeepsMatch(s: State, s': State, t: TaskId, task: Task)
    requires QueueMatches(s) && !task.phase.Queued?
    requires s'.tasks == s.tasks[t := task] && s'.queue == Without(s.queue, t) && s'.nextTicket == s.nextTicket
    ensures QueueMatches(s')
  {
    WithoutMembers(s.queue, t);
    hide Without;
    forall u | u in s'.tasks && s'.tasks[u].phase.Queued?
      ensures s'.tasks[u].ticket.Some? && Ticket(u, s'.tasks[u].ticket.value) in s'.queue
    {
      assert u != t && Ticket(u, s.tasks[u].ticket.value) in s.queue;
    }
  }

  lemma LeavingKeepsGrants(s: State, s': State, t: TaskId)
    requires GrantsInOrder(s) && s'.queue == Without(s.queue, t)
    requires s'.nextTicket == s.nextTicket && s'.grants == s.grants
    ensures GrantsInOrder(s')
  {
    WithoutMembers(s.queue, t);
    hide Without;
    forall n, x | n in s'.grants && x in s'.queue
      ensures n < x.number
    {
      assert n in s.grants && x in s.queue;
    }
  }

  lemma LeavingKeepsOrder(s: State, s': State, t: TaskId, task: Task)
    requires Ordered(s) && !task.phase.Queued?
    requires s'.tasks == s.tasks[t := task] && s'.queue == Without(s.queue, t)
    requires s'.nextTicket == s.nextTicket && s'.grants == s.grants
    ensures Ordered(s')
  {
    hide Without, QueueMatches, QueueSorted, GrantsInOrder;
    WithoutSorted(s.queue, t);
    LeavingKeepsMatch(s, s', t, task);
    LeavingKeepsGrants(s, s', t);
  }

  /** Dropping a waiter takes it out of the queue and out of nobody else's way. */
  lemma WaiterLeaves(c: Config, s: State, t: TaskId)
    requires Inv(c, s) && t in s.tasks && s.tasks[t].phase.Queued?
    ensures Inv(c, Step(c, s, DropFuture(t)))
  {
    InvQueueInTasks(c, s);
    assert s.queue != [];
    var s' := Step(c, s, DropFuture(t));
    assert s' == At(s.(queue := Without(s.queue, t)), t, Unwinding);
    hide Step, Ordered, Balanced, Without, QueueInTasks, NoneCancelled, PositionsBounded;
    BalanceMoves(c, s, s', t, s'.tasks[t], 0, 0);
    LeavingKeepsOrder(s, s', t, s'.tasks[t]);
    PhaseKeepsRest(c, s, s', t, Unwinding);
  }

  /** Joining at the tail with a fresh ticket keeps the order. */
  lemma JoinKeepsOrder(s: State, s': State, t: TaskId, task: Task)
    requires Ordered(s) && t in s.tasks && !s.tasks[t].phase.Queued?
    requires task.phase.Queued? && task.ticket == Some(s.nextTicket)
    requires s'.tasks == s.tasks[t := task] && s'.queue == s.queue + [Ticket(t, s.nextTicket)]
    requires s'.nextTicket == s.nextTicket + 1 && s'.grants == s.grants
    ensures Ordered(s')
  {
  }

  lemma WaiterJoins(c: Config, s: State, t: TaskId)
    requires Inv(c, s) && t in s.tasks && s.tasks[t].phase.Guarded? && s.free == 0
    ensures Inv(c, Step(c, s, PollAcquire(t)))
  {
    hide Ordered, Balanced;
    InvQueueInTasks(c, s);
    var s' := Step(c, s, PollAcquire(t));
    BalanceMoves(c, s, s', t, s'.tasks[t], 0, 0);
    JoinKeepsOrder(s, s', t, s'.tasks[t]);
  }

  /** The actions that neither touch the queue nor give a permit back. */
  predicate IsQuiet(s: State, a: Action)
    requires Enabled(s, a)
  {
    !a.Finish? &&
    (a.DropFuture? ==> s.tasks[a.task].phase.Submitted?) &&
    (a.PollAcquire? ==> s.free > 0) &&
    (a.CheckSecond? ==> !IsCancelled(s.tasks[a.task].metadata))
  }

  /** Whoever is about to subtract from the counter finds it positive, and nobody else does. */
  lemma CounterNeverUnderflows(c: Config, s: State)
    requires Inv(c, s)
    ensures s.waiting >= 0
    ensures s.waiting >= 1 <==> exists t :: t in s.tasks && (HoldsGuard(s.tasks[t].phase) || IsUndoing(s.tasks[t].phase))
  {
    NoneCounted(s.tasks, HoldsGuard);
    NoneCounted(s.tasks, IsUndoing);
  }

  /** What a quiet step does: it changes one task, which pays for what it newly holds. */
  ghost predicate MovesOne(c: Config, s: State, s': State, t: TaskId) {
    t in s'.tasks && s'.tasks == s.tasks[t := s'.tasks[t]] &&
    s'.free + Permits(s'.tasks, t) == s.free + Permits(s.tasks, t) &&
    s'.waiting - Guards(s'.tasks, t) - Undos(s'.tasks, t) == s.waiting - Guards(s.tasks, t) - Undos(s.tasks, t) &&
    (Guards(s'.tasks, t) > Guards(s.tasks, t) ==> s.waiting < c.maxQueued) &&
    s'.queue == s.queue && s'.grants == s.grants && s'.nextTicket == s.nextTicket && s'.releases == s.releases &&
    (t in s.tasks ==> !s.tasks[t].phase.Queued?) && !s'.tasks[t].phase.Queued? && s'.free <= s.free
  }

  lemma EntryMoves(c: Config, s: State, a: Action)
    requires QueueInTasks(s) && Enabled(s, a) && (a.Submit? || a.CheckFirst? || a.TryAcquire?)
    ensures MovesOne(c, s, Step(c, s, a), a.task)
  {
    hide Stamped, IsCancelled, Without, Release;
  }

  lemma CounterMoves(c: Config, s: State, a: Action)
    requires QueueInTasks(s) && Enabled(s, a) && (a.EnterAdd? || a.EnterUndo? || a.DropWaitGuard? || a.DropGuard?)
    ensures MovesOne(c, s, Step(c, s, a), a.task)
  {
    hide Stamped, IsCancelled, Without, Release;
  }

  lemma PermitMoves(c: Config, s: State, a: Action)
    requires QueueInTasks(s) && Enabled(s, a) && IsQuiet(s, a) && (a.PollAcquire? || a.CheckSecond? || a.DropFuture?)
    ensures MovesOne(c, s, Step(c, s, a), a.task)
  {
    hide Stamped, IsCancelled, Without, Release;
  }

  lemma QuietMoves(c: Config, s: State, a: Action)
    requires QueueInTasks(s) && Enabled(s, a) && IsQuiet(s, a)
    ensures MovesOne(c, s, Step(c, s, a), a.task)
  {
    hide MovesOne, Step, QueueInTasks, Enabled;
    match a {
      case Submit(_, _) => EntryMoves(c, s, a);
      case CheckFirst(_) => EntryMoves(c, s, a);
      case TryAcquire(_) => EntryMoves(c, s, a);
      case PollAcquire(_) => PermitMoves(c, s, a);
      case CheckSecond(_, _) => PermitMoves(c, s, a);
      case DropFuture(_) => PermitMoves(c, s, a);
      case _ => CounterMoves(c, s, a);
    }
  }

  /** And what it leaves in the task: never a cancelled one past the first check, nor a position at the limit. */
  lemma QuietTask(c: Config, s: State, a: Action)
    requires NoneCancelled(s) && PositionsBounded(c, s) && s.waiting >= 0
    requires QueueInTasks(s) && Enabled(s, a) && IsQuiet(s, a)
    ensures NoneCancelled(Step(c, s, a)) && PositionsBounded(c, Step(c, s, a))
  {
    hide Stamped, IsCancelled, Without, Release, QueueInTasks;
    assert QueueInTasks(s);
  }

  lemma QuietStep(c: Config, s: State, a: Action)
    requires Inv(c, s) && Enabled(s, a) && IsQuiet(s, a)
    ensures Inv(c, Step(c, s, a))
  {
    InvQueueInTasks(c, s);
    CounterNeverUnderflows(c, s);
    QuietMoves(c, s, a);
    QuietTask(c, s, a);
    hide Step, Ordered, Balanced, NoneCancelled, PositionsBounded;
    var s' := Step(c, s, a);
    BalanceMoves(c, s, s', a.task, s'.tasks[a.task], 0, 0);
    OrderUntouched(s, s', a.task, s'.tasks[a.task]);
  }

  /** INVARIANT: every action keeps all of `Inv`. */
  lemma StepKeepsInv(c: Config, s: State, a: Action)
    requires Inv(c, s)
    ensures Inv(c, Step(c, s, a))
  {
    hide Ordered, Balanced;
    InvQueueInTasks(c, s);
    if Enabled(s, a) {
      var t := a.task;
      if IsQuiet(s, a) {
        QuietStep(c, s, a);
      } else if a.PollAcquire? {
        WaiterJoins(c, s, t);
      } else if a.DropFuture? && s.tasks[t].phase.Queued? {
        WaiterLeaves(c, s, t);
      } else {
        HolderLetsGo(c, s, t, LetGoPhase(s, a));
        ReleaseSettles(c, At(s, t, LetGoPhase(s, a)));
      }
    }
  }

  // ------------------------------------------------------------- every run

  lemma InitialInv(c: Config)
    ensures Inv(c, Initial(c))
  {
  }

  lemma {:induction false} RunKeepsInv(c: Config, s: State, actions: seq<Action>)
    requires Inv(c, s)
    ensures Inv(c, Run(c, s, actions))
    decreases |actions|
  {
    if actions == [] {
    } else {
      StepKeepsInv(c, s, actions[0]);
      RunKeepsInv(c, Step(c, s, actions[0]), actions[1..]);
    }
  }

  /**
   MAIN: for every interleaving, dropped futures included, permits are
   conserved; the counter is live guards plus pending undos, so it never
   underflows and is zero exactly when nothing waits; live guards stay within
   the queue limit; a cancelled request is never inside the inner engine.
   */
  lemma SafetyOfEveryRun(c: Config, actions: seq<Action>)
    ensures var s := Run(c, Initial(c), actions);
      s.free + |set t | t in s.tasks && HoldsPermit(s.tasks[t].phase)| == c.maxConcurrent &&
      s.waiting == |set t | t in s.tasks && HoldsGuard(s.tasks[t].phase)|
                 + |set t | t in s.tasks && IsUndoing(s.tasks[t].phase)| &&
      (s.waiting == 0 <==> forall t :: t in s.tasks ==> !HoldsGuard(s.tasks[t].phase) && !IsUndoing(s.tasks[t].phase)) &&
      |set t | t in s.tasks && HoldsGuard(s.tasks[t].phase)| <= c.maxQueued &&
      (forall t :: t in s.tasks && s.tasks[t].phase.Running? ==> !IsCancelled(s.tasks[t].metadata))
  {
    hide Run, Ordered;
    InitialInv(c);
    RunKeepsInv(c, Initial(c), actions);
    var s := Run(c, Initial(c), actions);
    NoneCounted(s.tasks, HoldsGuard);
    NoneCounted(s.tasks, IsUndoing);
    assert Those(s.tasks, HoldsPermit) == set t | t in s.tasks && HoldsPermit(s.tasks[t].phase);
    assert Those(s.tasks, HoldsGuard) == set t | t in s.tasks && HoldsGuard(s.tasks[t].phase);
    assert Those(s.tasks, IsUndoing) == set t | t in s.tasks && IsUndoing(s.tasks[t].phase);
  }

  /**
   MAIN: permits reach queued requests in the order they joined, nobody behind
   is granted while someone ahead still waits, and while anyone waits there is no
   permit a newcomer could take.
   */
  lemma FifoOfEveryRun(c: Config, actions: seq<Action>)
    ensures var s := Run(c, Initial(c), actions);
      (forall i, j :: 0 <= i < j < |s.grants| ==> s.grants[i] < s.grants[j]) &&
      (forall i, j :: 0 <= i < j < |s.queue| ==> s.queue[i].number < s.queue[j].number) &&
      (forall n, x :: n in s.grants && x in s.queue ==> n < x.number) &&
      (s.queue != [] ==> s.free == 0)
  {
    InitialInv(c);
    RunKeepsInv(c, Initial(c), actions);
  }

  // ------------------------------------------------------------ bounded waiting

  function Position(queue: seq<Ticket>, t: TaskId): nat {
    if queue == [] || queue[0].task == t then 0 else 1 + Position(queue[1..], t)
  }

  predicate IsWaiting(s: State, t: TaskId) {
    t in s.tasks && s.tasks[t].phase.Queued? && s.tasks[t].ticket.Some?
  }

  lemma {:induction false} PositionAppend(queue: seq<Ticket>, x: Ticket, t: TaskId)
    requires exists y :: y in queue && y.task == t
    ensures Position(queue + [x], t) == Position(queue, t)
    decreases |queue|
  {
    var y :| y in queue && y.task == t;
    if queue[0].task == t {
    } else {
      assert y in queue[1..];
      PositionAppend(queue[1..], x, t);
      assert (queue + [x])[1..] == queue[1..] + [x];
    }
  }

  lemma {:induction false} PositionWithout(queue: seq<Ticket>, u: TaskId, t: TaskId)
    requires u != t
    ensures Position(Without(queue, u), t) <= Position(queue, t)
    decreases |queue|
  {
    if queue == [] {
    } else if queue[0].task != t {
      PositionWithout(queue[1..], u, t);
      if queue[0].task != u {
        var rest := Without(queue[1..], u);
        assert ([queue[0]] + rest)[1..] == rest;
      }
    }
  }

  /** How a step moves a waiter: up by one per release, or out with a permit. */
  ghost predicate Served(s: State, s': State, t: TaskId)
    requires IsWaiting(s, t)
  {
    s.releases <= s'.releases &&
    (s.tasks[t].ticket.value !in s'.grants ==>
      IsWaiting(s', t) && s'.tasks[t].ticket == s.tasks[t].ticket &&
      Position(s'.queue, t) + (s'.releases - s.releases) <= Position(s.queue, t))
  }

  lemma ReleaseServes(c: Config, s: State, t: TaskId)
    requires Owing(c, s, 1) && IsWaiting(s, t)
    ensures s.queue != [] && s.queue[0] in s.queue
    ensures Served(s, Release(s), t)
  {
  }

  lemma QuietServes(c: Config, s: State, a: Action, t: TaskId)
    requires Inv(c, s) && IsWaiting(s, t) && Enabled(s, a) && IsQuiet(s, a)
    ensures Served(s, Step(c, s, a), t)
  {
    InvQueueInTasks(c, s);
    QuietMoves(c, s, a);
    hide Inv, Step, Enabled;
  }

  lemma JoinServes(c: Config, s: State, u: TaskId, t: TaskId)
    requires Inv(c, s) && IsWaiting(s, t) && Enabled(s, PollAcquire(u)) && s.free == 0
    ensures Served(s, Step(c, s, PollAcquire(u)), t)
  {
    InvQueueInTasks(c, s);
    assert Ticket(t, s.tasks[t].ticket.value) in s.queue;
    hide Inv;
    PositionAppend(s.queue, Ticket(u, s.nextTicket), t);
  }

  lemma LeaveServes(c: Config, s: State, u: TaskId, t: TaskId)
    requires Inv(c, s) && IsWaiting(s, t) && u in s.tasks && s.tasks[u].phase.Queued? && u != t
    ensures Served(s, Step(c, s, DropFuture(u)), t)
  {
    InvQueueInTasks(c, s);
    PositionWithout(s.queue, u, t);
    assert Step(c, s, DropFuture(u)) == At(s.(queue := Without(s.queue, u)), u, Unwinding);
    hide Inv, Step, Position, Without;
  }

  /** How a permit holder lets go: by finishing, by the second check, or dropped. */
  function LetGoPhase(s: State, a: Action): Phase
    requires a.task in s.tasks
  {
    if a.Finish? then Done(Finished)
    else if a.CheckSecond? then Done(Cancelled)
    else if s.tasks[a.task].phase.Granted? then Unwinding else Done(Abandoned)
  }

  lemma StepServes(c: Config, s: State, a: Action, t: TaskId)
    requires Inv(c, s) && IsWaiting(s, t) && a != DropFuture(t)
    ensures Served(s, Step(c, s, a), t)
  {
    InvQueueInTasks(c, s);
    if Enabled(s, a) {
      var u := a.task;
      if IsQuiet(s, a) {
        QuietServes(c, s, a, t);
      } else if a.PollAcquire? {
        JoinServes(c, s, u, t);
      } else if a.DropFuture? && s.tasks[u].phase.Queued? {
        LeaveServes(c, s, u, t);
      } else {
        HolderLetsGo(c, s, u, LetGoPhase(s, a));
        ReleaseServes(c, At(s, u, LetGoPhase(s, a)), t);
        hide Inv, Owing;
      }
    }
  }

  lemma StepRecords(c: Config, s: State, a: Action)
    ensures s.grants <= Step(c, s, a).grants && s.releases <= Step(c, s, a).releases
  {
    hide Stamped, IsCancelled, Without;
  }

  /** Records only grow. */
  lemma {:induction false} RecordsGrow(c: Config, s: State, actions: seq<Action>)
    ensures s.grants <= Run(c, s, actions).grants && s.releases <= Run(c, s, actions).releases
    decreases |actions|
  {
    hide Step;
    if actions == [] {
    } else {
      StepRecords(c, s, actions[0]);
      RecordsGrow(c, Step(c, s, actions[0]), actions[1..]);
    }
  }

  /**
   MAIN: a waiter at position p whose future is not dropped has been granted a
   permit once p + 1 permits have been released, whatever else happens.
   */
  lemma {:induction false} BoundedWait(c: Config, s: State, actions: seq<Action>, t: TaskId)
    requires Inv(c, s) && IsWaiting(s, t) && DropFuture(t) !in actions
    requires Run(c, s, actions).releases >= s.releases + Position(s.queue, t) + 1
    ensures s.tasks[t].ticket.value in Run(c, s, actions).grants
    decreases |actions|
  {
    hide Inv, Step;
    if actions == [] {
    } else {
      var s' := Step(c, s, actions[0]);
      StepServes(c, s, actions[0], t);
      StepKeepsInv(c, s, actions[0]);
      RecordsGrow(c, s', actions[1..]);
      if s.tasks[t].ticket.value in s'.grants {
        var k :| 0 <= k < |s'.grants| && s'.grants[k] == s.tasks[t].ticket.value;
        assert Run(c, s', actions[1..]).grants[k] == s.tasks[t].ticket.value;
      } else {
        BoundedWait(c, s', actions[1..], t);
      }
    }
  }
}
