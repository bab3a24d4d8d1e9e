/**
 A queued request can always be served (src/native/scheduler.rs): while anyone
 waits somebody holds a permit, and a few steps of the holders alone pass the
 permits on down the queue.
 */
module SchedulerProgress {
  import opened Wrappers
  import opened Scheduler
  import opened SchedulerProofs
  import opened SchedulerOrder

  /** What a permit holder does next; no other request has a part in it. */
  function NextOf(phase: Phase, t: TaskId): Action
    requires HoldsPermit(phase)
  {
    if phase.Granted? then DropGuard(t) else if phase.Admitted? then CheckSecond(t) else Finish(t)
  }

  /** How many such steps it takes to give the permit back. */
  function StepsLeft(phase: Phase): nat
    requires HoldsPermit(phase)
  {
    if phase.Granted? then 3 else if phase.Admitted? then 2 else 1
  }

  /** Steps of permit holders: no request arrives, is dropped or queues. */
  predicate OnlyHolders(actions: seq<Action>) {
    forall a :: a in actions ==> a.DropGuard? || a.CheckSecond? || a.Finish?
  }

  /** While anyone waits, some request holds a permit, and its next step is enabled. */
  lemma SomeHolderCanGo(c: Config, s: State) returns (u: TaskId)
    requires Inv(c, s) && c.maxConcurrent >= 1 && s.queue != []
    ensures u in s.tasks && HoldsPermit(s.tasks[u].phase) && Enabled(s, NextOf(s.tasks[u].phase, u))
  {
    NoneCounted(s.tasks, HoldsPermit);
    hide Ordered, CounterBalances, GuardsBounded, NoneCancelled, PositionsBounded;
    u :| u in s.tasks && HoldsPermit(s.tasks[u].phase);
  }

  lemma ReleaseCounts(s: State)
    requires s.queue != [] ==> s.queue[0].task in s.tasks
    ensures Release(s).releases == s.releases + 1
  {
  }

  /** After the step the holder has given its permit back, or is one step closer to it. */
  predicate Goes(s: State, s': State, u: TaskId)
    requires u in s.tasks && HoldsPermit(s.tasks[u].phase)
  {
    s'.releases == s.releases + 1 ||
    (s'.releases == s.releases && u in s'.tasks && HoldsPermit(s'.tasks[u].phase) &&
     StepsLeft(s'.tasks[u].phase) < StepsLeft(s.tasks[u].phase))
  }

  lemma GuardIsDropped(c: Config, s: State, u: TaskId)
    requires QueueInTasks(s) && u in s.tasks && s.tasks[u].phase.Granted?
    ensures Goes(s, Step(c, s, DropGuard(u)), u)
  {
    hide QueueInTasks;
  }

  lemma EngineIsEntered(c: Config, s: State, u: TaskId)
    requires QueueInTasks(s) && u in s.tasks && s.tasks[u].phase.Admitted?
    ensures Goes(s, Step(c, s, CheckSecond(u)), u)
  {
    hide Stamped;
    if IsCancelled(s.tasks[u].metadata) {
      ReleaseCounts(At(s, u, Done(Cancelled)));
    } else {
      StartIsStamped(c, s, u, 0);
    }
    hide QueueInTasks, IsCancelled, Release;
  }

  lemma PermitIsGivenBack(c: Config, s: State, u: TaskId)
    requires QueueInTasks(s) && u in s.tasks && s.tasks[u].phase.Running?
    ensures Goes(s, Step(c, s, Finish(u)), u)
  {
    ReleaseCounts(At(s, u, Done(Finished)));
    hide QueueInTasks, Release;
  }

  lemma HolderGoes(c: Config, s: State, u: TaskId)
    requires Inv(c, s) && u in s.tasks && HoldsPermit(s.tasks[u].phase)
    ensures Goes(s, Step(c, s, NextOf(s.tasks[u].phase, u)), u)
  {
    InvQueueInTasks(c, s);
    hide Inv, Step, QueueInTasks, Goes;
    if s.tasks[u].phase.Granted? {
      GuardIsDropped(c, s, u);
    } else if s.tasks[u].phase.Admitted? {
      EngineIsEntered(c, s, u);
    } else {
      PermitIsGivenBack(c, s, u);
    }
  }

  lemma {:induction false} HolderReleases(c: Config, s: State, u: TaskId) returns (actions: seq<Action>)
    requires Inv(c, s) && u in s.tasks && HoldsPermit(s.tasks[u].phase)
    ensures OnlyHolders(actions) && |actions| <= StepsLeft(s.tasks[u].phase)
    ensures Run(c, s, actions).releases == s.releases + 1
    decreases StepsLeft(s.tasks[u].phase)
  {
    hide Inv, Step;
    var a := NextOf(s.tasks[u].phase, u);
    var s' := Step(c, s, a);
    HolderGoes(c, s, u);
    StepKeepsInv(c, s, a);
    var rest := [];
    if s'.releases == s.releases {
      rest := HolderReleases(c, s', u);
    } else {
      RunNothing(c, s');
    }
    actions := [a] + rest;
    assert actions[1..] == rest;
  }

  /** Over a run that does not drop it, a waiter is granted or moves up by one per release. */
  lemma {:induction false} RunServes(c: Config, s: State, actions: seq<Action>, t: TaskId)
    requires Inv(c, s) && IsWaiting(s, t) && OnlyHolders(actions)
    ensures Served(s, Run(c, s, actions), t)
    decreases |actions|
  {
    hide Inv, Step;
    if actions == [] {
    } else {
      assert actions[0] in actions && forall a :: a in actions[1..] ==> a in actions;
      var s' := Step(c, s, actions[0]);
      StepServes(c, s, actions[0], t);
      StepKeepsInv(c, s, actions[0]);
      RecordsGrow(c, s', actions[1..]);
      if s.tasks[t].ticket.value in s'.grants {
        GrantStays(s'.grants, Run(c, s', actions[1..]).grants, s.tasks[t].ticket.value);
      } else {
        RunServes(c, s', actions[1..], t);
      }
    }
  }

  lemma GrantStays(before: seq<nat>, after: seq<nat>, number: nat)
    requires before <= after && number in before
    ensures number in after
  {
    var k :| 0 <= k < |before| && before[k] == number;
    assert after[k] == number;
  }

  /** A waiter at position p is granted a permit by at most 3 * (p + 1) steps of permit holders. */
  lemma {:induction false} WaiterIsGranted(c: Config, s: State, t: TaskId) returns (actions: seq<Action>)
    requires Inv(c, s) && c.maxConcurrent >= 1 && IsWaiting(s, t)
    ensures OnlyHolders(actions) && |actions| <= 3 * (Position(s.queue, t) + 1)
    ensures s.tasks[t].ticket.value in Run(c, s, actions).grants
    decreases Position(s.queue, t)
  {
    WaiterInQueue(c, s, t);
    hide Inv, Run, Step;
    var u := SomeHolderCanGo(c, s);
    var first := HolderReleases(c, s, u);
    RunServes(c, s, first, t);
    RunKeepsInv(c, s, first);
    var s1 := Run(c, s, first);
    if s.tasks[t].ticket.value in s1.grants {
      actions := first;
    } else {
      var rest := WaiterIsGranted(c, s1, t);
      actions := first + rest;
      RunAppend(c, s, first, rest);
    }
  }

  lemma WaiterInQueue(c: Config, s: State, t: TaskId)
    requires Inv(c, s) && IsWaiting(s, t)
    ensures s.queue != []
  {
    assert Ticket(t, s.tasks[t].ticket.value) in s.queue;
  }

  /**
   MAIN: no reachable state leaves a waiter stuck.  Wherever a run has led, the
   waiter at position p holds a permit after at most 3 * (p + 1) further steps,
   none of which needs a new request, a dropped one, or the waiter itself.
   */
  lemma EveryWaiterCanBeGranted(c: Config, actions: seq<Action>, t: TaskId)
    requires c.maxConcurrent >= 1 && IsWaiting(Run(c, Initial(c), actions), t)
    ensures var s := Run(c, Initial(c), actions);
      exists more ::
        OnlyHolders(more) && |more| <= 3 * (Position(s.queue, t) + 1) &&
        s.tasks[t].ticket.value in Run(c, Initial(c), actions + more).grants
  {
    hide Run, Inv;
    InitialInv(c);
    RunKeepsInv(c, Initial(c), actions);
    var more := WaiterIsGranted(c, Run(c, Initial(c), actions), t);
    RunAppend(c, Initial(c), actions, more);
  }
}
