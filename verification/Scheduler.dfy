/**
 The native scheduler (src/native/scheduler.rs) as the atomic steps of many
 requests that share a fair semaphore and one waiting counter.

 Every `await` point of `scheduled_native_chat` is a place where other requests
 run, and where the request's own future may be dropped.
 */
module Scheduler {
  import opened Wrappers

  type TaskId = nat

  datatype MetaValue = Flag(flag: bool) | Number(number: int) | Text(text: string)

  type Metadata = map<string, MetaValue>

  /** The defaults of the batching options are those of the code. */
  datatype Config = Config(
    maxConcurrent: nat,
    maxQueued: nat,
    maxBatchSize: nat := 1,
    maxBatchWaitMs: nat := 0,
    kvCacheBudgetBytes: nat := 0
  )

  /** What `new` makes of a configuration: at least one permit, batches of at least one. */
  function NewConfig(c: Config): (r: Config)
    ensures c.maxConcurrent >= 1 && c.maxBatchSize >= 1 ==> r == c
    ensures c.maxConcurrent == 0 ==> r.maxConcurrent == 1
    ensures c.maxBatchSize == 0 ==> r.maxBatchSize == 1
    ensures r == c.(maxConcurrent := r.maxConcurrent, maxBatchSize := r.maxBatchSize)
    ensures c.maxConcurrent >= 1 ==> r.maxConcurrent == c.maxConcurrent
    ensures c.maxBatchSize >= 1 ==> r.maxBatchSize == c.maxBatchSize
  {
    c.(maxConcurrent := if c.maxConcurrent < 1 then 1 else c.maxConcurrent,
       maxBatchSize := if c.maxBatchSize < 1 then 1 else c.maxBatchSize)
  }

  datatype Outcome = Finished | Cancelled | QueueFull | Abandoned

  datatype Phase =
    | Submitted          // future built, not polled yet
    | Checked            // not cancelled; about to try for a permit
    | Adding             // no permit; about to add to the counter
    | Undoing            // counter was full; about to take the addition back
    | Guarded            // wait guard alive; acquire not polled yet
    | Queued             // in the semaphore's queue
    | Granted            // permit assigned; wait guard still alive
    | Admitted           // permit held, no guard; about to check again
    | Running            // inside the inner engine
    | Unwinding          // future dropped; wait guard still alive
    | Done(outcome: Outcome)

  datatype Task = Task(metadata: Metadata, phase: Phase, queuedBefore: int, ticket: Option<nat>)

  /** A place in the semaphore's queue; numbers are handed out in join order. */
  datatype Ticket = Ticket(task: TaskId, number: nat)

  /** `releases`, `grants` and `starts` record the run. */
  datatype State = State(
    free: nat,
    waiting: int,
    queue: seq<Ticket>,
    tasks: map<TaskId, Task>,
    nextTicket: nat,
    releases: nat,
    grants: seq<nat>,
    starts: seq<nat>
  )

  datatype Action =
    | Submit(task: TaskId, metadata: Metadata)
    | CheckFirst(task: TaskId)
    | TryAcquire(task: TaskId)
    | EnterAdd(task: TaskId)
    | EnterUndo(task: TaskId)
    | PollAcquire(task: TaskId)
    | DropGuard(task: TaskId)
    | CheckSecond(task: TaskId, waitMs: nat := 0)
    | Finish(task: TaskId)
    | DropFuture(task: TaskId)
    | DropWaitGuard(task: TaskId)

  const CANCELLED_KEY := "llmctl.scheduler.cancelled"

  predicate IsCancelled(metadata: Metadata) {
    CANCELLED_KEY in metadata && metadata[CANCELLED_KEY] == Flag(true)
  }

  /** What an admitted request learns about its admission; it stays as cancelled as it was. */
  function Stamped(c: Config, metadata: Metadata, queuedBefore: int, waitMs: nat): (r: Metadata)
    ensures IsCancelled(r) == IsCancelled(metadata)
  {
    var stamps := Stamps(c, queuedBefore, waitMs);
    assert CANCELLED_KEY !in stamps by { assert |CANCELLED_KEY| == 26; }
    metadata + stamps
  }

  function Stamps(c: Config, queuedBefore: int, waitMs: nat): (r: Metadata)
    ensures forall k :: k in r ==> |k| != 26
    ensures forall k :: k in Numbers(c, queuedBefore, waitMs) ==> k in r && r[k] == Numbers(c, queuedBefore, waitMs)[k]
  {
    map[
      "llmctl.scheduler.discipline" := Text("fifo"),
      "llmctl.scheduler.queue.implemented" := Flag(true),
      "llmctl.scheduler.batching.continuous.implemented" := Flag(false),
      "llmctl.scheduler.batching.phase_scheduling.implemented" := Flag(true),
      "llmctl.scheduler.phase" := Text("prefill-then-decode"),
      "llmctl.scheduler.prefill.phase" := Text("scheduled"),
      "llmctl.scheduler.decode.phase" := Text("scheduled"),
      "llmctl.scheduler.kv_cache.reuse_implemented" := Flag(false),
      "llmctl.scheduler.kv_cache.policy" := Text("request-local-reset"),
      "llmctl.scheduler.cancellation.admission_check_implemented" := Flag(true),
      "llmctl.scheduler.cancellation.decode_loop_check_implemented" := Flag(false)
    ] + Numbers(c, queuedBefore, waitMs)
  }

  /** The stamps that carry numbers; no two of their names have the same length. */
  function Numbers(c: Config, queuedBefore: int, waitMs: nat): (r: Metadata)
    ensures forall k :: k in r ==> |k| != 26
  {
    map[
      "llmctl.scheduler.queue_wait_ms" := Number(waitMs),
      "llmctl.scheduler.admission_wait_ms" := Number(waitMs),
      "llmctl.scheduler.queued_requests_before_admit" := Number(queuedBefore),
      "llmctl.scheduler.max_concurrent_requests" := Number(c.maxConcurrent),
      "llmctl.scheduler.max_queued_requests" := Number(c.maxQueued),
      "llmctl.scheduler.max_batch_size" := Number(c.maxBatchSize),
      "llmctl.scheduler.max_wait_ms" := Number(c.maxBatchWaitMs),
      "llmctl.scheduler.kv_cache_budget_bytes" := Number(c.kvCacheBudgetBytes)
    ]
  }

  /** A request is cancelled if and only if its metadata says so with a literal `true`. */
  lemma CancelledMeans(metadata: Metadata)
    ensures IsCancelled(metadata) <==>
      "llmctl.scheduler.cancelled" in metadata && metadata["llmctl.scheduler.cancelled"] == Flag(true)
  {
  }

  lemma NumberOfEach(c: Config, queuedBefore: int, waitMs: nat)
    ensures var r := Numbers(c, queuedBefore, waitMs);
      "llmctl.scheduler.queue_wait_ms" in r && r["llmctl.scheduler.queue_wait_ms"] == Number(waitMs) &&
      "llmctl.scheduler.admission_wait_ms" in r && r["llmctl.scheduler.admission_wait_ms"] == Number(waitMs) &&
      "llmctl.scheduler.queued_requests_before_admit" in r && r["llmctl.scheduler.queued_requests_before_admit"] == Number(queuedBefore) &&
      "llmctl.scheduler.max_concurrent_requests" in r && r["llmctl.scheduler.max_concurrent_requests"] == Number(c.maxConcurrent) &&
      "llmctl.scheduler.max_queued_requests" in r && r["llmctl.scheduler.max_queued_requests"] == Number(c.maxQueued) &&
      "llmctl.scheduler.max_batch_size" in r && r["llmctl.scheduler.max_batch_size"] == Number(c.maxBatchSize) &&
      "llmctl.scheduler.max_wait_ms" in r && r["llmctl.scheduler.max_wait_ms"] == Number(c.maxBatchWaitMs) &&
      "llmctl.scheduler.kv_cache_budget_bytes" in r && r["llmctl.scheduler.kv_cache_budget_bytes"] == Number(c.kvCacheBudgetBytes)
  {
    assert |"llmctl.scheduler.queue_wait_ms"| == 30 && |"llmctl.scheduler.admission_wait_ms"| == 34;
    assert |"llmctl.scheduler.queued_requests_before_admit"| == 45 && |"llmctl.scheduler.max_concurrent_requests"| == 40;
    assert |"llmctl.scheduler.max_queued_requests"| == 36 && |"llmctl.scheduler.max_batch_size"| == 31;
    assert |"llmctl.scheduler.max_wait_ms"| == 28 && |"llmctl.scheduler.kv_cache_budget_bytes"| == 38;
  }

  /** The numbers an admitted request is given win over whatever the client sent under their names. */
  lemma StampedNumbers(c: Config, metadata: Metadata, queuedBefore: int, waitMs: nat)
    ensures var r := Stamped(c, metadata, queuedBefore, waitMs);
      "llmctl.scheduler.queue_wait_ms" in r && r["llmctl.scheduler.queue_wait_ms"] == Number(waitMs) &&
      "llmctl.scheduler.admission_wait_ms" in r && r["llmctl.scheduler.admission_wait_ms"] == Number(waitMs) &&
      "llmctl.scheduler.queued_requests_before_admit" in r && r["llmctl.scheduler.queued_requests_before_admit"] == Number(queuedBefore) &&
      "llmctl.scheduler.max_concurrent_requests" in r && r["llmctl.scheduler.max_concurrent_requests"] == Number(c.maxConcurrent) &&
      "llmctl.scheduler.max_queued_requests" in r && r["llmctl.scheduler.max_queued_requests"] == Number(c.maxQueued) &&
      "llmctl.scheduler.max_batch_size" in r && r["llmctl.scheduler.max_batch_size"] == Number(c.maxBatchSize) &&
      "llmctl.scheduler.max_wait_ms" in r && r["llmctl.scheduler.max_wait_ms"] == Number(c.maxBatchWaitMs) &&
      "llmctl.scheduler.kv_cache_budget_bytes" in r && r["llmctl.scheduler.kv_cache_budget_bytes"] == Number(c.kvCacheBudgetBytes)
  {
    NumberOfEach(c, queuedBefore, waitMs);
    NumbersWin(c, metadata, queuedBefore, waitMs);
    hide Numbers, Stamps, Stamped;
  }

  lemma NumbersWin(c: Config, metadata: Metadata, queuedBefore: int, waitMs: nat)
    ensures var r, numbers := Stamped(c, metadata, queuedBefore, waitMs), Numbers(c, queuedBefore, waitMs);
      forall k :: k in numbers ==> k in r && r[k] == numbers[k]
  {
    hide Numbers, Stamps;
  }

  /** Nothing the client sent under another name is lost or changed, and no stamp is missing. */
  lemma StampsWin(c: Config, metadata: Metadata, queuedBefore: int, waitMs: nat, key: string)
    ensures var r, stamps := Stamped(c, metadata, queuedBefore, waitMs), Stamps(c, queuedBefore, waitMs);
      (key in r <==> key in metadata || key in stamps) &&
      (key in r ==> r[key] == if key in stamps then stamps[key] else metadata[key])
  {
    hide Stamps;
  }

  function Initial(c: Config): State {
    State(c.maxConcurrent, 0, [], map[], 0, 0, [], [])
  }

  predicate Enabled(s: State, a: Action) {
    if a.Submit? then a.task !in s.tasks
    else
      a.task in s.tasks &&
      var phase := s.tasks[a.task].phase;
      match a
      case CheckFirst(_) => phase.Submitted?
      case TryAcquire(_) => phase.Checked?
      case EnterAdd(_) => phase.Adding?
      case EnterUndo(_) => phase.Undoing?
      case PollAcquire(_) => phase.Guarded?
      case DropGuard(_) => phase.Granted?
      case CheckSecond(_, _) => phase.Admitted?
      case Finish(_) => phase.Running?
      case DropFuture(_) => phase.Submitted? || phase.Queued? || phase.Granted? || phase.Running?
      case DropWaitGuard(_) => phase.Unwinding?
  }

  /** Sets the phase of one task. */
  function At(s: State, t: TaskId, phase: Phase): State
    requires t in s.tasks
  {
    s.(tasks := s.tasks[t := s.tasks[t].(phase := phase)])
  }

  /** A permit comes back: the head of the queue takes it, or it is free again. */
  function Release(s: State): State
    requires s.queue != [] ==> s.queue[0].task in s.tasks
  {
    var counted := s.(releases := s.releases + 1);
    if s.queue == [] then counted.(free := s.free + 1)
    else
      var head := s.queue[0];
      At(counted.(queue := s.queue[1..], grants := s.grants + [head.number]), head.task, Granted)
  }

  predicate QueueInTasks(s: State) {
    forall k :: 0 <= k < |s.queue| ==> s.queue[k].task in s.tasks
  }

  function Without(queue: seq<Ticket>, t: TaskId): seq<Ticket> {
    if queue == [] then []
    else if queue[0].task == t then Without(queue[1..], t)
    else [queue[0]] + Without(queue[1..], t)
  }

  /** One atomic step. */
  function Apply(c: Config, s: State, a: Action): State
    requires Enabled(s, a) && QueueInTasks(s)
  {
    match a
    case Submit(t, metadata) =>
      s.(tasks := s.tasks[t := Task(metadata, Submitted, 0, None)])
    case CheckFirst(t) =>
      At(s, t, if IsCancelled(s.tasks[t].metadata) then Done(Cancelled) else Checked)
    case TryAcquire(t) =>
      if s.free > 0 then At(s.(free := s.free - 1), t, Admitted) else At(s, t, Adding)
    case EnterAdd(t) =>
      var added := s.(waiting := s.waiting + 1);
      if s.waiting >= c.maxQueued then At(added, t, Undoing)
      else added.(tasks := s.tasks[t := s.tasks[t].(phase := Guarded, queuedBefore := s.waiting)])
    case EnterUndo(t) =>
      At(s.(waiting := s.waiting - 1), t, Done(QueueFull))
    case PollAcquire(t) =>
      if s.free > 0 then At(s.(free := s.free - 1), t, Granted)
      else
        s.(queue := s.queue + [Ticket(t, s.nextTicket)],
           nextTicket := s.nextTicket + 1,
           tasks := s.tasks[t := s.tasks[t].(phase := Queued, ticket := Some(s.nextTicket))])
    case DropGuard(t) =>
      At(s.(waiting := s.waiting - 1), t, Admitted)
    case CheckSecond(t, waitMs) =>
      var task := s.tasks[t];
      if IsCancelled(task.metadata) then Release(At(s, t, Done(Cancelled)))
      else
        s.(tasks := s.tasks[t := task.(phase := Running, metadata := Stamped(c, task.metadata, task.queuedBefore, waitMs))],
           starts := if task.ticket.Some? then s.starts + [task.ticket.value] else s.starts)
    case Finish(t) =>
      Release(At(s, t, Done(Finished)))
    case DropFuture(t) =>
      (match s.tasks[t].phase
       case Submitted => At(s, t, Done(Abandoned))
       case Queued => At(s.(queue := Without(s.queue, t)), t, Unwinding)
       case Granted => Release(At(s, t, Unwinding))
       case _ => Release(At(s, t, Done(Abandoned))))
    case DropWaitGuard(t) =>
      At(s.(waiting := s.waiting - 1), t, Done(Abandoned))
  }

  /** A request that goes in is stamped with the number it found before it and its own waiting time. */
  lemma StartIsStamped(c: Config, s: State, t: TaskId, waitMs: nat)
    requires Enabled(s, CheckSecond(t, waitMs)) && QueueInTasks(s) && !IsCancelled(s.tasks[t].metadata)
    ensures Apply(c, s, CheckSecond(t, waitMs)).tasks[t] ==
      Task(Stamped(c, s.tasks[t].metadata, s.tasks[t].queuedBefore, waitMs), Running, s.tasks[t].queuedBefore, s.tasks[t].ticket)
  {
    hide Stamped, IsCancelled;
  }

  /** Actions that are not enabled do nothing, so every list of actions is a run. */
  function Step(c: Config, s: State, a: Action): State {
    if Enabled(s, a) && QueueInTasks(s) then Apply(c, s, a) else s
  }

  function Run(c: Config, s: State, actions: seq<Action>): State
    decreases |actions|
  {
    if actions == [] then s else Run(c, Step(c, s, actions[0]), actions[1..])
  }
}
