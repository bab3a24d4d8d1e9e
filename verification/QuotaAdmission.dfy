/**
 `admit_request` (src/quota.rs) run by many requests at once.  Every query of
 the storage is an atomic step, the decision log is shared, and one lock per
 scope serialises the admissions of that scope.  A request's future may be
 dropped, and a query may fail, at every step.
 */
module QuotaAdmission {
  import opened Quota
  import opened QuotaPolicy

  type TaskId = nat

  datatype Phase =
    | Waiting(p: Principal, model: string)
    | Locked(p: Principal, model: string)
    | Counting(p: Principal, model: string, now: int, counted: nat)
    | Totalling(p: Principal, model: string, now: int, totalled: nat)
    | Decided(p: Principal, model: string, now: int, allowed: bool)
    | Inserting(p: Principal, model: string, now: int, allowed: bool, at: int)
    | Releasing(p: Principal)
    | InFlight(p: Principal, row: Row)   // dropped while its insert was running; the lock is free

  /** A finished request is no longer in `tasks`. */
  datatype State = State(
    log: seq<Row>,
    usage: seq<Usage>,
    clock: int,
    holders: map<string, TaskId>,
    tasks: map<TaskId, Phase>
  )

  datatype Action =
    | Arrive(task: TaskId, p: Principal, model: string)
    | Acquire(task: TaskId)
    | ReadClock(task: TaskId)
    | CountNext(task: TaskId)
    | TotalNext(task: TaskId)
    | Stamp(task: TaskId)
    | Insert(task: TaskId)
    | QueryFails(task: TaskId)
    | Release(task: TaskId)
    | DropFuture(task: TaskId)
    | DropInFlight(task: TaskId)
    | Land(task: TaskId)
    | Tick(elapsed: nat)
    | RecordUsage(usage: Usage)

  function Initial(clock: int): State {
    State([], [], clock, map[], map[])
  }

  predicate Holding(phase: Phase) {
    !phase.Waiting? && !phase.InFlight?
  }

  predicate Enabled(s: State, a: Action) {
    match a
    case Tick(_) => true
    case RecordUsage(_) => true
    case Arrive(t, _, _) => t !in s.tasks
    case _ =>
      a.task in s.tasks &&
      var phase := s.tasks[a.task];
      match a
      case Acquire(_) => phase.Waiting? && AdmissionScope(phase.p) !in s.holders
      case ReadClock(_) => phase.Locked?
      case CountNext(_) => phase.Counting?
      case TotalNext(_) => phase.Totalling?
      case Stamp(_) => phase.Decided?
      case Insert(_) => phase.Inserting?
      case QueryFails(_) => phase.Counting? || phase.Totalling? || phase.Inserting?
      case Release(_) => phase.Releasing?
      case DropInFlight(_) => phase.Inserting?
      case Land(_) => phase.InFlight?
      case _ => true
  }

  function To(s: State, t: TaskId, phase: Phase): State {
    s.(tasks := s.tasks[t := phase])
  }

  /** The request is over; a lock it held is free again. */
  function Gone(s: State, t: TaskId): State
    requires t in s.tasks
  {
    var phase := s.tasks[t];
    s.(tasks := s.tasks - {t},
       holders := if Holding(phase) then s.holders - {AdmissionScope(phase.p)} else s.holders)
  }

  /** The first pass, and the reading of the clock. */
  function Started(quotas: seq<QuotaConfig>, phase: Phase, now: int): Phase
    requires phase.Locked?
  {
    var matching := Matching(quotas, phase.p);
    if matching == [] then Decided(phase.p, phase.model, now, true)
    else if exists q :: q in matching && !ModelPermitted(q, phase.model) then Decided(phase.p, phase.model, now, false)
    else Counting(phase.p, phase.model, now, 0)
  }

  /** One turn of the loop over request rates, or its end. */
  function Counted(quotas: seq<QuotaConfig>, log: seq<Row>, phase: Phase): Phase
    requires phase.Counting?
  {
    var matching := Matching(quotas, phase.p);
    if phase.counted >= |matching| then Totalling(phase.p, phase.model, phase.now, 0)
    else if RatePermitted(log, matching[phase.counted], phase.p, phase.now) then phase.(counted := phase.counted + 1)
    else Decided(phase.p, phase.model, phase.now, false)
  }

  /** One turn of the loop over tokens, or its end. */
  function Totalled(quotas: seq<QuotaConfig>, usage: seq<Usage>, phase: Phase): Phase
    requires phase.Totalling?
  {
    var matching := Matching(quotas, phase.p);
    if phase.totalled >= |matching| then Decided(phase.p, phase.model, phase.now, true)
    else if TokensPermitted(usage, matching[phase.totalled], phase.p, phase.now) then phase.(totalled := phase.totalled + 1)
    else Decided(phase.p, phase.model, phase.now, false)
  }

  function RowOf(phase: Phase): Row
    requires phase.Inserting?
  {
    Row(phase.at, phase.p.subject, phase.p.team, phase.model, phase.allowed)
  }

  function Apply(quotas: seq<QuotaConfig>, s: State, a: Action): State
    requires Enabled(s, a)
  {
    match a
    case Tick(elapsed) => s.(clock := s.clock + elapsed)
    case RecordUsage(u) => s.(usage := s.usage + [u])
    case Arrive(t, p, model) => To(s, t, Waiting(p, model))
    case Acquire(t) =>
      var phase := s.tasks[t];
      To(s, t, Locked(phase.p, phase.model)).(holders := s.holders[AdmissionScope(phase.p) := t])
    case ReadClock(t) => To(s, t, Started(quotas, s.tasks[t], s.clock))
    case CountNext(t) => To(s, t, Counted(quotas, s.log, s.tasks[t]))
    case TotalNext(t) => To(s, t, Totalled(quotas, s.usage, s.tasks[t]))
    case Stamp(t) =>
      var phase := s.tasks[t];
      To(s, t, Inserting(phase.p, phase.model, phase.now, phase.allowed, s.clock))
    case Insert(t) =>
      var phase := s.tasks[t];
      To(s, t, Releasing(phase.p)).(log := s.log + [RowOf(phase)])
    case QueryFails(t) => To(s, t, Releasing(s.tasks[t].p))
    case Release(t) => Gone(s, t)
    case DropFuture(t) => Gone(s, t)
    case DropInFlight(t) =>
      var phase := s.tasks[t];
      Gone(s, t).(tasks := s.tasks[t := InFlight(phase.p, RowOf(phase))])
    case Land(t) => Gone(s, t).(log := s.log + [s.tasks[t].row])
  }

  /** Actions that are not enabled do nothing, so every list of actions is a run. */
  function Step(quotas: seq<QuotaConfig>, s: State, a: Action): State {
    if Enabled(s, a) then Apply(quotas, s, a) else s
  }

  function Run(quotas: seq<QuotaConfig>, s: State, actions: seq<Action>): State
    decreases |actions|
  {
    if actions == [] then s else Run(quotas, Step(quotas, s, actions[0]), actions[1..])
  }

  // ---------------------------------------------------------- the assumptions

  predicate SameScope(actor: string, team: string, p: Principal) {
    AdmissionScope(Principal(actor, team)) == AdmissionScope(p)
  }

  /** Every row the check of `p` is to count is stamped before `now`. */
  predicate Past(quotas: seq<QuotaConfig>, log: seq<Row>, p: Principal, now: int) {
    forall r, q ::
      (r in log && r.allowed && q in Matching(quotas, p) && q.requestsPerMinute > 0 && InKey(r.actor, r.team, KeyFor(q, p))) ==>
      r.at < now
  }

  /**
   Each subject is in one team; a request reads a time past the stamps it is to
   count; and no insert of an allowed request outlives its future.
   */
  predicate Assumed(quotas: seq<QuotaConfig>, teamOf: string -> string, s: State, a: Action) {
    match a
    case Arrive(_, p, _) => p.team == teamOf(p.subject)
    case ReadClock(t) => t in s.tasks ==> Past(quotas, s.log, s.tasks[t].p, s.clock)
    case DropInFlight(t) => t in s.tasks && s.tasks[t].Inserting? ==> !s.tasks[t].allowed
    case _ => true
  }

  predicate AssumedAlong(quotas: seq<QuotaConfig>, teamOf: string -> string, s: State, actions: seq<Action>)
    decreases |actions|
  {
    actions != [] ==>
      Assumed(quotas, teamOf, s, actions[0]) && AssumedAlong(quotas, teamOf, Step(quotas, s, actions[0]), actions[1..])
  }

  // ------------------------------------------------------------- the invariant

  predicate RowsOk(log: seq<Row>, teamOf: string -> string) {
    forall r :: r in log ==> r.team == teamOf(r.actor)
  }

  predicate TeamsOk(tasks: map<TaskId, Phase>, teamOf: string -> string) {
    forall t :: t in tasks ==> tasks[t].p.team == teamOf(tasks[t].p.subject)
  }

  /** A scope has a holder exactly while one request is past its lock. */
  predicate LocksOk(tasks: map<TaskId, Phase>, holders: map<string, TaskId>) {
    (forall t :: t in tasks && Holding(tasks[t]) ==>
      AdmissionScope(tasks[t].p) in holders && holders[AdmissionScope(tasks[t].p)] == t) &&
    (forall scope :: scope in holders ==>
      holders[scope] in tasks && Holding(tasks[holders[scope]]) && AdmissionScope(tasks[holders[scope]].p) == scope)
  }

  /** The policies a request has found within their rate. */
  function Cleared(quotas: seq<QuotaConfig>, phase: Phase): seq<QuotaConfig> {
    var matching := Matching(quotas, phase.p);
    match phase
    case Counting(_, _, _, counted) => if counted <= |matching| then matching[..counted] else matching
    case Totalling(_, _, _, _) => matching
    case Decided(_, _, _, allowed) => if allowed then matching else []
    case Inserting(_, _, _, allowed, _) => if allowed then matching else []
    case _ => []
  }

  predicate HasClock(phase: Phase) {
    phase.Counting? || phase.Totalling? || phase.Decided? || phase.Inserting?
  }

  predicate RatesOk(qs: seq<QuotaConfig>, log: seq<Row>, p: Principal, now: int) {
    forall q :: q in qs ==> RatePermitted(log, q, p, now)
  }

  /** What a request has read is still true of the shared log. */
  predicate PhaseOk(quotas: seq<QuotaConfig>, log: seq<Row>, clock: int, phase: Phase) {
    HasClock(phase) ==>
      phase.now <= clock && Past(quotas, log, phase.p, phase.now) && RatesOk(Cleared(quotas, phase), log, phase.p, phase.now) &&
      (phase.Inserting? ==> phase.now <= phase.at <= clock)
  }

  /** A row that lands late is a denial. */
  predicate PendingOk(phase: Phase) {
    phase.InFlight? ==> !phase.row.allowed && phase.row.actor == phase.p.subject && phase.row.team == phase.p.team
  }

  predicate PhasesOk(quotas: seq<QuotaConfig>, s: State) {
    forall t :: t in s.tasks ==> PhaseOk(quotas, s.log, s.clock, s.tasks[t]) && PendingOk(s.tasks[t])
  }

  /** `key` gathers only requests that `q` governs, all of them under one lock. */
  predicate Governs(q: QuotaConfig, key: Key, teamOf: string -> string) {
    key == BySubject(q.subject) ||
    (q.team != "" && key == ByTeam(q.team) && teamOf(q.subject) != q.team)
  }

  ghost predicate LimitsOk(quotas: seq<QuotaConfig>, log: seq<Row>, teamOf: string -> string) {
    forall q, key :: q in quotas && q.requestsPerMinute > 0 && Governs(q, key, teamOf) ==>
      WithinLimit(log, key, q.requestsPerMinute)
  }

  ghost predicate Inv(quotas: seq<QuotaConfig>, teamOf: string -> string, s: State) {
    RowsOk(s.log, teamOf) && TeamsOk(s.tasks, teamOf) && LocksOk(s.tasks, s.holders) &&
    PhasesOk(quotas, s) && LimitsOk(quotas, s.log, teamOf)
  }

  // ------------------------------------------------------------------- locks

  /** Two requests share a lock exactly if they share a team, or have none and share the subject. */
  lemma ScopeIsExact(p: Principal, p': Principal)
    ensures AdmissionScope(p) == AdmissionScope(p') <==>
      p.team == p'.team && (p.team == "" ==> p.subject == p'.subject)
  {
    var a, b := AdmissionScope(p), AdmissionScope(p');
    if a == b {
      assert (if p.team == "" then 's' else 't') == a[0] == b[0] == (if p'.team == "" then 's' else 't');
      var n := if p.team == "" then |"subject:"| else |"team:"|;
      assert a[n..] == (if p.team == "" then p.subject else p.team);
      assert b[n..] == (if p'.team == "" then p'.subject else p'.team);
    }
  }

  /** The requests counted under one governed key all take the same lock. */
  lemma KeyWithinScope(q: QuotaConfig, key: Key, teamOf: string -> string, actor: string, p: Principal)
    requires Governs(q, key, teamOf)
    requires InKey(actor, teamOf(actor), key) && InKey(p.subject, p.team, key) && p.team == teamOf(p.subject)
    ensures SameScope(actor, teamOf(actor), p)
    ensures Matches(q, p) && KeyFor(q, p) == key
  {
  }

  /** Whatever a check counts was written under the lock the check runs under. */
  lemma CountedWithinScope(quotas: seq<QuotaConfig>, q: QuotaConfig, p: Principal, teamOf: string -> string, actor: string)
    requires q in Matching(quotas, p) && p.team == teamOf(p.subject)
    requires InKey(actor, teamOf(actor), KeyFor(q, p))
    ensures SameScope(actor, teamOf(actor), p)
  {
  }

  // ------------------------------------------------------------- the one write

  lemma RowKeepsLimit(quotas: seq<QuotaConfig>, teamOf: string -> string, log: seq<Row>, clock: int, phase: Phase,
                      q: QuotaConfig, key: Key)
    requires WithinLimit(log, key, q.requestsPerMinute)
    requires phase.Inserting? && phase.p.team == teamOf(phase.p.subject) && PhaseOk(quotas, log, clock, phase)
    requires q in quotas && q.requestsPerMinute > 0 && Governs(q, key, teamOf)
    ensures WithinLimit(log + [RowOf(phase)], key, q.requestsPerMinute)
  {
    var r := RowOf(phase);
    if r.allowed && InKey(r.actor, r.team, key) {
      KeyWithinScope(q, key, teamOf, r.actor, phase.p);
      assert q in Matching(quotas, phase.p) && RatePermitted(log, q, phase.p, phase.now);
      hide WithinLimit, CountAllowed, Matching;
      PassingCheckKeepsLimit(log, key, q.requestsPerMinute, phase.now, r);
    } else {
      UncountedKeepsLimit(log, key, q.requestsPerMinute, r);
    }
  }

  lemma UncountedKeepsLimit(log: seq<Row>, key: Key, limit: nat, r: Row)
    requires WithinLimit(log, key, limit) && (!r.allowed || !InKey(r.actor, r.team, key))
    ensures WithinLimit(log + [r], key, limit)
  {
    hide CountAllowed;
    forall lo: int
      ensures InWindow(log + [r], key, lo) <= limit
    {
      assert InWindow(log, key, lo) <= limit;
      CountAppend(log, r, key, lo, lo + MINUTE + 1);
    }
  }

  lemma RowKeepsRate(quotas: seq<QuotaConfig>, teamOf: string -> string, log: seq<Row>, r: Row, p: Principal, now: int,
                     q: QuotaConfig)
    requires q in Matching(quotas, p) && RatePermitted(log, q, p, now) && p.team == teamOf(p.subject)
    requires r.team == teamOf(r.actor) && (!r.allowed || !SameScope(r.actor, r.team, p))
    ensures RatePermitted(log + [r], q, p, now)
  {
    hide SameScope, CountAllowed, Matching;
    var key := KeyFor(q, p);
    if InKey(r.actor, r.team, key) {
      CountedWithinScope(quotas, q, p, teamOf, r.actor);
    }
    CountAppend(log, r, key, now - MINUTE, now);
  }

  lemma RowKeepsPast(quotas: seq<QuotaConfig>, teamOf: string -> string, log: seq<Row>, r: Row, p: Principal, now: int)
    requires Past(quotas, log, p, now) && p.team == teamOf(p.subject)
    requires r.team == teamOf(r.actor) && (!r.allowed || !SameScope(r.actor, r.team, p))
    ensures Past(quotas, log + [r], p, now)
  {
    hide SameScope, Matching, KeyFor;
    forall x, q | x in log + [r] && x.allowed && q in Matching(quotas, p) && q.requestsPerMinute > 0 &&
      InKey(x.actor, x.team, KeyFor(q, p))
      ensures x.at < now
    {
      if x == r {
        CountedWithinScope(quotas, q, p, teamOf, r.actor);
      }
    }
  }

  lemma ClearedMatch(quotas: seq<QuotaConfig>, phase: Phase, q: QuotaConfig)
    requires q in Cleared(quotas, phase)
    ensures q in Matching(quotas, phase.p)
  {
  }

  /** A denial, or a row written under another lock, changes nothing a request has read. */
  lemma RowKeepsOthers(quotas: seq<QuotaConfig>, teamOf: string -> string, log: seq<Row>, clock: int, r: Row, phase: Phase)
    requires PhaseOk(quotas, log, clock, phase) && phase.p.team == teamOf(phase.p.subject)
    requires r.team == teamOf(r.actor) && (!r.allowed || !SameScope(r.actor, r.team, phase.p))
    ensures PhaseOk(quotas, log + [r], clock, phase)
  {
    hide RatePermitted, Cleared, SameScope, Matching, Past;
    if HasClock(phase) {
      RowKeepsPast(quotas, teamOf, log, r, phase.p, phase.now);
      forall q | q in Cleared(quotas, phase)
        ensures RatePermitted(log + [r], q, phase.p, phase.now)
      {
        ClearedMatch(quotas, phase, q);
        RowKeepsRate(quotas, teamOf, log, r, phase.p, phase.now, q);
      }
    }
  }

  lemma InsertKeepsPhases(quotas: seq<QuotaConfig>, teamOf: string -> string, s: State, t: TaskId)
    requires Inv(quotas, teamOf, s) && Enabled(s, Insert(t))
    ensures PhasesOk(quotas, Apply(quotas, s, Insert(t)))
  {
    hide PhaseOk, LimitsOk, RowsOk, SameScope, AdmissionScope;
    var phase := s.tasks[t];
    var s' := Apply(quotas, s, Insert(t));
    forall u | u in s'.tasks
      ensures PhaseOk(quotas, s'.log, s'.clock, s'.tasks[u])
    {
      if u == t {
        ClocklessIsOk(quotas, s'.log, s'.clock, s'.tasks[u]);
      } else if Holding(s.tasks[u]) {
        ScopesDiffer(s, t, u);
        RowKeepsOthers(quotas, teamOf, s.log, s.clock, RowOf(phase), s.tasks[u]);
      } else {
        ClocklessIsOk(quotas, s'.log, s'.clock, s'.tasks[u]);
      }
    }
  }

  lemma ClocklessIsOk(quotas: seq<QuotaConfig>, log: seq<Row>, clock: int, phase: Phase)
    requires !HasClock(phase)
    ensures PhaseOk(quotas, log, clock, phase)
  {
  }

  /** A late row: everyone still knows what they knew, and no limit has moved. */
  lemma LandKeepsInv(quotas: seq<QuotaConfig>, teamOf: string -> string, s: State, t: TaskId)
    requires Inv(quotas, teamOf, s) && Enabled(s, Land(t))
    ensures Inv(quotas, teamOf, Apply(quotas, s, Land(t)))
  {
    hide PhaseOk, WithinLimit, Governs, AdmissionScope, SameScope;
    var row := s.tasks[t].row;
    var s' := Apply(quotas, s, Land(t));
    assert PendingOk(s.tasks[t]);
    forall u | u in s'.tasks
      ensures PhaseOk(quotas, s'.log, s'.clock, s'.tasks[u]) && PendingOk(s'.tasks[u])
    {
      RowKeepsOthers(quotas, teamOf, s.log, s.clock, row, s.tasks[u]);
    }
    forall q, key | q in quotas && q.requestsPerMinute > 0 && Governs(q, key, teamOf)
      ensures WithinLimit(s'.log, key, q.requestsPerMinute)
    {
      UncountedKeepsLimit(s.log, key, q.requestsPerMinute, row);
    }
  }

  /** Two requests past their locks hold different ones. */
  lemma ScopesDiffer(s: State, t: TaskId, u: TaskId)
    requires LocksOk(s.tasks, s.holders) && t in s.tasks && u in s.tasks && t != u
    requires Holding(s.tasks[t]) && Holding(s.tasks[u])
    ensures !SameScope(s.tasks[t].p.subject, s.tasks[t].p.team, s.tasks[u].p)
  {
  }

  lemma InsertKeepsInv(quotas: seq<QuotaConfig>, teamOf: string -> string, s: State, t: TaskId)
    requires Inv(quotas, teamOf, s) && Enabled(s, Insert(t))
    ensures Inv(quotas, teamOf, Apply(quotas, s, Insert(t)))
  {
    InsertKeepsPhases(quotas, teamOf, s, t);
    hide PhaseOk, WithinLimit, Governs, AdmissionScope, PhasesOk;
    assert PhaseOk(quotas, s.log, s.clock, s.tasks[t]) by { InvPhase(quotas, teamOf, s, t); }
    var phase := s.tasks[t];
    var s' := Apply(quotas, s, Insert(t));
    forall q, key | q in quotas && q.requestsPerMinute > 0 && Governs(q, key, teamOf)
      ensures WithinLimit(s'.log, key, q.requestsPerMinute)
    {
      RowKeepsLimit(quotas, teamOf, s.log, s.clock, phase, q, key);
    }
  }

  lemma InvPhase(quotas: seq<QuotaConfig>, teamOf: string -> string, s: State, t: TaskId)
    requires Inv(quotas, teamOf, s) && t in s.tasks
    ensures PhaseOk(quotas, s.log, s.clock, s.tasks[t])
  {
  }

  // -------------------------------------------------------------- other steps

  /** A task that moves from one phase to another under the lock it holds. */
  predicate Moves(a: Action) {
    a.ReadClock? || a.CountNext? || a.TotalNext? || a.Stamp? || a.QueryFails?
  }

  lemma StartedOk(quotas: seq<QuotaConfig>, log: seq<Row>, clock: int, phase: Phase)
    requires phase.Locked? && Past(quotas, log, phase.p, clock)
    ensures PhaseOk(quotas, log, clock, Started(quotas, phase, clock))
  {
  }

  lemma CountedOk(quotas: seq<QuotaConfig>, log: seq<Row>, clock: int, phase: Phase)
    requires phase.Counting? && PhaseOk(quotas, log, clock, phase)
    ensures PhaseOk(quotas, log, clock, Counted(quotas, log, phase))
  {
    hide RatePermitted, Past, Matching;
    var matching := Matching(quotas, phase.p);
    if phase.counted < |matching| {
      assert matching[..phase.counted + 1] == matching[..phase.counted] + [matching[phase.counted]];
    } else {
      assert matching[..|matching|] == matching;
    }
  }

  lemma TotalledOk(quotas: seq<QuotaConfig>, log: seq<Row>, usage: seq<Usage>, clock: int, phase: Phase)
    requires phase.Totalling? && PhaseOk(quotas, log, clock, phase)
    ensures PhaseOk(quotas, log, clock, Totalled(quotas, usage, phase))
  {
  }

  lemma StampOk(quotas: seq<QuotaConfig>, log: seq<Row>, clock: int, phase: Phase)
    requires phase.Decided? && PhaseOk(quotas, log, clock, phase)
    ensures PhaseOk(quotas, log, clock, Inserting(phase.p, phase.model, phase.now, phase.allowed, clock))
  {
  }

  lemma MoveTo(quotas: seq<QuotaConfig>, teamOf: string -> string, s: State, t: TaskId, phase: Phase)
    requires Inv(quotas, teamOf, s) && t in s.tasks && Holding(s.tasks[t])
    requires Holding(phase) && phase.p == s.tasks[t].p && PhaseOk(quotas, s.log, s.clock, phase)
    ensures Inv(quotas, teamOf, To(s, t, phase))
  {
  }

  lemma MoveKeepsInv(quotas: seq<QuotaConfig>, teamOf: string -> string, s: State, a: Action)
    requires Inv(quotas, teamOf, s) && Enabled(s, a) && Moves(a) && Assumed(quotas, teamOf, s, a)
    ensures Inv(quotas, teamOf, Apply(quotas, s, a))
  {
    hide LimitsOk, RowsOk, LocksOk, TeamsOk, PhaseOk, Past, AdmissionScope, Matching, RatePermitted, TokensPermitted, ModelPermitted;
    var t := a.task;
    var phase := s.tasks[t];
    assert PhaseOk(quotas, s.log, s.clock, phase);
    match a {
      case ReadClock(_) => StartedOk(quotas, s.log, s.clock, phase);
      case CountNext(_) => CountedOk(quotas, s.log, s.clock, phase);
      case TotalNext(_) => TotalledOk(quotas, s.log, s.usage, s.clock, phase);
      case Stamp(_) => StampOk(quotas, s.log, s.clock, phase);
      case QueryFails(_) => ClocklessIsOk(quotas, s.log, s.clock, Releasing(phase.p));
    }
    MoveTo(quotas, teamOf, s, t, Apply(quotas, s, a).tasks[t]);
  }

  lemma TickKeepsPhases(quotas: seq<QuotaConfig>, s: State, elapsed: nat)
    requires PhasesOk(quotas, s)
    ensures PhasesOk(quotas, s.(clock := s.clock + elapsed))
  {
  }

  /** A request arrives, or takes a lock nobody holds. */
  lemma JoinKeepsLocks(s: State, s': State, t: TaskId, phase: Phase)
    requires LocksOk(s.tasks, s.holders) && s'.tasks == s.tasks[t := phase] && (t in s.tasks ==> !Holding(s.tasks[t]))
    requires if Holding(phase) then
        AdmissionScope(phase.p) !in s.holders && s'.holders == s.holders[AdmissionScope(phase.p) := t]
      else s'.holders == s.holders
    ensures LocksOk(s'.tasks, s'.holders)
  {
    hide AdmissionScope;
  }

  lemma MoveKeepsLocks(s: State, t: TaskId, phase: Phase)
    requires LocksOk(s.tasks, s.holders) && t in s.tasks && Holding(s.tasks[t])
    requires Holding(phase) && phase.p == s.tasks[t].p
    ensures LocksOk(To(s, t, phase).tasks, s.holders)
  {
    hide AdmissionScope;
  }

  lemma GoneKeepsLocks(s: State, t: TaskId)
    requires LocksOk(s.tasks, s.holders) && t in s.tasks
    ensures LocksOk(Gone(s, t).tasks, Gone(s, t).holders)
  {
    hide AdmissionScope;
  }

  lemma JoinKeepsInv(quotas: seq<QuotaConfig>, teamOf: string -> string, s: State, a: Action)
    requires Inv(quotas, teamOf, s) && Enabled(s, a) && (a.Arrive? || a.Acquire?) && Assumed(quotas, teamOf, s, a)
    ensures Inv(quotas, teamOf, Apply(quotas, s, a))
  {
    hide LimitsOk, RowsOk, AdmissionScope, LocksOk, PhaseOk;
    var s' := Apply(quotas, s, a);
    JoinKeepsLocks(s, s', a.task, s'.tasks[a.task]);
    ClocklessIsOk(quotas, s.log, s.clock, s'.tasks[a.task]);
  }

  lemma DropInFlightKeepsInv(quotas: seq<QuotaConfig>, teamOf: string -> string, s: State, t: TaskId)
    requires Inv(quotas, teamOf, s) && Enabled(s, DropInFlight(t)) && !s.tasks[t].allowed
    ensures Inv(quotas, teamOf, Apply(quotas, s, DropInFlight(t)))
  {
    var s' := Apply(quotas, s, DropInFlight(t));
    GoneKeepsLocks(s, t);
    JoinKeepsLocks(Gone(s, t), s', t, s'.tasks[t]);
    hide LimitsOk, RowsOk, AdmissionScope, PhaseOk, LocksOk;
    ClocklessIsOk(quotas, s.log, s.clock, s'.tasks[t]);
  }

  lemma LeaveKeepsInv(quotas: seq<QuotaConfig>, teamOf: string -> string, s: State, t: TaskId)
    requires Inv(quotas, teamOf, s) && t in s.tasks
    ensures Inv(quotas, teamOf, Gone(s, t))
  {
  }

  lemma StepKeepsInv(quotas: seq<QuotaConfig>, teamOf: string -> string, s: State, a: Action)
    requires Inv(quotas, teamOf, s) && Assumed(quotas, teamOf, s, a)
    ensures Inv(quotas, teamOf, Step(quotas, s, a))
  {
    if Enabled(s, a) {
      if a.Insert? {
        InsertKeepsInv(quotas, teamOf, s, a.task);
      } else if Moves(a) {
        MoveKeepsInv(quotas, teamOf, s, a);
      } else if a.Arrive? || a.Acquire? {
        JoinKeepsInv(quotas, teamOf, s, a);
      } else if a.DropInFlight? {
        DropInFlightKeepsInv(quotas, teamOf, s, a.task);
      } else if a.Land? {
        LandKeepsInv(quotas, teamOf, s, a.task);
      } else if a.Tick? {
        TickKeepsPhases(quotas, s, a.elapsed);
      } else if !a.RecordUsage? {
        LeaveKeepsInv(quotas, teamOf, s, a.task);
      }
    }
  }

  lemma {:induction false} RunKeepsInv(quotas: seq<QuotaConfig>, teamOf: string -> string, s: State, actions: seq<Action>)
    requires Inv(quotas, teamOf, s) && AssumedAlong(quotas, teamOf, s, actions)
    ensures Inv(quotas, teamOf, Run(quotas, s, actions))
    decreases |actions|
  {
    hide Inv, Step, Assumed;
    if actions == [] {
    } else {
      StepKeepsInv(quotas, teamOf, s, actions[0]);
      RunKeepsInv(quotas, teamOf, Step(quotas, s, actions[0]), actions[1..]);
    }
  }

  /** Nobody is being admitted, and what is stored keeps the limits. */
  ghost predicate Quiet(quotas: seq<QuotaConfig>, teamOf: string -> string, s: State) {
    s.tasks == map[] && s.holders == map[] && RowsOk(s.log, teamOf) && LimitsOk(quotas, s.log, teamOf)
  }

  lemma QuietInv(quotas: seq<QuotaConfig>, teamOf: string -> string, s: State)
    requires Quiet(quotas, teamOf, s)
    ensures Inv(quotas, teamOf, s)
  {
  }

  lemma InitialIsQuiet(quotas: seq<QuotaConfig>, teamOf: string -> string, clock: int)
    ensures Quiet(quotas, teamOf, Initial(clock))
  {
  }

  // ------------------------------------------------------------- main results

  /**
   MAIN: however admissions interleave, fail or are dropped, no window of one
   minute ever holds more allowed requests of a subject than any policy naming
   it permits, nor more of a team than any policy of that team whose subject is
   not itself a member.
   */
  lemma RateLimitOfEveryRun(quotas: seq<QuotaConfig>, teamOf: string -> string, start: State, actions: seq<Action>,
                            q: QuotaConfig, lo: int)
    requires Quiet(quotas, teamOf, start) && AssumedAlong(quotas, teamOf, start, actions)
    requires q in quotas && q.requestsPerMinute > 0
    ensures InWindow(Run(quotas, start, actions).log, BySubject(q.subject), lo) <= q.requestsPerMinute
    ensures q.team != "" && teamOf(q.subject) != q.team ==>
      InWindow(Run(quotas, start, actions).log, ByTeam(q.team), lo) <= q.requestsPerMinute
  {
    hide Run, Inv, AssumedAlong, InWindow, Quiet;
    QuietInv(quotas, teamOf, start);
    RunKeepsInv(quotas, teamOf, start, actions);
    LimitHolds(quotas, teamOf, Run(quotas, start, actions), q, BySubject(q.subject), lo);
    if q.team != "" && teamOf(q.subject) != q.team {
      LimitHolds(quotas, teamOf, Run(quotas, start, actions), q, ByTeam(q.team), lo);
    }
  }

  lemma LimitHolds(quotas: seq<QuotaConfig>, teamOf: string -> string, s: State, q: QuotaConfig, key: Key, lo: int)
    requires Inv(quotas, teamOf, s) && q in quotas && q.requestsPerMinute > 0 && Governs(q, key, teamOf)
    ensures InWindow(s.log, key, lo) <= q.requestsPerMinute
  {
  }

  /** Whatever a step is, it leaves each lock with the one request that is past it. */
  lemma StepKeepsLocks(quotas: seq<QuotaConfig>, s: State, a: Action)
    requires LocksOk(s.tasks, s.holders)
    ensures LocksOk(Step(quotas, s, a).tasks, Step(quotas, s, a).holders)
  {
    hide LocksOk, AdmissionScope, Matching, RatePermitted, TokensPermitted, ModelPermitted;
    if Enabled(s, a) && !a.Tick? && !a.RecordUsage? {
      var s', t := Apply(quotas, s, a), a.task;
      if a.Arrive? || a.Acquire? {
        JoinKeepsLocks(s, s', t, s'.tasks[t]);
      } else if Moves(a) || a.Insert? {
        MoveKeepsLocks(s, t, s'.tasks[t]);
      } else {
        GoneKeepsLocks(s, t);
        if a.DropInFlight? {
          JoinKeepsLocks(Gone(s, t), s', t, s'.tasks[t]);
        }
      }
    }
  }

  lemma {:induction false} RunKeepsLocks(quotas: seq<QuotaConfig>, s: State, actions: seq<Action>)
    requires LocksOk(s.tasks, s.holders)
    ensures LocksOk(Run(quotas, s, actions).tasks, Run(quotas, s, actions).holders)
    decreases |actions|
  {
    hide LocksOk, Step;
    if actions == [] {
    } else {
      StepKeepsLocks(quotas, s, actions[0]);
      RunKeepsLocks(quotas, Step(quotas, s, actions[0]), actions[1..]);
    }
  }

  /**
   MAIN: on every run whatsoever (clock ties, changing teams, futures dropped at
   any step) a lock is never shared, every holder is a request past its lock, and
   so no lock outlives the requests.
   */
  lemma LocksOfEveryRun(quotas: seq<QuotaConfig>, start: State, actions: seq<Action>)
    requires start.tasks == map[] && start.holders == map[]
    ensures var s := Run(quotas, start, actions);
      (forall t, u ::
        (t in s.tasks && u in s.tasks && Holding(s.tasks[t]) && Holding(s.tasks[u]) &&
         AdmissionScope(s.tasks[t].p) == AdmissionScope(s.tasks[u].p)) ==> t == u) &&
      (forall scope :: scope in s.holders <==>
        exists t :: t in s.tasks && Holding(s.tasks[t]) && AdmissionScope(s.tasks[t].p) == scope)
  {
    RunKeepsLocks(quotas, start, actions);
    hide Run, AdmissionScope;
  }

  // ------------------------------------- the steps of one check, undisturbed

  /** The phase in which a check ends when nothing else runs in between. */
  function Settled(quotas: seq<QuotaConfig>, log: seq<Row>, usage: seq<Usage>, phase: Phase): Phase
    decreases if phase.Counting? then 2 else if phase.Totalling? then 1 else 0,
      if phase.Counting? then |Matching(quotas, phase.p)| - phase.counted
      else if phase.Totalling? then |Matching(quotas, phase.p)| - phase.totalled else 0
  {
    if phase.Counting? then Settled(quotas, log, usage, Counted(quotas, log, phase))
    else if phase.Totalling? then Settled(quotas, log, usage, Totalled(quotas, usage, phase))
    else phase
  }

  lemma {:induction false} TokensSettle(quotas: seq<QuotaConfig>, log: seq<Row>, usage: seq<Usage>, phase: Phase)
    requires phase.Totalling? && phase.totalled <= |Matching(quotas, phase.p)|
    ensures Settled(quotas, log, usage, phase) == Decided(phase.p, phase.model, phase.now,
      forall q :: q in Matching(quotas, phase.p)[phase.totalled..] ==> TokensPermitted(usage, q, phase.p, phase.now))
    decreases |Matching(quotas, phase.p)| - phase.totalled
  {
    hide TokensPermitted, Matching;
    var rest := Matching(quotas, phase.p)[phase.totalled..];
    if rest == [] {
    } else {
      assert rest == [rest[0]] + rest[1..];
      if TokensPermitted(usage, rest[0], phase.p, phase.now) {
        TokensSettle(quotas, log, usage, phase.(totalled := phase.totalled + 1));
        assert rest[1..] == Matching(quotas, phase.p)[phase.totalled + 1..];
      } else {
        assert rest[0] in rest;
      }
    }
  }

  lemma {:induction false} RatesSettle(quotas: seq<QuotaConfig>, log: seq<Row>, usage: seq<Usage>, phase: Phase)
    requires phase.Counting? && phase.counted <= |Matching(quotas, phase.p)|
    ensures Settled(quotas, log, usage, phase) == Decided(phase.p, phase.model, phase.now,
      (forall q :: q in Matching(quotas, phase.p)[phase.counted..] ==> RatePermitted(log, q, phase.p, phase.now)) &&
      (forall q :: q in Matching(quotas, phase.p) ==> TokensPermitted(usage, q, phase.p, phase.now)))
    decreases |Matching(quotas, phase.p)| - phase.counted
  {
    hide RatePermitted, TokensPermitted, Matching, Totalled;
    var matching := Matching(quotas, phase.p);
    var rest := matching[phase.counted..];
    if rest == [] {
      TokensSettle(quotas, log, usage, Totalling(phase.p, phase.model, phase.now, 0));
      assert matching[0..] == matching;
    } else {
      assert rest == [rest[0]] + rest[1..];
      if RatePermitted(log, rest[0], phase.p, phase.now) {
        RatesSettle(quotas, log, usage, phase.(counted := phase.counted + 1));
        assert rest[1..] == matching[phase.counted + 1..];
      } else {
        assert rest[0] in rest;
      }
    }
  }

  /** Step by step, a check reaches the decision `check_quota` returns. */
  lemma StepsDecide(quotas: seq<QuotaConfig>, log: seq<Row>, usage: seq<Usage>, p: Principal, model: string, now: int)
    ensures Settled(quotas, log, usage, Started(quotas, Locked(p, model), now))
         == Decided(p, model, now, Decide(quotas, log, usage, p, model, now).allowed)
  {
    AllMatchingPermit(quotas, log, usage, p, model, now);
    hide Decide, Matching, ModelPermitted, RatePermitted, TokensPermitted, Permits, Counted, Totalled;
    var matching := Matching(quotas, p);
    if matching != [] {
      if exists q :: q in matching && !ModelPermitted(q, model) {
        var q :| q in matching && !ModelPermitted(q, model);
        ModelFirst(q, log, usage, p, model, now);
      } else {
        RatesSettle(quotas, log, usage, Counting(p, model, now, 0));
        assert matching[0..] == matching;
        SplitPermits(matching, log, usage, p, model, now);
      }
    }
  }

  lemma ModelFirst(q: QuotaConfig, log: seq<Row>, usage: seq<Usage>, p: Principal, model: string, now: int)
    requires !ModelPermitted(q, model)
    ensures !Permits(q, log, usage, p, model, now)
  {
  }

  lemma AllMatchingPermit(quotas: seq<QuotaConfig>, log: seq<Row>, usage: seq<Usage>, p: Principal, model: string, now: int)
    ensures Decide(quotas, log, usage, p, model, now).allowed <==>
      forall q :: q in Matching(quotas, p) ==> Permits(q, log, usage, p, model, now)
  {
    DecisionIsConjunction(quotas, log, usage, p, model, now);
    assert forall q :: q in Matching(quotas, p) <==> q in quotas && Matches(q, p);
    hide Decide, Matching, Matches, Permits;
  }

  lemma SplitPermits(qs: seq<QuotaConfig>, log: seq<Row>, usage: seq<Usage>, p: Principal, model: string, now: int)
    requires forall q :: q in qs ==> ModelPermitted(q, model)
    ensures (forall q :: q in qs ==> Permits(q, log, usage, p, model, now)) <==>
      (forall q :: q in qs ==> RatePermitted(log, q, p, now)) && (forall q :: q in qs ==> TokensPermitted(usage, q, p, now))
  {
  }
}
