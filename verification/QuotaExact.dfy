/**
 Exactly when a rate limit survives a run (src/quota.rs): with nothing assumed
 about the clock, ties included, it comes down to what each recording finds.
 */
module QuotaExact {
  import opened Quota
  import opened QuotaPolicy
  import opened QuotaAdmission

  /** Each subject is in one team, and no insert of an admitted request outlives its future. */
  predicate Orderly(teamOf: string -> string, s: State, a: Action) {
    match a
    case Arrive(_, p, _) => p.team == teamOf(p.subject)
    case DropInFlight(t) => t in s.tasks && s.tasks[t].Inserting? ==> !s.tasks[t].allowed
    case _ => true
  }

  predicate OrderlyAlong(quotas: seq<QuotaConfig>, teamOf: string -> string, s: State, actions: seq<Action>)
    decreases |actions|
  {
    actions != [] ==>
      Orderly(teamOf, s, actions[0]) && OrderlyAlong(quotas, teamOf, Step(quotas, s, actions[0]), actions[1..])
  }

  /** A start: nobody is being admitted, and nothing stored lies in the future. */
  predicate Resting(teamOf: string -> string, s: State) {
    s.tasks == map[] && s.holders == map[] && RowsOk(s.log, teamOf) && NotAhead(s.log, s.clock)
  }

  predicate NotAhead(log: seq<Row>, clock: int) {
    forall r :: r in log && r.allowed ==> r.at <= clock
  }

  /** Every admitted row written under the lock of `p` is stamped `at` or before. */
  predicate Follows(log: seq<Row>, p: Principal, at: int) {
    forall r :: r in log && r.allowed && SameScope(r.actor, r.team, p) ==> r.at <= at
  }

  predicate StampsFollow(s: State) {
    forall t :: t in s.tasks && s.tasks[t].Inserting? ==>
      s.tasks[t].at <= s.clock && Follows(s.log, s.tasks[t].p, s.tasks[t].at)
  }

  predicate DenialsPend(tasks: map<TaskId, Phase>) {
    forall t :: t in tasks ==> PendingOk(tasks[t])
  }

  /** What every run keeps: stamps follow each other under each lock. */
  predicate InStep(teamOf: string -> string, s: State) {
    RowsOk(s.log, teamOf) && TeamsOk(s.tasks, teamOf) && LocksOk(s.tasks, s.holders) &&
    NotAhead(s.log, s.clock) && StampsFollow(s) && DenialsPend(s.tasks)
  }

  /** Fewer than `limit` rows lie in the closed minute before the stamp of the row to be counted under `key`. */
  predicate FindsRoom(s: State, a: Action, key: Key, limit: nat) {
    a.Insert? && Enabled(s, a) && s.tasks[a.task].allowed &&
    InKey(s.tasks[a.task].p.subject, s.tasks[a.task].p.team, key) ==>
      CountAllowed(s.log, key, s.tasks[a.task].at - MINUTE, s.tasks[a.task].at + 1) < limit
  }

  predicate FindsRoomAlong(quotas: seq<QuotaConfig>, s: State, actions: seq<Action>, key: Key, limit: nat)
    decreases |actions|
  {
    actions != [] ==>
      FindsRoom(s, actions[0], key, limit) &&
      FindsRoomAlong(quotas, Step(quotas, s, actions[0]), actions[1..], key, limit)
  }

  /** The keys policies count by: a subject, or a team that is one. */
  predicate IsCounted(key: Key) {
    key != ByTeam("")
  }

  /** All that is counted under one key is written under one lock. */
  lemma KeyWithinLock(key: Key, teamOf: string -> string, actor: string, p: Principal)
    requires IsCounted(key) && p.team == teamOf(p.subject)
    requires InKey(actor, teamOf(actor), key) && InKey(p.subject, p.team, key)
    ensures SameScope(actor, teamOf(actor), p)
  {
  }

  // ------------------------------------------------------------- one step

  /** At most one request moves, and at most a denial lands. */
  lemma MoveFollows(teamOf: string -> string, s: State, s': State, t: TaskId, landed: seq<Row>)
    requires InStep(teamOf, s) && LocksOk(s'.tasks, s'.holders) && s'.clock >= s.clock && s'.log == s.log + landed
    requires forall r :: r in landed ==> !r.allowed && r.team == teamOf(r.actor)
    requires forall u :: u in s'.tasks && u != t ==> u in s.tasks && s'.tasks[u] == s.tasks[u]
    requires t in s'.tasks ==> s'.tasks[t].p.team == teamOf(s'.tasks[t].p.subject) && PendingOk(s'.tasks[t])
    requires t in s'.tasks && s'.tasks[t].Inserting? ==>
      s'.tasks[t].at <= s'.clock && Follows(s.log, s'.tasks[t].p, s'.tasks[t].at)
    ensures InStep(teamOf, s')
  {
    hide SameScope, LocksOk, PendingOk;
    forall u | u in s'.tasks && s'.tasks[u].Inserting?
      ensures s'.tasks[u].at <= s'.clock && Follows(s'.log, s'.tasks[u].p, s'.tasks[u].at)
    {
      assert Follows(s.log, s'.tasks[u].p, s'.tasks[u].at);
    }
  }

  lemma InsertFollows(quotas: seq<QuotaConfig>, teamOf: string -> string, s: State, t: TaskId)
    requires InStep(teamOf, s) && Enabled(s, Insert(t))
    ensures InStep(teamOf, Apply(quotas, s, Insert(t)))
  {
    hide AdmissionScope, Matching;
    var s' := Apply(quotas, s, Insert(t));
    MoveKeepsLocks(s, t, s'.tasks[t]);
    forall u | u in s'.tasks && s'.tasks[u].Inserting?
      ensures s'.tasks[u].at <= s'.clock && Follows(s'.log, s'.tasks[u].p, s'.tasks[u].at)
    {
      ScopesDiffer(s, t, u);
      RowUnderAnotherLock(s.log, RowOf(s.tasks[t]), s.tasks[u].p, s.tasks[u].at);
    }
    hide LocksOk, Follows;
  }

  lemma RowUnderAnotherLock(log: seq<Row>, r: Row, p: Principal, at: int)
    requires Follows(log, p, at) && !SameScope(r.actor, r.team, p)
    ensures Follows(log + [r], p, at)
  {
  }

  lemma StampFollows(log: seq<Row>, p: Principal, clock: int)
    requires NotAhead(log, clock)
    ensures Follows(log, p, clock)
  {
  }

  lemma StampFollowsOn(quotas: seq<QuotaConfig>, teamOf: string -> string, s: State, t: TaskId)
    requires InStep(teamOf, s) && Enabled(s, Stamp(t))
    ensures InStep(teamOf, Apply(quotas, s, Stamp(t)))
  {
    StepKeepsLocks(quotas, s, Stamp(t));
    hide LocksOk, AdmissionScope, Matching, StampsFollow;
    StampFollows(s.log, s.tasks[t].p, s.clock);
    MoveFollows(teamOf, s, Apply(quotas, s, Stamp(t)), t, []);
  }

  /** A request that enters, or goes on checking, is itself all that changes, and has no stamp yet. */
  lemma CheckMoves(quotas: seq<QuotaConfig>, s: State, a: Action)
    requires Enabled(s, a) && (a.Arrive? || a.Acquire? || a.ReadClock? || a.CountNext? || a.TotalNext? || a.QueryFails?)
    ensures var s' := Apply(quotas, s, a);
      s'.log == s.log && s'.clock == s.clock && a.task in s'.tasks && s'.tasks == s.tasks[a.task := s'.tasks[a.task]] &&
      s'.tasks[a.task].p == (if a.Arrive? then a.p else s.tasks[a.task].p) &&
      !s'.tasks[a.task].Inserting? && !s'.tasks[a.task].InFlight?
  {
    hide AdmissionScope, Matching, RatePermitted, TokensPermitted, ModelPermitted;
  }

  lemma CheckFollows(quotas: seq<QuotaConfig>, teamOf: string -> string, s: State, a: Action)
    requires InStep(teamOf, s) && Enabled(s, a) && Orderly(teamOf, s, a)
    requires a.Arrive? || a.Acquire? || a.ReadClock? || a.CountNext? || a.TotalNext? || a.QueryFails?
    ensures InStep(teamOf, Apply(quotas, s, a))
  {
    StepKeepsLocks(quotas, s, a);
    CheckMoves(quotas, s, a);
    hide LocksOk, Apply, StampsFollow, Follows;
    MoveFollows(teamOf, s, Apply(quotas, s, a), a.task, []);
  }

  /** A request that ends, or whose denial is still under way, or lands. */
  lemma LeaveFollows(quotas: seq<QuotaConfig>, teamOf: string -> string, s: State, a: Action)
    requires InStep(teamOf, s) && Enabled(s, a) && Orderly(teamOf, s, a)
    requires a.Release? || a.DropFuture? || a.DropInFlight? || a.Land?
    ensures InStep(teamOf, Apply(quotas, s, a))
  {
    StepKeepsLocks(quotas, s, a);
    hide LocksOk, AdmissionScope, StampsFollow, Follows;
    MoveFollows(teamOf, s, Apply(quotas, s, a), a.task, if a.Land? then [s.tasks[a.task].row] else []);
  }

  lemma StepFollows(quotas: seq<QuotaConfig>, teamOf: string -> string, s: State, a: Action)
    requires InStep(teamOf, s) && Orderly(teamOf, s, a)
    ensures InStep(teamOf, Step(quotas, s, a))
  {
    if Enabled(s, a) {
      if a.Tick? || a.RecordUsage? {
        MoveFollows(teamOf, s, Apply(quotas, s, a), 0, []);
      } else {
        hide InStep, Orderly, Apply;
        if a.Insert? {
          InsertFollows(quotas, teamOf, s, a.task);
        } else if a.Stamp? {
          StampFollowsOn(quotas, teamOf, s, a.task);
        } else if a.Release? || a.DropFuture? || a.DropInFlight? || a.Land? {
          LeaveFollows(quotas, teamOf, s, a);
        } else {
          CheckFollows(quotas, teamOf, s, a);
        }
      }
    }
  }

  lemma KeyFollows(teamOf: string -> string, s: State, t: TaskId, key: Key)
    requires InStep(teamOf, s) && IsCounted(key) && t in s.tasks && s.tasks[t].Inserting?
    requires InKey(s.tasks[t].p.subject, s.tasks[t].p.team, key)
    ensures NotAfter(s.log, key, s.tasks[t].at)
  {
    hide SameScope, LocksOk;
    forall r | r in s.log && r.allowed && InKey(r.actor, r.team, key)
      ensures r.at <= s.tasks[t].at
    {
      KeyWithinLock(key, teamOf, r.actor, s.tasks[t].p);
    }
  }

  lemma BrokenStaysBroken(log: seq<Row>, key: Key, limit: nat, r: Row)
    requires !WithinLimit(log, key, limit)
    ensures !WithinLimit(log + [r], key, limit)
  {
    hide CountAllowed;
    var lo: int :| InWindow(log, key, lo) > limit;
    CountAppend(log, r, key, lo, lo + MINUTE + 1);
    assert InWindow(log + [r], key, lo) > limit;
  }

  /** A recorded row breaks a limit exactly if it is counted and finds no room. */
  lemma RecordedLimitIff(log: seq<Row>, key: Key, limit: nat, r: Row)
    requires r.allowed && InKey(r.actor, r.team, key) ==> NotAfter(log, key, r.at)
    ensures WithinLimit(log + [r], key, limit) <==>
      WithinLimit(log, key, limit) &&
      (r.allowed && InKey(r.actor, r.team, key) ==> CountAllowed(log, key, r.at - MINUTE, r.at + 1) < limit)
  {
    hide WithinLimit, CountAllowed;
    if !WithinLimit(log, key, limit) {
      BrokenStaysBroken(log, key, limit, r);
    } else if r.allowed && InKey(r.actor, r.team, key) {
      RecordingKeepsLimitIff(log, key, limit, r.at, r);
    } else {
      UncountedKeepsLimit(log, key, limit, r);
    }
  }

  /** A step breaks the limit exactly by recording a row that finds no room. */
  lemma StepKeepsLimitIff(quotas: seq<QuotaConfig>, teamOf: string -> string, s: State, a: Action, key: Key, limit: nat)
    requires InStep(teamOf, s) && IsCounted(key)
    ensures WithinLimit(Step(quotas, s, a).log, key, limit) <==> WithinLimit(s.log, key, limit) && FindsRoom(s, a, key, limit)
  {
    hide WithinLimit, CountAllowed, LocksOk, StampsFollow, SameScope;
    if Enabled(s, a) {
      if a.Insert? {
        var r := RowOf(s.tasks[a.task]);
        if r.allowed && InKey(r.actor, r.team, key) {
          KeyFollows(teamOf, s, a.task, key);
        }
        RecordedLimitIff(s.log, key, limit, r);
      } else if a.Land? {
        RecordedLimitIff(s.log, key, limit, s.tasks[a.task].row);
      }
    }
  }

  // ------------------------------------------------------------- every run

  lemma {:induction false} RunKeepsLimitIff(quotas: seq<QuotaConfig>, teamOf: string -> string, s: State, actions: seq<Action>,
                                           key: Key, limit: nat)
    requires InStep(teamOf, s) && OrderlyAlong(quotas, teamOf, s, actions) && IsCounted(key)
    ensures WithinLimit(Run(quotas, s, actions).log, key, limit) <==>
      WithinLimit(s.log, key, limit) && FindsRoomAlong(quotas, s, actions, key, limit)
    decreases |actions|
  {
    hide InStep, Step, WithinLimit, FindsRoom, Orderly;
    if actions == [] {
    } else {
      StepFollows(quotas, teamOf, s, actions[0]);
      StepKeepsLimitIff(quotas, teamOf, s, actions[0], key, limit);
      RunKeepsLimitIff(quotas, teamOf, Step(quotas, s, actions[0]), actions[1..], key, limit);
    }
  }

  /**
   MAIN: on every run, clock ties included, a limit on a subject or a team holds at
   the end if and only if it held at the start and every admission recorded found
   fewer than the limit in the closed minute before its stamp.
   */
  lemma LimitOfEveryRunIff(quotas: seq<QuotaConfig>, teamOf: string -> string, start: State, actions: seq<Action>,
                           key: Key, limit: nat)
    requires Resting(teamOf, start) && OrderlyAlong(quotas, teamOf, start, actions) && IsCounted(key)
    ensures WithinLimit(Run(quotas, start, actions).log, key, limit) <==>
      WithinLimit(start.log, key, limit) && FindsRoomAlong(quotas, start, actions, key, limit)
  {
    RunKeepsLimitIff(quotas, teamOf, start, actions, key, limit);
  }
}
