/**
 Particular runs of the admission machine, and what they show: when the clock
 stands still or an insert outlives its future a rate limit breaks, and exactly
 for which teams a policy bounds the team (src/quota.rs).
 */
module QuotaRuns {
  import opened Quota
  import opened QuotaPolicy
  import opened QuotaAdmission

  const U32_MAX: nat := 0xFFFF_FFFF

  // ---------------------------------------------------------- one admission

  /** A request that arrives, takes its lock, and counts against its one policy. */
  function Entering(t: TaskId, p: Principal, model: string): seq<Action> {
    [Arrive(t, p, model), Acquire(t), ReadClock(t), CountNext(t), CountNext(t)]
  }

  /** The rest of it: tokens, stamp, row, release. */
  function Leaving(t: TaskId): seq<Action> {
    [TotalNext(t), TotalNext(t), Stamp(t), Insert(t), Release(t)]
  }

  /** The same, but dropped when its insert has been sent. */
  function Dropping(t: TaskId): seq<Action> {
    [TotalNext(t), TotalNext(t), Stamp(t), DropInFlight(t)]
  }

  function Admission(t: TaskId, p: Principal, model: string): seq<Action> {
    Entering(t, p, model) + Leaving(t)
  }

  /** A run step by step, with what is assumed of each step. */
  lemma {:induction false} RunFrom(quotas: seq<QuotaConfig>, teamOf: string -> string, states: seq<State>, actions: seq<Action>)
    requires |states| == |actions| + 1
    requires forall k :: 0 <= k < |actions| ==> states[k + 1] == Step(quotas, states[k], actions[k])
    ensures Run(quotas, states[0], actions) == states[|actions|]
    ensures (forall k :: 0 <= k < |actions| ==> Assumed(quotas, teamOf, states[k], actions[k])) ==>
      AssumedAlong(quotas, teamOf, states[0], actions)
    decreases |actions|
  {
    hide Step, Assumed;
    if actions == [] {
    } else {
      var later, rest := states[1..], actions[1..];
      forall k | 0 <= k < |rest|
        ensures later[k + 1] == Step(quotas, later[k], rest[k])
      {
        assert later[k] == states[k + 1] && rest[k] == actions[k + 1] && later[k + 1] == states[k + 1 + 1];
      }
      RunFrom(quotas, teamOf, later, rest);
    }
  }

  lemma {:induction false} RunInTurn(quotas: seq<QuotaConfig>, teamOf: string -> string, s: State, first: seq<Action>, second: seq<Action>)
    ensures Run(quotas, s, first + second) == Run(quotas, Run(quotas, s, first), second)
    ensures AssumedAlong(quotas, teamOf, s, first + second) <==>
      AssumedAlong(quotas, teamOf, s, first) && AssumedAlong(quotas, teamOf, Run(quotas, s, first), second)
    decreases |first|
  {
    hide Step, Assumed;
    if first == [] {
      assert first + second == second;
    } else {
      RunInTurn(quotas, teamOf, Step(quotas, s, first[0]), first[1..], second);
      assert (first + second)[1..] == first[1..] + second;
    }
  }

  /** The request is new, its lock is free, and the one policy lets it pass. */
  predicate MayPass(s: State, t: TaskId, q: QuotaConfig, p: Principal, model: string) {
    t !in s.tasks && AdmissionScope(p) !in s.holders && Matches(q, p) && Permits(q, s.log, s.usage, p, model, s.clock)
  }

  function Held(s: State, t: TaskId, p: Principal, phase: Phase): State {
    s.(holders := s.holders[AdmissionScope(p) := t], tasks := s.tasks[t := phase])
  }

  lemma OneMatches(q: QuotaConfig, p: Principal)
    requires Matches(q, p)
    ensures Matching([q], p) == [q]
  {
  }

  lemma ReadsClock(s: State, t: TaskId, q: QuotaConfig, p: Principal, model: string)
    requires MayPass(s, t, q, p, model)
    ensures Step([q], Held(s, t, p, Locked(p, model)), ReadClock(t)) == Held(s, t, p, Counting(p, model, s.clock, 0))
  {
    OneMatches(q, p);
    hide AdmissionScope, Matching, Matches, RatePermitted, TokensPermitted;
    assert [q][0] == q && |[q]| == 1;
  }

  lemma CountsOnce(s: State, t: TaskId, q: QuotaConfig, p: Principal, model: string)
    requires MayPass(s, t, q, p, model)
    ensures Step([q], Held(s, t, p, Counting(p, model, s.clock, 0)), CountNext(t)) == Held(s, t, p, Counting(p, model, s.clock, 1))
    ensures Step([q], Held(s, t, p, Counting(p, model, s.clock, 1)), CountNext(t)) == Held(s, t, p, Totalling(p, model, s.clock, 0))
  {
    OneMatches(q, p);
    hide AdmissionScope, Matching, Matches, RatePermitted, TokensPermitted, ModelPermitted;
    assert [q][0] == q && |[q]| == 1;
  }

  lemma Joins(s: State, t: TaskId, q: QuotaConfig, p: Principal, model: string)
    requires t !in s.tasks && AdmissionScope(p) !in s.holders
    ensures var waiting := s.(tasks := s.tasks[t := Waiting(p, model)]);
      Step([q], s, Arrive(t, p, model)) == waiting && Step([q], waiting, Acquire(t)) == Held(s, t, p, Locked(p, model))
  {
    hide AdmissionScope;
  }

  lemma HoldsTask(s: State, t: TaskId, p: Principal, phase: Phase)
    ensures var held := Held(s, t, p, phase);
      t in held.tasks && held.tasks[t] == phase && held.log == s.log && held.clock == s.clock
  {
  }

  lemma Enters(s: State, t: TaskId, q: QuotaConfig, p: Principal, model: string, teamOf: string -> string)
    requires MayPass(s, t, q, p, model)
    ensures Run([q], s, Entering(t, p, model)) == Held(s, t, p, Totalling(p, model, s.clock, 0))
    ensures p.team == teamOf(p.subject) && Past([q], s.log, p, s.clock) ==>
      AssumedAlong([q], teamOf, s, Entering(t, p, model))
  {
    ReadsClock(s, t, q, p, model);
    CountsOnce(s, t, q, p, model);
    Joins(s, t, q, p, model);
    hide AdmissionScope, Step, Held, Past, MayPass, Run, AssumedAlong;
    var waiting := s.(tasks := s.tasks[t := Waiting(p, model)]);
    var states := [
      s, waiting, Held(s, t, p, Locked(p, model)), Held(s, t, p, Counting(p, model, s.clock, 0)),
      Held(s, t, p, Counting(p, model, s.clock, 1)), Held(s, t, p, Totalling(p, model, s.clock, 0))
    ];
    assert waiting.tasks[t].p == p && Held(s, t, p, Locked(p, model)).tasks[t].p == p by { HoldsTask(s, t, p, Locked(p, model)); }
    RunFrom([q], teamOf, states, Entering(t, p, model));
  }

  lemma TotalsOnce(s: State, t: TaskId, q: QuotaConfig, p: Principal, model: string)
    requires MayPass(s, t, q, p, model)
    ensures Step([q], Held(s, t, p, Totalling(p, model, s.clock, 0)), TotalNext(t)) == Held(s, t, p, Totalling(p, model, s.clock, 1))
    ensures Step([q], Held(s, t, p, Totalling(p, model, s.clock, 1)), TotalNext(t)) == Held(s, t, p, Decided(p, model, s.clock, true))
    ensures Step([q], Held(s, t, p, Decided(p, model, s.clock, true)), Stamp(t))
         == Held(s, t, p, Inserting(p, model, s.clock, true, s.clock))
  {
    OneMatches(q, p);
    hide AdmissionScope, Matching, Matches, RatePermitted, TokensPermitted, ModelPermitted;
  }

  function RowAt(clock: int, p: Principal, model: string): Row {
    Row(clock, p.subject, p.team, model, true)
  }

  lemma WritesOne(s: State, t: TaskId, q: QuotaConfig, p: Principal, model: string)
    requires t !in s.tasks && AdmissionScope(p) !in s.holders
    ensures var written := Held(s, t, p, Releasing(p)).(log := s.log + [RowAt(s.clock, p, model)]);
      Step([q], Held(s, t, p, Inserting(p, model, s.clock, true, s.clock)), Insert(t)) == written &&
      Step([q], written, Release(t)) == s.(log := s.log + [RowAt(s.clock, p, model)])
  {
    hide AdmissionScope;
    assert s.tasks[t := Releasing(p)] - {t} == s.tasks;
    assert s.holders[AdmissionScope(p) := t] - {AdmissionScope(p)} == s.holders;
  }

  lemma Leaves(s: State, t: TaskId, q: QuotaConfig, p: Principal, model: string, teamOf: string -> string)
    requires MayPass(s, t, q, p, model)
    ensures Run([q], Held(s, t, p, Totalling(p, model, s.clock, 0)), Leaving(t)) == s.(log := s.log + [RowAt(s.clock, p, model)])
    ensures AssumedAlong([q], teamOf, Held(s, t, p, Totalling(p, model, s.clock, 0)), Leaving(t))
  {
    TotalsOnce(s, t, q, p, model);
    WritesOne(s, t, q, p, model);
    hide AdmissionScope, Step, Held, MayPass, Run, AssumedAlong, Past;
    var written := Held(s, t, p, Releasing(p)).(log := s.log + [RowAt(s.clock, p, model)]);
    var states := [
      Held(s, t, p, Totalling(p, model, s.clock, 0)), Held(s, t, p, Totalling(p, model, s.clock, 1)),
      Held(s, t, p, Decided(p, model, s.clock, true)), Held(s, t, p, Inserting(p, model, s.clock, true, s.clock)),
      written, s.(log := s.log + [RowAt(s.clock, p, model)])
    ];
    RunFrom([q], teamOf, states, Leaving(t));
  }

  /** One undisturbed admission writes one row and leaves nothing else behind. */
  lemma AdmitsOne(s: State, t: TaskId, q: QuotaConfig, p: Principal, model: string, teamOf: string -> string)
    requires MayPass(s, t, q, p, model)
    ensures Run([q], s, Admission(t, p, model)) == s.(log := s.log + [RowAt(s.clock, p, model)])
    ensures p.team == teamOf(p.subject) && Past([q], s.log, p, s.clock) ==> AssumedAlong([q], teamOf, s, Admission(t, p, model))
  {
    hide Run, Entering, Leaving, AdmissionScope, MayPass, Past, AssumedAlong;
    Enters(s, t, q, p, model, teamOf);
    RunInTurn([q], teamOf, s, Entering(t, p, model), Leaving(t));
    Leaves(s, t, q, p, model, teamOf);
  }

  // ------------------------------------------------ counting whole logs

  lemma {:induction false} CountAtMost(log: seq<Row>, key: Key, from: int, to: int)
    ensures CountAllowed(log, key, from, to) <= |log|
    ensures (forall r :: r in log ==> Counts(r, key, from, to)) ==> CountAllowed(log, key, from, to) == |log|
    ensures (forall r :: r in log ==> !Counts(r, key, from, to)) ==> CountAllowed(log, key, from, to) == 0
    decreases |log|
  {
    if log == [] {
    } else {
      assert log[|log| - 1] in log;
      CountAtMost(log[..|log| - 1], key, from, to);
    }
  }

  lemma NoMoreThanAll(log: seq<Row>, key: Key, from: int, to: int)
    ensures CountAllowed(log, key, from, to) <= |log|
  {
    CountAtMost(log, key, from, to);
  }

  /** A model the policy allows. */
  function SomeModel(q: QuotaConfig): string {
    if q.allowedModels == [] then "" else q.allowedModels[0]
  }

  lemma SomeModelPermitted(q: QuotaConfig, p: Principal, now: int)
    ensures ModelPermitted(q, SomeModel(q)) && TokensPermitted([], q, p, now)
  {
  }

  // ----------------------------------------- why the clock has to move on

  /** The same row, `n` times. */
  function Copies(row: Row, n: nat): (log: seq<Row>)
    ensures |log| == n
  {
    seq(n, _ => row)
  }

  /** One request after another, never two at once. */
  function Admissions(p: Principal, model: string, n: nat): seq<Action> {
    if n == 0 then [] else Admissions(p, model, n - 1) + Admission(0, p, model)
  }

  /** Rows stamped at this very instant do not count now, and all of them count in the minute that begins now. */
  lemma CopiesCount(p: Principal, model: string, q: QuotaConfig, clock: int, n: nat)
    requires Matches(q, p)
    ensures CountAllowed(Copies(RowAt(clock, p, model), n), KeyFor(q, p), clock - MINUTE, clock) == 0
    ensures InWindow(Copies(RowAt(clock, p, model), n), KeyFor(q, p), clock) == n
  {
    hide CountAllowed;
    CountAtMost(Copies(RowAt(clock, p, model), n), KeyFor(q, p), clock - MINUTE, clock);
    CountAtMost(Copies(RowAt(clock, p, model), n), KeyFor(q, p), clock, clock + MINUTE + 1);
  }

  lemma CopiesMayPass(s: State, t: TaskId, q: QuotaConfig, p: Principal, n: nat)
    requires Matches(q, p) && t !in s.tasks && s.holders == map[] && s.usage == []
    requires s.log == Copies(RowAt(s.clock, p, SomeModel(q)), n)
    ensures MayPass(s, t, q, p, SomeModel(q))
  {
    hide CountAllowed, Copies, AdmissionScope, SomeModel, ModelPermitted, TokensPermitted;
    CopiesCount(p, SomeModel(q), q, s.clock, n);
    SomeModelPermitted(q, p, s.clock);
  }

  lemma {:induction false} FrozenClockAdmits(q: QuotaConfig, p: Principal, clock: int, n: nat)
    requires Matches(q, p)
    ensures Run([q], Initial(clock), Admissions(p, SomeModel(q), n))
         == Initial(clock).(log := Copies(RowAt(clock, p, SomeModel(q)), n))
    decreases n
  {
    hide Run, Admission, MayPass, SomeModel, Matches;
    var model := SomeModel(q);
    var row := RowAt(clock, p, model);
    if n == 0 {
      RunFrom([q], _ => p.team, [Initial(clock)], []);
      assert Copies(row, 0) == [];
    } else {
      FrozenClockAdmits(q, p, clock, n - 1);
      var s := Initial(clock).(log := Copies(row, n - 1));
      CopiesMayPass(s, 0, q, p, n - 1);
      AdmitsOne(s, 0, q, p, model, _ => p.team);
      assert Copies(row, n - 1) + [row] == Copies(row, n);
      RunInTurn([q], _ => p.team, Initial(clock), Admissions(p, model, n - 1), Admission(0, p, model));
    }
  }

  /**
   While the clock stands still the lock does not help: under any policy any
   number of admissions, one after the other, pass within the minute.
   */
  lemma FrozenClockBreaksTheLimit(q: QuotaConfig, p: Principal, clock: int, n: nat)
    requires Matches(q, p)
    ensures InWindow(Run([q], Initial(clock), Admissions(p, SomeModel(q), n)).log, KeyFor(q, p), clock) == n
  {
    hide Run, InWindow, Copies;
    FrozenClockAdmits(q, p, clock, n);
    CopiesCount(p, SomeModel(q), q, clock, n);
  }

  // ----------------------------------------- why an insert must not outlive its future

  lemma LetsGo(s: State, t: TaskId, q: QuotaConfig, p: Principal, model: string)
    requires t !in s.tasks && AdmissionScope(p) !in s.holders
    ensures Step([q], Held(s, t, p, Inserting(p, model, s.clock, true, s.clock)), DropInFlight(t))
         == s.(tasks := s.tasks[t := InFlight(p, RowAt(s.clock, p, model))])
  {
    hide AdmissionScope;
    assert s.holders[AdmissionScope(p) := t] - {AdmissionScope(p)} == s.holders;
  }

  lemma Drops(s: State, t: TaskId, q: QuotaConfig, p: Principal, model: string, teamOf: string -> string)
    requires MayPass(s, t, q, p, model)
    ensures Run([q], Held(s, t, p, Totalling(p, model, s.clock, 0)), Dropping(t))
         == s.(tasks := s.tasks[t := InFlight(p, RowAt(s.clock, p, model))])
  {
    TotalsOnce(s, t, q, p, model);
    LetsGo(s, t, q, p, model);
    hide AdmissionScope, Step, Held, MayPass, Run, AssumedAlong, Past;
    var gone := s.(tasks := s.tasks[t := InFlight(p, RowAt(s.clock, p, model))]);
    var states := [
      Held(s, t, p, Totalling(p, model, s.clock, 0)), Held(s, t, p, Totalling(p, model, s.clock, 1)),
      Held(s, t, p, Decided(p, model, s.clock, true)), Held(s, t, p, Inserting(p, model, s.clock, true, s.clock)), gone
    ];
    RunFrom([q], teamOf, states, Dropping(t));
  }

  lemma DropsInFlight(s: State, t: TaskId, q: QuotaConfig, p: Principal, model: string)
    requires MayPass(s, t, q, p, model)
    ensures Run([q], s, Entering(t, p, model) + Dropping(t)) == s.(tasks := s.tasks[t := InFlight(p, RowAt(s.clock, p, model))])
  {
    hide Run, Entering, Dropping, AdmissionScope, MayPass, Past, AssumedAlong;
    Enters(s, t, q, p, model, _ => p.team);
    RunInTurn([q], _ => p.team, s, Entering(t, p, model), Dropping(t));
    Drops(s, t, q, p, model, _ => p.team);
  }

  /** Requests `0` to `n - 1`, each dropped with its insert under way. */
  function Droppings(p: Principal, model: string, n: nat): seq<Action> {
    if n == 0 then [] else Droppings(p, model, n - 1) + (Entering(n - 1, p, model) + Dropping(n - 1))
  }

  /** Their rows land, the last one first. */
  function Landings(n: nat): seq<Action> {
    if n == 0 then [] else [Land(n - 1)] + Landings(n - 1)
  }

  /** The rows of requests `0` to `n - 1` are under way. */
  function UnderWay(p: Principal, row: Row, n: nat): (tasks: map<TaskId, Phase>)
    ensures forall t :: t in tasks <==> 0 <= t < n
  {
    if n == 0 then map[] else UnderWay(p, row, n - 1)[n - 1 := InFlight(p, row)]
  }

  lemma {:induction false} DropsAll(q: QuotaConfig, p: Principal, clock: int, n: nat)
    requires Matches(q, p)
    ensures Run([q], Initial(clock), Droppings(p, SomeModel(q), n))
         == Initial(clock).(tasks := UnderWay(p, RowAt(clock, p, SomeModel(q)), n))
    decreases n
  {
    hide Run, Entering, Dropping, MayPass, SomeModel, Matches;
    var model := SomeModel(q);
    var row := RowAt(clock, p, model);
    if n == 0 {
      RunFrom([q], _ => p.team, [Initial(clock)], []);
    } else {
      DropsAll(q, p, clock, n - 1);
      var s := Initial(clock).(tasks := UnderWay(p, row, n - 1));
      assert Copies(row, 0) == [];
      CopiesMayPass(s, n - 1, q, p, 0);
      DropsInFlight(s, n - 1, q, p, model);
      RunInTurn([q], _ => p.team, Initial(clock), Droppings(p, model, n - 1), Entering(n - 1, p, model) + Dropping(n - 1));
    }
  }

  lemma LandsOne(quotas: seq<QuotaConfig>, s: State, t: TaskId, p: Principal, row: Row)
    requires t in s.tasks && s.tasks[t] == InFlight(p, row)
    ensures Run(quotas, s, [Land(t)]) == s.(log := s.log + [row], tasks := s.tasks - {t})
  {
    assert [Land(t)][1..] == [];
    assert Run(quotas, s, [Land(t)]) == Run(quotas, Step(quotas, s, Land(t)), []);
  }

  lemma {:induction false} LandsAll(q: QuotaConfig, p: Principal, row: Row, clock: int, landed: nat, n: nat)
    ensures Run([q], Initial(clock).(log := Copies(row, landed), tasks := UnderWay(p, row, n)), Landings(n))
         == Initial(clock).(log := Copies(row, landed + n))
    decreases n
  {
    hide Run;
    var s := Initial(clock).(log := Copies(row, landed), tasks := UnderWay(p, row, n));
    if n == 0 {
      RunFrom([q], _ => p.team, [s], []);
    } else {
      LandsOne([q], s, n - 1, p, row);
      assert Copies(row, landed) + [row] == Copies(row, landed + 1);
      assert UnderWay(p, row, n) - {n - 1} == UnderWay(p, row, n - 1);
      RunInTurn([q], _ => p.team, s, [Land(n - 1)], Landings(n - 1));
      LandsAll(q, p, row, clock, landed + 1, n - 1);
    }
  }

  /**
   The lock is released with the future, the row arrives later and no check in
   between sees it: under any policy any number of requests pass within the minute,
   although each of them reads a time later than every row that is stored.
   */
  lemma LateInsertBreaksTheLimit(q: QuotaConfig, p: Principal, clock: int, n: nat)
    requires Matches(q, p)
    ensures var s := Run([q], Initial(clock), Droppings(p, SomeModel(q), n));
      s.log == [] && InWindow(Run([q], s, Landings(n)).log, KeyFor(q, p), clock) == n
  {
    hide Run, InWindow, Matches;
    DropsAll(q, p, clock, n);
    assert Copies(RowAt(clock, p, SomeModel(q)), 0) == [];
    LandsAll(q, p, RowAt(clock, p, SomeModel(q)), clock, 0, n);
    CopiesCount(p, SomeModel(q), q, clock, n);
  }

  // ------------------------------------------------ which policies bound a team

  /** Every run, from any quiet start, keeps the team within the limit of the only policy. */
  ghost predicate BoundsItsTeam(q: QuotaConfig, teamOf: string -> string) {
    forall s: State, actions: seq<Action>, lo: int :: Quiet([q], teamOf, s) && AssumedAlong([q], teamOf, s, actions) ==>
      InWindow(Run([q], s, actions).log, ByTeam(q.team), lo) <= q.requestsPerMinute
  }

  /** The subject is outside the team, or is all of it. */
  ghost predicate OutsideOrAlone(q: QuotaConfig, teamOf: string -> string) {
    teamOf(q.subject) != q.team || forall subject :: teamOf(subject) == q.team ==> subject == q.subject
  }

  /** Where the subject is all of its team, counting the team is counting the subject. */
  lemma {:induction false} AloneCountsAlike(log: seq<Row>, teamOf: string -> string, subject: string, from: int, to: int)
    requires RowsOk(log, teamOf) && forall other :: teamOf(other) == teamOf(subject) ==> other == subject
    ensures CountAllowed(log, ByTeam(teamOf(subject)), from, to) == CountAllowed(log, BySubject(subject), from, to)
    decreases |log|
  {
    if log == [] {
    } else {
      assert log[|log| - 1] in log;
      AloneCountsAlike(log[..|log| - 1], teamOf, subject, from, to);
    }
  }

  lemma OutsideOrAloneBounds(q: QuotaConfig, teamOf: string -> string, s: State, actions: seq<Action>, lo: int)
    requires q.team != "" && q.requestsPerMinute > 0 && OutsideOrAlone(q, teamOf)
    requires Quiet([q], teamOf, s) && AssumedAlong([q], teamOf, s, actions)
    ensures InWindow(Run([q], s, actions).log, ByTeam(q.team), lo) <= q.requestsPerMinute
  {
    RateLimitOfEveryRun([q], teamOf, s, actions, q, lo);
    if teamOf(q.subject) == q.team {
      QuietInv([q], teamOf, s);
      RunKeepsInv([q], teamOf, s, actions);
      hide Run, AssumedAlong, Quiet, PhasesOk, LocksOk, LimitsOk;
      AloneCountsAlike(Run([q], s, actions).log, teamOf, q.subject, lo, lo + MINUTE + 1);
    }
  }

  // ------------------------------------------------------ a team over its limit

  /** `n` rows of one member, a tick apart. */
  function MemberRows(member: Principal, model: string, start: int, n: nat): (log: seq<Row>)
    ensures |log| == n
  {
    if n == 0 then []
    else MemberRows(member, model, start, n - 1) + [Row(start + n, member.subject, member.team, model, true)]
  }

  function MemberRun(member: Principal, model: string, n: nat): seq<Action> {
    if n == 0 then [] else MemberRun(member, model, n - 1) + ([Tick(1)] + Admission(0, member, model))
  }

  lemma {:induction false} MemberRowsAre(member: Principal, model: string, start: int, n: nat)
    ensures forall r :: r in MemberRows(member, model, start, n) ==>
      r.allowed && r.actor == member.subject && r.team == member.team && start < r.at <= start + n
    decreases n
  {
    if n == 0 {
    } else {
      MemberRowsAre(member, model, start, n - 1);
    }
  }

  /** A tick, then one admission. */
  lemma TicksAndAdmits(s: State, q: QuotaConfig, p: Principal, model: string, teamOf: string -> string)
    requires MayPass(s.(clock := s.clock + 1), 0, q, p, model) && p.team == teamOf(p.subject)
    requires Past([q], s.log, p, s.clock + 1)
    ensures var s1 := s.(clock := s.clock + 1);
      Run([q], s, [Tick(1)] + Admission(0, p, model)) == s1.(log := s.log + [RowAt(s1.clock, p, model)])
    ensures AssumedAlong([q], teamOf, s, [Tick(1)] + Admission(0, p, model))
  {
    var s1 := s.(clock := s.clock + 1);
    RunFrom([q], teamOf, [s, s1], [Tick(1)]);
    RunInTurn([q], teamOf, s, [Tick(1)], Admission(0, p, model));
    AdmitsOne(s1, 0, q, p, model, teamOf);
  }

  /** While the team has room, a member that the policy does not name is admitted, tick by tick. */
  lemma {:induction false} MemberFillsTheTeam(q: QuotaConfig, member: Principal, teamOf: string -> string, start: int, n: nat)
    requires q.team != "" && member.team == q.team == teamOf(member.subject) && member.subject != q.subject
    requires n <= q.requestsPerMinute
    ensures Run([q], Initial(start), MemberRun(member, SomeModel(q), n))
         == Initial(start).(log := MemberRows(member, SomeModel(q), start, n), clock := start + n)
    ensures AssumedAlong([q], teamOf, Initial(start), MemberRun(member, SomeModel(q), n))
    decreases n
  {
    hide Run, AssumedAlong, Admission;
    if n == 0 {
      RunFrom([q], teamOf, [Initial(start)], []);
    } else {
      MemberFillsTheTeam(q, member, teamOf, start, n - 1);
      var s := Initial(start).(log := MemberRows(member, SomeModel(q), start, n - 1), clock := start + n - 1);
      MemberMayPass(q, member, start, n);
      TicksAndAdmits(s, q, member, SomeModel(q), teamOf);
      RunInTurn([q], teamOf, Initial(start), MemberRun(member, SomeModel(q), n - 1), [Tick(1)] + Admission(0, member, SomeModel(q)));
    }
  }

  lemma RowsArePast(q: QuotaConfig, member: Principal, model: string, start: int, n: nat, p: Principal, now: int)
    requires now > start + n
    ensures Past([q], MemberRows(member, model, start, n), p, now)
  {
    MemberRowsAre(member, model, start, n);
    hide MemberRows, Matching, InKey, KeyFor;
  }

  lemma MemberMayPass(q: QuotaConfig, member: Principal, start: int, n: nat)
    requires q.team != "" && member.team == q.team && member.subject != q.subject && 0 < n <= q.requestsPerMinute
    ensures var s := Initial(start).(log := MemberRows(member, SomeModel(q), start, n - 1), clock := start + n);
      MayPass(s, 0, q, member, SomeModel(q)) && Past([q], s.log, member, s.clock)
  {
    var log := MemberRows(member, SomeModel(q), start, n - 1);
    RowsArePast(q, member, SomeModel(q), start, n - 1, member, start + n);
    SomeModelPermitted(q, member, start + n);
    NoMoreThanAll(log, ByTeam(q.team), start + n - MINUTE, start + n);
    hide CountAllowed, MemberRows, AdmissionScope, Past, ModelPermitted, TokensPermitted, SomeModel;
  }

  /** The named member, not yet counted, passes when the team is full. */
  lemma NamedMayPass(q: QuotaConfig, named: Principal, member: Principal, start: int, n: nat)
    requires named.subject == q.subject != member.subject && q.requestsPerMinute > 0
    ensures var s := Initial(start).(log := MemberRows(member, SomeModel(q), start, n), clock := start + n + 1);
      MayPass(s, 0, q, named, SomeModel(q)) && Past([q], s.log, named, s.clock)
  {
    var log := MemberRows(member, SomeModel(q), start, n);
    RowsArePast(q, member, SomeModel(q), start, n, named, start + n + 1);
    SomeModelPermitted(q, named, start + n + 1);
    MemberRowsAre(member, SomeModel(q), start, n);
    CountAtMost(log, BySubject(q.subject), start + n + 1 - MINUTE, start + n + 1);
    hide CountAllowed, MemberRows, AdmissionScope, Past, ModelPermitted, TokensPermitted, SomeModel;
  }

  /** All rows of the member and one more of the team, in one minute. */
  lemma OneMoreThanTheMember(member: Principal, model: string, start: int, n: nat, row: Row)
    requires n <= U32_MAX && row.allowed && row.team == member.team && row.at == start + n + 1
    ensures InWindow(MemberRows(member, model, start, n) + [row], ByTeam(member.team), start) == n + 1
  {
    var log := MemberRows(member, model, start, n);
    MemberRowsAre(member, model, start, n);
    hide CountAllowed, MemberRows;
    CountAtMost(log, ByTeam(member.team), start, start + MINUTE + 1);
    CountAppend(log, row, ByTeam(member.team), start, start + MINUTE + 1);
  }

  /** The member fills the team's limit, then the named subject is admitted on its own count. */
  function OverTheTeam(q: QuotaConfig, member: Principal): seq<Action> {
    MemberRun(member, SomeModel(q), q.requestsPerMinute) +
    ([Tick(1)] + Admission(0, Principal(q.subject, q.team), SomeModel(q)))
  }

  /** One more than the team's limit, all within a minute, and nothing assumed is broken. */
  lemma NamedMemberOverfillsTheTeam(q: QuotaConfig, member: Principal, teamOf: string -> string, start: int)
    requires q.team != "" && 0 < q.requestsPerMinute <= U32_MAX
    requires teamOf(q.subject) == q.team == teamOf(member.subject) == member.team && member.subject != q.subject
    ensures AssumedAlong([q], teamOf, Initial(start), OverTheTeam(q, member))
    ensures InWindow(Run([q], Initial(start), OverTheTeam(q, member)).log, ByTeam(q.team), start) == q.requestsPerMinute + 1
  {
    var n, named, model := q.requestsPerMinute, Principal(q.subject, q.team), SomeModel(q);
    var s := Initial(start).(log := MemberRows(member, model, start, n), clock := start + n);
    MemberFillsTheTeam(q, member, teamOf, start, n);
    NamedMayPass(q, named, member, start, n);
    hide Run, AssumedAlong, Admission, MayPass, Past, MemberRows, MemberRun, SomeModel, InWindow;
    TicksAndAdmits(s, q, named, model, teamOf);
    RunInTurn([q], teamOf, Initial(start), MemberRun(member, model, n), [Tick(1)] + Admission(0, named, model));
    OneMoreThanTheMember(member, model, start, n, Row(start + n + 1, q.subject, q.team, model, true));
  }

  /**
   MAIN: a policy bounds the admissions of its team on every run if and only if
   its subject is outside the team, or is the whole of it.
   */
  lemma TeamLimitIff(q: QuotaConfig, teamOf: string -> string)
    requires q.team != "" && 0 < q.requestsPerMinute <= U32_MAX
    ensures BoundsItsTeam(q, teamOf) <==> OutsideOrAlone(q, teamOf)
  {
    hide Run, AssumedAlong, InWindow, Quiet;
    if OutsideOrAlone(q, teamOf) {
      forall s: State, actions: seq<Action>, lo: int | Quiet([q], teamOf, s) && AssumedAlong([q], teamOf, s, actions)
        ensures InWindow(Run([q], s, actions).log, ByTeam(q.team), lo) <= q.requestsPerMinute
      {
        OutsideOrAloneBounds(q, teamOf, s, actions, lo);
      }
    } else {
      var other :| teamOf(other) == q.team && other != q.subject;
      var member := Principal(other, q.team);
      NamedMemberOverfillsTheTeam(q, member, teamOf, 0);
      InitialIsQuiet([q], teamOf, 0);
      assert InWindow(Run([q], Initial(0), OverTheTeam(q, member)).log, ByTeam(q.team), 0) > q.requestsPerMinute;
    }
  }
}
