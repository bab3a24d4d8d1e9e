/**
 Quota policies and the admission check (src/quota.rs), over the decision log
 and the usage table of the storage layer (src/storage/decisions.rs,
 src/storage/usage.rs).  Times are integers; a minute is `MINUTE` of them.
 */
module Quota {
  import opened Wrappers

  const MINUTE: int := 60_000_000_000
  const DAY: int := 86_400_000_000_000

  datatype Principal = Principal(subject: string, team: string)

  /** A limit of zero means no limit, an empty model list means every model. */
  datatype QuotaConfig = QuotaConfig(
    subject: string,
    team: string,
    requestsPerMinute: nat,
    tokensPerDay: nat,
    maxConcurrency: nat,
    allowedModels: seq<string>
  )

  /** A row of `quota_decisions`. */
  datatype Row = Row(at: int, actor: string, team: string, model: string, allowed: bool)

  /** A row of `usage_events`. */
  datatype Usage = Usage(at: int, actor: string, team: string, tokens: nat)

  /** What a count is keyed by: `actor = ?` or `team = ?`. */
  datatype Key = BySubject(subject: string) | ByTeam(team: string)

  datatype Reason =
    | NoQuota
    | PolicyAllowed
    | ModelNotAllowed(policy: QuotaConfig)
    | RequestsExhausted(policy: QuotaConfig, admitted: nat)
    | TokensExhausted(policy: QuotaConfig, used: nat)

  datatype Decision = Decision(allowed: bool, reason: Reason)

  // ----------------------------------------------------------- matching

  predicate Matches(q: QuotaConfig, p: Principal) {
    q.subject == p.subject || (q.team != "" && q.team == p.team)
  }

  function Matching(quotas: seq<QuotaConfig>, p: Principal): (r: seq<QuotaConfig>)
    ensures forall q :: q in r <==> q in quotas && Matches(q, p)
  {
    if quotas == [] then []
    else
      assert forall q :: q in quotas <==> q == quotas[0] || q in quotas[1..];
      (if Matches(quotas[0], p) then [quotas[0]] else []) + Matching(quotas[1..], p)
  }

  function KeyFor(q: QuotaConfig, p: Principal): Key {
    if q.subject == p.subject then BySubject(p.subject) else ByTeam(p.team)
  }

  /** The lock that serialises admissions. */
  function AdmissionScope(p: Principal): string {
    if p.team == "" then "subject:" + p.subject else "team:" + p.team
  }

  // ------------------------------------------------------------- queries

  predicate InKey(actor: string, team: string, key: Key) {
    match key
    case BySubject(s) => actor == s
    case ByTeam(t) => team == t
  }

  predicate Counts(r: Row, key: Key, from: int, to: int) {
    r.allowed && from <= r.at < to && InKey(r.actor, r.team, key)
  }

  /** `COUNT(*)` of the allowed rows with `from <= at < to`. */
  function CountAllowed(log: seq<Row>, key: Key, from: int, to: int): nat {
    if log == [] then 0
    else CountAllowed(log[..|log| - 1], key, from, to) + (if Counts(log[|log| - 1], key, from, to) then 1 else 0)
  }

  /** `SUM(input_tokens + output_tokens)` over the same kind of range. */
  function SumTokens(usage: seq<Usage>, key: Key, from: int, to: int): nat {
    if usage == [] then 0
    else
      var u := usage[|usage| - 1];
      SumTokens(usage[..|usage| - 1], key, from, to) +
      (if from <= u.at < to && InKey(u.actor, u.team, key) then u.tokens else 0)
  }

  // ------------------------------------------------- the check, as a function

  predicate ModelPermitted(q: QuotaConfig, model: string) {
    q.allowedModels == [] || model in q.allowedModels
  }

  function Admitted(log: seq<Row>, q: QuotaConfig, p: Principal, now: int): nat {
    CountAllowed(log, KeyFor(q, p), now - MINUTE, now)
  }

  predicate RatePermitted(log: seq<Row>, q: QuotaConfig, p: Principal, now: int) {
    q.requestsPerMinute > 0 ==> Admitted(log, q, p, now) < q.requestsPerMinute
  }

  /** The last midnight. */
  function DayStart(now: int): (r: int)
    ensures r <= now < r + DAY && r % DAY == 0
  {
    now - now % DAY
  }

  function Used(usage: seq<Usage>, q: QuotaConfig, p: Principal, now: int): nat {
    SumTokens(usage, KeyFor(q, p), DayStart(now), now)
  }

  predicate TokensPermitted(usage: seq<Usage>, q: QuotaConfig, p: Principal, now: int) {
    q.tokensPerDay > 0 ==> Used(usage, q, p, now) < q.tokensPerDay
  }

  /** One policy's verdict, all three limits together. */
  predicate Permits(q: QuotaConfig, log: seq<Row>, usage: seq<Usage>, p: Principal, model: string, now: int) {
    ModelPermitted(q, model) && RatePermitted(log, q, p, now) && TokensPermitted(usage, q, p, now)
  }

  /** The first policy of `qs` the pass rejects. */
  function FirstRejected(qs: seq<QuotaConfig>, ok: QuotaConfig -> bool): (r: Option<QuotaConfig>)
    ensures r.None? <==> forall q :: q in qs ==> ok(q)
    ensures r.Some? ==> r.value in qs && !ok(r.value)
  {
    if qs == [] then None
    else if !ok(qs[0]) then Some(qs[0])
    else
      assert forall q :: q in qs <==> q == qs[0] || q in qs[1..];
      FirstRejected(qs[1..], ok)
  }

  /** At `i` the pass rejects `q`, and nothing before. */
  predicate FirstAt(qs: seq<QuotaConfig>, ok: QuotaConfig -> bool, q: QuotaConfig, i: nat) {
    i < |qs| && qs[i] == q && !ok(q) && forall j :: 0 <= j < i ==> ok(qs[j])
  }

  lemma FirstAtTail(qs: seq<QuotaConfig>, ok: QuotaConfig -> bool, q: QuotaConfig, i: nat)
    requires qs != [] && ok(qs[0])
    ensures FirstAt(qs[1..], ok, q, i) <==> FirstAt(qs, ok, q, i + 1)
  {
    assert forall j :: 0 < j < |qs| ==> qs[j] == qs[1..][j - 1];
  }

  /** It is the one that stands before all others the pass rejects. */
  lemma {:induction false} FirstRejectedIff(qs: seq<QuotaConfig>, ok: QuotaConfig -> bool, q: QuotaConfig)
    ensures FirstRejected(qs, ok) == Some(q) <==> exists i :: FirstAt(qs, ok, q, i)
    decreases |qs|
  {
    if qs == [] {
    } else if ok(qs[0]) {
      FirstRejectedIff(qs[1..], ok, q);
      if i: nat :| FirstAt(qs[1..], ok, q, i) {
        FirstAtTail(qs, ok, q, i);
      }
      if i: nat :| FirstAt(qs, ok, q, i) {
        FirstAtTail(qs, ok, q, i - 1);
      }
    } else {
      assert qs[0] == q ==> FirstAt(qs, ok, q, 0);
    }
  }

  /** One turn of a pass. */
  lemma NextRejected(qs: seq<QuotaConfig>, i: nat, ok: QuotaConfig -> bool)
    requires i < |qs|
    ensures FirstRejected(qs[i..], ok) == if ok(qs[i]) then FirstRejected(qs[i + 1..], ok) else Some(qs[i])
  {
    assert qs[i..][1..] == qs[i + 1..];
  }

  function ModelTest(model: string): QuotaConfig -> bool {
    q => ModelPermitted(q, model)
  }

  function RateTest(log: seq<Row>, p: Principal, now: int): QuotaConfig -> bool {
    q => RatePermitted(log, q, p, now)
  }

  function TokensTest(usage: seq<Usage>, p: Principal, now: int): QuotaConfig -> bool {
    q => TokensPermitted(usage, q, p, now)
  }

  /** Three passes, each returning at the first policy it rejects. */
  function Decide(quotas: seq<QuotaConfig>, log: seq<Row>, usage: seq<Usage>, p: Principal, model: string, now: int): Decision {
    var matching := Matching(quotas, p);
    if matching == [] then Decision(true, NoQuota)
    else
      var noModel := FirstRejected(matching, ModelTest(model));
      if noModel.Some? then Decision(false, ModelNotAllowed(noModel.value))
      else
        var noRate := FirstRejected(matching, RateTest(log, p, now));
        if noRate.Some? then Decision(false, RequestsExhausted(noRate.value, Admitted(log, noRate.value, p, now)))
        else
          var noTokens := FirstRejected(matching, TokensTest(usage, p, now));
          if noTokens.Some? then Decision(false, TokensExhausted(noTokens.value, Used(usage, noTokens.value, p, now)))
          else Decision(true, PolicyAllowed)
  }

  // ------------------------------------------------------------- the storage

  class Storage {
    var log: seq<Row>
    var usage: seq<Usage>

    constructor ()
      ensures log == [] && usage == []
    {
      log, usage := [], [];
    }

    method AllowedQuotaDecisionCount(key: Key, from: int, to: int) returns (count: nat)
      ensures count == CountAllowed(log, key, from, to)
    {
      count := 0;
      for i := 0 to |log|
        invariant count == CountAllowed(log[..i], key, from, to)
      {
        assert log[..i + 1][..i] == log[..i];
        if log[i].allowed && from <= log[i].at < to && InKey(log[i].actor, log[i].team, key) {
          count := count + 1;
        }
      }
      assert log[..|log|] == log;
    }

    method UsageTokensTotal(key: Key, from: int, to: int) returns (tokens: nat)
      ensures tokens == SumTokens(usage, key, from, to)
    {
      tokens := 0;
      for i := 0 to |usage|
        invariant tokens == SumTokens(usage[..i], key, from, to)
      {
        assert usage[..i + 1][..i] == usage[..i];
        if from <= usage[i].at < to && InKey(usage[i].actor, usage[i].team, key) {
          tokens := tokens + usage[i].tokens;
        }
      }
      assert usage[..|usage|] == usage;
    }

    method RejectedByModel(matching: seq<QuotaConfig>, model: string) returns (r: Option<QuotaConfig>)
      ensures r == FirstRejected(matching, ModelTest(model))
    {
      hide FirstRejected;
      assert matching[0..] == matching && FirstRejected([], ModelTest(model)) == None;
      for i := 0 to |matching|
        invariant FirstRejected(matching, ModelTest(model)) == FirstRejected(matching[i..], ModelTest(model))
      {
        NextRejected(matching, i, ModelTest(model));
        var q := matching[i];
        if q.allowedModels != [] && model !in q.allowedModels {
          return Some(q);
        }
      }
      r := None;
    }

    /** One policy's rate, with the count it was compared with. */
    method RateWithin(q: QuotaConfig, p: Principal, now: int) returns (ok: bool, admitted: nat)
      requires q.requestsPerMinute > 0
      ensures ok == RateTest(log, p, now)(q) && admitted == Admitted(log, q, p, now)
    {
      admitted := AllowedQuotaDecisionCount(KeyFor(q, p), now - MINUTE, now);
      ok := admitted < q.requestsPerMinute;
    }

    /** One policy's tokens, with the sum they were compared with. */
    method TokensWithin(q: QuotaConfig, p: Principal, now: int) returns (ok: bool, used: nat)
      requires q.tokensPerDay > 0
      ensures ok == TokensTest(usage, p, now)(q) && used == Used(usage, q, p, now)
    {
      used := UsageTokensTotal(KeyFor(q, p), DayStart(now), now);
      ok := used < q.tokensPerDay;
    }

    /** Query after query, `fails(k)` saying whether the k-th of the call fails; `asked` counts them. */
    method RejectedByRate(matching: seq<QuotaConfig>, p: Principal, now: int, fails: nat -> bool)
      returns (r: Option<QuotaConfig>, admitted: nat, asked: nat)
      ensures FailsOnlyLast(fails, 0, asked)
      ensures !FailedLast(fails, 0, asked) ==> r == FirstRejected(matching, RateTest(log, p, now))
      ensures !FailedLast(fails, 0, asked) && r.Some? ==> admitted == Admitted(log, r.value, p, now)
    {
      hide Admitted, FirstRejected;
      var ok;
      assert matching[0..] == matching;
      admitted, asked := 0, 0;
      for i := 0 to |matching|
        invariant FirstRejected(matching, RateTest(log, p, now)) == FirstRejected(matching[i..], RateTest(log, p, now))
        invariant forall k :: 0 <= k < asked ==> !fails(k)
      {
        NextRejected(matching, i, RateTest(log, p, now));
        var q := matching[i];
        if q.requestsPerMinute > 0 {
          asked := asked + 1;
          if fails(asked - 1) {
            return None, 0, asked;
          }
          ok, admitted := RateWithin(q, p, now);
          if !ok {
            return Some(q), admitted, asked;
          }
        }
      }
      r := None;
    }

    method RejectedByTokens(matching: seq<QuotaConfig>, p: Principal, now: int, fails: nat -> bool, before: nat)
      returns (r: Option<QuotaConfig>, used: nat, asked: nat)
      ensures FailsOnlyLast(fails, before, asked)
      ensures !FailedLast(fails, before, asked) ==> r == FirstRejected(matching, TokensTest(usage, p, now))
      ensures !FailedLast(fails, before, asked) && r.Some? ==> used == Used(usage, r.value, p, now)
    {
      hide Used, FirstRejected;
      var ok;
      assert matching[0..] == matching;
      used, asked := 0, before;
      for i := 0 to |matching|
        invariant before <= asked
        invariant FirstRejected(matching, TokensTest(usage, p, now)) == FirstRejected(matching[i..], TokensTest(usage, p, now))
        invariant forall k :: before <= k < asked ==> !fails(k)
      {
        NextRejected(matching, i, TokensTest(usage, p, now));
        var q := matching[i];
        if q.tokensPerDay > 0 {
          asked := asked + 1;
          if fails(asked - 1) {
            return None, 0, asked;
          }
          ok, used := TokensWithin(q, p, now);
          if !ok {
            return Some(q), used, asked;
          }
        }
      }
      r := None;
    }

    /** Three loops over the matching policies, each with an early return; a failing query is an error. */
    method CheckQuota(quotas: seq<QuotaConfig>, p: Principal, model: string, now: int, fails: nat -> bool)
      returns (d: Option<Decision>, asked: nat)
      ensures FailsOnlyLast(fails, 0, asked)
      ensures d == if FailedLast(fails, 0, asked) then None else Some(Decide(quotas, log, usage, p, model, now))
    {
      hide FirstRejected;
      asked := 0;
      var matching := Matching(quotas, p);
      if matching == [] {
        return Some(Decision(true, NoQuota)), asked;
      }
      var rejected := RejectedByModel(matching, model);
      if rejected.Some? {
        return Some(Decision(false, ModelNotAllowed(rejected.value))), asked;
      }
      var admitted, used;
      rejected, admitted, asked := RejectedByRate(matching, p, now, fails);
      if FailedLast(fails, 0, asked) {
        return None, asked;
      }
      if rejected.Some? {
        return Some(Decision(false, RequestsExhausted(rejected.value, admitted))), asked;
      }
      var rates := asked;
      rejected, used, asked := RejectedByTokens(matching, p, now, fails, rates);
      if FailedLast(fails, rates, asked) {
        return None, asked;
      }
      if rejected.Some? {
        return Some(Decision(false, TokensExhausted(rejected.value, used))), asked;
      }
      d := Some(Decision(true, PolicyAllowed));
    }

    /** Check, then record; `inserted` is whether the row could be written. */
    method AdmitRequest(quotas: seq<QuotaConfig>, p: Principal, model: string, now: int, at: int, fails: nat -> bool, inserted: bool)
      returns (d: Option<Decision>, asked: nat)
      modifies this`log
      ensures FailsOnlyLast(fails, 0, asked)
      ensures d == if !FailedLast(fails, 0, asked) && inserted then Some(Decide(quotas, old(log), usage, p, model, now)) else None
      ensures log == if d.Some? then old(log) + [Row(at, p.subject, p.team, model, d.value.allowed)] else old(log)
    {
      d, asked := CheckQuota(quotas, p, model, now, fails);
      if d.None? || !inserted {
        return None, asked;
      }
      log := log + [Row(at, p.subject, p.team, model, d.value.allowed)];
    }
  }

  // -------------------------------------------------------- failing queries

  /** Of the queries from `from` up to `asked`, the last one failed. */
  predicate FailedLast(fails: nat -> bool, from: nat, asked: nat) {
    asked > from && fails(asked - 1)
  }

  /** None but perhaps the last one failed: a failing query ends the call. */
  predicate FailsOnlyLast(fails: nat -> bool, from: nat, asked: nat) {
    from <= asked && forall k :: from <= k < asked - 1 ==> !fails(k)
  }
}
