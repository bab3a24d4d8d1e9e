/**
 What the numbers and answers of a quota check mean (src/quota.rs,
 src/storage/decisions.rs, src/storage/usage.rs): what is counted, since when,
 for whom, and which answer stands for which verdict.
 */
module QuotaMeaning {
  import opened Wrappers
  import opened Quota
  import opened QuotaPolicy
  import opened Saturation

  // ------------------------------------------------------- what is counted

  /** A policy that names the subject looks at the subject alone, any other at the whole team. */
  predicate Concerns(q: QuotaConfig, p: Principal, actor: string, team: string) {
    if q.subject == p.subject then actor == p.subject else team == p.team
  }

  /** The tokens of one usage event, if the policy is to see it. */
  function TokensSeen(q: QuotaConfig, p: Principal, from: int, to: int): Usage -> nat {
    (u: Usage) => if from <= u.at < to && Concerns(q, p, u.actor, u.team) then u.tokens else 0
  }

  /** One for an admitted row, if the policy is to see it. */
  function AdmissionSeen(q: QuotaConfig, p: Principal, from: int, to: int): Row -> nat {
    (r: Row) => if r.allowed && from <= r.at < to && Concerns(q, p, r.actor, r.team) then 1 else 0
  }

  lemma {:induction false} SumTokensIsSum(usage: seq<Usage>, q: QuotaConfig, p: Principal, from: int, to: int)
    ensures SumTokens(usage, KeyFor(q, p), from, to) == Sum(usage, TokensSeen(q, p, from, to))
    decreases |usage|
  {
    if usage == [] {
    } else {
      SumTokensIsSum(usage[..|usage| - 1], q, p, from, to);
    }
  }

  lemma {:induction false} CountIsSum(log: seq<Row>, q: QuotaConfig, p: Principal, from: int, to: int)
    ensures CountAllowed(log, KeyFor(q, p), from, to) == Sum(log, AdmissionSeen(q, p, from, to))
    decreases |log|
  {
    if log == [] {
    } else {
      CountIsSum(log[..|log| - 1], q, p, from, to);
    }
  }

  /**
   What a token budget is held against: all tokens since the last midnight, a day
   being 24 hours of nanoseconds, of the subject if the policy names it and of
   everybody in the team otherwise.
   */
  lemma UsedIsSum(usage: seq<Usage>, q: QuotaConfig, p: Principal, now: int)
    ensures Used(usage, q, p, now) == Sum(usage, TokensSeen(q, p, now - now % (24 * 3600 * 1_000_000_000), now))
  {
    SumTokensIsSum(usage, q, p, DayStart(now), now);
  }

  /** What a rate is held against: the admissions of the last sixty seconds, this instant not included. */
  lemma AdmittedIsSum(log: seq<Row>, q: QuotaConfig, p: Principal, now: int)
    ensures Admitted(log, q, p, now) == Sum(log, AdmissionSeen(q, p, now - 60 * 1_000_000_000, now))
  {
    CountIsSum(log, q, p, now - MINUTE, now);
  }

  /** A rate denial ends: once all that is counted is a minute old, the rate permits again. */
  lemma {:induction false} RateDenialEnds(log: seq<Row>, q: QuotaConfig, p: Principal, now: int)
    requires forall r :: r in log && r.allowed && Concerns(q, p, r.actor, r.team) ==> r.at < now - 60 * 1_000_000_000
    ensures Admitted(log, q, p, now) == 0 && RatePermitted(log, q, p, now)
    decreases |log|
  {
    if log == [] {
    } else {
      assert log[|log| - 1] in log;
      RateDenialEnds(log[..|log| - 1], q, p, now);
    }
  }

  // ------------------------------------------------------- what is answered

  /** `q` matches, does not pass, and every policy that matches before it does. */
  ghost predicate Rejects(matching: seq<QuotaConfig>, ok: QuotaConfig -> bool, q: QuotaConfig) {
    exists i :: FirstAt(matching, ok, q, i)
  }

  predicate AllPass(matching: seq<QuotaConfig>, ok: QuotaConfig -> bool) {
    forall q :: q in matching ==> ok(q)
  }

  /**
   MAIN: which verdict an answer stands for.  Models are looked at before rates and
   rates before tokens, each over all matching policies in order; the numbers are
   those the named policy was held against; and a request is admitted exactly
   when no policy matches or all three passes go through.
   */
  lemma AnswersMean(quotas: seq<QuotaConfig>, log: seq<Row>, usage: seq<Usage>, p: Principal, model: string, now: int, q: QuotaConfig, n: nat)
    ensures var d, matching := Decide(quotas, log, usage, p, model, now), Matching(quotas, p);
      var models := (x: QuotaConfig) => x.allowedModels == [] || model in x.allowedModels;
      var rates := (x: QuotaConfig) => x.requestsPerMinute == 0 || Admitted(log, x, p, now) < x.requestsPerMinute;
      var tokens := (x: QuotaConfig) => x.tokensPerDay == 0 || Used(usage, x, p, now) < x.tokensPerDay;
      (d.reason == NoQuota <==> matching == []) &&
      (d.reason == ModelNotAllowed(q) <==> Rejects(matching, models, q)) &&
      (d.reason == RequestsExhausted(q, n) <==>
        AllPass(matching, models) && Rejects(matching, rates, q) && n == Admitted(log, q, p, now)) &&
      (d.reason == TokensExhausted(q, n) <==>
        AllPass(matching, models) && AllPass(matching, rates) && Rejects(matching, tokens, q) && n == Used(usage, q, p, now)) &&
      (d.reason == PolicyAllowed <==>
        matching != [] && AllPass(matching, models) && AllPass(matching, rates) && AllPass(matching, tokens)) &&
      (d.allowed <==> d.reason == NoQuota || d.reason == PolicyAllowed)
  {
    var matching := Matching(quotas, p);
    var models := (x: QuotaConfig) => x.allowedModels == [] || model in x.allowedModels;
    var rates := (x: QuotaConfig) => x.requestsPerMinute == 0 || Admitted(log, x, p, now) < x.requestsPerMinute;
    var tokens := (x: QuotaConfig) => x.tokensPerDay == 0 || Used(usage, x, p, now) < x.tokensPerDay;
    SameTest(matching, models, ModelTest(model), q);
    SameTest(matching, rates, RateTest(log, p, now), q);
    SameTest(matching, tokens, TokensTest(usage, p, now), q);
    hide FirstRejected, FirstAt, Admitted, Used, Matching, Rejects;
  }

  /** Two tests that agree reject the same policy. */
  lemma SameTest(matching: seq<QuotaConfig>, ok: QuotaConfig -> bool, test: QuotaConfig -> bool, q: QuotaConfig)
    requires forall x :: ok(x) == test(x)
    ensures FirstRejected(matching, test) == Some(q) <==> Rejects(matching, ok, q)
    ensures FirstRejected(matching, test).None? <==> AllPass(matching, ok)
  {
    FirstRejectedIff(matching, test, q);
    forall i: nat
      ensures FirstAt(matching, ok, q, i) <==> FirstAt(matching, test, q, i)
    {
    }
  }
}
