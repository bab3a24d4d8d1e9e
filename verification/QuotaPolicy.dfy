/**
 A quota decision as a property of the set of matching policies, and the exact
 condition under which recording an admission keeps a rate limit (src/quota.rs).
 */
module QuotaPolicy {
  import opened Wrappers
  import opened Quota

  // ------------------------------------------------------ the decision itself

  /** Allowed means: permitted by every policy that matches, in whatever order. */
  lemma DecisionIsConjunction(quotas: seq<QuotaConfig>, log: seq<Row>, usage: seq<Usage>, p: Principal, model: string, now: int)
    ensures Decide(quotas, log, usage, p, model, now).allowed
       <==> forall q :: q in quotas && Matches(q, p) ==> Permits(q, log, usage, p, model, now)
  {
  }

  /** Reordering or repeating policies never changes whether a request is allowed. */
  lemma OrderDoesNotMatter(quotas: seq<QuotaConfig>, quotas': seq<QuotaConfig>, log: seq<Row>, usage: seq<Usage>,
                           p: Principal, model: string, now: int)
    requires forall q :: q in quotas <==> q in quotas'
    ensures Decide(quotas, log, usage, p, model, now).allowed == Decide(quotas', log, usage, p, model, now).allowed
  {
  }

  /** More policies only ever deny more. */
  lemma MorePoliciesDenyMore(quotas: seq<QuotaConfig>, more: seq<QuotaConfig>, log: seq<Row>, usage: seq<Usage>,
                             p: Principal, model: string, now: int)
    requires forall q :: q in quotas ==> q in more
    requires Decide(more, log, usage, p, model, now).allowed
    ensures Decide(quotas, log, usage, p, model, now).allowed
  {
  }

  // ---------------------------------------------------------- the token budget

  lemma {:induction false} SumGrows(usage: seq<Usage>, more: seq<Usage>, key: Key, from: int, to: int, to': int)
    requires to <= to'
    ensures SumTokens(usage, key, from, to) <= SumTokens(usage + more, key, from, to')
    decreases |usage| + |more|
  {
    if more != [] {
      var n := |more| - 1;
      assert (usage + more)[..|usage| + n] == usage + more[..n];
      SumGrows(usage, more[..n], key, from, to, to');
    } else if usage != [] {
      var n := |usage| - 1;
      assert usage + more == usage && usage[..n] + [] == usage[..n];
      SumGrows(usage[..n], [], key, from, to, to');
    }
  }

  /** An exhausted token budget stays exhausted until midnight, whatever else is used. */
  lemma TokenDenialLastsTheDay(q: QuotaConfig, usage: seq<Usage>, more: seq<Usage>, p: Principal, now: int, later: int)
    requires !TokensPermitted(usage, q, p, now) && now <= later < DayStart(now) + DAY
    ensures !TokensPermitted(usage + more, q, p, later)
  {
    SumGrows(usage, more, KeyFor(q, p), DayStart(now), now, later);
    assert DayStart(later) == DayStart(now);
  }

  /** From midnight on, what was used before no longer counts. */
  lemma {:induction false} MidnightResetsTheBudget(q: QuotaConfig, usage: seq<Usage>, p: Principal, now: int)
    requires forall u :: u in usage ==> u.at < DayStart(now)
    ensures Used(usage, q, p, now) == 0 && TokensPermitted(usage, q, p, now)
    decreases |usage|
  {
    if usage == [] {
    } else {
      MidnightResetsTheBudget(q, usage[..|usage| - 1], p, now);
    }
  }

  // ----------------------------------------------------------- counting rows

  lemma CountAppend(log: seq<Row>, r: Row, key: Key, from: int, to: int)
    ensures CountAllowed(log + [r], key, from, to) == CountAllowed(log, key, from, to) + (if Counts(r, key, from, to) then 1 else 0)
  {
  }

  /** Counting rows of `key`: only those in both ranges can tell two ranges apart. */
  lemma {:induction false} CountMonotone(log: seq<Row>, key: Key, from: int, to: int, from': int, to': int)
    requires forall r :: r in log && Counts(r, key, from, to) ==> from' <= r.at < to'
    ensures CountAllowed(log, key, from, to) <= CountAllowed(log, key, from', to')
    decreases |log|
  {
    if log == [] {
    } else {
      var n := |log| - 1;
      assert log[n] in log;
      forall r | r in log[..n] && Counts(r, key, from, to)
        ensures from' <= r.at < to'
      {
        assert r in log;
      }
      CountMonotone(log[..n], key, from, to, from', to');
    }
  }

  // ------------------------------------------------------------ the rate limit

  /** The rows of `key` in the window of one minute from `lo`, both ends included. */
  function InWindow(log: seq<Row>, key: Key, lo: int): nat {
    CountAllowed(log, key, lo, lo + MINUTE + 1)
  }

  ghost predicate WithinLimit(log: seq<Row>, key: Key, limit: nat) {
    forall lo: int :: InWindow(log, key, lo) <= limit
  }

  /** Rows of `key` never postdate `now`. */
  predicate NotAfter(log: seq<Row>, key: Key, now: int) {
    forall r :: r in log && r.allowed && InKey(r.actor, r.team, key) ==> r.at <= now
  }

  /**
   Recording an allowed row stamped `at` keeps the limit if and only if fewer
   than `limit` rows lie in the closed range from one minute before the stamp to
   the time of the check.
   */
  lemma RecordingKeepsLimitIff(log: seq<Row>, key: Key, limit: nat, now: int, r: Row)
    requires WithinLimit(log, key, limit) && NotAfter(log, key, now)
    requires r.allowed && InKey(r.actor, r.team, key) && now <= r.at
    ensures WithinLimit(log + [r], key, limit) <==> CountAllowed(log, key, r.at - MINUTE, now + 1) < limit
  {
    var log' := log + [r];
    if CountAllowed(log, key, r.at - MINUTE, now + 1) < limit {
      forall lo: int
        ensures InWindow(log', key, lo) <= limit
      {
        assert InWindow(log, key, lo) <= limit;
        CountAppend(log, r, key, lo, lo + MINUTE + 1);
        if lo <= r.at <= lo + MINUTE {
          CountMonotone(log, key, lo, lo + MINUTE + 1, r.at - MINUTE, now + 1);
        }
      }
    } else {
      CountMonotone(log, key, r.at - MINUTE, now + 1, r.at - MINUTE, r.at + 1);
      CountAppend(log, r, key, r.at - MINUTE, r.at + 1);
      assert InWindow(log', key, r.at - MINUTE) > limit;
    }
  }

  /** No row of `key` carries the very time of the check. */
  predicate NoTie(log: seq<Row>, key: Key, now: int) {
    forall r :: r in log && r.allowed && InKey(r.actor, r.team, key) ==> r.at != now
  }

  /**
   The check counts `at < now`.  If nothing is stamped at `now` itself, passing
   it is enough for the limit to survive the recording.
   */
  lemma PassingCheckKeepsLimit(log: seq<Row>, key: Key, limit: nat, now: int, r: Row)
    requires WithinLimit(log, key, limit) && NotAfter(log, key, now) && NoTie(log, key, now)
    requires r.allowed && InKey(r.actor, r.team, key) && now <= r.at
    requires CountAllowed(log, key, now - MINUTE, now) < limit
    ensures WithinLimit(log + [r], key, limit)
  {
    CountMonotone(log, key, r.at - MINUTE, now + 1, now - MINUTE, now);
    RecordingKeepsLimitIff(log, key, limit, now, r);
  }

  /** With a tie it is not: two admissions at one instant pass a limit of one. */
  lemma TieBreaksTheLimit(p: Principal, model: string, now: int)
    ensures var quotas := [QuotaConfig(p.subject, "", 1, 0, 0, [])];
      var row := Row(now, p.subject, p.team, model, true);
      Decide(quotas, [], [], p, model, now).allowed &&
      Decide(quotas, [row], [], p, model, now).allowed &&
      WithinLimit([row], BySubject(p.subject), 1) &&
      !WithinLimit([row, row], BySubject(p.subject), 1)
  {
    var quota := QuotaConfig(p.subject, "", 1, 0, 0, []);
    var quotas := [quota];
    var key := BySubject(p.subject);
    var row := Row(now, p.subject, p.team, model, true);
    DecisionIsConjunction(quotas, [], [], p, model, now);
    DecisionIsConjunction(quotas, [row], [], p, model, now);
    assert [] + [row] == [row] && [row] + [row] == [row, row];
    forall lo: int
      ensures InWindow([row], key, lo) <= 1
    {
      CountAppend([], row, key, lo, lo + MINUTE + 1);
    }
    CountAppend([], row, key, now, now + MINUTE + 1);
    CountAppend([row], row, key, now, now + MINUTE + 1);
    assert InWindow([row, row], key, now) == 2;
    CountAppend([], row, key, now - MINUTE, now);
  }
}
