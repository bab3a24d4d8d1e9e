/** The policy report of `summarize_quota_policies` (src/quota.rs): grand totals, and rows by team and by subject. */
module QuotaSummary {
  import opened Ordering
  import opened Quota
  import opened Saturation

  /** `QuotaPolicyAccumulator`. */
  datatype Accumulator = Accumulator(
    policyCount: nat,
    subjects: set<string>,
    allowedModels: set<string>,
    requestsPerMinute: nat,
    tokensPerDay: nat,
    maxConcurrency: nat
  )

  /** The accumulators of a grouping, by key. */
  type Groups<K> = map<K, Accumulator>

  /** A row of the report; a row by subject lists no subjects. */
  datatype PolicyRow<K> = PolicyRow(
    key: K,
    policyCount: nat,
    subjects: seq<string>,
    allowedModels: seq<string>,
    requestsPerMinute: nat,
    tokensPerDay: nat,
    maxConcurrency: nat
  )

  datatype Report = Report(
    policyCount: nat,
    requestsPerMinute: nat,
    tokensPerDay: nat,
    maxConcurrency: nat,
    byTeam: seq<PolicyRow<string>>,
    bySubject: seq<PolicyRow<(string, string)>>
  )

  function Team(q: QuotaConfig): string { q.team }
  function SubjectAndTeam(q: QuotaConfig): (string, string) { (q.subject, q.team) }

  function One(q: QuotaConfig): nat { 1 }
  function Requests(q: QuotaConfig): nat { q.requestsPerMinute }
  function Tokens(q: QuotaConfig): nat { q.tokensPerDay }
  function Concurrency(q: QuotaConfig): nat { q.maxConcurrency }

  const EMPTY := Accumulator(0, {}, {}, 0, 0, 0)

  /** `add_quota`; the rows by team also collect the subjects. */
  function Added(a: Accumulator, q: QuotaConfig, withSubjects: bool): Accumulator {
    Accumulator(
      a.policyCount + 1,
      if withSubjects then a.subjects + {q.subject} else a.subjects,
      a.allowedModels + (set m | m in q.allowedModels),
      SatAdd(a.requestsPerMinute, q.requestsPerMinute),
      SatAdd(a.tokensPerDay, q.tokensPerDay),
      SatAdd(a.maxConcurrency, q.maxConcurrency)
    )
  }

  // -------------------------------------------------------- what rows should be

  /** The exact counts and sums of a group, cut off once, and everything it names. */
  function GroupOf(quotas: seq<QuotaConfig>, withSubjects: bool): Accumulator {
    Accumulator(
      Sum(quotas, One),
      set q | q in quotas && withSubjects :: q.subject,
      set q, m | q in quotas && m in q.allowedModels :: m,
      Sat(Sum(quotas, Requests)),
      Sat(Sum(quotas, Tokens)),
      Sat(Sum(quotas, Concurrency))
    )
  }

  predicate HasGroup<K(==)>(quotas: seq<QuotaConfig>, key: QuotaConfig -> K, k: K) {
    exists q :: q in quotas && key(q) == k
  }

  predicate IsGrouping<K(==)>(groups: Groups<K>, quotas: seq<QuotaConfig>, key: QuotaConfig -> K, withSubjects: bool) {
    (forall k :: k in groups ==> HasGroup(quotas, key, k)) &&
    (forall q :: q in quotas ==> key(q) in groups) &&
    (forall k :: k in groups ==> groups[k] == GroupOf(Only(quotas, key, k), withSubjects))
  }

  lemma AddedGroup(quotas: seq<QuotaConfig>, q: QuotaConfig, withSubjects: bool)
    ensures Added(GroupOf(quotas, withSubjects), q, withSubjects) == GroupOf(quotas + [q], withSubjects)
  {
  }

  function Default<K>(groups: Groups<K>, k: K): Accumulator {
    if k in groups then groups[k] else EMPTY
  }

  lemma DefaultIsGroup<K>(groups: Groups<K>, quotas: seq<QuotaConfig>, key: QuotaConfig -> K, withSubjects: bool, k: K)
    requires IsGrouping(groups, quotas, key, withSubjects)
    ensures Default(groups, k) == GroupOf(Only(quotas, key, k), withSubjects)
  {
    if k !in groups {
      var group := Only(quotas, key, k);
      if group != [] {
        OnlyMembers(quotas, key, k, group[0]);
      }
      assert group == [];
    }
  }

  lemma GroupingExtends<K>(groups: Groups<K>, quotas: seq<QuotaConfig>, key: QuotaConfig -> K, withSubjects: bool, q: QuotaConfig)
    requires IsGrouping(groups, quotas, key, withSubjects)
    ensures IsGrouping(groups[key(q) := Added(Default(groups, key(q)), q, withSubjects)], quotas + [q], key, withSubjects)
  {
    hide Added, GroupOf, Only;
    var k := key(q);
    var groups' := groups[k := Added(Default(groups, k), q, withSubjects)];
    DefaultIsGroup(groups, quotas, key, withSubjects, k);
    AddedGroup(Only(quotas, key, k), q, withSubjects);
    forall j | j in groups'
      ensures groups'[j] == GroupOf(Only(quotas + [q], key, j), withSubjects)
    {
      OnlyAppend(quotas, q, key, j);
      assert Only(quotas, key, j) + [] == Only(quotas, key, j);
    }
    forall j | j in groups'
      ensures HasGroup(quotas + [q], key, j)
    {
      if j == k {
        assert q in quotas + [q];
      } else {
        var x :| x in quotas && key(x) == j;
        assert x in quotas + [q];
      }
    }
  }

  // -------------------------------------------------------------- the report

  /** The row lists what the accumulator holds, names in their order. */
  ghost predicate Lists<K>(row: PolicyRow<K>, a: Accumulator) {
    Ascending(row.subjects) && (forall s :: s in row.subjects <==> s in a.subjects) &&
    Ascending(row.allowedModels) && (forall m :: m in row.allowedModels <==> m in a.allowedModels) &&
    row.policyCount == a.policyCount && row.requestsPerMinute == a.requestsPerMinute &&
    row.tokensPerDay == a.tokensPerDay && row.maxConcurrency == a.maxConcurrency
  }

  function KeysOf<K>(list: seq<PolicyRow<K>>): (keys: seq<K>)
    ensures |keys| == |list|
  {
    seq(|list|, i requires 0 <= i < |list| => list[i].key)
  }

  /** One row for every key that occurs, in the order of the keys, with what its policies add up to. */
  ghost predicate Reports<K>(list: seq<PolicyRow<K>>, quotas: seq<QuotaConfig>, key: QuotaConfig -> K, withSubjects: bool,
                           less: (K, K) -> bool) {
    Ordered(KeysOf(list), less) && (forall q :: q in quotas ==> key(q) in KeysOf(list)) &&
    forall i :: 0 <= i < |list| ==>
      HasGroup(quotas, key, list[i].key) && Lists(list[i], GroupOf(Only(quotas, key, list[i].key), withSubjects))
  }

  /** Exact grand totals, cut off once, and both lists of rows. */
  ghost predicate IsReport(report: Report, quotas: seq<QuotaConfig>) {
    report.policyCount == |quotas| && report.requestsPerMinute == Sat(Sum(quotas, Requests)) &&
    report.tokensPerDay == Sat(Sum(quotas, Tokens)) && report.maxConcurrency == Sat(Sum(quotas, Concurrency)) &&
    Reports(report.byTeam, quotas, Team, true, Less) &&
    Reports(report.bySubject, quotas, SubjectAndTeam, false, PairLess)
  }

  /** The pairs of a `BTreeMap`, taken apart subject by subject. */
  method SortedPairs(keys: set<(string, string)>) returns (list: seq<(string, string)>)
    ensures Ordered(list, PairLess) && forall k :: k in list <==> k in keys
  {
    hide Less;
    var firsts := Sorted(set k | k in keys :: k.0);
    list := [];
    for i := 0 to |firsts|
      invariant Ordered(list, PairLess)
      invariant forall k :: k in list <==> k in keys && k.0 in firsts[..i]
    {
      var seconds := Sorted(set k | k in keys && k.0 == firsts[i] :: k.1);
      var pairs := seq(|seconds|, j requires 0 <= j < |seconds| => (firsts[i], seconds[j]));
      PairsOf(firsts[i], seconds, pairs, keys);
      assert firsts[..i + 1] == firsts[..i] + [firsts[i]];
      forall a, b | a in list && b in pairs
        ensures PairLess(a, b)
      {
        assert a.0 in firsts[..i];
      }
      OrderedConcat(list, pairs, PairLess);
      list := list + pairs;
    }
    assert firsts[..|firsts|] == firsts;
    forall k | k in keys
      ensures k.0 in firsts
    {
    }
  }

  lemma PairsOf(first: string, seconds: seq<string>, pairs: seq<(string, string)>, keys: set<(string, string)>)
    requires Ascending(seconds) && forall s :: s in seconds <==> (first, s) in keys
    requires pairs == seq(|seconds|, j requires 0 <= j < |seconds| => (first, seconds[j]))
    ensures Ordered(pairs, PairLess) && forall k :: k in pairs <==> k in keys && k.0 == first
  {
    hide Less;
    forall k | k in keys && k.0 == first
      ensures k in pairs
    {
      var j :| 0 <= j < |seconds| && seconds[j] == k.1;
      assert pairs[j] == k;
    }
  }

  lemma OrderedConcat<K>(a: seq<K>, b: seq<K>, less: (K, K) -> bool)
    requires Ordered(a, less) && Ordered(b, less) && forall x, y :: x in a && y in b ==> less(x, y)
    ensures Ordered(a + b, less)
  {
    forall i, j | 0 <= i < j < |a + b|
      ensures less((a + b)[i], (a + b)[j])
    {
      if i < |a| <= j {
        assert (a + b)[i] in a && (a + b)[j] in b;
      }
    }
  }

  /** The accumulators in the order of their keys, their sets taken apart. */
  method FinishGroups<K(==)>(groups: Groups<K>, keys: seq<K>) returns (list: seq<PolicyRow<K>>)
    requires forall k :: k in keys <==> k in groups
    ensures KeysOf(list) == keys
    ensures forall i :: 0 <= i < |list| ==> list[i].key in groups && Lists(list[i], groups[list[i].key])
  {
    hide Ascending;
    list := [];
    for i := 0 to |keys|
      invariant KeysOf(list) == keys[..i]
      invariant forall j :: 0 <= j < |list| ==> list[j].key in groups && Lists(list[j], groups[list[j].key])
    {
      assert keys[i] in keys;
      var a := groups[keys[i]];
      var subjects := Sorted(a.subjects);
      var models := Sorted(a.allowedModels);
      list := list + [PolicyRow(keys[i], a.policyCount, subjects, models, a.requestsPerMinute, a.tokensPerDay, a.maxConcurrency)];
    }
    assert keys[..|keys|] == keys;
  }

  lemma FinishedReports<K>(list: seq<PolicyRow<K>>, groups: Groups<K>, quotas: seq<QuotaConfig>, key: QuotaConfig -> K,
                           withSubjects: bool, less: (K, K) -> bool)
    requires IsGrouping(groups, quotas, key, withSubjects) && Ordered(KeysOf(list), less)
    requires forall k :: k in KeysOf(list) <==> k in groups
    requires forall i :: 0 <= i < |list| ==> list[i].key in groups && Lists(list[i], groups[list[i].key])
    ensures Reports(list, quotas, key, withSubjects, less)
  {
    hide GroupOf, Only, Lists, HasGroup;
  }

  /** One pass over the policies, then the rows in order. */
  method SummarizeQuotaPolicies(quotas: seq<QuotaConfig>) returns (report: Report)
    ensures IsReport(report, quotas)
  {
    var requests, tokens, concurrency := 0, 0, 0;
    var teams: Groups<string> := map[];
    var subjects: Groups<(string, string)> := map[];
    hide IsGrouping, Added, Ordered, Less, PairLess, Reports;
    NoGroups(Team, true);
    NoGroups(SubjectAndTeam, false);
    for i := 0 to |quotas|
      invariant requests == Sat(Sum(quotas[..i], Requests))
      invariant tokens == Sat(Sum(quotas[..i], Tokens))
      invariant concurrency == Sat(Sum(quotas[..i], Concurrency))
      invariant IsGrouping(teams, quotas[..i], Team, true)
      invariant IsGrouping(subjects, quotas[..i], SubjectAndTeam, false)
    {
      var quota := quotas[i];
      assert quotas[..i + 1] == quotas[..i] + [quota];
      SatAppend(quotas[..i], quota, Requests);
      SatAppend(quotas[..i], quota, Tokens);
      SatAppend(quotas[..i], quota, Concurrency);
      requests := SatAdd(requests, quota.requestsPerMinute);
      tokens := SatAdd(tokens, quota.tokensPerDay);
      concurrency := SatAdd(concurrency, quota.maxConcurrency);
      GroupingExtends(teams, quotas[..i], Team, true, quota);
      teams := teams[quota.team := Added(Default(teams, quota.team), quota, true)];
      GroupingExtends(subjects, quotas[..i], SubjectAndTeam, false, quota);
      var subject := (quota.subject, quota.team);
      subjects := subjects[subject := Added(Default(subjects, subject), quota, false)];
    }
    assert quotas[..|quotas|] == quotas;
    var teamKeys := Sorted(teams.Keys);
    var byTeam := FinishGroups(teams, teamKeys);
    FinishedReports(byTeam, teams, quotas, Team, true, Less);
    var subjectKeys := SortedPairs(subjects.Keys);
    var bySubject := FinishGroups(subjects, subjectKeys);
    FinishedReports(bySubject, subjects, quotas, SubjectAndTeam, false, PairLess);
    report := Report(|quotas|, requests, tokens, concurrency, byTeam, bySubject);
  }

  lemma NoGroups<K>(key: QuotaConfig -> K, withSubjects: bool)
    ensures IsGrouping(map[], [], key, withSubjects)
  {
  }

  // ------------------------------------------------------------- main results

  function RowRequests<K>(row: PolicyRow<K>): nat { row.requestsPerMinute }
  function RowTokens<K>(row: PolicyRow<K>): nat { row.tokensPerDay }
  function RowConcurrency<K>(row: PolicyRow<K>): nat { row.maxConcurrency }

  lemma OrderedNoDuplicates<K(!new)>(keys: seq<K>, less: (K, K) -> bool)
    requires StrictOrder(less) && Ordered(keys, less)
    ensures NoDuplicates(keys)
  {
  }

  lemma ListAddsUp<K(!new)>(quotas: seq<QuotaConfig>, key: QuotaConfig -> K, withSubjects: bool, less: (K, K) -> bool,
                            list: seq<PolicyRow<K>>)
    requires Reports(list, quotas, key, withSubjects, less) && StrictOrder(less)
    ensures SatTotal(list, RowRequests) == Sat(Sum(quotas, Requests))
    ensures SatTotal(list, RowTokens) == Sat(Sum(quotas, Tokens))
    ensures SatTotal(list, RowConcurrency) == Sat(Sum(quotas, Concurrency))
  {
    hide Sum, Only, SatTotal, GroupSums, Ordered, StrictOrder, Ascending;
    var order := KeysOf(list);
    OrderedNoDuplicates(order, less);
    RowsSaturateOnce(quotas, Requests, key, order, list, RowRequests);
    GroupsAddUp(quotas, Requests, key, order);
    RowsSaturateOnce(quotas, Tokens, key, order, list, RowTokens);
    GroupsAddUp(quotas, Tokens, key, order);
    RowsSaturateOnce(quotas, Concurrency, key, order, list, RowConcurrency);
    GroupsAddUp(quotas, Concurrency, key, order);
  }

  /** MAIN: either list of rows adds up with saturation to the grand totals. */
  lemma RowsAddUp(quotas: seq<QuotaConfig>, report: Report)
    requires IsReport(report, quotas)
    ensures SatTotal(report.byTeam, RowRequests) == report.requestsPerMinute == SatTotal(report.bySubject, RowRequests)
    ensures SatTotal(report.byTeam, RowTokens) == report.tokensPerDay == SatTotal(report.bySubject, RowTokens)
    ensures SatTotal(report.byTeam, RowConcurrency) == report.maxConcurrency == SatTotal(report.bySubject, RowConcurrency)
  {
    hide Reports, SatTotal, Sum, StrictOrder, Less, PairLess;
    LessIsStrict();
    PairLessIsStrict();
    ListAddsUp(quotas, Team, true, Less, report.byTeam);
    ListAddsUp(quotas, SubjectAndTeam, false, PairLess, report.bySubject);
  }

  lemma GroupsIgnoreOrder<K>(quotas: seq<QuotaConfig>, quotas': seq<QuotaConfig>, key: QuotaConfig -> K,
                             withSubjects: bool, k: K)
    requires multiset(quotas) == multiset(quotas')
    ensures GroupOf(Only(quotas, key, k), withSubjects) == GroupOf(Only(quotas', key, k), withSubjects)
  {
    hide Sum, Only;
    GroupIgnoresOrder(quotas, quotas', One, key, k);
    GroupIgnoresOrder(quotas, quotas', Requests, key, k);
    GroupIgnoresOrder(quotas, quotas', Tokens, key, k);
    GroupIgnoresOrder(quotas, quotas', Concurrency, key, k);
    SamePolicies(quotas, quotas');
    forall q
      ensures q in Only(quotas, key, k) <==> q in Only(quotas', key, k)
    {
      OnlyMembers(quotas, key, k, q);
      OnlyMembers(quotas', key, k, q);
    }
    var a, b := GroupOf(Only(quotas, key, k), withSubjects), GroupOf(Only(quotas', key, k), withSubjects);
    assert a.subjects == b.subjects && a.allowedModels == b.allowedModels;
  }

  lemma SamePolicies(quotas: seq<QuotaConfig>, quotas': seq<QuotaConfig>)
    requires multiset(quotas) == multiset(quotas')
    ensures forall q :: q in quotas <==> q in quotas'
  {
    assert forall q :: q in quotas <==> q in multiset(quotas);
    assert forall q :: q in quotas' <==> q in multiset(quotas');
  }

  /** An accumulator is listed in one way only. */
  lemma ListsOnce<K>(row: PolicyRow<K>, row': PolicyRow<K>, a: Accumulator)
    requires row.key == row'.key && Lists(row, a) && Lists(row', a)
    ensures row == row'
  {
    hide Ascending;
    AscendingUnique(row.subjects, row'.subjects);
    AscendingUnique(row.allowedModels, row'.allowedModels);
  }

  lemma KeysIgnoreOrder<K(!new)>(quotas: seq<QuotaConfig>, quotas': seq<QuotaConfig>, key: QuotaConfig -> K,
                                 withSubjects: bool, less: (K, K) -> bool, list: seq<PolicyRow<K>>, list': seq<PolicyRow<K>>)
    requires multiset(quotas) == multiset(quotas') && StrictOrder(less)
    requires Reports(list, quotas, key, withSubjects, less) && Reports(list', quotas', key, withSubjects, less)
    ensures KeysOf(list) == KeysOf(list')
  {
    hide Lists, GroupOf, Only, Ordered, StrictOrder;
    SamePolicies(quotas, quotas');
    OrderedUnique(KeysOf(list), KeysOf(list'), less);
  }

  lemma ListIgnoresOrder<K(!new)>(quotas: seq<QuotaConfig>, quotas': seq<QuotaConfig>, key: QuotaConfig -> K,
                                  withSubjects: bool, less: (K, K) -> bool, list: seq<PolicyRow<K>>, list': seq<PolicyRow<K>>)
    requires multiset(quotas) == multiset(quotas') && StrictOrder(less)
    requires Reports(list, quotas, key, withSubjects, less) && Reports(list', quotas', key, withSubjects, less)
    ensures list == list'
  {
    hide Lists, GroupOf, Only, Ordered, StrictOrder, HasGroup;
    KeysIgnoreOrder(quotas, quotas', key, withSubjects, less, list, list');
    assert |list| == |KeysOf(list)| == |list'|;
    forall i | 0 <= i < |list|
      ensures list[i] == list'[i]
    {
      assert KeysOf(list)[i] == list[i].key && KeysOf(list')[i] == list'[i].key;
      GroupsIgnoreOrder(quotas, quotas', key, withSubjects, list[i].key);
      ListsOnce(list[i], list'[i], GroupOf(Only(quotas, key, list[i].key), withSubjects));
    }
  }

  /** MAIN: the report is the same, row for row and name for name, whatever the order of the policies. */
  lemma OrderDoesNotMatter(quotas: seq<QuotaConfig>, quotas': seq<QuotaConfig>, report: Report, report': Report)
    requires multiset(quotas) == multiset(quotas') && IsReport(report, quotas) && IsReport(report', quotas')
    ensures report == report'
  {
    hide Reports, Sum, StrictOrder, Less, PairLess;
    LessIsStrict();
    PairLessIsStrict();
    assert |quotas| == |multiset(quotas)| == |quotas'|;
    SumIgnoresOrder(quotas, quotas', Requests);
    SumIgnoresOrder(quotas, quotas', Tokens);
    SumIgnoresOrder(quotas, quotas', Concurrency);
    ListIgnoresOrder(quotas, quotas', Team, true, Less, report.byTeam, report'.byTeam);
    ListIgnoresOrder(quotas, quotas', SubjectAndTeam, false, PairLess, report.bySubject, report'.bySubject);
  }

  /** What one policy adds to which number, and under which keys it is listed. */
  lemma OnePolicyIsReported(q: QuotaConfig, report: Report)
    requires IsReport(report, [q])
    ensures report.policyCount == 1 && report.requestsPerMinute == Sat(q.requestsPerMinute)
    ensures report.tokensPerDay == Sat(q.tokensPerDay) && report.maxConcurrency == Sat(q.maxConcurrency)
    ensures KeysOf(report.byTeam) == [q.team] && KeysOf(report.bySubject) == [(q.subject, q.team)]
    ensures report.byTeam[0].subjects == [q.subject] && report.bySubject[0].subjects == []
    ensures forall m :: m in report.byTeam[0].allowedModels <==> m in q.allowedModels
    ensures report.byTeam[0].requestsPerMinute == Sat(q.requestsPerMinute)
    ensures report.byTeam[0].tokensPerDay == Sat(q.tokensPerDay) && report.byTeam[0].maxConcurrency == Sat(q.maxConcurrency)
    ensures report.byTeam[0].policyCount == report.bySubject[0].policyCount == 1
  {
    hide Sum, StrictOrder, Less, PairLess, Reports, Lists;
    LessIsStrict();
    PairLessIsStrict();
    SumOfOne(q, Requests);
    SumOfOne(q, Tokens);
    SumOfOne(q, Concurrency);
    OneRow(q, Team, true, Less, report.byTeam);
    OneRow(q, SubjectAndTeam, false, PairLess, report.bySubject);
  }

  lemma OneRow<K(!new)>(q: QuotaConfig, key: QuotaConfig -> K, withSubjects: bool, less: (K, K) -> bool, list: seq<PolicyRow<K>>)
    requires StrictOrder(less) && Reports(list, [q], key, withSubjects, less)
    ensures KeysOf(list) == [key(q)] && |list| == 1
    ensures list[0].subjects == (if withSubjects then [q.subject] else [])
    ensures forall m :: m in list[0].allowedModels <==> m in q.allowedModels
    ensures list[0].policyCount == 1 && list[0].requestsPerMinute == Sat(q.requestsPerMinute)
    ensures list[0].tokensPerDay == Sat(q.tokensPerDay) && list[0].maxConcurrency == Sat(q.maxConcurrency)
  {
    hide Sum, Ascending, StrictOrder;
    assert q in [q];
    forall k
      ensures k in KeysOf(list) <==> k in [key(q)]
    {
      if k in KeysOf(list) {
        var i :| 0 <= i < |list| && KeysOf(list)[i] == k;
        assert HasGroup([q], key, list[i].key);
      }
    }
    OrderedUnique(KeysOf(list), [key(q)], less);
    assert list[0].key == KeysOf(list)[0];
    assert [q][..0] == [] && Only([q], key, key(q)) == [q];
    SumOfOne(q, One);
    SumOfOne(q, Requests);
    SumOfOne(q, Tokens);
    SumOfOne(q, Concurrency);
    var group := GroupOf([q], withSubjects);
    OneName(list[0].subjects, if withSubjects then [q.subject] else []);
  }

  lemma OneName(names: seq<string>, expected: seq<string>)
    requires Ascending(names) && |expected| <= 1 && forall s :: s in names <==> s in expected
    ensures names == expected
  {
    AscendingUnique(names, expected);
  }
}
