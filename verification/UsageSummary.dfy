/** Usage aggregation (src/reporting/summary.rs): grand totals and group-by rows in one pass. */
module UsageSummary {
  import opened Ordering
  import opened Saturation
  import opened Wrappers

  datatype UsageEvent = UsageEvent(
    model: string, team: string, actor: string, inputTokens: nat, outputTokens: nat, latencyMs: nat
  )

  datatype Totals = Totals(
    requestCount: nat, inputTokens: nat, outputTokens: nat, totalTokens: nat, totalLatencyMs: nat
  )

  /** The running totals of a breakdown, by key. */
  type Breakdowns = map<string, Totals>

  /** A row of the report; the average is exact, where the code rounds it. */
  datatype Row = Row(key: string, totals: Totals, averageLatencyMs: Option<real>)

  datatype Summary = Summary(
    totals: Totals, averageLatencyMs: Option<real>, byModel: seq<Row>, byTeam: seq<Row>, byActor: seq<Row>
  )

  function Model(e: UsageEvent): string { e.model }
  function Team(e: UsageEvent): string { e.team }
  function Actor(e: UsageEvent): string { e.actor }

  function One(e: UsageEvent): nat { 1 }
  function Input(e: UsageEvent): nat { e.inputTokens }
  function Output(e: UsageEvent): nat { e.outputTokens }
  function Both(e: UsageEvent): nat { e.inputTokens + e.outputTokens }
  function Latency(e: UsageEvent): nat { e.latencyMs }

  const NOTHING := Totals(0, 0, 0, 0, 0)

  /** One event added to running totals. */
  function Accumulated(t: Totals, e: UsageEvent): Totals {
    Totals(
      t.requestCount + 1,
      SatAdd(t.inputTokens, e.inputTokens),
      SatAdd(t.outputTokens, e.outputTokens),
      SatAdd(t.totalTokens, SatAdd(e.inputTokens, e.outputTokens)),
      SatAdd(t.totalLatencyMs, e.latencyMs)
    )
  }

  // ------------------------------------------------------- what totals should be

  /** Exact sums, each cut off once at the largest 64-bit number. */
  function TotalsOf(events: seq<UsageEvent>): Totals {
    Totals(Sum(events, One), Sat(Sum(events, Input)), Sat(Sum(events, Output)), Sat(Sum(events, Both)), Sat(Sum(events, Latency)))
  }

  predicate HasGroup(events: seq<UsageEvent>, key: UsageEvent -> string, k: string) {
    exists e :: e in events && key(e) == k
  }

  /** A row for every key that occurs, and in it the totals of that key's events. */
  predicate IsBreakdown(rows: Breakdowns, events: seq<UsageEvent>, key: UsageEvent -> string) {
    (forall k :: k in rows ==> HasGroup(events, key, k)) &&
    (forall e :: e in events ==> key(e) in rows) &&
    (forall k :: k in rows ==> rows[k] == TotalsOf(Only(events, key, k)))
  }

  lemma SatAddIs(a: nat, b: nat)
    ensures SatAdd(a, b) == Sat(a + b)
  {
  }

  /** Adding event by event, saturating at every step, gives the exact sums cut off once. */
  lemma AccumulatedTotals(events: seq<UsageEvent>, e: UsageEvent)
    ensures Accumulated(TotalsOf(events), e) == TotalsOf(events + [e])
  {
    hide Sum, Sat, SatAdd;
    SumAppend(events, e, One);
    SatAppend(events, e, Input);
    SatAppend(events, e, Output);
    SatAppend(events, e, Both);
    assert SatAdd(e.inputTokens, e.outputTokens) == Sat(Both(e)) by { SatAddIs(e.inputTokens, e.outputTokens); }
    SatAppend(events, e, Latency);
  }

  function Default(rows: Breakdowns, k: string): Totals {
    if k in rows then rows[k] else NOTHING
  }

  lemma BreakdownExtends(rows: Breakdowns, events: seq<UsageEvent>, key: UsageEvent -> string, e: UsageEvent)
    requires IsBreakdown(rows, events, key)
    ensures IsBreakdown(rows[key(e) := Accumulated(Default(rows, key(e)), e)], events + [e], key)
  {
    hide Accumulated, TotalsOf, Only;
    var k := key(e);
    var rows' := rows[k := Accumulated(Default(rows, k), e)];
    DefaultIsTotals(rows, events, key, k);
    AccumulatedTotals(Only(events, key, k), e);
    forall j | j in rows'
      ensures rows'[j] == TotalsOf(Only(events + [e], key, j))
    {
      OnlyAppend(events, e, key, j);
      assert Only(events, key, j) + [] == Only(events, key, j);
    }
    forall j | j in rows'
      ensures HasGroup(events + [e], key, j)
    {
      if j == k {
        assert e in events + [e];
      } else {
        var x :| x in events && key(x) == j;
        assert x in events + [e];
      }
    }
  }

  lemma DefaultIsTotals(rows: Breakdowns, events: seq<UsageEvent>, key: UsageEvent -> string, k: string)
    requires IsBreakdown(rows, events, key)
    ensures Default(rows, k) == TotalsOf(Only(events, key, k))
  {
    if k !in rows {
      var group := Only(events, key, k);
      if group != [] {
        OnlyMembers(events, key, k, group[0]);
      }
      assert group == [];
    }
  }

  // -------------------------------------------------------------- the report

  function Average(total: nat, count: nat): Option<real> {
    if count == 0 then None else Some(total as real / count as real)
  }

  function AverageOf(t: Totals): Option<real> {
    Average(t.totalLatencyMs, t.requestCount)
  }

  /** The average times the count is the total, and there is none exactly for no requests. */
  lemma AverageMeans(t: Totals)
    ensures AverageOf(t).None? <==> t.requestCount == 0
    ensures AverageOf(t).Some? ==> AverageOf(t).value * t.requestCount as real == t.totalLatencyMs as real
  {
  }

  function KeysOf(list: seq<Row>): seq<string> {
    seq(|list|, i requires 0 <= i < |list| => list[i].key)
  }

  /** One row for every key that occurs, in the order of the keys, with its events' totals and their average. */
  predicate Reports(list: seq<Row>, events: seq<UsageEvent>, key: UsageEvent -> string) {
    Ascending(KeysOf(list)) && (forall e :: e in events ==> key(e) in KeysOf(list)) &&
    forall i :: 0 <= i < |list| ==>
      HasGroup(events, key, list[i].key) && list[i].totals == TotalsOf(Only(events, key, list[i].key)) &&
      list[i].averageLatencyMs == AverageOf(list[i].totals)
  }

  /** Takes the rows out in the order of their keys, adding the averages. */
  method FinishBreakdowns(rows: Breakdowns) returns (list: seq<Row>)
    ensures Ascending(KeysOf(list)) && forall k :: k in KeysOf(list) <==> k in rows
    ensures forall i :: 0 <= i < |list| ==>
      list[i].key in rows && list[i].totals == rows[list[i].key] && list[i].averageLatencyMs == AverageOf(list[i].totals)
  {
    hide Ascending;
    var keys := Sorted(rows.Keys);
    list := [];
    for i := 0 to |keys|
      invariant KeysOf(list) == keys[..i]
      invariant forall j :: 0 <= j < |list| ==>
        list[j].key in rows && list[j].totals == rows[list[j].key] && list[j].averageLatencyMs == AverageOf(list[j].totals)
    {
      var k := keys[i];
      assert k in keys;
      list := list + [Row(k, rows[k], AverageOf(rows[k]))];
    }
    assert keys[..|keys|] == keys;
  }

  lemma FinishedReports(list: seq<Row>, rows: Breakdowns, events: seq<UsageEvent>, key: UsageEvent -> string)
    requires IsBreakdown(rows, events, key) && Ascending(KeysOf(list)) && forall k :: k in KeysOf(list) <==> k in rows
    requires forall i :: 0 <= i < |list| ==>
      list[i].key in rows && list[i].totals == rows[list[i].key] && list[i].averageLatencyMs == AverageOf(list[i].totals)
    ensures Reports(list, events, key)
  {
    hide TotalsOf, Only, AverageOf, Less;
  }

  /** One pass over the events: the grand totals, and the rows by model, team and actor. */
  method SummarizeUsage(events: seq<UsageEvent>) returns (summary: Summary)
    ensures summary.totals == TotalsOf(events) && summary.averageLatencyMs == AverageOf(TotalsOf(events))
    ensures Reports(summary.byModel, events, Model)
    ensures Reports(summary.byTeam, events, Team)
    ensures Reports(summary.byActor, events, Actor)
  {
    var totals := NOTHING;
    var byModel: Breakdowns, byTeam: Breakdowns, byActor: Breakdowns := map[], map[], map[];
    EmptyTotals();
    hide IsBreakdown, Reports, TotalsOf, Accumulated, AverageOf, Ascending;
    for i := 0 to |events|
      invariant totals == TotalsOf(events[..i])
      invariant IsBreakdown(byModel, events[..i], Model)
      invariant IsBreakdown(byTeam, events[..i], Team)
      invariant IsBreakdown(byActor, events[..i], Actor)
    {
      var event := events[i];
      assert events[..i + 1] == events[..i] + [event];
      AccumulatedTotals(events[..i], event);
      totals := Accumulated(totals, event);
      BreakdownExtends(byModel, events[..i], Model, event);
      byModel := byModel[event.model := Accumulated(Default(byModel, event.model), event)];
      BreakdownExtends(byTeam, events[..i], Team, event);
      byTeam := byTeam[event.team := Accumulated(Default(byTeam, event.team), event)];
      BreakdownExtends(byActor, events[..i], Actor, event);
      byActor := byActor[event.actor := Accumulated(Default(byActor, event.actor), event)];
    }
    assert events[..|events|] == events;
    var models := FinishBreakdowns(byModel);
    FinishedReports(models, byModel, events, Model);
    var teams := FinishBreakdowns(byTeam);
    FinishedReports(teams, byTeam, events, Team);
    var actors := FinishBreakdowns(byActor);
    FinishedReports(actors, byActor, events, Actor);
    summary := Summary(totals, AverageOf(totals), models, teams, actors);
  }

  lemma EmptyTotals()
    ensures TotalsOf([]) == NOTHING
    ensures forall key: UsageEvent -> string :: IsBreakdown(map[], [], key)
  {
  }

  // ------------------------------------------------------------- main results

  lemma {:induction false} BothIsSum(events: seq<UsageEvent>)
    ensures Sum(events, Both) == Sum(events, Input) + Sum(events, Output)
    decreases |events|
  {
    if events == [] {
    } else {
      BothIsSum(events[..|events| - 1]);
    }
  }

  /** MAIN: the total is the saturating sum of the input and output totals, in the summary and in every row. */
  lemma TotalIsInputPlusOutput(events: seq<UsageEvent>)
    ensures TotalsOf(events).totalTokens == SatAdd(TotalsOf(events).inputTokens, TotalsOf(events).outputTokens)
  {
    BothIsSum(events);
  }

  function Requests(r: Row): nat { r.totals.requestCount }
  function InputTokens(r: Row): nat { r.totals.inputTokens }
  function OutputTokens(r: Row): nat { r.totals.outputTokens }
  function TotalTokens(r: Row): nat { r.totals.totalTokens }
  function TotalLatency(r: Row): nat { r.totals.totalLatencyMs }

  lemma AscendingNoDuplicates(keys: seq<string>)
    requires Ascending(keys)
    ensures NoDuplicates(keys)
  {
    forall i, j | 0 <= i < j < |keys|
      ensures keys[i] != keys[j]
    {
      LessIrreflexive(keys[i]);
    }
  }

  /** MAIN: the rows of a breakdown add up, with saturation, to the grand totals. */
  lemma RowsAddUp(events: seq<UsageEvent>, key: UsageEvent -> string, list: seq<Row>)
    requires Reports(list, events, key)
    ensures SatTotal(list, InputTokens) == TotalsOf(events).inputTokens
    ensures SatTotal(list, OutputTokens) == TotalsOf(events).outputTokens
    ensures SatTotal(list, TotalTokens) == TotalsOf(events).totalTokens
    ensures SatTotal(list, TotalLatency) == TotalsOf(events).totalLatencyMs
    ensures SatTotal(list, Requests) == Sat(TotalsOf(events).requestCount)
  {
    hide Sum, Only, SatTotal, GroupSums, Less;
    var order := KeysOf(list);
    AscendingNoDuplicates(order);
    assert forall i :: 0 <= i < |list| ==> list[i].totals == TotalsOf(Only(events, key, order[i]));
    FieldAddsUp(events, key, order, list, Input, InputTokens);
    FieldAddsUp(events, key, order, list, Output, OutputTokens);
    FieldAddsUp(events, key, order, list, Both, TotalTokens);
    FieldAddsUp(events, key, order, list, Latency, TotalLatency);
    CountsAddUp(events, key, order, list);
  }

  lemma FieldAddsUp(events: seq<UsageEvent>, key: UsageEvent -> string, order: seq<string>, list: seq<Row>,
                    f: UsageEvent -> nat, field: Row -> nat)
    requires NoDuplicates(order) && |list| == |order| && forall e :: e in events ==> key(e) in order
    requires forall i :: 0 <= i < |list| ==> field(list[i]) == Sat(Sum(Only(events, key, order[i]), f))
    ensures SatTotal(list, field) == Sat(Sum(events, f))
  {
    RowsSaturateOnce(events, f, key, order, list, field);
    GroupsAddUp(events, f, key, order);
  }

  /** Request counts never saturate row by row. */
  lemma CountsAddUp(events: seq<UsageEvent>, key: UsageEvent -> string, order: seq<string>, list: seq<Row>)
    requires NoDuplicates(order) && |list| == |order| && forall e :: e in events ==> key(e) in order
    requires forall i :: 0 <= i < |list| ==> list[i].totals.requestCount == Sum(Only(events, key, order[i]), One)
    ensures SatTotal(list, Requests) == Sat(Sum(events, One))
  {
    RowsCountOnce(events, key, order, list);
    GroupsAddUp(events, One, key, order);
  }

  lemma {:induction false} RowsCountOnce(events: seq<UsageEvent>, key: UsageEvent -> string, order: seq<string>, list: seq<Row>)
    requires |list| == |order|
    requires forall i :: 0 <= i < |list| ==> list[i].totals.requestCount == Sum(Only(events, key, order[i]), One)
    ensures SatTotal(list, Requests) == Sat(GroupSums(events, One, key, order))
    decreases |list|
  {
    hide Only, Sum;
    if list == [] {
    } else {
      forall i | 0 <= i < |list| - 1
        ensures list[1..][i].totals.requestCount == Sum(Only(events, key, order[1..][i]), One)
      {
        assert list[1..][i] == list[i + 1] && order[1..][i] == order[i + 1];
      }
      RowsCountOnce(events, key, order[1..], list[1..]);
    }
  }

  lemma TotalsIgnoreOrder(events: seq<UsageEvent>, events': seq<UsageEvent>, key: UsageEvent -> string, k: string)
    requires multiset(events) == multiset(events')
    ensures TotalsOf(events) == TotalsOf(events') && TotalsOf(Only(events, key, k)) == TotalsOf(Only(events', key, k))
  {
    hide Sum, Only;
    SumIgnoresOrder(events, events', One);
    SumIgnoresOrder(events, events', Input);
    SumIgnoresOrder(events, events', Output);
    SumIgnoresOrder(events, events', Both);
    SumIgnoresOrder(events, events', Latency);
    GroupIgnoresOrder(events, events', One, key, k);
    GroupIgnoresOrder(events, events', Input, key, k);
    GroupIgnoresOrder(events, events', Output, key, k);
    GroupIgnoresOrder(events, events', Both, key, k);
    GroupIgnoresOrder(events, events', Latency, key, k);
  }

  lemma KeysIgnoreOrder(events: seq<UsageEvent>, events': seq<UsageEvent>, key: UsageEvent -> string, list: seq<Row>, list': seq<Row>)
    requires multiset(events) == multiset(events') && Reports(list, events, key) && Reports(list', events', key)
    ensures KeysOf(list) == KeysOf(list')
  {
    hide TotalsOf, Only, AverageOf, Less;
    SameMembers(events, events');
    forall k
      ensures k in KeysOf(list) <==> k in KeysOf(list')
    {
    }
    AscendingUnique(KeysOf(list), KeysOf(list'));
  }

  /** MAIN: neither the totals nor any breakdown depend on the order of the events. */
  lemma OrderDoesNotMatter(events: seq<UsageEvent>, events': seq<UsageEvent>, key: UsageEvent -> string,
                           list: seq<Row>, list': seq<Row>)
    requires multiset(events) == multiset(events')
    requires Reports(list, events, key) && Reports(list', events', key)
    ensures TotalsOf(events) == TotalsOf(events') && list == list'
  {
    hide TotalsOf, Only, AverageOf, Ascending, HasGroup;
    KeysIgnoreOrder(events, events', key, list, list');
    TotalsIgnoreOrder(events, events', key, "");
    assert |list| == |KeysOf(list)| == |list'|;
    forall i | 0 <= i < |list|
      ensures list[i] == list'[i]
    {
      assert KeysOf(list)[i] == list[i].key && KeysOf(list')[i] == list'[i].key;
      TotalsIgnoreOrder(events, events', key, list[i].key);
    }
  }

  lemma SameMembers<T>(items: seq<T>, items': seq<T>)
    requires multiset(items) == multiset(items')
    ensures forall x :: x in items <==> x in items'
  {
    forall x
      ensures x in items <==> x in items'
    {
      assert x in items <==> x in multiset(items);
      assert x in items' <==> x in multiset(items');
    }
  }

  /** What one event adds to which number, and under which keys it is listed. */
  lemma OneEventIsReported(e: UsageEvent, byModel: seq<Row>, byTeam: seq<Row>, byActor: seq<Row>)
    requires Reports(byModel, [e], Model) && Reports(byTeam, [e], Team) && Reports(byActor, [e], Actor)
    ensures TotalsOf([e]) == Totals(1, Sat(e.inputTokens), Sat(e.outputTokens), Sat(e.inputTokens + e.outputTokens), Sat(e.latencyMs))
    ensures KeysOf(byModel) == [e.model] && KeysOf(byTeam) == [e.team] && KeysOf(byActor) == [e.actor]
  {
    hide Reports, HasGroup, Sum;
    SumOfOne(e, One);
    SumOfOne(e, Input);
    SumOfOne(e, Output);
    SumOfOne(e, Both);
    SumOfOne(e, Latency);
    OneKey(e, Model, byModel);
    OneKey(e, Team, byTeam);
    OneKey(e, Actor, byActor);
  }

  lemma OneKey(e: UsageEvent, key: UsageEvent -> string, list: seq<Row>)
    requires Reports(list, [e], key)
    ensures KeysOf(list) == [key(e)]
  {
    hide TotalsOf, Only, AverageOf, Less;
    assert e in [e];
    forall k
      ensures k in KeysOf(list) <==> k in [key(e)]
    {
      if k in KeysOf(list) {
        var i :| 0 <= i < |list| && KeysOf(list)[i] == k;
        assert HasGroup([e], key, list[i].key);
      }
    }
    AscendingUnique(KeysOf(list), [key(e)]);
  }
}
