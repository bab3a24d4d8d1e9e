/**
 Cluster placement (src/native/placement.rs): a plan from the configuration, its
 validation, routing by model alias, and the heartbeat.
 */
module Placement {
  import opened Ordering
  import opened Wrappers
  import opened Text

  const STARTER_ROLES: seq<string> := ["query", "recommendation", "thinking", "coding"]

  datatype ModelConfig = ModelConfig(alias: string, role: string)

  datatype ClusterNode = ClusterNode(id: string, baseUrl: string, roles: seq<string>, modelAliases: seq<string>)

  /** `port` is the port's decimal text. */
  datatype Config = Config(nodeId: string, host: string, port: string, models: seq<ModelConfig>, clusterNodes: seq<ClusterNode>)

  datatype PlacementNode = PlacementNode(id: string, baseUrl: string, roles: set<string>, modelAliases: seq<string>)

  datatype Plan = Plan(routingMode: string, localNode: string, nodes: seq<PlacementNode>, unassignedModels: seq<string>)

  datatype PlanError =
    | Unassigned(aliases: seq<string>)
    | EmptyId
    | EmptyBaseUrl(id: string)
    | MultipleOwners(alias: string, ids: seq<string>)

  datatype RouteError = NoNode | MultipleNodes

  datatype Heartbeat = Heartbeat(nodeId: string, routingMode: string, healthy: bool, models: nat, assignedModels: nat,
                                 unassignedModels: seq<string>)

  // ---------------------------------------------------------------- building

  /** Any role that is not one of the four counts as a query. */
  function NormalizeRole(role: string): (r: string)
    ensures r in STARTER_ROLES
    ensures Trim(role) in STARTER_ROLES ==> r == Trim(role)
  {
    var trimmed := Trim(role);
    if trimmed in STARTER_ROLES then trimmed else "query"
  }

  /** A node takes a model that it lists by alias or whose role it serves. */
  predicate Claims(node: ClusterNode, m: ModelConfig) {
    m.alias in node.modelAliases || exists r :: r in node.roles && NormalizeRole(r) == NormalizeRole(m.role)
  }

  /** The aliases of the models a node claims, in configuration order. */
  function ClaimedAliases(node: ClusterNode, models: seq<ModelConfig>): seq<string> {
    if models == [] then []
    else (if Claims(node, models[0]) then [models[0].alias] else []) + ClaimedAliases(node, models[1..])
  }

  function AliasesOf(models: seq<ModelConfig>): seq<string> {
    if models == [] then [] else [models[0].alias] + AliasesOf(models[1..])
  }

  function NodeFor(node: ClusterNode, models: seq<ModelConfig>): PlacementNode {
    PlacementNode(node.id, node.baseUrl, set r | r in node.roles :: NormalizeRole(r), ClaimedAliases(node, models))
  }

  function NodesFor(nodes: seq<ClusterNode>, models: seq<ModelConfig>): seq<PlacementNode> {
    if nodes == [] then [] else [NodeFor(nodes[0], models)] + NodesFor(nodes[1..], models)
  }

  function SingleNode(cfg: Config): PlacementNode {
    PlacementNode(cfg.nodeId, "http://" + cfg.host + ":" + cfg.port + "/v1",
                  set m | m in cfg.models :: NormalizeRole(m.role), AliasesOf(cfg.models))
  }

  /** All aliases of a plan's nodes, node by node. */
  function PlacedAliases(nodes: seq<PlacementNode>): seq<string> {
    if nodes == [] then [] else nodes[0].modelAliases + PlacedAliases(nodes[1..])
  }

  function Missing(models: seq<ModelConfig>, placed: seq<string>): seq<string> {
    if models == [] then []
    else (if models[0].alias in placed then [] else [models[0].alias]) + Missing(models[1..], placed)
  }

  function PlanFromConfig(cfg: Config): Plan {
    var single := cfg.clusterNodes == [];
    var nodes := if single then [SingleNode(cfg)] else NodesFor(cfg.clusterNodes, cfg.models);
    Plan(if single then "single-node" else "cluster-role-placement", cfg.nodeId, nodes, Missing(cfg.models, PlacedAliases(nodes)))
  }

  // --------------------------------------------------------------- validation

  predicate Blank(s: string) {
    Trim(s) == ""
  }

  predicate Distinct<T(==)>(items: seq<T>) {
    forall i, j :: 0 <= i < j < |items| ==> items[i] != items[j]
  }

  predicate Named(node: PlacementNode) {
    !Blank(node.id) && !Blank(node.baseUrl)
  }

  /** Nothing left over, every node named and addressed, no alias placed twice. */
  predicate PlanOk(plan: Plan) {
    plan.unassignedModels == [] && (forall n :: n in plan.nodes ==> Named(n)) && Distinct(PlacedAliases(plan.nodes))
  }

  /** Who has `alias`, once for every time it is placed. */
  function Owners(nodes: seq<PlacementNode>, alias: string): seq<string> {
    if nodes == [] then []
    else
      var n := |nodes| - 1;
      Owners(nodes[..n], alias) + Repeated(nodes[n].id, Occurrences(nodes[n].modelAliases, alias))
  }

  function Occurrences(items: seq<string>, x: string): nat {
    if items == [] then 0
    else Occurrences(items[..|items| - 1], x) + (if items[|items| - 1] == x then 1 else 0)
  }

  function Repeated(x: string, n: nat): seq<string> {
    seq(n, _ => x)
  }

  function OwnersIn(owners: map<string, seq<string>>, alias: string): seq<string> {
    if alias in owners then owners[alias] else []
  }

  /** What is wrong with the first node that is not named or not addressed. */
  function NodeFault(nodes: seq<PlacementNode>): (r: Option<PlanError>)
    ensures r.None? <==> forall n :: n in nodes ==> Named(n)
  {
    if nodes == [] then None
    else if Blank(nodes[0].id) then
      assert !Named(nodes[0]);
      Some(EmptyId)
    else if Blank(nodes[0].baseUrl) then
      assert !Named(nodes[0]);
      Some(EmptyBaseUrl(nodes[0].id))
    else
      assert nodes == [nodes[0]] + nodes[1..];
      NodeFault(nodes[1..])
  }

  /** Nested loops over nodes and aliases fill `owners`; the first complaint is returned. */
  method ValidatePlacementPlan(plan: Plan) returns (r: Option<PlanError>)
    ensures r.None? <==> PlanOk(plan)
    ensures plan.unassignedModels != [] <==> r.Some? && r.value.Unassigned?
    ensures plan.unassignedModels != [] ==> r == Some(Unassigned(plan.unassignedModels))
    ensures plan.unassignedModels == [] && NodeFault(plan.nodes).Some? ==> r == NodeFault(plan.nodes)
    ensures r.Some? && r.value.MultipleOwners? ==> r.value.ids == Owners(plan.nodes, r.value.alias) && |r.value.ids| > 1
    ensures r.Some? && r.value.MultipleOwners? ==>
      forall a :: |Owners(plan.nodes, a)| > 1 ==> a == r.value.alias || Less(r.value.alias, a)
    ensures r.Some? && r.value.MultipleOwners? ==> plan.unassignedModels == [] && forall n :: n in plan.nodes ==> Named(n)
  {
    hide Blank, Owners, OwnersIn, PlacedAliases, Distinct, NodeFault;
    if plan.unassignedModels != [] {
      return Some(Unassigned(plan.unassignedModels));
    }
    var owners: map<string, seq<string>> := map[];
    NoNodes();
    assert plan.nodes[..0] == [] && plan.nodes[0..] == plan.nodes;
    for i := 0 to |plan.nodes|
      invariant NodeFault(plan.nodes[i..]) == NodeFault(plan.nodes)
      invariant forall alias :: OwnersIn(owners, alias) == Owners(plan.nodes[..i], alias)
    {
      var node := plan.nodes[i];
      assert plan.nodes[..i + 1] == plan.nodes[..i] + [node];
      FaultOfNext(plan.nodes, i);
      if Blank(node.id) {
        return Some(EmptyId);
      }
      if Blank(node.baseUrl) {
        return Some(EmptyBaseUrl(node.id));
      }
      owners := AddOwner(owners, node, plan.nodes[..i]);
    }
    assert plan.nodes[..|plan.nodes|] == plan.nodes && plan.nodes[|plan.nodes|..] == [];
    var duplicates := set alias | alias in owners && |owners[alias]| > 1;
    DuplicatesAre(owners, plan.nodes);
    if duplicates != {} {
      var alias := Least(duplicates);
      return Some(MultipleOwners(alias, owners[alias]));
    }
    r := None;
  }

  /** Where the outer loop starts and ends. */
  lemma NoNodes()
    ensures NodeFault([]).None? && forall alias :: OwnersIn(map[], alias) == Owners([], alias)
  {
  }

  lemma FaultOfNext(nodes: seq<PlacementNode>, i: nat)
    requires i < |nodes|
    ensures nodes[i] in nodes
    ensures NodeFault(nodes[i..]) ==
      if Blank(nodes[i].id) then Some(EmptyId)
      else if Blank(nodes[i].baseUrl) then Some(EmptyBaseUrl(nodes[i].id))
      else NodeFault(nodes[i + 1..])
  {
    assert nodes[i..][1..] == nodes[i + 1..];
  }

  /** The filled map names exactly the aliases that are placed more than once. */
  lemma DuplicatesAre(owners: map<string, seq<string>>, nodes: seq<PlacementNode>)
    requires forall alias :: OwnersIn(owners, alias) == Owners(nodes, alias)
    ensures var duplicates := set alias | alias in owners && |owners[alias]| > 1;
      (forall alias :: alias in duplicates <==> |Owners(nodes, alias)| > 1) &&
      (forall alias :: alias in duplicates ==> owners[alias] == Owners(nodes, alias)) &&
      (duplicates == {} <==> Distinct(PlacedAliases(nodes)))
  {
    PlacedOnceIff(nodes);
    hide Owners, Distinct, PlacedAliases;
    var duplicates := set alias | alias in owners && |owners[alias]| > 1;
    forall alias
      ensures alias in duplicates <==> |Owners(nodes, alias)| > 1
      ensures alias in duplicates ==> owners[alias] == Owners(nodes, alias)
    {
      assert OwnersIn(owners, alias) == Owners(nodes, alias);
    }
    if duplicates == {} {
      assert OwnedOnce(nodes);
    }
  }

  /** The inner loop: one node's aliases. */
  method AddOwner(owners: map<string, seq<string>>, node: PlacementNode, ghost before: seq<PlacementNode>)
    returns (owners': map<string, seq<string>>)
    requires forall alias :: OwnersIn(owners, alias) == Owners(before, alias)
    ensures forall alias :: OwnersIn(owners', alias) == Owners(before + [node], alias)
  {
    hide Filled, Owners, OwnersIn;
    owners' := owners;
    var aliases := node.modelAliases;
    FilledNothing(owners, node.id);
    assert aliases[..0] == [];
    for j := 0 to |aliases|
      invariant Filled(owners, owners', node.id, aliases[..j])
    {
      assert aliases[..j + 1] == aliases[..j] + [aliases[j]];
      FilledStep(owners, owners', node.id, aliases[..j], aliases[j]);
      owners' := owners'[aliases[j] := OwnersIn(owners', aliases[j]) + [node.id]];
    }
    assert aliases[..|aliases|] == aliases;
    FilledAll(owners, owners', node, before);
  }

  /** `now` is `owners` with `id` added once for every one of `aliases`. */
  ghost predicate Filled(owners: map<string, seq<string>>, now: map<string, seq<string>>, id: string, aliases: seq<string>) {
    forall alias :: OwnersIn(now, alias) == OwnersIn(owners, alias) + Repeated(id, Occurrences(aliases, alias))
  }

  lemma FilledNothing(owners: map<string, seq<string>>, id: string)
    ensures Filled(owners, owners, id, [])
  {
  }

  lemma FilledStep(owners: map<string, seq<string>>, now: map<string, seq<string>>, id: string, aliases: seq<string>, next: string)
    requires Filled(owners, now, id, aliases)
    ensures Filled(owners, now[next := OwnersIn(now, next) + [id]], id, aliases + [next])
  {
    hide Occurrences, Repeated;
    var later := now[next := OwnersIn(now, next) + [id]];
    forall alias
      ensures OwnersIn(later, alias) == OwnersIn(owners, alias) + Repeated(id, Occurrences(aliases + [next], alias))
    {
      assert OwnersIn(now, alias) == OwnersIn(owners, alias) + Repeated(id, Occurrences(aliases, alias));
      OccurrencesStep(aliases, next, alias);
      OneMoreOwner(OwnersIn(owners, alias), id, Occurrences(aliases, alias));
    }
  }

  lemma FilledAll(owners: map<string, seq<string>>, now: map<string, seq<string>>, node: PlacementNode, before: seq<PlacementNode>)
    requires Filled(owners, now, node.id, node.modelAliases)
    requires forall alias :: OwnersIn(owners, alias) == Owners(before, alias)
    ensures forall alias :: OwnersIn(now, alias) == Owners(before + [node], alias)
  {
  }

  lemma OccurrencesStep(items: seq<string>, next: string, x: string)
    ensures Occurrences(items + [next], x) == Occurrences(items, x) + (if next == x then 1 else 0)
  {
  }

  lemma OneMoreOwner(ids: seq<string>, id: string, n: nat)
    ensures (ids + Repeated(id, n)) + [id] == ids + Repeated(id, n + 1)
  {
  }

  // ----------------------------------------------------------------- routing

  function Candidates(nodes: seq<PlacementNode>, alias: string): seq<PlacementNode> {
    if nodes == [] then []
    else (if alias in nodes[0].modelAliases then [nodes[0]] else []) + Candidates(nodes[1..], alias)
  }

  function RouteSelectionForModel(plan: Plan, alias: string): Result<PlacementNode, RouteError> {
    var candidates := Candidates(plan.nodes, alias);
    if candidates == [] then Err(NoNode)
    else if |candidates| > 1 then Err(MultipleNodes)
    else Ok(candidates[0])
  }

  function HeartbeatFromConfig(cfg: Config): Heartbeat {
    var plan := PlanFromConfig(cfg);
    Heartbeat(cfg.nodeId, plan.routingMode, PlanOk(plan), |cfg.models|, AssignedModels(plan.nodes), plan.unassignedModels)
  }

  function AssignedModels(nodes: seq<PlacementNode>): nat {
    if nodes == [] then 0 else |nodes[0].modelAliases| + AssignedModels(nodes[1..])
  }

  // ------------------------------------------------ counting placed aliases

  lemma {:induction false} OccurrencesConcat(a: seq<string>, b: seq<string>, x: string)
    ensures Occurrences(a + b, x) == Occurrences(a, x) + Occurrences(b, x)
    decreases |b|
  {
    if b == [] {
      assert a + b == a;
    } else {
      var n := |b| - 1;
      assert (a + b)[..|a| + n] == a + b[..n];
      OccurrencesConcat(a, b[..n], x);
    }
  }

  lemma {:induction false} PlacedAppend(nodes: seq<PlacementNode>, node: PlacementNode)
    ensures PlacedAliases(nodes + [node]) == PlacedAliases(nodes) + node.modelAliases
    decreases |nodes|
  {
    if nodes == [] {
      assert nodes + [node] == [node];
      assert PlacedAliases([node]) == node.modelAliases + PlacedAliases([]);
    } else {
      PlacedAppend(nodes[1..], node);
      assert (nodes + [node])[1..] == nodes[1..] + [node];
    }
  }

  lemma {:induction false} OwnersCount(nodes: seq<PlacementNode>, alias: string)
    ensures |Owners(nodes, alias)| == Occurrences(PlacedAliases(nodes), alias)
    decreases |nodes|
  {
    if nodes == [] {
    } else {
      var n := |nodes| - 1;
      OwnersCount(nodes[..n], alias);
      assert nodes == nodes[..n] + [nodes[n]];
      PlacedAppend(nodes[..n], nodes[n]);
      OccurrencesConcat(PlacedAliases(nodes[..n]), nodes[n].modelAliases, alias);
    }
  }

  lemma {:induction false} OccursIff(items: seq<string>, x: string)
    ensures Occurrences(items, x) > 0 <==> x in items
    decreases |items|
  {
    if items == [] {
    } else {
      OccursIff(items[..|items| - 1], x);
      assert items == items[..|items| - 1] + [items[|items| - 1]];
    }
  }

  ghost predicate AtMostOnce(items: seq<string>) {
    forall x :: Occurrences(items, x) <= 1
  }

  lemma {:induction false} DistinctIsOnce(items: seq<string>)
    requires Distinct(items)
    ensures AtMostOnce(items)
    decreases |items|
  {
    if items == [] {
    } else {
      var n := |items| - 1;
      DistinctIsOnce(items[..n]);
      OccursIff(items[..n], items[n]);
      forall x
        ensures Occurrences(items, x) <= 1
      {
        assert Occurrences(items[..n], x) <= 1;
      }
    }
  }

  lemma {:induction false} OnceIsDistinct(items: seq<string>)
    requires AtMostOnce(items)
    ensures Distinct(items)
    decreases |items|
  {
    if items == [] {
    } else {
      var n := |items| - 1;
      OccursIff(items[..n], items[n]);
      assert Occurrences(items, items[n]) <= 1;
      assert items[n] !in items[..n];
      forall x
        ensures Occurrences(items[..n], x) <= 1
      {
        assert Occurrences(items, x) <= 1;
      }
      OnceIsDistinct(items[..n]);
      LastDistinct(items);
    }
  }

  lemma LastDistinct(items: seq<string>)
    requires items != [] && Distinct(items[..|items| - 1]) && items[|items| - 1] !in items[..|items| - 1]
    ensures Distinct(items)
  {
  }

  ghost predicate OwnedOnce(nodes: seq<PlacementNode>) {
    forall alias :: |Owners(nodes, alias)| <= 1
  }

  lemma PlacedOnceIff(nodes: seq<PlacementNode>)
    ensures Distinct(PlacedAliases(nodes)) <==> OwnedOnce(nodes)
  {
    var placed := PlacedAliases(nodes);
    hide Occurrences, Owners, Distinct, PlacedAliases;
    forall alias
      ensures |Owners(nodes, alias)| == Occurrences(placed, alias)
    {
      OwnersCount(nodes, alias);
    }
    if OwnedOnce(nodes) {
      forall x
        ensures Occurrences(placed, x) <= 1
      {
        assert |Owners(nodes, x)| <= 1;
      }
      OnceIsDistinct(placed);
    }
    if Distinct(placed) {
      DistinctIsOnce(placed);
      forall alias
        ensures |Owners(nodes, alias)| <= 1
      {
        assert Occurrences(placed, alias) <= 1;
      }
    }
  }

  // --------------------------------------------------------- plans from config

  lemma {:induction false} AliasIn(models: seq<ModelConfig>, alias: string)
    ensures alias in AliasesOf(models) <==> exists m :: m in models && m.alias == alias
    decreases |models|
  {
    if models == [] {
    } else {
      AliasIn(models[1..], alias);
      assert models == [models[0]] + models[1..];
      if m :| m in models && m.alias == alias && m != models[0] {
        assert m in models[1..];
      }
    }
  }

  lemma {:induction false} ClaimedIn(node: ClusterNode, models: seq<ModelConfig>, alias: string)
    ensures alias in ClaimedAliases(node, models) <==> exists m :: m in models && m.alias == alias && Claims(node, m)
    decreases |models|
  {
    hide Claims;
    if models == [] {
    } else {
      ClaimedIn(node, models[1..], alias);
      assert models == [models[0]] + models[1..];
      if m :| m in models && m.alias == alias && Claims(node, m) && m != models[0] {
        assert m in models[1..];
      }
    }
  }

  lemma {:induction false} MissingNone(models: seq<ModelConfig>, placed: seq<string>)
    ensures Missing(models, placed) == [] <==> forall m :: m in models ==> m.alias in placed
    decreases |models|
  {
    if models == [] {
    } else {
      MissingNone(models[1..], placed);
      assert models == [models[0]] + models[1..];
    }
  }

  lemma {:induction false} PlacedIn(nodes: seq<PlacementNode>, alias: string)
    ensures alias in PlacedAliases(nodes) <==> exists n :: n in nodes && alias in n.modelAliases
    decreases |nodes|
  {
    if nodes == [] {
    } else {
      PlacedIn(nodes[1..], alias);
      assert nodes == [nodes[0]] + nodes[1..];
      if n :| n in nodes && alias in n.modelAliases && n != nodes[0] {
        assert n in nodes[1..];
      }
    }
  }

  lemma {:induction false} NodesForAt(nodes: seq<ClusterNode>, models: seq<ModelConfig>)
    ensures |NodesFor(nodes, models)| == |nodes|
    ensures forall i :: 0 <= i < |nodes| ==> NodesFor(nodes, models)[i] == NodeFor(nodes[i], models)
    decreases |nodes|
  {
    hide NodeFor;
    if nodes == [] {
    } else {
      NodesForAt(nodes[1..], models);
    }
  }

  /** Every placed alias is a configured one. */
  lemma PlacedIsConfigured(cfg: Config, alias: string)
    requires alias in PlacedAliases(PlanFromConfig(cfg).nodes)
    ensures alias in AliasesOf(cfg.models)
  {
    hide NodeFor, Missing;
    var nodes := PlanFromConfig(cfg).nodes;
    PlacedIn(nodes, alias);
    var n :| n in nodes && alias in n.modelAliases;
    if cfg.clusterNodes != [] {
      NodesForAt(cfg.clusterNodes, cfg.models);
      var i :| 0 <= i < |nodes| && nodes[i] == n;
      NodeForAliases(cfg.clusterNodes[i], cfg.models);
      ClaimedIn(cfg.clusterNodes[i], cfg.models, alias);
      AliasIn(cfg.models, alias);
    }
  }

  lemma NodeForAliases(node: ClusterNode, models: seq<ModelConfig>)
    ensures NodeFor(node, models).modelAliases == ClaimedAliases(node, models)
    ensures NodeFor(node, models).id == node.id && NodeFor(node, models).baseUrl == node.baseUrl
  {
  }

  /** In a plan that validates, the placed aliases are exactly the configured ones, each placed once. */
  lemma ValidPlacesEachOnce(cfg: Config)
    requires PlanOk(PlanFromConfig(cfg))
    ensures var placed := PlacedAliases(PlanFromConfig(cfg).nodes);
      Distinct(placed) && forall alias :: alias in placed <==> alias in AliasesOf(cfg.models)
  {
    var placed := PlacedAliases(PlanFromConfig(cfg).nodes);
    MissingNone(cfg.models, placed);
    assert forall m :: m in cfg.models ==> m.alias in placed;
    hide PlacedAliases, PlanFromConfig, PlanOk;
    forall alias
      ensures alias in placed <==> alias in AliasesOf(cfg.models)
    {
      AliasIn(cfg.models, alias);
      if alias in placed {
        PlacedIsConfigured(cfg, alias);
      }
    }
  }

  /** An alias that two nodes list has no route. */
  lemma {:induction false} TwoCandidates(nodes: seq<PlacementNode>, alias: string, i: nat, j: nat)
    requires i < j < |nodes| && alias in nodes[i].modelAliases && alias in nodes[j].modelAliases
    ensures |Candidates(nodes, alias)| > 1
    decreases |nodes|
  {
    if i == 0 {
      CandidatesIn(nodes[1..], alias);
      assert nodes[j] == nodes[1..][j - 1] && nodes[j] in nodes[1..];
      assert nodes[j] in Candidates(nodes[1..], alias);
    } else {
      TwoCandidates(nodes[1..], alias, i - 1, j - 1);
    }
  }

  lemma AmbiguousRoutes(plan: Plan, alias: string, i: nat, j: nat)
    requires i < j < |plan.nodes| && alias in plan.nodes[i].modelAliases && alias in plan.nodes[j].modelAliases
    ensures RouteSelectionForModel(plan, alias) == Err(MultipleNodes)
  {
    TwoCandidates(plan.nodes, alias, i, j);
  }

  /** The four roles by name; whatever else is written counts as a query. */
  lemma RolesMean(role: string)
    ensures NormalizeRole(role) == "recommendation" <==> Trim(role) == "recommendation"
    ensures NormalizeRole(role) == "thinking" <==> Trim(role) == "thinking"
    ensures NormalizeRole(role) == "coding" <==> Trim(role) == "coding"
    ensures NormalizeRole(role) == "query" <==> Trim(role) !in {"recommendation", "thinking", "coding"}
  {
    assert |"query"| == 5 && |"recommendation"| == 14 && |"thinking"| == 8 && |"coding"| == 6;
    hide Trim;
  }

  /** A node takes what it lists by alias and what is written in one of its roles, and no model of another role. */
  lemma ClaimsMean(node: ClusterNode, m: ModelConfig)
    ensures m.alias in node.modelAliases ==> Claims(node, m)
    ensures (exists r :: r in node.roles && Trim(r) == Trim(m.role)) ==> Claims(node, m)
    ensures m.alias !in node.modelAliases &&
            Trim(m.role) in {"recommendation", "thinking", "coding"} && (forall r :: r in node.roles ==> Trim(r) != Trim(m.role)) ==>
      !Claims(node, m)
    ensures m.alias !in node.modelAliases && Trim(m.role) == "query" &&
            (forall r :: r in node.roles ==> Trim(r) in {"recommendation", "thinking", "coding"}) ==>
      !Claims(node, m)
  {
    RolesMean(m.role);
    forall r | r in node.roles
      ensures NormalizeRole(r) == NormalizeRole(m.role) ==>
        Trim(r) == Trim(m.role) || Trim(m.role) !in {"recommendation", "thinking", "coding"}
      ensures Trim(r) in {"recommendation", "thinking", "coding"} ==> NormalizeRole(r) == Trim(r)
    {
      RolesMean(r);
    }
    hide NormalizeRole, Trim;
    assert |"query"| == 5 && |"recommendation"| == 14 && |"thinking"| == 8 && |"coding"| == 6;
  }

  /** Without configured nodes the one node is this server, under its own address, with every alias in order. */
  lemma SingleNodePlan(cfg: Config)
    requires cfg.clusterNodes == []
    ensures var plan := PlanFromConfig(cfg);
      plan.routingMode == "single-node" && plan.localNode == cfg.nodeId && |plan.nodes| == 1 &&
      plan.nodes[0].id == cfg.nodeId && plan.nodes[0].baseUrl == "http://" + cfg.host + ":" + cfg.port + "/v1" &&
      plan.nodes[0].modelAliases == seq(|cfg.models|, i requires 0 <= i < |cfg.models| => cfg.models[i].alias) &&
      (forall r :: r in plan.nodes[0].roles <==> exists m :: m in cfg.models && r == NormalizeRole(m.role)) &&
      plan.unassignedModels == []
  {
    AliasesInOrder(cfg.models);
    MissingNone(cfg.models, PlacedAliases([SingleNode(cfg)]));
    assert [SingleNode(cfg)][1..] == [];
    assert PlacedAliases([SingleNode(cfg)]) == AliasesOf(cfg.models) + PlacedAliases([]);
    forall m | m in cfg.models
      ensures m.alias in AliasesOf(cfg.models)
    {
      AliasIn(cfg.models, m.alias);
    }
  }

  /** The unassigned models are the configured aliases that no node lists. */
  lemma {:induction false} MissingMeans(models: seq<ModelConfig>, placed: seq<string>, alias: string)
    ensures alias in Missing(models, placed) <==> alias !in placed && exists m :: m in models && m.alias == alias
    decreases |models|
  {
    if models == [] {
    } else {
      MissingMeans(models[1..], placed, alias);
      assert models == [models[0]] + models[1..];
    }
  }

  /** A heartbeat names this server and reports the plan: its mode, its health, its counts and its gaps. */
  lemma HeartbeatReports(cfg: Config)
    ensures var plan, h := PlanFromConfig(cfg), HeartbeatFromConfig(cfg);
      h.nodeId == cfg.nodeId && h.routingMode == plan.routingMode && h.models == |cfg.models| &&
      (h.healthy <==> PlanOk(plan)) && h.assignedModels == |PlacedAliases(plan.nodes)| &&
      (forall alias :: alias in h.unassignedModels <==>
        alias !in PlacedAliases(plan.nodes) && exists m :: m in cfg.models && m.alias == alias)
  {
    var plan := PlanFromConfig(cfg);
    AssignedIsPlaced(plan.nodes);
    forall alias
      ensures alias in plan.unassignedModels <==>
        alias !in PlacedAliases(plan.nodes) && exists m :: m in cfg.models && m.alias == alias
    {
      MissingMeans(cfg.models, PlacedAliases(plan.nodes), alias);
    }
  }

  /** With configured nodes the plan lists them in order, each under its own name, address and roles. */
  lemma ClusterPlan(cfg: Config, i: nat)
    requires i < |cfg.clusterNodes|
    ensures var plan := PlanFromConfig(cfg);
      plan.routingMode == "cluster-role-placement" && plan.localNode == cfg.nodeId && |plan.nodes| == |cfg.clusterNodes| &&
      plan.nodes[i].id == cfg.clusterNodes[i].id && plan.nodes[i].baseUrl == cfg.clusterNodes[i].baseUrl &&
      (forall r :: r in plan.nodes[i].roles <==> exists written :: written in cfg.clusterNodes[i].roles && r == NormalizeRole(written))
  {
    NodesForAt(cfg.clusterNodes, cfg.models);
  }

  lemma {:induction false} AliasesInOrder(models: seq<ModelConfig>)
    ensures AliasesOf(models) == seq(|models|, i requires 0 <= i < |models| => models[i].alias)
    decreases |models|
  {
    if models == [] {
    } else {
      AliasesInOrder(models[1..]);
    }
  }

  // ------------------------------------------------------------- main results

  lemma {:induction false} CandidatesIn(nodes: seq<PlacementNode>, alias: string)
    ensures forall n :: n in Candidates(nodes, alias) <==> n in nodes && alias in n.modelAliases
    ensures |Candidates(nodes, alias)| <= Occurrences(PlacedAliases(nodes), alias)
    decreases |nodes|
  {
    if nodes == [] {
    } else {
      CandidatesIn(nodes[1..], alias);
      assert nodes == [nodes[0]] + nodes[1..];
      OccurrencesConcat(nodes[0].modelAliases, PlacedAliases(nodes[1..]), alias);
      OccursIff(nodes[0].modelAliases, alias);
    }
  }

  /** Where every alias is placed once, at most one node is a candidate. */
  lemma OneCandidate(nodes: seq<PlacementNode>, alias: string)
    requires Distinct(PlacedAliases(nodes))
    ensures |Candidates(nodes, alias)| == if alias in PlacedAliases(nodes) then 1 else 0
    ensures forall n :: n in Candidates(nodes, alias) <==> n in nodes && alias in n.modelAliases
  {
    CandidatesIn(nodes, alias);
    DistinctIsOnce(PlacedAliases(nodes));
    PlacedIn(nodes, alias);
    hide PlacedAliases, Occurrences, Candidates, Distinct;
    var candidates := Candidates(nodes, alias);
    assert Occurrences(PlacedAliases(nodes), alias) <= 1;
    assert candidates != [] ==> candidates[0] in candidates;
    if alias in PlacedAliases(nodes) {
      var n :| n in nodes && alias in n.modelAliases;
      assert n in candidates;
    }
  }

  lemma RouteOfOne(plan: Plan, alias: string)
    requires Distinct(PlacedAliases(plan.nodes))
    ensures var route := RouteSelectionForModel(plan, alias);
      (route.Ok? <==> alias in PlacedAliases(plan.nodes)) && (route.Err? ==> route.error == NoNode)
    ensures RouteSelectionForModel(plan, alias).Ok? ==> IsOwner(plan, alias, RouteSelectionForModel(plan, alias).value)
  {
    OneCandidate(plan.nodes, alias);
    hide PlacedAliases, Candidates, Distinct;
    var candidates := Candidates(plan.nodes, alias);
    if candidates != [] {
      assert candidates[0] in candidates;
      forall n | n in plan.nodes && alias in n.modelAliases
        ensures n == candidates[0]
      {
        assert n in candidates;
      }
    }
  }

  /** `node` has `alias`, and no other node does. */
  predicate IsOwner(plan: Plan, alias: string, node: PlacementNode) {
    node in plan.nodes && alias in node.modelAliases &&
    forall n :: n in plan.nodes && alias in n.modelAliases ==> n == node
  }

  /** MAIN: in a plan that validates, a route is found for exactly the configured aliases, to their one owner. */
  lemma RoutesExactlyConfigured(cfg: Config, alias: string)
    requires PlanOk(PlanFromConfig(cfg))
    ensures var route := RouteSelectionForModel(PlanFromConfig(cfg), alias);
      (route.Ok? <==> alias in AliasesOf(cfg.models)) && (route.Err? ==> route.error == NoNode) &&
      (route.Ok? ==> IsOwner(PlanFromConfig(cfg), alias, route.value))
  {
    ValidPlacesEachOnce(cfg);
    hide PlacedAliases, PlanFromConfig, Candidates, AliasesOf, PlanOk, Distinct, IsOwner, RouteSelectionForModel;
    RouteOfOne(PlanFromConfig(cfg), alias);
  }

  lemma {:induction false} AssignedIsPlaced(nodes: seq<PlacementNode>)
    ensures AssignedModels(nodes) == |PlacedAliases(nodes)|
    decreases |nodes|
  {
    if nodes == [] {
    } else {
      AssignedIsPlaced(nodes[1..]);
    }
  }

  lemma DistinctLast(items: seq<string>)
    requires items != []
    ensures Distinct(items) <==> Distinct(items[..|items| - 1]) && items[|items| - 1] !in items[..|items| - 1]
  {
  }

  lemma {:induction false} DistinctSize(items: seq<string>)
    ensures |set x | x in items| <= |items|
    ensures |set x | x in items| == |items| <==> Distinct(items)
    decreases |items|
  {
    if items == [] {
    } else {
      DistinctLast(items);
      hide Distinct;
      var n := |items| - 1;
      var before, all := set x | x in items[..n], set x | x in items;
      DistinctSize(items[..n]);
      assert items == items[..n] + [items[n]];
      assert all == before + {items[n]};
      if items[n] in items[..n] {
        assert all == before;
      }
    }
  }

  lemma {:induction false} AliasCount(models: seq<ModelConfig>)
    ensures |AliasesOf(models)| == |models|
    decreases |models|
  {
    if models == [] {
    } else {
      AliasCount(models[1..]);
    }
  }

  /**
   MAIN: a healthy heartbeat counts every distinct alias once, so `assigned_models`
   equals `models` exactly when no two configured models share an alias.
   */
  lemma HealthyCountsAliases(cfg: Config)
    requires HeartbeatFromConfig(cfg).healthy
    ensures var h := HeartbeatFromConfig(cfg);
      h.assignedModels == |set x | x in AliasesOf(cfg.models)| &&
      (h.assignedModels == h.models <==> Distinct(AliasesOf(cfg.models))) && h.unassignedModels == []
  {
    var placed := PlacedAliases(PlanFromConfig(cfg).nodes);
    ValidPlacesEachOnce(cfg);
    AssignedIsPlaced(PlanFromConfig(cfg).nodes);
    DistinctSize(placed);
    DistinctSize(AliasesOf(cfg.models));
    AliasCount(cfg.models);
    hide PlacedAliases, AliasesOf, PlanFromConfig, AssignedModels, Distinct;
    assert (set x | x in placed) == (set x | x in AliasesOf(cfg.models));
  }

  lemma RoleIsItself(role: string)
    requires role in STARTER_ROLES
    ensures NormalizeRole(role) == role
  {
    assert !IsWhitespace('q') && !IsWhitespace('r') && !IsWhitespace('t') && !IsWhitespace('c');
    assert !IsWhitespace('y') && !IsWhitespace('n') && !IsWhitespace('g');
  }

  /** Two models under one alias, of which the only node serves one. */
  function SharedAlias(alias: string): Config {
    Config("node", "host", "80", [ModelConfig(alias, "query"), ModelConfig(alias, "coding")],
           [ClusterNode("node", "http://host", ["query"], [])])
  }

  lemma SharedAliasClaims(alias: string)
    ensures var cfg := SharedAlias(alias);
      ClaimedAliases(cfg.clusterNodes[0], cfg.models) == [alias]
  {
    var cfg := SharedAlias(alias);
    var node := cfg.clusterNodes[0];
    RoleIsItself("query");
    RoleIsItself("coding");
    assert |"query"| == 5 && |"coding"| == 6;
    hide NormalizeRole;
    assert Claims(node, cfg.models[0]) by { assert "query" in node.roles; }
    assert !Claims(node, cfg.models[1]);
    hide Claims;
    assert cfg.models[1..] == [cfg.models[1]] && cfg.models[1..][1..] == [];
    assert ClaimedAliases(node, cfg.models[1..]) == [];
  }

  lemma OneNodePlaces(node: PlacementNode)
    ensures PlacedAliases([node]) == node.modelAliases && AssignedModels([node]) == |node.modelAliases|
  {
    assert [node][1..] == [];
    assert PlacedAliases([node]) == node.modelAliases + PlacedAliases([]);
  }

  /** Such a cluster is healthy while it has assigned fewer models than it has. */
  lemma HealthyWithAModelUnassigned(alias: string)
    ensures var h := HeartbeatFromConfig(SharedAlias(alias));
      h.healthy && h.assignedModels == 1 && h.models == 2
  {
    var cfg := SharedAlias(alias);
    var node := cfg.clusterNodes[0];
    var planned := NodeFor(node, cfg.models);
    SharedAliasClaims(alias);
    NodeForAliases(node, cfg.models);
    assert cfg.clusterNodes[1..] == [];
    assert NodesFor(cfg.clusterNodes, cfg.models) == [planned];
    OneNodePlaces(planned);
    MissingNone(cfg.models, [alias]);
    assert forall m :: m in cfg.models ==> m.alias in [alias];
    assert !IsWhitespace('n') && !IsWhitespace('h');
    TrimKeepsStart("node");
    TrimKeepsStart("http://host");
    hide Blank, NodeFor, NodesFor, PlacedAliases, AssignedModels, Missing, ClaimedAliases;
    assert planned.id == "node" && planned.baseUrl == "http://host";
  }

  // ---------------------------------------------- which configurations validate

  lemma DistinctTail(x: string, rest: seq<string>)
    requires Distinct([x] + rest)
    ensures x !in rest && Distinct(rest)
  {
    var all := [x] + rest;
    assert all[0] == x && forall i :: 0 <= i < |rest| ==> rest[i] == all[i + 1];
    forall i | 0 <= i < |rest|
      ensures rest[i] != x
    {
      assert all[0] != all[i + 1];
    }
  }

  lemma {:induction false} SameAliasSameModel(models: seq<ModelConfig>, m: ModelConfig, m': ModelConfig)
    requires Distinct(AliasesOf(models)) && m in models && m' in models && m.alias == m'.alias
    ensures m == m'
    decreases |models|
  {
    hide Distinct;
    DistinctTail(models[0].alias, AliasesOf(models[1..]));
    AliasIn(models[1..], models[0].alias);
    assert models == [models[0]] + models[1..];
    if m in models[1..] && m' in models[1..] {
      SameAliasSameModel(models[1..], m, m');
    }
  }

  lemma {:induction false} ClaimedDistinct(node: ClusterNode, models: seq<ModelConfig>)
    requires Distinct(AliasesOf(models))
    ensures Distinct(ClaimedAliases(node, models))
    decreases |models|
  {
    hide Claims;
    if models == [] {
    } else {
      DistinctTail(models[0].alias, AliasesOf(models[1..]));
      ClaimedDistinct(node, models[1..]);
      ClaimedIn(node, models[1..], models[0].alias);
      AliasIn(models[1..], models[0].alias);
    }
  }

  /** How many nodes claim a model. */
  function ClaimCount(nodes: seq<ClusterNode>, m: ModelConfig): nat {
    if nodes == [] then 0 else (if Claims(nodes[0], m) then 1 else 0) + ClaimCount(nodes[1..], m)
  }

  lemma ClaimedOnceOrNever(node: ClusterNode, models: seq<ModelConfig>, m: ModelConfig)
    requires Distinct(AliasesOf(models)) && m in models
    ensures Occurrences(ClaimedAliases(node, models), m.alias) == if Claims(node, m) then 1 else 0
  {
    var claimed := ClaimedAliases(node, models);
    ClaimedDistinct(node, models);
    DistinctIsOnce(claimed);
    ClaimedIn(node, models, m.alias);
    OccursIff(claimed, m.alias);
    hide Claims, ClaimedAliases, AliasesOf, Distinct, Occurrences;
    assert Occurrences(claimed, m.alias) <= 1;
    if m.alias in claimed {
      var m' :| m' in models && m'.alias == m.alias && Claims(node, m');
      SameAliasSameModel(models, m, m');
    }
  }

  lemma {:induction false} PlacedAsClaimed(nodes: seq<ClusterNode>, models: seq<ModelConfig>, m: ModelConfig)
    requires Distinct(AliasesOf(models)) && m in models
    ensures Occurrences(PlacedAliases(NodesFor(nodes, models)), m.alias) == ClaimCount(nodes, m)
    decreases |nodes|
  {
    hide Distinct, Claims, AliasesOf, ClaimedAliases;
    if nodes == [] {
    } else {
      PlacedAsClaimed(nodes[1..], models, m);
      ClaimedOnceOrNever(nodes[0], models, m);
      OccurrencesConcat(ClaimedAliases(nodes[0], models), PlacedAliases(NodesFor(nodes[1..], models)), m.alias);
      assert NodesFor(nodes, models)[1..] == NodesFor(nodes[1..], models);
    }
  }

  predicate Addressed(node: ClusterNode) {
    !Blank(node.id) && !Blank(node.baseUrl)
  }

  lemma NodesNamed(nodes: seq<ClusterNode>, models: seq<ModelConfig>)
    ensures (forall n :: n in NodesFor(nodes, models) ==> Named(n)) <==> (forall n :: n in nodes ==> Addressed(n))
  {
    NodesForAt(nodes, models);
    hide Blank, NodesFor, ClaimedAliases;
    var planned := NodesFor(nodes, models);
    forall i | 0 <= i < |nodes|
      ensures Named(planned[i]) <==> Addressed(nodes[i])
    {
    }
    if forall n :: n in planned ==> Named(n) {
      forall n | n in nodes
        ensures Addressed(n)
      {
        var i :| 0 <= i < |nodes| && nodes[i] == n;
        assert planned[i] in planned;
      }
    }
    if forall n :: n in nodes ==> Addressed(n) {
      forall n | n in planned
        ensures Named(n)
      {
        var i :| 0 <= i < |planned| && planned[i] == n;
        assert nodes[i] in nodes;
      }
    }
  }

  /** Every placed alias belongs to some model, so distinctness can be checked model by model. */
  lemma DistinctByModel(cfg: Config)
    requires cfg.clusterNodes != [] && Distinct(AliasesOf(cfg.models))
    ensures var placed := PlacedAliases(PlanFromConfig(cfg).nodes);
      Distinct(placed) <==> forall m :: m in cfg.models ==> ClaimCount(cfg.clusterNodes, m) <= 1
  {
    var placed := PlacedAliases(PlanFromConfig(cfg).nodes);
    assert PlanFromConfig(cfg).nodes == NodesFor(cfg.clusterNodes, cfg.models);
    hide PlanFromConfig, PlacedAliases, Distinct, Occurrences, ClaimCount, AliasesOf;
    forall m | m in cfg.models
      ensures Occurrences(placed, m.alias) == ClaimCount(cfg.clusterNodes, m)
    {
      PlacedAsClaimed(cfg.clusterNodes, cfg.models, m);
    }
    if Distinct(placed) {
      DistinctIsOnce(placed);
    }
    if forall m :: m in cfg.models ==> ClaimCount(cfg.clusterNodes, m) <= 1 {
      forall x
        ensures Occurrences(placed, x) <= 1
      {
        OccursIff(placed, x);
        if x in placed {
          PlacedIsConfigured(cfg, x);
          AliasIn(cfg.models, x);
          var m :| m in cfg.models && m.alias == x;
          assert ClaimCount(cfg.clusterNodes, m) <= 1;
        }
      }
      OnceIsDistinct(placed);
    }
  }

  /** MAIN: a cluster configuration with distinct aliases validates exactly if every model is claimed by one node. */
  lemma ValidatesIffClaimedOnce(cfg: Config)
    requires cfg.clusterNodes != [] && Distinct(AliasesOf(cfg.models))
    ensures PlanOk(PlanFromConfig(cfg)) <==>
      (forall n :: n in cfg.clusterNodes ==> Addressed(n)) &&
      (forall m :: m in cfg.models ==> ClaimCount(cfg.clusterNodes, m) == 1)
  {
    var nodes := NodesFor(cfg.clusterNodes, cfg.models);
    var placed := PlacedAliases(nodes);
    assert PlanFromConfig(cfg).nodes == nodes && PlanFromConfig(cfg).unassignedModels == Missing(cfg.models, placed);
    NodesNamed(cfg.clusterNodes, cfg.models);
    MissingNone(cfg.models, placed);
    DistinctByModel(cfg);
    hide PlanFromConfig, PlacedAliases, NodesFor, Distinct, Occurrences, ClaimCount, Missing, AliasesOf, Named, Addressed;
    forall m | m in cfg.models
      ensures m.alias in placed <==> ClaimCount(cfg.clusterNodes, m) > 0
    {
      PlacedAsClaimed(cfg.clusterNodes, cfg.models, m);
      OccursIff(placed, m.alias);
    }
    assert (forall m :: m in cfg.models ==> ClaimCount(cfg.clusterNodes, m) == 1) <==>
      (forall m :: m in cfg.models ==> ClaimCount(cfg.clusterNodes, m) <= 1) &&
      (forall m :: m in cfg.models ==> ClaimCount(cfg.clusterNodes, m) > 0);
  }

  lemma TrimKeepsStart(s: string)
    requires s != "" && !IsWhitespace(s[0])
    ensures !Blank(s)
  {
    TrimEndKeepsStart(s);
  }

  lemma SingleNodePlaces(cfg: Config)
    ensures PlacedAliases([SingleNode(cfg)]) == AliasesOf(cfg.models)
    ensures Missing(cfg.models, AliasesOf(cfg.models)) == []
    ensures !Blank(SingleNode(cfg).baseUrl) && SingleNode(cfg).id == cfg.nodeId
  {
    var node := SingleNode(cfg);
    OneNodePlaces(node);
    forall m | m in cfg.models
      ensures m.alias in AliasesOf(cfg.models)
    {
      AliasIn(cfg.models, m.alias);
    }
    MissingNone(cfg.models, AliasesOf(cfg.models));
    assert node.baseUrl[0] == 'h' && !IsWhitespace('h');
    hide Blank;
    TrimKeepsStart(node.baseUrl);
  }

  /** Without cluster nodes the one node takes everything. */
  lemma SingleNodeValidatesIff(cfg: Config)
    requires cfg.clusterNodes == []
    ensures PlanOk(PlanFromConfig(cfg)) <==> !Blank(cfg.nodeId) && Distinct(AliasesOf(cfg.models))
  {
    hide PlacedAliases, AliasesOf, Missing, Distinct, Blank, SingleNode;
    SingleNodePlaces(cfg);
    var plan := PlanFromConfig(cfg);
    assert plan.nodes == [SingleNode(cfg)] && SingleNode(cfg) in plan.nodes;
    assert plan.unassignedModels == [];
    assert (forall n :: n in plan.nodes ==> Named(n)) <==> Named(SingleNode(cfg));
  }
}
