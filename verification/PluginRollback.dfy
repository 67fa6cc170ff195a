/** What a failed plugin load leaves behind, for every plugin (src/agents/plugin_manager.py). */
module PluginRollback {
  import opened Values
  import opened AgentRegistries
  import opened PluginManagers
  import Text

  // ----- Writes to a map, the last one of a key deciding -----

  type Writes<!V> = seq<(RolePair, V)>

  function LastOf<V>(writes: Writes<V>, key: RolePair): Option<V> {
    if writes == [] then None
    else if LastOf(writes[1..], key).Some? then LastOf(writes[1..], key)
    else if writes[0].0 == key then Some(writes[0].1)
    else None
  }

  ghost predicate IsOverlay<V(!new)>(before: map<RolePair, V>, writes: Writes<V>, after: map<RolePair, V>) {
    forall key ::
      match LastOf(writes, key)
      case Some(value) => key in after && after[key] == value
      case None => (key in after <==> key in before) && (key in before ==> after[key] == before[key])
  }

  /** One write, then the others. */
  lemma OverlayCons<V(!new)>(before: map<RolePair, V>, key: RolePair, value: V, writes: Writes<V>, after: map<RolePair, V>)
    requires IsOverlay(before[key := value], writes, after)
    ensures IsOverlay(before, [(key, value)] + writes, after)
  {
    var all := [(key, value)] + writes;
    assert all[1..] == writes;
    forall k
      ensures LastOf(all, k) == if LastOf(writes, k).Some? then LastOf(writes, k) else if k == key then Some(value) else None
    {
    }
  }

  // ----- What a load writes -----

  /** The routes stored before the first refused one. */
  function RouteWrites(r: Registry, routes: seq<HandoffRoute>): Writes<HandoffRoute>
    decreases |routes|
  {
    if routes == [] || RouteError(r, routes[0]).Some? then []
    else [((routes[0].sourceRole, routes[0].targetRole), routes[0])] + RouteWrites(WithRoute(r, routes[0]), routes[1..])
  }

  /** The fallback lists stored, that of a policy refused for its priorities included. */
  function ListWrites(r: Registry, policies: seq<FallbackPolicy>): Writes<seq<string>>
    decreases |policies|
  {
    if policies == [] then []
    else
      var q := policies[0];
      var write := ((q.sourceRole, q.targetRole), Normalized(q.fallbackRoles, q.targetRole));
      match PolicyError(r, q)
      case None => [write] + ListWrites(WithPolicy(r, q), policies[1..])
      case Some(UnknownPriorityRole) => [write]
      case Some(_) => []
  }

  /** The priorities stored before the first refused policy. */
  function PriorityWrites(r: Registry, policies: seq<FallbackPolicy>): Writes<map<string, int>>
    decreases |policies|
  {
    if policies == [] || PolicyError(r, policies[0]).Some? then []
    else
      [((policies[0].sourceRole, policies[0].targetRole), PriorityMap(policies[0].priorities))]
      + PriorityWrites(WithPolicy(r, policies[0]), policies[1..])
  }

  lemma {:induction false} AddRoutesWrites(r: Registry, routes: seq<HandoffRoute>)
    ensures IsOverlay(r.routes, RouteWrites(r, routes), AddRoutes(r, routes).0.routes)
    decreases |routes|
  {
    if routes != [] && RouteError(r, routes[0]).None? {
      AddRoutesWrites(WithRoute(r, routes[0]), routes[1..]);
      OverlayCons(r.routes, (routes[0].sourceRole, routes[0].targetRole), routes[0],
                  RouteWrites(WithRoute(r, routes[0]), routes[1..]), AddRoutes(r, routes).0.routes);
    }
  }

  lemma {:induction false} SetPoliciesWritesLists(r: Registry, policies: seq<FallbackPolicy>)
    ensures IsOverlay(r.fallbacks, ListWrites(r, policies), SetPolicies(r, policies).0.fallbacks)
    decreases |policies|
  {
    if policies != [] {
      var q := policies[0];
      if PolicyError(r, q).None? {
        SetPoliciesWritesLists(WithPolicy(r, q), policies[1..]);
        OverlayCons(r.fallbacks, (q.sourceRole, q.targetRole), Normalized(q.fallbackRoles, q.targetRole),
                    ListWrites(WithPolicy(r, q), policies[1..]), SetPolicies(r, policies).0.fallbacks);
      }
    }
  }

  lemma {:induction false} SetPoliciesWritesPriorities(r: Registry, policies: seq<FallbackPolicy>)
    ensures IsOverlay(r.priorities, PriorityWrites(r, policies), SetPolicies(r, policies).0.priorities)
    decreases |policies|
  {
    if policies != [] && PolicyError(r, policies[0]).None? {
      var q := policies[0];
      SetPoliciesWritesPriorities(WithPolicy(r, q), policies[1..]);
      OverlayCons(r.priorities, (q.sourceRole, q.targetRole), PriorityMap(q.priorities),
                  PriorityWrites(WithPolicy(r, q), policies[1..]), SetPolicies(r, policies).0.priorities);
    }
  }

  /** All that a load writes besides agents and roles. */
  datatype LoadWrites = LoadWrites(routes: Writes<HandoffRoute>, lists: Writes<seq<string>>, priorities: Writes<map<string, int>>)

  function WritesOf(r: Registry, p: Plugin): LoadWrites {
    var (r1, n) := RegisterAll(r, p.agents);
    if n < |p.agents| then LoadWrites([], [], [])
    else
      var (r2, routed) := AddRoutes(r1, p.routes);
      if !routed then LoadWrites(RouteWrites(r1, p.routes), [], [])
      else LoadWrites(RouteWrites(r1, p.routes), ListWrites(r2, p.policies), PriorityWrites(r2, p.policies))
  }

  lemma AdvanceWrites(r: Registry, p: Plugin)
    requires Valid(r)
    ensures var a, w := Advance(r, p).registry, WritesOf(r, p);
      && IsOverlay(r.routes, w.routes, a.routes) && IsOverlay(r.fallbacks, w.lists, a.fallbacks)
      && IsOverlay(r.priorities, w.priorities, a.priorities)
  {
    RegisterAllAdds(r, p.agents);
    var (r1, n) := RegisterAll(r, p.agents);
    if n == |p.agents| {
      AddRoutesWrites(r1, p.routes);
      AddRoutesKeeps(r1, p.routes);
      var (r2, routed) := AddRoutes(r1, p.routes);
      if routed {
        PoliciesWrite(r2, p.policies);
      }
    }
  }

  lemma {:induction false} PoliciesWrite(r: Registry, policies: seq<FallbackPolicy>)
    requires Valid(r)
    ensures var r' := SetPolicies(r, policies).0;
      && IsOverlay(r.fallbacks, ListWrites(r, policies), r'.fallbacks)
      && IsOverlay(r.priorities, PriorityWrites(r, policies), r'.priorities) && r'.routes == r.routes
  {
    SetPoliciesWritesLists(r, policies);
    SetPoliciesWritesPriorities(r, policies);
    SetPoliciesKeeps(r, policies);
  }

  // ----- What of it the rollback leaves -----

  /** A write that survives the rollback stores what was stored already. */
  ghost predicate RoutesHarmless(r: Registry, writes: Writes<HandoffRoute>, gone: set<string>) {
    forall key: RolePair :: key.0 !in gone && key.1 !in gone && LastOf(writes, key).Some? ==>
      key in r.routes && r.routes[key] == LastOf(writes, key).value
  }

  /** A list that was written is, without the names that go, the one stored before; any other names none of
      them. */
  ghost predicate ListsHarmless(r: Registry, writes: Writes<seq<string>>, gone: set<string>) {
    forall key: RolePair :: key.0 !in gone ==>
      match LastOf(writes, key)
      case Some(list) => key in r.fallbacks && r.fallbacks[key] == ListOutside(list, gone)
      case None => key in r.fallbacks ==> forall i :: 0 <= i < |r.fallbacks[key]| ==> r.fallbacks[key][i] !in gone
  }

  ghost predicate PrioritiesHarmless(r: Registry, writes: Writes<map<string, int>>, gone: set<string>) {
    forall key: RolePair :: key.0 !in gone && LastOf(writes, key).Some? ==>
      key in r.priorities && r.priorities[key] == LastOf(writes, key).value - gone
  }

  lemma RoutesRestoredIff(r: Registry, writes: Writes<HandoffRoute>, after: map<RolePair, HandoffRoute>, gone: set<string>)
    requires Valid(r) && gone !! r.roles.Keys && IsOverlay(r.routes, writes, after)
    ensures RoutesOutside(after, gone) == r.routes <==> RoutesHarmless(r, writes, gone)
  {
    var out := RoutesOutside(after, gone);
    forall key | key in r.routes ensures key.0 !in gone && key.1 !in gone {
      assert RouteOk(r, key, r.routes[key]);
    }
    if RoutesHarmless(r, writes, gone) {
      forall key ensures key in out <==> key in r.routes {
      }
    } else {
      var key: RolePair :| key.0 !in gone && key.1 !in gone && LastOf(writes, key).Some? &&
        !(key in r.routes && r.routes[key] == LastOf(writes, key).value);
      assert key in out && out[key] == LastOf(writes, key).value;
    }
  }

  lemma PrioritiesRestoredIff(r: Registry, writes: Writes<map<string, int>>, after: map<RolePair, map<string, int>>,
                              gone: set<string>)
    requires Valid(r) && gone !! r.roles.Keys && IsOverlay(r.priorities, writes, after)
    ensures PrioritiesOutside(after, gone) == r.priorities <==> PrioritiesHarmless(r, writes, gone)
  {
    var out := PrioritiesOutside(after, gone);
    forall key | key in r.priorities ensures key.0 !in gone && r.priorities[key] - gone == r.priorities[key] {
    }
    if PrioritiesHarmless(r, writes, gone) {
      forall key ensures key in out <==> key in r.priorities {
      }
    } else {
      var key: RolePair :| key.0 !in gone && LastOf(writes, key).Some? &&
        !(key in r.priorities && r.priorities[key] == LastOf(writes, key).value - gone);
      assert key in out && out[key] == LastOf(writes, key).value - gone;
    }
  }

  /** The list of one pair after the rollback. */
  ghost predicate ListHarmless(r: Registry, writes: Writes<seq<string>>, gone: set<string>, key: RolePair) {
    match LastOf(writes, key)
    case Some(list) => key in r.fallbacks && r.fallbacks[key] == ListOutside(list, gone)
    case None => key in r.fallbacks ==> ListOutside(r.fallbacks[key], gone) == r.fallbacks[key]
  }

  lemma ListsHarmlessAt(r: Registry, writes: Writes<seq<string>>, gone: set<string>)
    ensures ListsHarmless(r, writes, gone) <==> forall key: RolePair :: key.0 !in gone ==> ListHarmless(r, writes, gone, key)
  {
    forall key | key in r.fallbacks {
      ListOutsideSame(r.fallbacks[key], gone);
    }
  }

  lemma ListsRestoredIff(r: Registry, writes: Writes<seq<string>>, after: map<RolePair, seq<string>>, gone: set<string>)
    requires Valid(r) && gone !! r.roles.Keys && IsOverlay(r.fallbacks, writes, after)
    ensures FallbacksOutside(after, gone) == r.fallbacks <==> ListsHarmless(r, writes, gone)
  {
    var out := FallbacksOutside(after, gone);
    ListsHarmlessAt(r, writes, gone);
    assert forall key :: key in r.fallbacks ==> key.0 !in gone;
    if ListsHarmless(r, writes, gone) {
      forall key ensures key in out <==> key in r.fallbacks {
      }
      forall key | key in out ensures out[key] == r.fallbacks[key] {
        assert ListHarmless(r, writes, gone, key);
      }
    } else {
      var key: RolePair :| key.0 !in gone && !ListHarmless(r, writes, gone, key);
      assert key in out ==> out[key] == ListOutside(after[key], gone);
    }
  }

  /** A failed load restores the whole registry exactly when every route, fallback list and set of priorities
      it wrote between roles that stay was the one stored already, and no other list names a role that goes. */
  lemma FailedLoadRestoresIff(r: Registry, p: Plugin)
    requires Valid(r) && !Advance(r, p).complete
    ensures var w, gone := WritesOf(r, p), RoleSet(p.agents[..Advance(r, p).registered]);
      LoadedRegistry(r, p) == r <==>
        RoutesHarmless(r, w.routes, gone) && ListsHarmless(r, w.lists, gone) && PrioritiesHarmless(r, w.priorities, gone)
  {
    var a, w := Advance(r, p), WritesOf(r, p);
    var gone := RoleSet(p.agents[..a.registered]);
    AdvanceAdds(r, p);
    AdvanceWrites(r, p);
    UnregisterAllIsOutside(a.registry, p.agents[..a.registered]);
    RoutesRestoredIff(r, w.routes, a.registry.routes, gone);
    ListsRestoredIff(r, w.lists, a.registry.fallbacks, gone);
    PrioritiesRestoredIff(r, w.priorities, a.registry.priorities, gone);
  }

  // ----- The registry after a failed load -----

  /** The last write of a pair whose roles stay is there; of any other pair there is what was there before. */
  ghost predicate RoutesLeft(before: map<RolePair, HandoffRoute>, writes: Writes<HandoffRoute>, gone: set<string>,
                             after: map<RolePair, HandoffRoute>) {
    forall key: RolePair ::
      match LastOf(writes, key)
      case Some(route) => (key in after <==> key.0 !in gone && key.1 !in gone) && (key in after ==> after[key] == route)
      case None => (key in after <==> key in before) && (key in before ==> after[key] == before[key])
  }

  /** Written or not, a list loses the names that go. */
  ghost predicate ListsLeft(before: map<RolePair, seq<string>>, writes: Writes<seq<string>>, gone: set<string>,
                            after: map<RolePair, seq<string>>) {
    forall key: RolePair ::
      match LastOf(writes, key)
      case Some(list) => (key in after <==> key.0 !in gone) && (key in after ==> after[key] == ListOutside(list, gone))
      case None => (key in after <==> key in before) && (key in before ==> after[key] == ListOutside(before[key], gone))
  }

  ghost predicate PrioritiesLeft(before: map<RolePair, map<string, int>>, writes: Writes<map<string, int>>, gone: set<string>,
                                 after: map<RolePair, map<string, int>>) {
    forall key: RolePair ::
      match LastOf(writes, key)
      case Some(entries) => (key in after <==> key.0 !in gone) && (key in after ==> after[key] == entries - gone)
      case None => (key in after <==> key in before) && (key in before ==> after[key] == before[key])
  }

  ghost predicate IsLeft(before: Registry, w: LoadWrites, gone: set<string>, after: Registry) {
    && after.agents == before.agents && after.roles == before.roles
    && RoutesLeft(before.routes, w.routes, gone, after.routes) && ListsLeft(before.fallbacks, w.lists, gone, after.fallbacks)
    && PrioritiesLeft(before.priorities, w.priorities, gone, after.priorities)
  }

  lemma PrioritiesAreLeft(r: Registry, writes: Writes<map<string, int>>, after: map<RolePair, map<string, int>>,
                          gone: set<string>)
    requires Valid(r) && gone !! r.roles.Keys && IsOverlay(r.priorities, writes, after)
    ensures PrioritiesLeft(r.priorities, writes, gone, PrioritiesOutside(after, gone))
  {
    forall key | key in r.priorities
      ensures key.0 !in gone && r.priorities[key] - gone == r.priorities[key]
    {
    }
  }

  lemma RoutesAreLeft(r: Registry, writes: Writes<HandoffRoute>, after: map<RolePair, HandoffRoute>, gone: set<string>)
    requires Valid(r) && gone !! r.roles.Keys && IsOverlay(r.routes, writes, after)
    ensures RoutesLeft(r.routes, writes, gone, RoutesOutside(after, gone))
  {
    forall key | key in r.routes
      ensures key.0 !in gone && key.1 !in gone
    {
      assert RouteOk(r, key, r.routes[key]);
    }
  }

  /** What a failed load leaves of any plugin in any registry, pair by pair. */
  lemma FailedLoadLeaves(r: Registry, p: Plugin)
    requires Valid(r) && !Advance(r, p).complete
    ensures IsLeft(r, WritesOf(r, p), RoleSet(p.agents[..Advance(r, p).registered]), LoadedRegistry(r, p))
  {
    var a, w := Advance(r, p), WritesOf(r, p);
    var gone := RoleSet(p.agents[..a.registered]);
    AdvanceAdds(r, p);
    AdvanceWrites(r, p);
    UnregisterAllIsOutside(a.registry, p.agents[..a.registered]);
    RoutesAreLeft(r, w.routes, a.registry.routes, gone);
    PrioritiesAreLeft(r, w.priorities, a.registry.priorities, gone);
    assert forall key :: key in r.fallbacks ==> key.0 !in gone;
  }

  // ----- Each way it happens -----

  const SOURCE := AgentSpec("a", "x", {})
  const TARGET := AgentSpec("b", "y", {})
  const PAIR: RolePair := ("x", "y")

  /** Two agents, registered one after the other. */
  const TWO_AGENTS := Registry(map["a" := SOURCE, "b" := TARGET], map["x" := "a", "y" := "b"], map[], map[], map[])

  lemma TwoAgentsReachable()
    ensures After(EMPTY, [Change.Register(SOURCE), Change.Register(TARGET)]) == TWO_AGENTS && Valid(TWO_AGENTS)
  {
    var first := Change.Register(SOURCE);
    var second := Change.Register(TARGET);
    Text.StripIsIdentity("a");
    Text.StripIsIdentity("x");
    Text.StripIsIdentity("b");
    Text.StripIsIdentity("y");
    var one := Step(EMPTY, first);
    assert RegisterError(EMPTY, SOURCE).None? && RegisterError(one, TARGET).None?;
    assert Step(one, second) == TWO_AGENTS;
    assert [first, second][1..] == [second];
    assert After(one, [second]) == After(TWO_AGENTS, []);
    ReachableIsValid(EMPTY, [first, second]);
  }

  /** A plugin without agents that adds a route or a policy between two foreign roles and then fails leaves
      it behind. */
  lemma ForeignRouteStays(route: HandoffRoute, refused: FallbackPolicy)
    requires route.sourceRole == "x" && route.targetRole == "y" && route.required == {} && refused.sourceRole !in TWO_AGENTS.roles
    ensures Valid(TWO_AGENTS)
    ensures var p := Plugin("p", 1, [], [route], [refused]);
      && !Advance(TWO_AGENTS, p).complete
      && PAIR in LoadedRegistry(TWO_AGENTS, p).routes && LoadedRegistry(TWO_AGENTS, p).routes[PAIR] == route
  {
    var p := Plugin("p", 1, [], [route], [refused]);
    TwoAgentsReachable();
    assert RegisterAll(TWO_AGENTS, p.agents) == (TWO_AGENTS, 0);
    var r2 := WithRoute(TWO_AGENTS, route);
    assert RouteError(TWO_AGENTS, route).None? && p.routes[1..] == [];
    assert AddRoutes(TWO_AGENTS, p.routes) == AddRoutes(r2, p.routes[1..]) == (r2, true);
    assert SetPolicies(r2, p.policies) == (r2, false);
    FailedLoadLeaves(TWO_AGENTS, p);
    var w := WritesOf(TWO_AGENTS, p);
    assert w.routes == [(PAIR, route)] + RouteWrites(r2, p.routes[1..]) == [(PAIR, route)];
    assert LastOf(w.routes, PAIR) == Some(route);
    assert PAIR.0 !in RoleSet(p.agents[..0]) && PAIR.1 !in RoleSet(p.agents[..0]);
  }

  lemma ForeignPolicyStays(policy: FallbackPolicy, refused: FallbackPolicy)
    requires policy.sourceRole == "x" && policy.targetRole == "y" && policy.priorities == []
    requires refused.sourceRole !in TWO_AGENTS.roles
    ensures Valid(TWO_AGENTS)
    ensures var p := Plugin("p", 1, [], [], [policy, refused]);
      && !Advance(TWO_AGENTS, p).complete
      && PAIR in LoadedRegistry(TWO_AGENTS, p).fallbacks
      && LoadedRegistry(TWO_AGENTS, p).fallbacks[PAIR] == Normalized(policy.fallbackRoles, "y")
  {
    var p := Plugin("p", 1, [], [], [policy, refused]);
    TwoAgentsReachable();
    assert RegisterAll(TWO_AGENTS, p.agents) == (TWO_AGENTS, 0) && AddRoutes(TWO_AGENTS, p.routes) == (TWO_AGENTS, true);
    var r3, list := WithPolicy(TWO_AGENTS, policy), Normalized(policy.fallbackRoles, "y");
    assert PolicyError(TWO_AGENTS, policy).None? && p.policies[1..] == [refused];
    assert SetPolicies(TWO_AGENTS, p.policies) == SetPolicies(r3, [refused]) == (r3, false);
    FailedLoadLeaves(TWO_AGENTS, p);
    var w := WritesOf(TWO_AGENTS, p);
    assert ListWrites(r3, [refused]) == [];
    assert w.lists == [(PAIR, list)];
    assert LastOf(w.lists, PAIR) == Some(list);
    var gone := RoleSet(p.agents[..0]);
    assert gone == {};
    ListOutsideNothing(list);
  }

  /** Registering one agent and then failing at the first route takes the agent's role out of every list. */
  lemma ListLosesRole(r: Registry, agent: AgentSpec, route: HandoffRoute, key: RolePair)
    requires Valid(r) && RegisterError(r, agent).None? && route.sourceRole !in r.roles && route.sourceRole != agent.role
    requires key in r.fallbacks && agent.role in r.fallbacks[key]
    ensures var p := Plugin("p", 1, [agent], [route], []);
      && !Advance(r, p).complete
      && key in LoadedRegistry(r, p).fallbacks && agent.role !in LoadedRegistry(r, p).fallbacks[key]
  {
    var p, r1 := Plugin("p", 1, [agent], [route], []), Registered(r, agent);
    assert p.agents[1..] == [];
    assert RegisterAll(r1, p.agents[1..]) == (r1, 0) && RegisterAll(r, p.agents) == (r1, 1);
    assert AddRoutes(r1, p.routes) == (r1, false);
    FailedLoadLeaves(r, p);
    var gone := RoleSet(p.agents[..1]);
    assert p.agents[..1][0] == agent && agent.role in gone && key.0 !in gone;
    assert LastOf(WritesOf(r, p).lists, key) == None;
    ListOutsideMembers(r.fallbacks[key], gone);
  }

  lemma ListNamesRole(policy: FallbackPolicy)
    requires policy == FallbackPolicy("x", "y", ["z"], [])
    ensures var r := After(TWO_AGENTS, [SetPolicy(policy)]);
      Valid(r) && r.agents == TWO_AGENTS.agents && r.roles == TWO_AGENTS.roles && r.fallbacks == map[PAIR := ["z"]]
  {
    TwoAgentsReachable();
    var r := WithPolicy(TWO_AGENTS, policy);
    assert [SetPolicy(policy)][1..] == [];
    assert After(TWO_AGENTS, [SetPolicy(policy)]) == After(r, []) == r;
    ReachableIsValid(TWO_AGENTS, [SetPolicy(policy)]);
    Text.StripIsIdentity("z");
    assert ["z"][..0] == [];
    assert Normalized(["z"], "y") == ["z"];
  }

  /** A fallback list that already names a role the plugin registers loses that name in the failed load. */
  lemma ListLosesName(agent: AgentSpec, route: HandoffRoute)
    requires agent.agentId == "c" && agent.role == "z" && route.sourceRole !in {"x", "y", "z"}
    ensures var r, p := After(TWO_AGENTS, [SetPolicy(FallbackPolicy("x", "y", ["z"], []))]), Plugin("p", 1, [agent], [route], []);
      && Valid(r) && !Advance(r, p).complete && r.fallbacks == map[PAIR := ["z"]]
      && PAIR in LoadedRegistry(r, p).fallbacks && "z" !in LoadedRegistry(r, p).fallbacks[PAIR]
  {
    var policy := FallbackPolicy("x", "y", ["z"], []);
    ListNamesRole(policy);
    Text.StripIsIdentity("z");
    Text.StripIsIdentity("c");
    ListLosesRole(After(TWO_AGENTS, [SetPolicy(policy)]), agent, route, PAIR);
  }
}
