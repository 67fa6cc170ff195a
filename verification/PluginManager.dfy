/** Loading, unloading and reloading agent plugins, with rollback and restore (src/agents/plugin_manager.py). */
module PluginManagers {
  import opened Values
  import opened AgentRegistries
  import Text

  datatype Plugin = Plugin(
    pluginId: string,
    compatibleCoreMajor: int,
    agents: seq<AgentSpec>,
    routes: seq<HandoffRoute>,
    policies: seq<FallbackPolicy>)

  // ----- A load and its rollback, on the registry -----

  function IdsOf(agents: seq<AgentSpec>): seq<string> {
    seq(|agents|, i requires 0 <= i < |agents| => agents[i].agentId)
  }

  function IdSet(agents: seq<AgentSpec>): set<string> {
    set i | 0 <= i < |agents| :: agents[i].agentId
  }

  function RoleSet(agents: seq<AgentSpec>): set<string> {
    set i | 0 <= i < |agents| :: agents[i].role
  }

  /** Registers agents until one is refused; answers how many were registered. */
  function RegisterAll(r: Registry, agents: seq<AgentSpec>): (p: (Registry, nat))
    ensures p.1 <= |agents|
    decreases |agents|
  {
    if agents == [] || RegisterError(r, agents[0]).Some? then (r, 0)
    else
      var (r', n) := RegisterAll(Registered(r, agents[0]), agents[1..]);
      (r', n + 1)
  }

  function AddRoutes(r: Registry, routes: seq<HandoffRoute>): (Registry, bool)
    decreases |routes|
  {
    if routes == [] then (r, true)
    else if RouteError(r, routes[0]).Some? then (r, false)
    else AddRoutes(WithRoute(r, routes[0]), routes[1..])
  }

  /** A refused policy may leave its fallback list behind. */
  function SetPolicies(r: Registry, policies: seq<FallbackPolicy>): (Registry, bool)
    decreases |policies|
  {
    if policies == [] then (r, true)
    else if PolicyError(r, policies[0]).Some? then (WithPolicy(r, policies[0]), false)
    else SetPolicies(WithPolicy(r, policies[0]), policies[1..])
  }

  /** Unregisters the ids from the last to the first, skipping those that are gone. */
  function UnregisterAll(r: Registry, ids: seq<string>): Registry
    decreases |ids|
  {
    if ids == [] then r
    else UnregisterAll(Step(r, Change.Unregister(ids[|ids| - 1])), ids[..|ids| - 1])
  }

  /** How far a load gets: the registry it reaches, the number of agents registered, and whether all went in. */
  datatype Progress = Progress(registry: Registry, registered: nat, complete: bool)

  function Advance(r: Registry, p: Plugin): (a: Progress)
    ensures a.registered <= |p.agents|
  {
    var (r1, n) := RegisterAll(r, p.agents);
    if n < |p.agents| then Progress(r1, n, false)
    else
      var (r2, routed) := AddRoutes(r1, p.routes);
      if !routed then Progress(r2, n, false)
      else
        var (r3, set') := SetPolicies(r2, p.policies);
        Progress(r3, n, set')
  }

  /** The registry after a load: what it reached, or that rolled back. */
  function LoadedRegistry(r: Registry, p: Plugin): Registry {
    var a := Advance(r, p);
    if a.complete then a.registry
    else UnregisterAll(a.registry, IdsOf(p.agents[..a.registered]))
  }

  // ----- What registering and unregistering amount to -----

  /** The agents are stored under their ids, each id once. */
  ghost predicate Stored(r: Registry, agents: seq<AgentSpec>) {
    && (forall i, j :: 0 <= i < j < |agents| ==> agents[i].agentId != agents[j].agentId)
    && (forall i :: 0 <= i < |agents| ==> agents[i].agentId in r.agents && r.agents[agents[i].agentId] == agents[i])
  }

  /** The registry without some of its agents and everything that names their roles. */
  function Outside(r: Registry, agents: seq<AgentSpec>): Registry {
    var gone := RoleSet(agents);
    Registry(r.agents - IdSet(agents), r.roles - gone, RoutesOutside(r.routes, gone),
             FallbacksOutside(r.fallbacks, gone), PrioritiesOutside(r.priorities, gone))
  }

  lemma {:induction false} ListOutsideTwice(roles: seq<string>, a: set<string>, b: set<string>)
    ensures ListOutside(ListOutside(roles, a), b) == ListOutside(roles, a + b)
    decreases |roles|
  {
    if roles != [] {
      ListOutsideTwice(roles[1..], a, b);
      if roles[0] !in a {
        assert ListOutside(roles, a)[1..] == ListOutside(roles[1..], a);
      }
    }
  }

  lemma OutsideTwice(r: Registry, a: set<string>, b: set<string>)
    ensures RoutesOutside(RoutesOutside(r.routes, a), b) == RoutesOutside(r.routes, a + b)
    ensures FallbacksOutside(FallbacksOutside(r.fallbacks, a), b) == FallbacksOutside(r.fallbacks, a + b)
    ensures PrioritiesOutside(PrioritiesOutside(r.priorities, a), b) == PrioritiesOutside(r.priorities, a + b)
  {
    forall key | key in r.fallbacks {
      ListOutsideTwice(r.fallbacks[key], a, b);
    }
    forall key | key in r.priorities ensures (r.priorities[key] - a) - b == r.priorities[key] - (a + b) {
    }
  }

  lemma SnocSets(agents: seq<AgentSpec>, last: AgentSpec)
    ensures IdSet(agents + [last]) == IdSet(agents) + {last.agentId}
    ensures RoleSet(agents + [last]) == RoleSet(agents) + {last.role}
    ensures IdsOf(agents + [last]) == IdsOf(agents) + [last.agentId]
  {
    var all := agents + [last];
    assert all[|agents|] == last;
    forall i | 0 <= i < |agents| ensures agents[i].agentId in IdSet(all) && agents[i].role in RoleSet(all) {
      assert all[i] == agents[i];
    }
  }

  lemma {:induction false} ListOutsideNothing(roles: seq<string>)
    ensures ListOutside(roles, {}) == roles
    decreases |roles|
  {
    if roles != [] {
      ListOutsideNothing(roles[1..]);
    }
  }

  lemma OutsideNothing(r: Registry)
    ensures Outside(r, []) == r
  {
    assert RoleSet([]) == {} && IdSet([]) == {};
    forall key | key in r.fallbacks {
      ListOutsideNothing(r.fallbacks[key]);
    }
    assert FallbacksOutside(r.fallbacks, {}) == r.fallbacks;
    assert PrioritiesOutside(r.priorities, {}) == r.priorities by {
      forall key | key in r.priorities ensures r.priorities[key] - {} == r.priorities[key] {
      }
    }
    assert RoutesOutside(r.routes, {}) == r.routes;
  }

  lemma OutsideSnoc(r: Registry, front: seq<AgentSpec>, last: AgentSpec)
    requires last.agentId in r.agents && r.agents[last.agentId] == last
    ensures Outside(Unregistered(r, last.agentId), front) == Outside(r, front + [last])
  {
    SnocSets(front, last);
    OutsideTwice(r, {last.role}, RoleSet(front));
    assert {last.role} + RoleSet(front) == RoleSet(front + [last]);
  }

  lemma StoredFront(r: Registry, front: seq<AgentSpec>, last: AgentSpec)
    requires Stored(r, front + [last])
    ensures last.agentId in r.agents && r.agents[last.agentId] == last
    ensures Stored(Unregistered(r, last.agentId), front)
  {
    var all := front + [last];
    assert all[|front|] == last;
    forall i | 0 <= i < |front| ensures front[i].agentId != last.agentId && all[i] == front[i] {
      assert all[i].agentId != all[|front|].agentId;
    }
    forall i, j | 0 <= i < j < |front| ensures front[i].agentId != front[j].agentId {
      assert all[i].agentId != all[j].agentId;
    }
  }

  /** Unregistering stored agents one by one removes exactly them and what names their roles. */
  lemma {:induction false} UnregisterAllIsOutside(r: Registry, agents: seq<AgentSpec>)
    requires Valid(r) && Stored(r, agents)
    ensures UnregisterAll(r, IdsOf(agents)) == Outside(r, agents)
    ensures Valid(UnregisterAll(r, IdsOf(agents)))
    decreases |agents|
  {
    if agents == [] {
      OutsideNothing(r);
    } else {
      var front, last := agents[..|agents| - 1], agents[|agents| - 1];
      assert agents == front + [last];
      StoredFront(r, front, last);
      UnregisterKeepsValid(r, last.agentId);
      UnregisterAllIsOutside(Unregistered(r, last.agentId), front);
      OutsideSnoc(r, front, last);
      SnocSets(front, last);
      assert IdsOf(agents)[..|agents| - 1] == IdsOf(front);
    }
  }

  /** With n agents registered, what the whole comes to is what registering the rest, here, comes to. */
  ghost predicate IsProgress(whole: (Registry, nat), here: Registry, rest: seq<AgentSpec>, n: nat) {
    var more := RegisterAll(here, rest);
    whole == (more.0, n + more.1)
  }

  lemma ProgressStops(whole: (Registry, nat), here: Registry, rest: seq<AgentSpec>, n: nat)
    requires IsProgress(whole, here, rest, n) && (rest == [] || RegisterError(here, rest[0]).Some?)
    ensures whole == (here, n)
  {
  }

  lemma ProgressGoesOn(whole: (Registry, nat), here: Registry, rest: seq<AgentSpec>, n: nat)
    requires IsProgress(whole, here, rest, n) && rest != [] && RegisterError(here, rest[0]).None?
    ensures IsProgress(whole, Registered(here, rest[0]), rest[1..], n + 1)
  {
    RegisterAllCons(here, rest);
  }

  lemma {:induction false} RegisterAllCons(r: Registry, agents: seq<AgentSpec>)
    requires agents != [] && RegisterError(r, agents[0]).None?
    ensures var rest := RegisterAll(Registered(r, agents[0]), agents[1..]);
      RegisterAll(r, agents) == (rest.0, 1 + rest.1)
  {
  }

  // ----- How far a load gets -----

  /** The first n agents and their roles, all of them new to r, are what r' has more than r. */
  ghost predicate Adds(r: Registry, agents: seq<AgentSpec>, n: nat, r': Registry)
    requires n <= |agents|
  {
    && Stored(r', agents[..n])
    && r'.agents - IdSet(agents[..n]) == r.agents && IdSet(agents[..n]) !! r.agents.Keys
    && r'.roles - RoleSet(agents[..n]) == r.roles && RoleSet(agents[..n]) !! r.roles.Keys
  }

  /** Registering adds the first n agents and their roles, all of them new, and nothing else. */
  lemma {:induction false} RegisterAllAdds(r: Registry, agents: seq<AgentSpec>)
    requires Valid(r)
    ensures var (r', n) := RegisterAll(r, agents);
      && n <= |agents| && Valid(r') && Adds(r, agents, n, r')
      && r'.routes == r.routes && r'.fallbacks == r.fallbacks && r'.priorities == r.priorities
  {
    RegisterAllKeeps(r, agents);
    RegisterAllAdding(r, agents);
  }

  lemma {:induction false} RegisterAllAdding(r: Registry, agents: seq<AgentSpec>)
    ensures var (r', n) := RegisterAll(r, agents); Adds(r, agents, n, r')
    decreases |agents|
  {
    if agents != [] && RegisterError(r, agents[0]).None? {
      var rest := RegisterAll(Registered(r, agents[0]), agents[1..]);
      RegisterAllAdding(Registered(r, agents[0]), agents[1..]);
      RegisterFirst(r, rest.0, agents, rest.1);
    } else {
      AddsNothing(r, agents);
    }
  }

  lemma {:induction false} RegisterAllKeeps(r: Registry, agents: seq<AgentSpec>)
    requires Valid(r)
    ensures var r' := RegisterAll(r, agents).0;
      Valid(r') && r'.routes == r.routes && r'.fallbacks == r.fallbacks && r'.priorities == r.priorities
    decreases |agents|
  {
    if agents != [] && RegisterError(r, agents[0]).None? {
      RegisterKeepsValid(r, agents[0]);
      RegisterAllKeeps(Registered(r, agents[0]), agents[1..]);
    }
  }

  lemma AddsNothing(r: Registry, agents: seq<AgentSpec>)
    ensures Adds(r, agents, 0, r)
  {
    assert IdSet(agents[..0]) == {} && RoleSet(agents[..0]) == {};
  }

  lemma RegisterFirst(r: Registry, r': Registry, agents: seq<AgentSpec>, n: nat)
    requires agents != [] && n < |agents| && RegisterError(r, agents[0]).None?
    requires Adds(Registered(r, agents[0]), agents[1..], n, r')
    ensures Adds(r, agents, n + 1, r')
  {
    var rest, all := agents[1..][..n], agents[..n + 1];
    assert all == [agents[0]] + rest;
    assert IdSet(all) == IdSet(rest) + {agents[0].agentId} && RoleSet(all) == RoleSet(rest) + {agents[0].role} by {
      ConsSets(agents[0], rest);
    }
    RemoveBoth(r'.agents, r.agents, agents[0].agentId, agents[0], IdSet(rest));
    RemoveBoth(r'.roles, r.roles, agents[0].role, agents[0].agentId, RoleSet(rest));
    assert agents[0].agentId in r'.agents && r'.agents[agents[0].agentId] == agents[0] by {
      assert agents[0].agentId in r'.agents - IdSet(rest);
    }
    forall i, j | 0 <= i < j < |all| ensures all[i].agentId != all[j].agentId {
      assert all[j] == rest[j - 1];
      assert rest[j - 1].agentId in IdSet(rest);
      if i > 0 {
        assert all[i] == rest[i - 1];
      }
    }
    forall i | 0 <= i < |all| ensures all[i].agentId in r'.agents && r'.agents[all[i].agentId] == all[i] {
      if i > 0 {
        assert all[i] == rest[i - 1];
      }
    }
  }

  lemma RemoveBoth<V>(larger: map<string, V>, smaller: map<string, V>, k: string, v: V, gone: set<string>)
    requires larger - gone == smaller[k := v] && k !in smaller
    ensures larger - (gone + {k}) == smaller
  {
    assert larger - (gone + {k}) == (larger - gone) - {k};
  }

  lemma ConsSets(first: AgentSpec, agents: seq<AgentSpec>)
    ensures IdSet([first] + agents) == IdSet(agents) + {first.agentId}
    ensures RoleSet([first] + agents) == RoleSet(agents) + {first.role}
  {
    var all := [first] + agents;
    assert all[0] == first;
    forall i | 0 <= i < |agents| ensures agents[i].agentId in IdSet(all) && agents[i].role in RoleSet(all) {
      assert all[i + 1] == agents[i];
    }
  }

  lemma {:induction false} AddRoutesKeeps(r: Registry, routes: seq<HandoffRoute>)
    requires Valid(r)
    ensures var (r', _) := AddRoutes(r, routes);
      Valid(r') && r' == r.(routes := r'.routes)
    decreases |routes|
  {
    if routes != [] && RouteError(r, routes[0]).None? {
      WithRouteKeepsValid(r, routes[0]);
      AddRoutesKeeps(WithRoute(r, routes[0]), routes[1..]);
    }
  }

  lemma {:induction false} SetPoliciesKeeps(r: Registry, policies: seq<FallbackPolicy>)
    requires Valid(r)
    ensures var (r', _) := SetPolicies(r, policies);
      Valid(r') && r' == r.(fallbacks := r'.fallbacks, priorities := r'.priorities)
    decreases |policies|
  {
    if policies != [] {
      WithPolicyKeepsValid(r, policies[0]);
      if PolicyError(r, policies[0]).None? {
        SetPoliciesKeeps(WithPolicy(r, policies[0]), policies[1..]);
      }
    }
  }

  /** Routes and policies never change the agents and roles a load has registered. */
  lemma AdvanceAdds(r: Registry, p: Plugin)
    requires Valid(r)
    ensures var a := Advance(r, p);
      && a.registered <= |p.agents| && Valid(a.registry) && Stored(a.registry, p.agents[..a.registered])
      && a.registry.agents - IdSet(p.agents[..a.registered]) == r.agents
      && a.registry.roles - RoleSet(p.agents[..a.registered]) == r.roles
      && RoleSet(p.agents[..a.registered]) !! r.roles.Keys
  {
    RegisterAllAdds(r, p.agents);
    var (r1, n) := RegisterAll(r, p.agents);
    AddRoutesKeeps(r1, p.routes);
    var (r2, routed) := AddRoutes(r1, p.routes);
    SetPoliciesKeeps(r2, p.policies);
  }

  /** A failed load leaves the agents and the roles exactly as they were. */
  lemma FailedLoadRestoresAgents(r: Registry, p: Plugin)
    requires Valid(r) && !Advance(r, p).complete
    ensures LoadedRegistry(r, p).agents == r.agents && LoadedRegistry(r, p).roles == r.roles
    ensures Valid(LoadedRegistry(r, p))
  {
    var a := Advance(r, p);
    AdvanceAdds(r, p);
    UnregisterAllIsOutside(a.registry, p.agents[..a.registered]);
  }

  // ----- When a failed load restores everything -----

  /** Every route of the plugin touches one of its roles, and every fallback policy starts at one. */
  ghost predicate SelfContained(p: Plugin) {
    && (forall i :: 0 <= i < |p.routes| ==>
          p.routes[i].sourceRole in RoleSet(p.agents) || p.routes[i].targetRole in RoleSet(p.agents))
    && (forall i :: 0 <= i < |p.policies| ==> p.policies[i].sourceRole in RoleSet(p.agents))
  }

  /** No fallback list names one of the roles. */
  ghost predicate ListsAvoid(r: Registry, gone: set<string>) {
    forall key :: key in r.fallbacks ==> forall i :: 0 <= i < |r.fallbacks[key]| ==> r.fallbacks[key][i] !in gone
  }

  lemma {:induction false} ListOutsideSame(roles: seq<string>, gone: set<string>)
    ensures |ListOutside(roles, gone)| <= |roles|
    ensures ListOutside(roles, gone) == roles <==> forall i :: 0 <= i < |roles| ==> roles[i] !in gone
    decreases |roles|
  {
    if roles != [] {
      ListOutsideSame(roles[1..], gone);
      if roles[0] !in gone {
        assert ListOutside(roles, gone)[1..] == ListOutside(roles[1..], gone);
        assert roles == [roles[0]] + roles[1..];
      }
    }
  }

  /** A valid registry names roles outside itself only in fallback lists. */
  lemma OutsideNewRoles(r: Registry, gone: set<string>)
    requires Valid(r) && gone !! r.roles.Keys
    ensures RoutesOutside(r.routes, gone) == r.routes && PrioritiesOutside(r.priorities, gone) == r.priorities
    ensures FallbacksOutside(r.fallbacks, gone) == r.fallbacks <==> ListsAvoid(r, gone)
  {
    forall key | key in r.routes ensures key.0 !in gone && key.1 !in gone {
      assert RouteOk(r, key, r.routes[key]);
    }
    forall key | key in r.priorities ensures r.priorities[key] - gone == r.priorities[key] {
    }
    forall key | key in r.fallbacks {
      ListOutsideSame(r.fallbacks[key], gone);
    }
    if FallbacksOutside(r.fallbacks, gone) == r.fallbacks {
      forall key | key in r.fallbacks ensures ListOutside(r.fallbacks[key], gone) == r.fallbacks[key] {
        assert FallbacksOutside(r.fallbacks, gone)[key] == ListOutside(r.fallbacks[key], gone);
      }
    }
  }

  lemma {:induction false} AddedRoutesOutside(r: Registry, routes: seq<HandoffRoute>, gone: set<string>)
    requires forall i :: 0 <= i < |routes| ==> routes[i].sourceRole in gone || routes[i].targetRole in gone
    ensures RoutesOutside(AddRoutes(r, routes).0.routes, gone) == RoutesOutside(r.routes, gone)
    decreases |routes|
  {
    if routes != [] && RouteError(r, routes[0]).None? {
      AddedRoutesOutside(WithRoute(r, routes[0]), routes[1..], gone);
    }
  }

  lemma {:induction false} SetPoliciesOutside(r: Registry, policies: seq<FallbackPolicy>, gone: set<string>)
    requires forall i :: 0 <= i < |policies| ==> policies[i].sourceRole in gone
    ensures FallbacksOutside(SetPolicies(r, policies).0.fallbacks, gone) == FallbacksOutside(r.fallbacks, gone)
    ensures PrioritiesOutside(SetPolicies(r, policies).0.priorities, gone) == PrioritiesOutside(r.priorities, gone)
    decreases |policies|
  {
    if policies != [] {
      PolicyOutside(r, policies[0], gone);
      if PolicyError(r, policies[0]).None? {
        SetPoliciesOutside(WithPolicy(r, policies[0]), policies[1..], gone);
      }
    }
  }

  lemma PolicyOutside(r: Registry, policy: FallbackPolicy, gone: set<string>)
    requires policy.sourceRole in gone
    ensures FallbacksOutside(WithPolicy(r, policy).fallbacks, gone) == FallbacksOutside(r.fallbacks, gone)
    ensures PrioritiesOutside(WithPolicy(r, policy).priorities, gone) == PrioritiesOutside(r.priorities, gone)
  {
    PolicyFallbacksOutside(r, policy, gone);
    PolicyPrioritiesOutside(r, policy, gone);
  }

  lemma PolicyFallbacksOutside(r: Registry, policy: FallbackPolicy, gone: set<string>)
    requires policy.sourceRole in gone
    ensures FallbacksOutside(WithPolicy(r, policy).fallbacks, gone) == FallbacksOutside(r.fallbacks, gone)
  {
  }

  lemma PolicyPrioritiesOutside(r: Registry, policy: FallbackPolicy, gone: set<string>)
    requires policy.sourceRole in gone
    ensures PrioritiesOutside(WithPolicy(r, policy).priorities, gone) == PrioritiesOutside(r.priorities, gone)
  {
  }

  lemma AdvanceOutside(r: Registry, p: Plugin)
    requires Valid(r) && SelfContained(p)
    ensures var a := Advance(r, p);
      var gone := RoleSet(p.agents[..a.registered]);
      && RoutesOutside(a.registry.routes, gone) == RoutesOutside(r.routes, gone)
      && FallbacksOutside(a.registry.fallbacks, gone) == FallbacksOutside(r.fallbacks, gone)
      && PrioritiesOutside(a.registry.priorities, gone) == PrioritiesOutside(r.priorities, gone)
  {
    RegisterAllAdds(r, p.agents);
    var (r1, n) := RegisterAll(r, p.agents);
    if n == |p.agents| {
      assert p.agents[..n] == p.agents;
      AddRoutesKeeps(r1, p.routes);
      AddedRoutesOutside(r1, p.routes, RoleSet(p.agents));
      var (r2, _) := AddRoutes(r1, p.routes);
      SetPoliciesKeeps(r2, p.policies);
      SetPoliciesOutside(r2, p.policies, RoleSet(p.agents));
    }
  }

  /** A failed load of a self-contained plugin restores the whole registry exactly when no fallback list
      already named a role of an agent the load had registered. */
  lemma FailedLoadRestoresAllIff(r: Registry, p: Plugin)
    requires Valid(r) && SelfContained(p) && !Advance(r, p).complete
    ensures LoadedRegistry(r, p) == r <==> ListsAvoid(r, RoleSet(p.agents[..Advance(r, p).registered]))
  {
    var a := Advance(r, p);
    var gone := RoleSet(p.agents[..a.registered]);
    AdvanceAdds(r, p);
    UnregisterAllIsOutside(a.registry, p.agents[..a.registered]);
    AdvanceOutside(r, p);
    OutsideNewRoles(r, gone);
  }

  // ----- A plugin in place -----

  /** What makes a load succeed depends on the agents and the roles alone. */
  lemma {:induction false} AddRoutesSucceeds(r: Registry, like: Registry, routes: seq<HandoffRoute>)
    requires r.agents == like.agents && r.roles == like.roles
    ensures AddRoutes(r, routes).1 <==> forall i :: 0 <= i < |routes| ==> RouteError(like, routes[i]).None?
    decreases |routes|
  {
    if routes != [] && RouteError(r, routes[0]).None? {
      AddRoutesSucceeds(WithRoute(r, routes[0]), like, routes[1..]);
      assert forall i :: 0 < i < |routes| ==> routes[i] == routes[1..][i - 1];
    }
  }

  lemma {:induction false} SetPoliciesSucceeds(r: Registry, like: Registry, policies: seq<FallbackPolicy>)
    requires r.agents == like.agents && r.roles == like.roles
    ensures SetPolicies(r, policies).1 <==> forall i :: 0 <= i < |policies| ==> PolicyError(like, policies[i]).None?
    decreases |policies|
  {
    if policies != [] && PolicyError(r, policies[0]).None? {
      SetPoliciesSucceeds(WithPolicy(r, policies[0]), like, policies[1..]);
      assert forall i :: 0 < i < |policies| ==> policies[i] == policies[1..][i - 1];
    }
  }

  /** The agents of the plugin are stored, and what its routes and policies need is there. */
  ghost predicate InPlace(r: Registry, p: Plugin) {
    && Stored(r, p.agents)
    && (forall i :: 0 <= i < |p.agents| ==> Text.Strip(p.agents[i].agentId) != "" && Text.Strip(p.agents[i].role) != "")
    && (forall i :: 0 <= i < |p.routes| ==> RouteError(r, p.routes[i]).None?)
    && (forall i :: 0 <= i < |p.policies| ==> PolicyError(r, p.policies[i]).None?)
  }

  lemma {:induction false} RegisteredNotBlank(r: Registry, agents: seq<AgentSpec>)
    requires RegisterAll(r, agents).1 == |agents|
    ensures forall i :: 0 <= i < |agents| ==> Text.Strip(agents[i].agentId) != "" && Text.Strip(agents[i].role) != ""
    decreases |agents|
  {
    if agents != [] {
      RegisteredNotBlank(Registered(r, agents[0]), agents[1..]);
      assert forall i :: 0 < i < |agents| ==> agents[i] == agents[1..][i - 1];
    }
  }

  /** A successful load puts the plugin in place. */
  lemma LoadPutsInPlace(r: Registry, p: Plugin)
    requires Valid(r) && Advance(r, p).complete
    ensures InPlace(LoadedRegistry(r, p), p)
  {
    AdvanceAdds(r, p);
    RegisteredNotBlank(r, p.agents);
    RegisterAllAdds(r, p.agents);
    var (r1, n) := RegisterAll(r, p.agents);
    AddRoutesKeeps(r1, p.routes);
    var (r2, _) := AddRoutes(r1, p.routes);
    SetPoliciesKeeps(r2, p.policies);
    AddRoutesSucceeds(r1, LoadedRegistry(r, p), p.routes);
    SetPoliciesSucceeds(r2, LoadedRegistry(r, p), p.policies);
    assert p.agents[..n] == p.agents;
  }

  /** Stored agents, taken out, can be registered again: the agents and the roles are then as they were. */
  lemma {:induction false} RegisterAgain(r: Registry, base: Registry, agents: seq<AgentSpec>)
    requires Inverse(r) && Stored(r, agents)
    requires forall i :: 0 <= i < |agents| ==> Text.Strip(agents[i].agentId) != "" && Text.Strip(agents[i].role) != ""
    requires base.agents == r.agents - IdSet(agents) && base.roles == r.roles - RoleSet(agents)
    ensures var (r', n) := RegisterAll(base, agents);
      n == |agents| && r'.agents == r.agents && r'.roles == r.roles
    decreases |agents|
  {
    if agents == [] {
      assert IdSet(agents) == {} && RoleSet(agents) == {};
    } else {
      RegisterAgainFirst(r, base, agents);
      RegisterAgain(r, Registered(base, agents[0]), agents[1..]);
    }
  }

  lemma RegisterAgainFirst(r: Registry, base: Registry, agents: seq<AgentSpec>)
    requires agents != [] && Inverse(r) && Stored(r, agents)
    requires Text.Strip(agents[0].agentId) != "" && Text.Strip(agents[0].role) != ""
    requires base.agents == r.agents - IdSet(agents) && base.roles == r.roles - RoleSet(agents)
    ensures RegisterError(base, agents[0]).None? && Stored(r, agents[1..])
    ensures Registered(base, agents[0]).agents == r.agents - IdSet(agents[1..])
    ensures Registered(base, agents[0]).roles == r.roles - RoleSet(agents[1..])
  {
    var first, rest := agents[0], agents[1..];
    assert agents == [first] + rest;
    ConsSets(first, rest);
    forall i | 0 <= i < |rest| ensures rest[i].agentId != first.agentId && rest[i].role != first.role {
      assert rest[i] == agents[i + 1];
    }
    assert first.agentId !in IdSet(rest) && first.role !in RoleSet(rest);
    assert r.roles[first.role] == first.agentId;
  }

  /** Loading a plugin again after its agents have been taken out succeeds and puts them back. */
  lemma LoadAgain(r: Registry, base: Registry, p: Plugin)
    requires Valid(r) && Valid(base) && InPlace(r, p)
    requires base.agents == r.agents - IdSet(p.agents) && base.roles == r.roles - RoleSet(p.agents)
    ensures Advance(base, p).complete
    ensures LoadedRegistry(base, p).agents == r.agents && LoadedRegistry(base, p).roles == r.roles
  {
    RegisterAgain(r, base, p.agents);
    RegisterAllAdds(base, p.agents);
    var (r1, _) := RegisterAll(base, p.agents);
    AddRoutesSucceeds(r1, r, p.routes);
    AddRoutesKeeps(r1, p.routes);
    var (r2, _) := AddRoutes(r1, p.routes);
    SetPoliciesSucceeds(r2, r, p.policies);
    SetPoliciesKeeps(r2, p.policies);
  }

  // ----- The manager -----

  datatype LifecycleAction = LoadAction | UnloadAction | ReloadAction

  /** The lifecycle policy: is the action allowed, for this plugin, with tasks in flight or not? */
  type LifecyclePolicy = (LifecycleAction, string, bool) -> bool

  datatype ManagerError = Incompatible | Denied | AlreadyLoaded | NotLoaded | ActiveTasks | RegistrationFailed

  datatype Manager = Manager(registry: Registry, plugins: map<string, Plugin>, agentIds: map<string, seq<string>>)

  datatype Outcome = Outcome(manager: Manager, error: Option<ManagerError>)

  function Load(m: Manager, p: Plugin, policy: LifecyclePolicy, core: int): Outcome {
    if p.compatibleCoreMajor != core then Outcome(m, Some(Incompatible))
    else if !policy(LoadAction, p.pluginId, false) then Outcome(m, Some(Denied))
    else if p.pluginId in m.plugins then Outcome(m, Some(AlreadyLoaded))
    else if !Advance(m.registry, p).complete
    then Outcome(m.(registry := LoadedRegistry(m.registry, p)), Some(RegistrationFailed))
    else
      Outcome(Manager(LoadedRegistry(m.registry, p), m.plugins[p.pluginId := p], m.agentIds[p.pluginId := IdsOf(p.agents)]),
              None)
  }

  function Unload(m: Manager, pluginId: string, active: bool, policy: LifecyclePolicy): Outcome
    requires m.agentIds.Keys == m.plugins.Keys
  {
    if !policy(UnloadAction, pluginId, active) then Outcome(m, Some(Denied))
    else if active then Outcome(m, Some(ActiveTasks))
    else if pluginId !in m.plugins then Outcome(m, Some(NotLoaded))
    else
      Outcome(Manager(UnregisterAll(m.registry, m.agentIds[pluginId]), m.plugins - {pluginId}, m.agentIds - {pluginId}), None)
  }

  /** On failure the previous plugin is loaded again; if that fails too, its error is the one reported. */
  function Reload(m: Manager, p: Plugin, active: bool, policy: LifecyclePolicy, core: int): Outcome
    requires m.agentIds.Keys == m.plugins.Keys
  {
    if !policy(ReloadAction, p.pluginId, active) then Outcome(m, Some(Denied))
    else
      var unloaded := if p.pluginId in m.plugins then Unload(m, p.pluginId, active, policy) else Outcome(m, None);
      if unloaded.error.Some? then unloaded
      else
        var loaded := Load(unloaded.manager, p, policy, core);
        if loaded.error.None? || p.pluginId !in m.plugins then loaded
        else
          var restored := Load(loaded.manager, m.plugins[p.pluginId], policy, core);
          Outcome(restored.manager, if restored.error.Some? then restored.error else loaded.error)
  }

  /** While tasks that may not be repeated are active, no plugin is unloaded, and none that is loaded is reloaded. */
  lemma NothingWhileActive(m: Manager, p: Plugin, policy: LifecyclePolicy, core: int)
    requires m.agentIds.Keys == m.plugins.Keys
    ensures Unload(m, p.pluginId, true, policy).error.Some? && Unload(m, p.pluginId, true, policy).manager == m
    ensures p.pluginId in m.plugins ==>
      Reload(m, p, true, policy, core).error.Some? && Reload(m, p, true, policy, core).manager == m
  {
  }

  /** A plugin is loaded exactly when it fits the core, the policy allows it, it is not loaded yet, and all its agents,
      routes and policies go in; and is unloaded exactly when that is allowed, nothing is active and it is loaded. */
  lemma AcceptedIff(m: Manager, p: Plugin, active: bool, policy: LifecyclePolicy, core: int)
    requires m.agentIds.Keys == m.plugins.Keys
    ensures Load(m, p, policy, core).error.None? <==>
      && p.compatibleCoreMajor == core && policy(LoadAction, p.pluginId, false) && p.pluginId !in m.plugins
      && Advance(m.registry, p).complete
    ensures Unload(m, p.pluginId, active, policy).error.None? <==>
      policy(UnloadAction, p.pluginId, active) && !active && p.pluginId in m.plugins
  {
  }

  /** A loaded plugin: recorded under its own id with the ids of its agents, and in place. */
  ghost predicate IsLoaded(m: Manager, p: Plugin, core: int) {
    && p.pluginId in m.plugins && m.plugins[p.pluginId] == p
    && p.pluginId in m.agentIds && m.agentIds[p.pluginId] == IdsOf(p.agents)
    && p.compatibleCoreMajor == core && InPlace(m.registry, p)
  }

  lemma CompleteLoad(m: Manager, p: Plugin, policy: LifecyclePolicy, core: int)
    requires p.compatibleCoreMajor == core && policy(LoadAction, p.pluginId, false) && p.pluginId !in m.plugins
    requires Advance(m.registry, p).complete
    ensures Load(m, p, policy, core) ==
      Outcome(Manager(LoadedRegistry(m.registry, p), m.plugins[p.pluginId := p], m.agentIds[p.pluginId := IdsOf(p.agents)]),
              None)
  {
  }

  lemma LoadedAfterLoad(m: Manager, p: Plugin, policy: LifecyclePolicy, core: int)
    requires Valid(m.registry) && Load(m, p, policy, core).error.None?
    ensures IsLoaded(Load(m, p, policy, core).manager, p, core)
  {
    LoadPutsInPlace(m.registry, p);
  }

  lemma LoadedRegistryValid(r: Registry, p: Plugin)
    requires Valid(r)
    ensures Valid(LoadedRegistry(r, p))
  {
    AdvanceAdds(r, p);
    if !Advance(r, p).complete {
      FailedLoadRestoresAgents(r, p);
    }
  }

  /** A load that fails for any reason changes at most the maps of routes and policies. */
  lemma FailedLoad(m: Manager, p: Plugin, policy: LifecyclePolicy, core: int)
    requires Valid(m.registry) && Load(m, p, policy, core).error.Some?
    ensures var after := Load(m, p, policy, core).manager;
      && Valid(after.registry) && after.plugins == m.plugins && after.agentIds == m.agentIds
      && after.registry.agents == m.registry.agents && after.registry.roles == m.registry.roles
  {
    var after := Load(m, p, policy, core).manager;
    if after != m {
      FailedLoadIsPartial(m, p, policy, core);
      FailedLoadRestoresAgents(m.registry, p);
    }
  }

  lemma FailedLoadIsPartial(m: Manager, p: Plugin, policy: LifecyclePolicy, core: int)
    requires Load(m, p, policy, core).error.Some? && Load(m, p, policy, core).manager != m
    ensures Load(m, p, policy, core).manager == m.(registry := LoadedRegistry(m.registry, p)) && !Advance(m.registry, p).complete
  {
  }

  ghost predicate AllowsAll(policy: LifecyclePolicy) {
    forall action, id, active :: policy(action, id, active)
  }

  lemma UnloadTakesOut(m: Manager, p: Plugin, policy: LifecyclePolicy, core: int)
    requires Valid(m.registry) && m.agentIds.Keys == m.plugins.Keys && AllowsAll(policy) && IsLoaded(m, p, core)
    ensures var u := Unload(m, p.pluginId, false, policy);
      && u.error.None? && Valid(u.manager.registry)
      && u.manager.registry.agents == m.registry.agents - IdSet(p.agents)
      && u.manager.registry.roles == m.registry.roles - RoleSet(p.agents)
      && u.manager.plugins == m.plugins - {p.pluginId} && u.manager.agentIds == m.agentIds - {p.pluginId}
  {
    UnregisterAllIsOutside(m.registry, p.agents);
  }

  lemma PutBack<V>(entries: map<string, V>, id: string)
    requires id in entries
    ensures (entries - {id})[id := entries[id]] == entries
  {
  }

  lemma LoadAgainAfter(m: Manager, p: Plugin, failed: Manager, policy: LifecyclePolicy, core: int)
    requires Valid(m.registry) && AllowsAll(policy) && IsLoaded(m, p, core) && Valid(failed.registry)
    requires failed.registry.agents == m.registry.agents - IdSet(p.agents)
    requires failed.registry.roles == m.registry.roles - RoleSet(p.agents)
    requires failed.plugins == m.plugins - {p.pluginId} && failed.agentIds == m.agentIds - {p.pluginId}
    ensures var again := Load(failed, p, policy, core);
      && again.error.None?
      && again.manager.registry.agents == m.registry.agents && again.manager.registry.roles == m.registry.roles
      && again.manager.plugins == m.plugins && again.manager.agentIds == m.agentIds
  {
    LoadAgain(m.registry, failed.registry, p);
    CompleteLoad(failed, p, policy, core);
    PutBack(m.plugins, p.pluginId);
    PutBack(m.agentIds, p.pluginId);
  }

  /** Under an allow-all policy a failed reload of a loaded plugin puts the old plugin's agents and roles back. */
  lemma FailedReloadRestores(m: Manager, old': Plugin, new': Plugin, policy: LifecyclePolicy, core: int)
    requires Valid(m.registry) && m.agentIds.Keys == m.plugins.Keys && AllowsAll(policy)
    requires IsLoaded(m, old', core) && new'.pluginId == old'.pluginId
    requires Reload(m, new', false, policy, core).error.Some?
    ensures var after := Reload(m, new', false, policy, core).manager;
      && after.registry.agents == m.registry.agents && after.registry.roles == m.registry.roles
      && after.plugins == m.plugins && after.agentIds == m.agentIds
      && IsLoaded(after, old', core)
  {
    UnloadTakesOut(m, old', policy, core);
    ReloadUnfolds(m, new', policy, core);
    var unloaded := Unload(m, old'.pluginId, false, policy).manager;
    if Load(unloaded, new', policy, core).error.Some? {
      RestoredAfterFailedLoad(m, unloaded, old', new', policy, core);
    }
  }

  /** An allowed reload of a loaded plugin: unload, load, and on failure load the old one. */
  lemma ReloadUnfolds(m: Manager, p: Plugin, policy: LifecyclePolicy, core: int)
    requires m.agentIds.Keys == m.plugins.Keys && AllowsAll(policy) && p.pluginId in m.plugins
    ensures var unloaded := Unload(m, p.pluginId, false, policy);
      var loaded := Load(unloaded.manager, p, policy, core);
      unloaded.error.None? ==>
        Reload(m, p, false, policy, core) ==
        if loaded.error.None? then loaded
        else
          var restored := Load(loaded.manager, m.plugins[p.pluginId], policy, core);
          Outcome(restored.manager, if restored.error.Some? then restored.error else loaded.error)
  {
  }

  /** With the old plugin taken out, a load that fails and a load of the old plugin after it. */
  lemma RestoredAfterFailedLoad(m: Manager, unloaded: Manager, old': Plugin, new': Plugin, policy: LifecyclePolicy, core: int)
    requires Valid(m.registry) && AllowsAll(policy) && IsLoaded(m, old', core) && Valid(unloaded.registry)
    requires unloaded.registry.agents == m.registry.agents - IdSet(old'.agents)
    requires unloaded.registry.roles == m.registry.roles - RoleSet(old'.agents)
    requires unloaded.plugins == m.plugins - {old'.pluginId} && unloaded.agentIds == m.agentIds - {old'.pluginId}
    requires Load(unloaded, new', policy, core).error.Some?
    ensures var again := Load(Load(unloaded, new', policy, core).manager, old', policy, core);
      && again.error.None? && IsLoaded(again.manager, old', core)
      && again.manager.registry.agents == m.registry.agents && again.manager.registry.roles == m.registry.roles
      && again.manager.plugins == m.plugins && again.manager.agentIds == m.agentIds
  {
    var failed := Load(unloaded, new', policy, core).manager;
    FailedLoad(unloaded, new', policy, core);
    LoadAgainAfter(m, old', failed, policy, core);
    LoadedAfterLoad(failed, old', policy, core);
  }

  // ----- The manager as it is written -----

  class AgentPluginManager {
    const registry: AgentRegistry
    const core: int
    const policy: LifecyclePolicy
    var plugins: map<string, Plugin>
    var agentIds: map<string, seq<string>>

    constructor (registry: AgentRegistry, core: int, policy: LifecyclePolicy)
      ensures this.registry == registry && this.core == core && this.policy == policy
      ensures plugins == map[] && agentIds == map[]
    {
      this.registry, this.core, this.policy := registry, core, policy;
      plugins, agentIds := map[], map[];
    }

    function State(): Manager
      reads this, registry
    {
      Manager(registry.State(), plugins, agentIds)
    }

    ghost predicate Ok()
      reads this, registry
    {
      Valid(registry.State()) && agentIds.Keys == plugins.Keys
    }

    method LoadPlugin(p: Plugin) returns (error: Option<ManagerError>)
      requires Ok()
      modifies this, registry
      ensures Outcome(State(), error) == Load(old(State()), p, policy, core) && Ok()
    {
      if p.compatibleCoreMajor != core {
        return Some(Incompatible);
      }
      if !policy(LoadAction, p.pluginId, false) {
        return Some(Denied);
      }
      if p.pluginId in plugins {
        return Some(AlreadyLoaded);
      }
      var registered, complete := Install(p);
      LoadedRegistryValid(old(registry.State()), p);
      if !complete {
        AdvanceAdds(old(registry.State()), p);
        RollBack(IdsOf(p.agents[..registered]));
        return Some(RegistrationFailed);
      }
      plugins := plugins[p.pluginId := p];
      agentIds := agentIds[p.pluginId := IdsOf(p.agents)];
      return None;
    }

    /** Registers the agents, then the routes, then the policies, up to the first refusal. */
    method Install(p: Plugin) returns (registered: nat, complete: bool)
      requires Valid(registry.State())
      modifies registry
      ensures Progress(registry.State(), registered, complete) == Advance(old(registry.State()), p)
      ensures Valid(registry.State())
    {
      AdvanceAdds(registry.State(), p);
      registered := RegisterAgents(p.agents);
      if registered < |p.agents| {
        return registered, false;
      }
      complete := AddAllRoutes(p.routes);
      if complete {
        complete := SetAllPolicies(p.policies);
      }
    }

    method RegisterAgents(agents: seq<AgentSpec>) returns (n: nat)
      requires Valid(registry.State())
      modifies registry
      ensures (registry.State(), n) == RegisterAll(old(registry.State()), agents) && Valid(registry.State())
    {
      ghost var whole := RegisterAll(registry.State(), agents);
      assert agents[0..] == agents;
      n := 0;
      while n < |agents|
        invariant n <= |agents| && Valid(registry.State()) && IsProgress(whole, registry.State(), agents[n..], n)
      {
        ghost var here := registry.State();
        var error := registry.Register(agents[n]);
        if error.Some? {
          break;
        }
        ProgressGoesOn(whole, here, agents[n..], n);
        assert agents[n..][1..] == agents[n + 1..];
        n := n + 1;
      }
      ProgressStops(whole, registry.State(), agents[n..], n);
    }

    method AddAllRoutes(routes: seq<HandoffRoute>) returns (ok: bool)
      requires Valid(registry.State())
      modifies registry
      ensures (registry.State(), ok) == AddRoutes(old(registry.State()), routes) && Valid(registry.State())
    {
      ghost var r := registry.State();
      for i := 0 to |routes|
        invariant Valid(registry.State()) && AddRoutes(r, routes) == AddRoutes(registry.State(), routes[i..])
      {
        assert routes[i..][0] == routes[i] && routes[i..][1..] == routes[i + 1..];
        var error := registry.AddHandoffRoute(routes[i]);
        if error.Some? {
          return false;
        }
      }
      return true;
    }

    method SetAllPolicies(policies: seq<FallbackPolicy>) returns (ok: bool)
      requires Valid(registry.State())
      modifies registry
      ensures (registry.State(), ok) == SetPolicies(old(registry.State()), policies) && Valid(registry.State())
    {
      ghost var r := registry.State();
      for i := 0 to |policies|
        invariant Valid(registry.State()) && SetPolicies(r, policies) == SetPolicies(registry.State(), policies[i..])
      {
        assert policies[i..][0] == policies[i] && policies[i..][1..] == policies[i + 1..];
        var error := registry.SetHandoffFallbackPolicy(policies[i]);
        if error.Some? {
          return false;
        }
      }
      return true;
    }

    /** Unregisters from the last to the first. */
    method RollBack(ids: seq<string>)
      requires Valid(registry.State())
      modifies registry
      ensures registry.State() == UnregisterAll(old(registry.State()), ids) && Valid(registry.State())
    {
      ghost var r := registry.State();
      assert ids[..|ids|] == ids;
      for i := |ids| downto 0
        invariant Valid(registry.State()) && UnregisterAll(r, ids) == UnregisterAll(registry.State(), ids[..i])
      {
        assert ids[..i + 1][..i] == ids[..i] && ids[..i + 1][i] == ids[i];
        var _ := registry.Unregister(ids[i]);
      }
    }

    method UnloadPlugin(pluginId: string, active: bool) returns (error: Option<ManagerError>)
      requires Ok()
      modifies this, registry
      ensures Outcome(State(), error) == Unload(old(State()), pluginId, active, policy) && Ok()
    {
      if !policy(UnloadAction, pluginId, active) {
        return Some(Denied);
      }
      if active {
        return Some(ActiveTasks);
      }
      if pluginId !in plugins {
        return Some(NotLoaded);
      }
      RollBack(agentIds[pluginId]);
      plugins := plugins - {pluginId};
      agentIds := agentIds - {pluginId};
      return None;
    }

    method ReloadPlugin(p: Plugin, active: bool) returns (error: Option<ManagerError>)
      requires Ok()
      modifies this, registry
      ensures Outcome(State(), error) == Reload(old(State()), p, active, policy, core) && Ok()
    {
      if !policy(ReloadAction, p.pluginId, active) {
        return Some(Denied);
      }
      var previous := if p.pluginId in plugins then Some(plugins[p.pluginId]) else None;
      if p.pluginId in plugins {
        error := UnloadPlugin(p.pluginId, active);
        if error.Some? {
          return;
        }
      }
      error := LoadPlugin(p);
      if error.Some? && previous.Some? {
        var restoring := LoadPlugin(previous.value);
        if restoring.Some? {
          error := restoring;
        }
      }
    }
  }
}
