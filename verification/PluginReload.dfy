/** When a failed reload puts the whole registry back (src/agents/plugin_manager.py). */
module PluginReload {
  import opened Values
  import opened AgentRegistries
  import opened PluginManagers
  import opened PluginRollback

  // ----- A load that goes through writes all it declares -----

  function DeclaredRoutes(routes: seq<HandoffRoute>): Writes<HandoffRoute> {
    if routes == [] then []
    else [((routes[0].sourceRole, routes[0].targetRole), routes[0])] + DeclaredRoutes(routes[1..])
  }

  function DeclaredLists(policies: seq<FallbackPolicy>): Writes<seq<string>> {
    if policies == [] then []
    else
      var q := policies[0];
      [((q.sourceRole, q.targetRole), Normalized(q.fallbackRoles, q.targetRole))] + DeclaredLists(policies[1..])
  }

  function DeclaredPriorities(policies: seq<FallbackPolicy>): Writes<map<string, int>> {
    if policies == [] then []
    else
      var q := policies[0];
      [((q.sourceRole, q.targetRole), PriorityMap(q.priorities))] + DeclaredPriorities(policies[1..])
  }

  function Declared(p: Plugin): LoadWrites {
    LoadWrites(DeclaredRoutes(p.routes), DeclaredLists(p.policies), DeclaredPriorities(p.policies))
  }

  lemma {:induction false} AllRoutesWritten(r: Registry, routes: seq<HandoffRoute>)
    requires AddRoutes(r, routes).1
    ensures RouteWrites(r, routes) == DeclaredRoutes(routes)
    decreases |routes|
  {
    if routes != [] {
      AllRoutesWritten(WithRoute(r, routes[0]), routes[1..]);
    }
  }

  lemma {:induction false} AllPoliciesWritten(r: Registry, policies: seq<FallbackPolicy>)
    requires SetPolicies(r, policies).1
    ensures ListWrites(r, policies) == DeclaredLists(policies) && PriorityWrites(r, policies) == DeclaredPriorities(policies)
    decreases |policies|
  {
    if policies != [] {
      AllPoliciesWritten(WithPolicy(r, policies[0]), policies[1..]);
    }
  }

  lemma CompleteLoadWrites(r: Registry, p: Plugin)
    requires Valid(r) && Advance(r, p).complete
    ensures WritesOf(r, p) == Declared(p)
  {
    var (r1, n) := RegisterAll(r, p.agents);
    AllRoutesWritten(r1, p.routes);
    AllPoliciesWritten(AddRoutes(r1, p.routes).0, p.policies);
  }

  // ----- Taken out, tried, put back -----

  const NO_WRITES := LoadWrites([], [], [])

  /** What the failed load of a plugin writes, and the roles its rollback takes out again: nothing when the plugin
      does not fit the core. */
  function TriedWrites(r: Registry, p: Plugin, core: int): LoadWrites {
    if p.compatibleCoreMajor != core then NO_WRITES else WritesOf(r, p)
  }

  function TriedRoles(r: Registry, p: Plugin, core: int): set<string> {
    if p.compatibleCoreMajor != core then {} else RoleSet(p.agents[..Advance(r, p).registered])
  }

  /** The route of one pair after a failed reload is the one before it: the old plugin's own, or else what the new one
      left, or else one that survived the unloading. */
  ghost predicate RouteBack(r: Registry, lost: set<string>, own: Writes<HandoffRoute>, tried: Writes<HandoffRoute>,
                            gone: set<string>, key: RolePair) {
    if LastOf(own, key).Some? then key in r.routes && r.routes[key] == LastOf(own, key).value
    else if LastOf(tried, key).Some? && key.0 !in gone && key.1 !in gone
    then key in r.routes && r.routes[key] == LastOf(tried, key).value
    else key in r.routes ==> key.0 !in lost && key.1 !in lost
  }

  ghost predicate ListBack(r: Registry, lost: set<string>, own: Writes<seq<string>>, tried: Writes<seq<string>>,
                           gone: set<string>, key: RolePair) {
    if LastOf(own, key).Some? then key in r.fallbacks && r.fallbacks[key] == LastOf(own, key).value
    else if LastOf(tried, key).Some? && key.0 !in gone
    then key in r.fallbacks && r.fallbacks[key] == ListOutside(LastOf(tried, key).value, gone)
    else
      key in r.fallbacks ==>
        key.0 !in lost && forall i :: 0 <= i < |r.fallbacks[key]| ==> r.fallbacks[key][i] !in lost + gone
  }

  ghost predicate PrioritiesBack(r: Registry, lost: set<string>, own: Writes<map<string, int>>, tried: Writes<map<string, int>>,
                                 gone: set<string>, key: RolePair) {
    if LastOf(own, key).Some? then key in r.priorities && r.priorities[key] == LastOf(own, key).value
    else if LastOf(tried, key).Some? && key.0 !in gone
    then key in r.priorities && r.priorities[key] == LastOf(tried, key).value - gone
    else key in r.priorities ==> key.0 !in lost && r.priorities[key].Keys !! lost
  }

  /** Two maps have the same at a pair. */
  ghost predicate SameAt<V>(a: map<RolePair, V>, b: map<RolePair, V>, key: RolePair) {
    (key in a <==> key in b) && (key in a && key in b ==> a[key] == b[key])
  }

  lemma SameEverywhere<V(!new)>(a: map<RolePair, V>, b: map<RolePair, V>)
    ensures a == b <==> forall key :: SameAt(a, b, key)
  {
    if forall key :: SameAt(a, b, key) {
      forall key ensures key in a <==> key in b {
        assert SameAt(a, b, key);
      }
      forall key | key in a ensures a[key] == b[key] {
        assert SameAt(a, b, key);
      }
    }
  }

  /** What a failed reload makes of a map: r1 without the lost roles, r2 after the failed load, r3 with the old plugin
      loaded again. */
  lemma RoutesBackIff(r: Registry, r1: Registry, r2: map<RolePair, HandoffRoute>, r3: map<RolePair, HandoffRoute>,
                      lost: set<string>, own: Writes<HandoffRoute>, tried: Writes<HandoffRoute>, gone: set<string>)
    requires Valid(r) && r1.roles == r.roles - lost && gone !! r1.roles.Keys
    requires r1.routes == RoutesOutside(r.routes, lost)
    requires RoutesLeft(r1.routes, tried, gone, r2) && IsOverlay(r2, own, r3)
    ensures r3 == r.routes <==> forall key :: RouteBack(r, lost, own, tried, gone, key)
  {
    SameEverywhere(r3, r.routes);
    RoutesJoinRoles(r);
    forall key ensures RouteBack(r, lost, own, tried, gone, key) <==> SameAt(r3, r.routes, key) {
    }
  }

  lemma ListsBackIff(r: Registry, r1: Registry, r2: map<RolePair, seq<string>>, r3: map<RolePair, seq<string>>,
                     lost: set<string>, own: Writes<seq<string>>, tried: Writes<seq<string>>, gone: set<string>)
    requires Valid(r) && r1.roles == r.roles - lost && gone !! r1.roles.Keys
    requires r1.fallbacks == FallbacksOutside(r.fallbacks, lost)
    requires ListsLeft(r1.fallbacks, tried, gone, r2) && IsOverlay(r2, own, r3)
    ensures r3 == r.fallbacks <==> forall key :: ListBack(r, lost, own, tried, gone, key)
  {
    SameEverywhere(r3, r.fallbacks);
    forall key ensures ListBack(r, lost, own, tried, gone, key) <==> SameAt(r3, r.fallbacks, key) {
      if key in r.fallbacks {
        ListOutsideTwice(r.fallbacks[key], lost, gone);
        ListOutsideSame(r.fallbacks[key], lost + gone);
      }
    }
  }

  lemma PrioritiesBackIff(r: Registry, r1: Registry, r2: map<RolePair, map<string, int>>, r3: map<RolePair, map<string, int>>,
                          lost: set<string>, own: Writes<map<string, int>>, tried: Writes<map<string, int>>, gone: set<string>)
    requires Valid(r) && r1.roles == r.roles - lost && gone !! r1.roles.Keys
    requires r1.priorities == PrioritiesOutside(r.priorities, lost)
    requires PrioritiesLeft(r1.priorities, tried, gone, r2) && IsOverlay(r2, own, r3)
    ensures r3 == r.priorities <==> forall key :: PrioritiesBack(r, lost, own, tried, gone, key)
  {
    SameEverywhere(r3, r.priorities);
    forall key ensures PrioritiesBack(r, lost, own, tried, gone, key) <==> SameAt(r3, r.priorities, key) {
      if key in r.priorities {
        KeysOutside(r.priorities[key], lost);
      }
    }
  }

  lemma KeysOutside(entries: map<string, int>, gone: set<string>)
    ensures entries - gone == entries <==> entries.Keys !! gone
  {
    if entries - gone == entries {
      forall key | key in entries ensures key !in gone {
        assert key in entries - gone;
      }
    }
  }

  lemma NothingWritten(r: Registry)
    ensures IsLeft(r, NO_WRITES, {}, r)
  {
    forall key | key in r.fallbacks {
      ListOutsideNothing(r.fallbacks[key]);
    }
  }

  /** What a load that fails leaves when every action is allowed. */
  lemma TriedLeaves(m: Manager, p: Plugin, policy: LifecyclePolicy, core: int)
    requires Valid(m.registry) && AllowsAll(policy) && p.pluginId !in m.plugins && Load(m, p, policy, core).error.Some?
    ensures IsLeft(m.registry, TriedWrites(m.registry, p, core), TriedRoles(m.registry, p, core),
                   Load(m, p, policy, core).manager.registry)
    ensures TriedRoles(m.registry, p, core) !! m.registry.roles.Keys
  {
    if p.compatibleCoreMajor != core {
      NothingWritten(m.registry);
    } else {
      AdvanceAdds(m.registry, p);
      FailedLoadLeaves(m.registry, p);
    }
  }

  /** What a load of the old plugin makes of the registry it was taken out of and another load failed on. */
  lemma LoadedAgainWrites(r: Registry, failed: Manager, p: Plugin, policy: LifecyclePolicy, core: int)
    requires Valid(r) && InPlace(r, p) && Valid(failed.registry) && AllowsAll(policy)
    requires failed.registry.agents == r.agents - IdSet(p.agents) && failed.registry.roles == r.roles - RoleSet(p.agents)
    requires p.pluginId !in failed.plugins && p.compatibleCoreMajor == core
    ensures var before, after, own := failed.registry, Load(failed, p, policy, core).manager.registry, Declared(p);
      && IsOverlay(before.routes, own.routes, after.routes) && IsOverlay(before.fallbacks, own.lists, after.fallbacks)
      && IsOverlay(before.priorities, own.priorities, after.priorities)
      && after.agents == r.agents && after.roles == r.roles
  {
    LoadAgain(r, failed.registry, p);
    CompleteLoad(failed, p, policy, core);
    CompleteLoadWrites(failed.registry, p);
    AdvanceWrites(failed.registry, p);
  }

  /** Every route, list and set of priorities is back. */
  ghost predicate AllBack(r: Registry, lost: set<string>, own: LoadWrites, tried: LoadWrites, gone: set<string>) {
    && (forall key :: RouteBack(r, lost, own.routes, tried.routes, gone, key))
    && (forall key :: ListBack(r, lost, own.lists, tried.lists, gone, key))
    && (forall key :: PrioritiesBack(r, lost, own.priorities, tried.priorities, gone, key))
  }

  lemma RegistryBackIff(r: Registry, r1: Registry, r2: Registry, r3: Registry, lost: set<string>, own: LoadWrites,
                        tried: LoadWrites, gone: set<string>)
    requires Valid(r) && r1.roles == r.roles - lost && gone !! r1.roles.Keys
    requires r1.routes == RoutesOutside(r.routes, lost) && r1.fallbacks == FallbacksOutside(r.fallbacks, lost)
    requires r1.priorities == PrioritiesOutside(r.priorities, lost)
    requires IsLeft(r1, tried, gone, r2) && r3.agents == r.agents && r3.roles == r.roles
    requires IsOverlay(r2.routes, own.routes, r3.routes) && IsOverlay(r2.fallbacks, own.lists, r3.fallbacks)
    requires IsOverlay(r2.priorities, own.priorities, r3.priorities)
    ensures r3 == r <==> AllBack(r, lost, own, tried, gone)
  {
    RoutesBackIff(r, r1, r2.routes, r3.routes, lost, own.routes, tried.routes, gone);
    ListsBackIff(r, r1, r2.fallbacks, r3.fallbacks, lost, own.lists, tried.lists, gone);
    PrioritiesBackIff(r, r1, r2.priorities, r3.priorities, lost, own.priorities, tried.priorities, gone);
  }

  /** The registry the new plugin is tried on. */
  function Unloaded(r: Registry, old': Plugin): Registry {
    Outside(r, old'.agents)
  }

  /** A failed reload puts everything back exactly when, pair by pair: what the old plugin declares last is what was
      stored; what the new one left between roles that stay was stored already; and nothing else named a role of the
      old plugin, nor any list a role the new one had registered. */
  lemma FailedReloadRestoresIff(m: Manager, old': Plugin, new': Plugin, policy: LifecyclePolicy, core: int)
    requires Valid(m.registry) && m.agentIds.Keys == m.plugins.Keys && AllowsAll(policy)
    requires IsLoaded(m, old', core) && new'.pluginId == old'.pluginId
    requires Reload(m, new', false, policy, core).error.Some?
    ensures Reload(m, new', false, policy, core).manager == m <==>
      var r := m.registry;
      AllBack(r, RoleSet(old'.agents), Declared(old'), TriedWrites(Unloaded(r, old'), new', core),
              TriedRoles(Unloaded(r, old'), new', core))
  {
    var unloaded := Unload(m, old'.pluginId, false, policy).manager;
    UnloadTakesOut(m, old', policy, core);
    UnregisterAllIsOutside(m.registry, old'.agents);
    ReloadUnfolds(m, new', policy, core);
    FailedReloadRestores(m, old', new', policy, core);
    var failed := Load(unloaded, new', policy, core).manager;
    FailedLoad(unloaded, new', policy, core);
    TriedLeaves(unloaded, new', policy, core);
    LoadedAgainWrites(m.registry, failed, old', policy, core);
    RegistryBackIff(m.registry, unloaded.registry, failed.registry, Load(failed, old', policy, core).manager.registry,
                    RoleSet(old'.agents), Declared(old'), TriedWrites(unloaded.registry, new', core),
                    TriedRoles(unloaded.registry, new', core));
  }

  lemma RoutesJoinRoles(r: Registry)
    requires Valid(r)
    ensures forall key :: key in r.routes ==> key.0 in r.roles && key.1 in r.roles
  {
    forall key | key in r.routes
      ensures key.0 in r.roles && key.1 in r.roles
    {
      assert RouteOk(r, key, r.routes[key]);
    }
  }

  /** A route that names a role of the old plugin and that the old plugin does not declare itself is lost in every
      failed reload, whichever plugin it came from. */
  lemma {:induction false} ForeignRouteIsLost(m: Manager, old': Plugin, new': Plugin, policy: LifecyclePolicy, core: int,
                                              key: RolePair)
    requires Valid(m.registry) && m.agentIds.Keys == m.plugins.Keys && AllowsAll(policy)
    requires IsLoaded(m, old', core) && new'.pluginId == old'.pluginId
    requires Reload(m, new', false, policy, core).error.Some?
    requires key.0 in RoleSet(old'.agents) || key.1 in RoleSet(old'.agents)
    requires LastOf(DeclaredRoutes(old'.routes), key).None?
    ensures key !in Reload(m, new', false, policy, core).manager.registry.routes
  {
    var unloaded := Unload(m, old'.pluginId, false, policy).manager;
    UnloadTakesOut(m, old', policy, core);
    ReloadUnfolds(m, new', policy, core);
    var failed := Load(unloaded, new', policy, core).manager;
    FailedLoad(unloaded, new', policy, core);
    LoadedAgainWrites(m.registry, failed, old', policy, core);
    RoutesJoinRoles(failed.registry);
  }
}
