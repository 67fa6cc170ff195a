/** Agents, roles, handoff routes and fallback policies as five cross-referencing maps
    (src/agents/registry.py). */
module AgentRegistries {
  import opened Values
  import opened Ordering
  import Text

  datatype Capability = ToolUse | WorkflowRouting | Review | Retrieval | Mcp | BackgroundExecution

  datatype AgentSpec = AgentSpec(agentId: string, role: string, capabilities: set<Capability>)

  datatype HandoffRoute = HandoffRoute(sourceRole: string, targetRole: string, reason: string, required: set<Capability>)

  /** `priorities` lists a dictionary's entries in insertion order. */
  datatype FallbackPolicy = FallbackPolicy(
    sourceRole: string,
    targetRole: string,
    fallbackRoles: seq<string>,
    priorities: seq<(string, int)>)

  type RolePair = (string, string)

  datatype Registry = Registry(
    agents: map<string, AgentSpec>,
    roles: map<string, string>,
    routes: map<RolePair, HandoffRoute>,
    fallbacks: map<RolePair, seq<string>>,
    priorities: map<RolePair, map<string, int>>)

  datatype RegistryError =
    | EmptyAgentId
    | EmptyRole
    | DuplicateAgent
    | RoleTaken
    | UnknownAgent
    | UnknownSourceRole
    | UnknownTargetRole
    | MissingCapabilities
    | UnknownPriorityRole

  const EMPTY := Registry(map[], map[], map[], map[], map[])

  // ----- Integrity -----

  /** Agents and roles are inverse maps. */
  ghost predicate Inverse(r: Registry) {
    && (forall id :: id in r.agents ==>
          r.agents[id].agentId == id && r.agents[id].role in r.roles && r.roles[r.agents[id].role] == id)
    && (forall role :: role in r.roles ==> r.roles[role] in r.agents && r.agents[r.roles[role]].role == role)
  }

  /** A stored route joins registered roles, and its target has what it requires. */
  ghost predicate RouteOk(r: Registry, key: RolePair, route: HandoffRoute) {
    && key == (route.sourceRole, route.targetRole)
    && key.0 in r.roles && key.1 in r.roles && r.roles[key.1] in r.agents
    && route.required <= r.agents[r.roles[key.1]].capabilities
  }

  ghost predicate Valid(r: Registry) {
    && Inverse(r)
    && (forall key :: key in r.routes ==> RouteOk(r, key, r.routes[key]))
    && (forall key :: key in r.fallbacks ==> key.0 in r.roles)
    && (forall key :: key in r.priorities ==> key.0 in r.roles && r.priorities[key].Keys <= r.roles.Keys)
  }

  // ----- The operations as functions -----

  function RegisterError(r: Registry, agent: AgentSpec): Option<RegistryError> {
    if Text.Strip(agent.agentId) == "" then Some(EmptyAgentId)
    else if Text.Strip(agent.role) == "" then Some(EmptyRole)
    else if agent.agentId in r.agents then Some(DuplicateAgent)
    else if agent.role in r.roles then Some(RoleTaken)
    else None
  }

  function Registered(r: Registry, agent: AgentSpec): Registry {
    r.(agents := r.agents[agent.agentId := agent], roles := r.roles[agent.role := agent.agentId])
  }

  function ListOutside(roles: seq<string>, gone: set<string>): seq<string> {
    if roles == [] then []
    else if roles[0] in gone then ListOutside(roles[1..], gone)
    else [roles[0]] + ListOutside(roles[1..], gone)
  }

  function RoutesOutside(routes: map<RolePair, HandoffRoute>, gone: set<string>): map<RolePair, HandoffRoute> {
    map key | key in routes && key.0 !in gone && key.1 !in gone :: routes[key]
  }

  function FallbacksOutside(fallbacks: map<RolePair, seq<string>>, gone: set<string>): map<RolePair, seq<string>> {
    map key | key in fallbacks && key.0 !in gone :: ListOutside(fallbacks[key], gone)
  }

  function PrioritiesOutside(priorities: map<RolePair, map<string, int>>, gone: set<string>): map<RolePair, map<string, int>> {
    map key | key in priorities && key.0 !in gone :: priorities[key] - gone
  }

  function Unregistered(r: Registry, id: string): Registry
    requires id in r.agents
  {
    var role := r.agents[id].role;
    Registry(r.agents - {id}, r.roles - {role}, RoutesOutside(r.routes, {role}), FallbacksOutside(r.fallbacks, {role}),
             PrioritiesOutside(r.priorities, {role}))
  }

  function RouteError(r: Registry, route: HandoffRoute): Option<RegistryError> {
    if route.sourceRole !in r.roles then Some(UnknownSourceRole)
    else if route.targetRole !in r.roles then Some(UnknownTargetRole)
    else if r.roles[route.targetRole] in r.agents && !(route.required <= r.agents[r.roles[route.targetRole]].capabilities)
    then Some(MissingCapabilities)
    else None
  }

  function WithRoute(r: Registry, route: HandoffRoute): Registry {
    r.(routes := r.routes[(route.sourceRole, route.targetRole) := route])
  }

  /** The fallback list that is kept: stripped, without blanks, the target itself or repetitions. */
  function Normalized(roles: seq<string>, target: string): seq<string> {
    if roles == [] then []
    else
      var front, name := Normalized(roles[..|roles| - 1], target), Text.Strip(roles[|roles| - 1]);
      if name == "" || name == target || name in front then front else front + [name]
  }

  predicate Names(roles: seq<string>, name: string) {
    exists i :: 0 <= i < |roles| && Text.Strip(roles[i]) == name
  }

  lemma NamesSnoc(roles: seq<string>, last: string, name: string)
    ensures Names(roles + [last], name) <==> Names(roles, name) || Text.Strip(last) == name
  {
    var all := roles + [last];
    assert all[|roles|] == last;
    if i :| 0 <= i < |roles| && Text.Strip(roles[i]) == name {
      assert all[i] == roles[i];
    }
  }

  /** The kept list holds each stripped name once, and exactly those that are neither blank nor the target. */
  lemma {:induction false} NormalizedNames(roles: seq<string>, target: string)
    ensures forall name :: name in Normalized(roles, target) <==> name != "" && name != target && Names(roles, name)
    ensures forall i, j :: 0 <= i < j < |Normalized(roles, target)| ==>
      Normalized(roles, target)[i] != Normalized(roles, target)[j]
    decreases |roles|
  {
    if roles != [] {
      var front, last := roles[..|roles| - 1], roles[|roles| - 1];
      assert roles == front + [last];
      NormalizedNames(front, target);
      forall name ensures Names(roles, name) <==> Names(front, name) || Text.Strip(last) == name {
        NamesSnoc(front, last, name);
      }
    }
  }

  /** Names are kept in the order in which they first occur: what a prefix keeps comes first. */
  lemma {:induction false} NormalizedInOrder(roles: seq<string>, target: string, n: nat)
    requires n <= |roles|
    ensures Normalized(roles[..n], target) <= Normalized(roles, target)
    decreases |roles|
  {
    if n < |roles| {
      var front := roles[..|roles| - 1];
      assert front[..n] == roles[..n];
      NormalizedInOrder(front, target, n);
    } else {
      assert roles[..n] == roles;
    }
  }

  /** The first priority entry for a role that is not registered decides. */
  predicate PrioritiesKnown(roles: map<string, string>, entries: seq<(string, int)>) {
    forall i :: 0 <= i < |entries| ==> Text.Strip(entries[i].0) == "" || Text.Strip(entries[i].0) in roles
  }

  function PriorityMap(entries: seq<(string, int)>): map<string, int> {
    if entries == [] then map[]
    else
      var front, last := PriorityMap(entries[..|entries| - 1]), entries[|entries| - 1];
      if Text.Strip(last.0) == "" then front else front[Text.Strip(last.0) := last.1]
  }

  function PolicyError(r: Registry, policy: FallbackPolicy): Option<RegistryError> {
    if policy.sourceRole !in r.roles then Some(UnknownSourceRole)
    else if policy.targetRole !in r.roles then Some(UnknownTargetRole)
    else if !PrioritiesKnown(r.roles, policy.priorities) then Some(UnknownPriorityRole)
    else None
  }

  /** A policy that names an unknown priority role is refused after its fallback list has been stored. */
  function WithPolicy(r: Registry, policy: FallbackPolicy): Registry {
    var key := (policy.sourceRole, policy.targetRole);
    var listed := r.(fallbacks := r.fallbacks[key := Normalized(policy.fallbackRoles, policy.targetRole)]);
    match PolicyError(r, policy)
    case None => listed.(priorities := r.priorities[key := PriorityMap(policy.priorities)])
    case Some(UnknownPriorityRole) => listed
    case Some(_) => r
  }

  /** A refused policy changes nothing exactly when it was refused for another reason than its priorities, or its
      fallback list was stored already. */
  lemma RefusedPolicyKeepsIff(r: Registry, policy: FallbackPolicy)
    requires PolicyError(r, policy).Some?
    ensures var key := (policy.sourceRole, policy.targetRole);
      WithPolicy(r, policy) == r <==>
        (PolicyError(r, policy) == Some(UnknownPriorityRole) ==>
          key in r.fallbacks && r.fallbacks[key] == Normalized(policy.fallbackRoles, policy.targetRole))
  {
  }

  datatype Change =
    | Register(agent: AgentSpec)
    | Unregister(id: string)
    | AddRoute(route: HandoffRoute)
    | SetPolicy(policy: FallbackPolicy)

  /** The registry after one call, which may have been refused. */
  function Step(r: Registry, c: Change): Registry {
    match c
    case Register(agent) => if RegisterError(r, agent).None? then Registered(r, agent) else r
    case Unregister(id) => if id in r.agents then Unregistered(r, id) else r
    case AddRoute(route) => if RouteError(r, route).None? then WithRoute(r, route) else r
    case SetPolicy(policy) => WithPolicy(r, policy)
  }

  function After(r: Registry, changes: seq<Change>): Registry
    decreases |changes|
  {
    if changes == [] then r else After(Step(r, changes[0]), changes[1..])
  }

  lemma {:induction false} PriorityKeysKnown(r: Registry, entries: seq<(string, int)>)
    requires PrioritiesKnown(r.roles, entries)
    ensures PriorityMap(entries).Keys <= r.roles.Keys
    decreases |entries|
  {
    if entries != [] {
      PriorityKeysKnown(r, entries[..|entries| - 1]);
    }
  }

  lemma UnregisterKeepsValid(r: Registry, id: string)
    requires Valid(r) && id in r.agents
    ensures Valid(Unregistered(r, id))
  {
    var r', role := Unregistered(r, id), r.agents[id].role;
    assert r.roles[role] == id;
    assert Inverse(r') by {
      forall x | x in r'.agents ensures r'.agents[x].role in r'.roles {
        assert r.roles[r.agents[x].role] == x;
      }
    }
    forall key | key in r'.routes ensures RouteOk(r', key, r'.routes[key]) {
      assert RouteOk(r, key, r.routes[key]);
    }
  }

  lemma RegisterKeepsValid(r: Registry, agent: AgentSpec)
    requires Valid(r) && RegisterError(r, agent).None?
    ensures Valid(Registered(r, agent))
  {
    var r' := Registered(r, agent);
    assert Inverse(r');
    forall key | key in r'.routes ensures RouteOk(r', key, r'.routes[key]) {
      assert RouteOk(r, key, r.routes[key]);
    }
  }

  lemma WithRouteKeepsValid(r: Registry, route: HandoffRoute)
    requires Valid(r) && RouteError(r, route).None?
    ensures Valid(WithRoute(r, route))
  {
    var r' := WithRoute(r, route);
    forall key | key in r'.routes ensures RouteOk(r', key, r'.routes[key]) {
      assert key in r.routes ==> RouteOk(r, key, r.routes[key]);
    }
  }

  lemma WithPolicyKeepsValid(r: Registry, policy: FallbackPolicy)
    requires Valid(r)
    ensures Valid(WithPolicy(r, policy))
  {
    var r' := WithPolicy(r, policy);
    if PolicyError(r, policy).None? {
      PriorityKeysKnown(r, policy.priorities);
    }
    forall key | key in r'.routes ensures RouteOk(r', key, r'.routes[key]) {
      assert RouteOk(r, key, r.routes[key]);
    }
  }

  lemma StepKeepsValid(r: Registry, c: Change)
    requires Valid(r)
    ensures Valid(Step(r, c))
  {
    match c
    case Register(agent) => if RegisterError(r, agent).None? { RegisterKeepsValid(r, agent); }
    case Unregister(id) => if id in r.agents { UnregisterKeepsValid(r, id); }
    case AddRoute(route) => if RouteError(r, route).None? { WithRouteKeepsValid(r, route); }
    case SetPolicy(policy) => WithPolicyKeepsValid(r, policy);
  }

  /** Every reachable registry is valid. */
  lemma {:induction false} ReachableIsValid(r: Registry, changes: seq<Change>)
    requires Valid(r)
    ensures Valid(After(r, changes))
    decreases |changes|
  {
    if changes != [] {
      StepKeepsValid(r, changes[0]);
      ReachableIsValid(Step(r, changes[0]), changes[1..]);
    }
  }

  /** What unregistering leaves: all but the agent and its role, the routes that do not name the role, and the fallback
      lists and priorities that do not start at it, without its name. */
  ghost predicate WithoutAgent(before: Registry, id: string, after: Registry)
    requires id in before.agents
  {
    var role := before.agents[id].role;
    && (forall x :: x in after.agents <==> x in before.agents && x != id)
    && (forall x :: x in after.agents ==> after.agents[x] == before.agents[x])
    && (forall name :: name in after.roles <==> name in before.roles && name != role)
    && (forall name :: name in after.roles ==> after.roles[name] == before.roles[name])
    && (forall key: RolePair :: key in after.routes <==> key in before.routes && key.0 != role && key.1 != role)
    && (forall key :: key in after.routes ==> after.routes[key] == before.routes[key])
    && (forall key: RolePair :: key in after.fallbacks <==> key in before.fallbacks && key.0 != role)
    && (forall key, name :: key in after.fallbacks ==>
          (name in after.fallbacks[key] <==> name in before.fallbacks[key] && name != role))
    && (forall key :: key in after.fallbacks && role !in before.fallbacks[key] ==> after.fallbacks[key] == before.fallbacks[key])
    && (forall key: RolePair :: key in after.priorities <==> key in before.priorities && key.0 != role)
    && (forall key, name :: key in after.priorities ==>
          (name in after.priorities[key] <==> name in before.priorities[key] && name != role)
          && (name in after.priorities[key] ==> after.priorities[key][name] == before.priorities[key][name]))
  }

  lemma {:induction false} ListOutsideMembers(roles: seq<string>, gone: set<string>)
    ensures forall role :: role in ListOutside(roles, gone) <==> role in roles && role !in gone
    ensures (forall role :: role in roles ==> role !in gone) ==> ListOutside(roles, gone) == roles
    decreases |roles|
  {
    if roles != [] {
      ListOutsideMembers(roles[1..], gone);
      assert roles == [roles[0]] + roles[1..];
    }
  }

  lemma UnregisteredIs(r: Registry, id: string)
    requires id in r.agents
    ensures WithoutAgent(r, id, Step(r, Change.Unregister(id)))
  {
    var role := r.agents[id].role;
    forall key | key in r.fallbacks {
      ListOutsideMembers(r.fallbacks[key], {role});
    }
  }

  // ----- Queries -----

  function CanHandoff(r: Registry, source: AgentSpec, target: AgentSpec): bool {
    var key := (source.role, target.role);
    key in r.routes && r.routes[key].required <= target.capabilities
  }

  /** In a valid registry the capability check never refuses: a handoff is allowed iff its route is stored. */
  lemma HandoffIffRoute(r: Registry, sourceId: string, targetId: string)
    requires Valid(r) && sourceId in r.agents && targetId in r.agents
    ensures CanHandoff(r, r.agents[sourceId], r.agents[targetId]) <==>
      (r.agents[sourceId].role, r.agents[targetId].role) in r.routes
  {
    var key := (r.agents[sourceId].role, r.agents[targetId].role);
    if key in r.routes {
      assert RouteOk(r, key, r.routes[key]);
    }
  }

  function AgentForRole(r: Registry, role: string): Option<AgentSpec> {
    if role in r.roles && r.roles[role] in r.agents then Some(r.agents[r.roles[role]]) else None
  }

  predicate IsEligible(r: Registry, source: AgentSpec, target: AgentSpec, required: Option<Capability>) {
    CanHandoff(r, source, target) && (required.Some? ==> required.value in target.capabilities)
  }

  function FallbackRoles(r: Registry, source: AgentSpec, role: string): seq<string> {
    if (source.role, role) in r.fallbacks then r.fallbacks[(source.role, role)] else []
  }

  function Priority(r: Registry, source: AgentSpec, role: string, agent: AgentSpec): int {
    var key := (source.role, role);
    if key in r.priorities && agent.role in r.priorities[key] then r.priorities[key][agent.role] else 0
  }

  /** Higher priorities first, then smaller ids. */
  function CandidateOrder(r: Registry, source: AgentSpec, role: string, agent: AgentSpec): seq<int> {
    [-Priority(r, source, role, agent)] + Codes(agent.agentId)
  }

  /** A stored route leads from the source's role to the target's, and the target has all it requires and what the
      caller asks for. */
  ghost predicate MayTake(r: Registry, source: AgentSpec, target: AgentSpec, required: Option<Capability>) {
    && (source.role, target.role) in r.routes
    && (forall c :: c in r.routes[(source.role, target.role)].required ==> c in target.capabilities)
    && match required case None => true case Some(c) => c in target.capabilities
  }

  lemma EligibleMayTake(r: Registry, source: AgentSpec, target: AgentSpec, required: Option<Capability>)
    ensures IsEligible(r, source, target, required) <==> MayTake(r, source, target, required)
  {
    if (source.role, target.role) in r.routes {
      var needs := r.routes[(source.role, target.role)].required;
      assert needs <= target.capabilities <==> forall c :: c in needs ==> c in target.capabilities;
    }
  }

  /** The agents a fallback may go to: another role than the one asked for, listed for it, that may take over. */
  ghost predicate IsCandidate(r: Registry, source: AgentSpec, role: string, required: Option<Capability>, id: string) {
    && id in r.agents && r.agents[id].role != role
    && (source.role, role) in r.fallbacks && r.agents[id].role in r.fallbacks[(source.role, role)]
    && MayTake(r, source, r.agents[id], required)
  }

  /** The agents any route of the source leads to. */
  ghost predicate IsRouteTarget(r: Registry, source: AgentSpec, required: Option<Capability>, id: string) {
    id in r.agents && MayTake(r, source, r.agents[id], required)
  }

  /** The role of a has the higher stored priority, zero standing in for a missing one; or they are equal and its id
      comes first. */
  ghost predicate Outranks(r: Registry, source: AgentSpec, role: string, a: AgentSpec, b: AgentSpec) {
    var stored := if (source.role, role) in r.priorities then r.priorities[(source.role, role)] else map[];
    var x := if a.role in stored then stored[a.role] else 0;
    var y := if b.role in stored then stored[b.role] else 0;
    x > y || (x == y && ComesBefore(a.agentId, b.agentId))
  }

  lemma CandidateOrderRanks(r: Registry, source: AgentSpec, role: string, a: AgentSpec, b: AgentSpec)
    ensures LexLess(CandidateOrder(r, source, role, a), CandidateOrder(r, source, role, b)) <==> Outranks(r, source, role, a, b)
  {
    var s, t := CandidateOrder(r, source, role, a), CandidateOrder(r, source, role, b);
    assert s[1..] == Codes(a.agentId) && t[1..] == Codes(b.agentId);
    CodesOrder(a.agentId, b.agentId);
  }

  lemma CandidateOrdersDiffer(r: Registry, source: AgentSpec, role: string, a: AgentSpec, b: AgentSpec)
    requires a.agentId != b.agentId
    ensures CandidateOrder(r, source, role, a) != CandidateOrder(r, source, role, b)
  {
    if CandidateOrder(r, source, role, a) == CandidateOrder(r, source, role, b) {
      assert CandidateOrder(r, source, role, a)[1..] == Codes(a.agentId);
      assert CandidateOrder(r, source, role, b)[1..] == Codes(b.agentId);
      CodesInjective(a.agentId, b.agentId);
    }
  }

  // ----- The registry as it is written -----

  class AgentRegistry {
    var agents: map<string, AgentSpec>
    var roles: map<string, string>
    var routes: map<RolePair, HandoffRoute>
    var fallbacks: map<RolePair, seq<string>>
    var priorities: map<RolePair, map<string, int>>

    constructor ()
      ensures State() == EMPTY && Valid(State())
    {
      agents, roles, routes, fallbacks, priorities := map[], map[], map[], map[], map[];
    }

    function State(): Registry
      reads this
    {
      Registry(agents, roles, routes, fallbacks, priorities)
    }

    method Register(agent: AgentSpec) returns (error: Option<RegistryError>)
      requires Valid(State())
      modifies this
      ensures error == RegisterError(old(State()), agent)
      ensures State() == Step(old(State()), Change.Register(agent)) && Valid(State())
    {
      StepKeepsValid(State(), Change.Register(agent));
      if Text.Strip(agent.agentId) == "" {
        return Some(EmptyAgentId);
      }
      if Text.Strip(agent.role) == "" {
        return Some(EmptyRole);
      }
      if agent.agentId in agents {
        return Some(DuplicateAgent);
      }
      if agent.role in roles {
        return Some(RoleTaken);
      }
      agents := agents[agent.agentId := agent];
      roles := roles[agent.role := agent.agentId];
      return None;
    }

    method Unregister(id: string) returns (error: Option<RegistryError>)
      requires Valid(State())
      modifies this
      ensures error == if id in old(agents) then None else Some(UnknownAgent)
      ensures State() == Step(old(State()), Change.Unregister(id)) && Valid(State())
    {
      if id !in agents {
        return Some(UnknownAgent);
      }
      UnregisterKeepsValid(State(), id);
      var role := agents[id].role;
      agents := agents - {id};
      roles := roles - {role};
      routes := RoutesOutside(routes, {role});
      fallbacks := FallbacksOutside(fallbacks, {role});
      priorities := PrioritiesOutside(priorities, {role});
      return None;
    }

    method AddHandoffRoute(route: HandoffRoute) returns (error: Option<RegistryError>)
      requires Valid(State())
      modifies this
      ensures error == RouteError(old(State()), route)
      ensures State() == Step(old(State()), AddRoute(route)) && Valid(State())
    {
      StepKeepsValid(State(), AddRoute(route));
      if route.sourceRole !in roles {
        return Some(UnknownSourceRole);
      }
      if route.targetRole !in roles {
        return Some(UnknownTargetRole);
      }
      var target := agents[roles[route.targetRole]];
      var missing := route.required - target.capabilities;
      if missing != {} {
        ghost var c :| c in missing;
        return Some(MissingCapabilities);
      }
      assert forall c :: c in route.required && c !in target.capabilities ==> c in missing;
      routes := routes[(route.sourceRole, route.targetRole) := route];
      return None;
    }

    method SetHandoffFallbackPolicy(policy: FallbackPolicy) returns (error: Option<RegistryError>)
      requires Valid(State())
      modifies this
      ensures error == PolicyError(old(State()), policy)
      ensures State() == Step(old(State()), SetPolicy(policy)) && Valid(State())
    {
      ghost var r := State();
      StepKeepsValid(r, SetPolicy(policy));
      if policy.sourceRole !in roles {
        return Some(UnknownSourceRole);
      }
      if policy.targetRole !in roles {
        return Some(UnknownTargetRole);
      }
      var normalized := NormalizeRoles(policy.fallbackRoles, policy.targetRole);
      fallbacks := fallbacks[(policy.sourceRole, policy.targetRole) := normalized];
      var normalizedPriorities := NormalizePriorities(roles, policy.priorities);
      if normalizedPriorities.None? {
        return Some(UnknownPriorityRole);
      }
      priorities := priorities[(policy.sourceRole, policy.targetRole) := normalizedPriorities.value];
      return None;
    }

    method ResolveHandoffTarget(sourceId: string, role: string, required: Option<Capability>)
      returns (r: Result<Option<AgentSpec>, RegistryError>)
      requires Valid(State())
      ensures r.Failure? <==> sourceId !in agents
      ensures r.Success? ==> ResolvesTo(State(), agents[sourceId], role, required, r.value)
    {
      if sourceId !in agents {
        return Failure(UnknownAgent);
      }
      var source := agents[sourceId];
      if role == "" {
        var target := FirstHandoffTarget(State(), source, required);
        return Success(target);
      }
      PrimaryIs(State(), source, role, required);
      var primary := AgentForRole(State(), role);
      if primary.Some? && IsEligible(State(), source, primary.value, required) {
        return Success(primary);
      }
      var best := BestFallback(State(), source, role, required);
      return Success(best);
    }
  }

  // ----- Resolution -----

  ghost predicate IsFirstTarget(r: Registry, source: AgentSpec, required: Option<Capability>, found: Option<AgentSpec>) {
    match found
    case None => forall id :: !IsRouteTarget(r, source, required, id)
    case Some(agent) =>
      && IsRouteTarget(r, source, required, agent.agentId) && r.agents[agent.agentId] == agent
      && forall id :: IsRouteTarget(r, source, required, id) && id != agent.agentId ==> ComesBefore(agent.agentId, id)
  }

  ghost predicate IsBestFallback(r: Registry, source: AgentSpec, role: string, required: Option<Capability>,
                                 found: Option<AgentSpec>)
  {
    match found
    case None => forall id :: !IsCandidate(r, source, role, required, id)
    case Some(agent) =>
      && IsCandidate(r, source, role, required, agent.agentId) && r.agents[agent.agentId] == agent
      && forall id :: IsCandidate(r, source, role, required, id) && id != agent.agentId ==>
           Outranks(r, source, role, agent, r.agents[id])
  }

  /** The agent of the role asked for, if it may take over. */
  ghost predicate IsPrimary(r: Registry, source: AgentSpec, role: string, required: Option<Capability>, id: string) {
    id in r.agents && r.agents[id].role == role && MayTake(r, source, r.agents[id], required)
  }

  lemma PrimaryIs(r: Registry, source: AgentSpec, role: string, required: Option<Capability>)
    requires Valid(r)
    ensures var p := AgentForRole(r, role);
      && (p.Some? && IsEligible(r, source, p.value, required) ==>
            forall id :: IsPrimary(r, source, role, required, id) <==> id == p.value.agentId)
      && (p.Some? ==> p.value.agentId in r.agents && r.agents[p.value.agentId] == p.value)
      && (!(p.Some? && IsEligible(r, source, p.value, required)) ==> forall id :: !IsPrimary(r, source, role, required, id))
  {
    var p := AgentForRole(r, role);
    if p.Some? {
      EligibleMayTake(r, source, p.value, required);
    }
    forall id | id in r.agents && r.agents[id].role == role ensures p == Some(r.agents[id]) {
    }
  }

  /** Where a handoff goes: to the agent of the target role if it is eligible, else to the eligible fallback
      of the highest priority, ties to the smallest id; without a role, to the smallest id a route leads to.
      Nowhere exactly when nobody is eligible. */
  ghost predicate ResolvesTo(r: Registry, source: AgentSpec, role: string, required: Option<Capability>,
                             found: Option<AgentSpec>)
  {
    if role == "" then IsFirstTarget(r, source, required, found)
    else
      && (forall id :: IsPrimary(r, source, role, required, id) ==> found == Some(r.agents[id]))
      && ((forall id :: !IsPrimary(r, source, role, required, id)) ==> IsBestFallback(r, source, role, required, found))
  }

  /** Collects the targets of the routes of the source, sorts them by id and takes the first. */
  method FirstHandoffTarget(r: Registry, source: AgentSpec, required: Option<Capability>) returns (found: Option<AgentSpec>)
    requires Valid(r)
    ensures IsFirstTarget(r, source, required, found)
  {
    var targets: map<string, seq<int>> := map[];
    var todo := r.routes.Keys;
    while todo != {}
      invariant todo <= r.routes.Keys
      invariant forall id :: id in targets ==> targets[id] == Codes(id) && IsRouteTarget(r, source, required, id)
      invariant forall id :: IsRouteTarget(r, source, required, id) ==>
        id in targets || (source.role, r.agents[id].role) in todo
      decreases todo
    {
      var key :| key in todo;
      todo := todo - {key};
      assert RouteOk(r, key, r.routes[key]);
      if key.0 != source.role {
        continue;
      }
      var target := r.agents[r.roles[key.1]];
      if required.Some? && required.value !in target.capabilities {
        continue;
      }
      EligibleMayTake(r, source, target, required);
      if r.routes[key].required <= target.capabilities {
        targets := targets[target.agentId := Codes(target.agentId)];
      }
    }
    forall x, y | x in targets && y in targets && x != y ensures targets[x] != targets[y] {
      if Codes(x) == Codes(y) {
        CodesInjective(x, y);
      }
    }
    found := FirstEntry(r, targets);
    LeastIsFirst(r, source, required, targets, found);
  }

  /** Collects the eligible fallbacks, sorts them by priority and id and takes the first. */
  method BestFallback(r: Registry, source: AgentSpec, role: string, required: Option<Capability>)
    returns (found: Option<AgentSpec>)
    requires Valid(r)
    ensures IsBestFallback(r, source, role, required, found)
  {
    var listed := FallbackRoles(r, source, role);
    var candidates: map<string, seq<int>> := map[];
    var seen := {role};
    for i := 0 to |listed|
      invariant role in seen && forall j :: 0 <= j < i ==> listed[j] in seen
      invariant forall name :: name in seen && name != role ==> name in listed
      invariant AreCandidates(r, source, role, required, seen, candidates)
    {
      if listed[i] in seen {
        continue;
      }
      var target := AgentForRole(r, listed[i]);
      if target.Some? {
        EligibleMayTake(r, source, target.value, required);
      }
      SeeRole(r, source, role, required, seen, candidates, listed[i]);
      seen := seen + {listed[i]};
      if target.Some? && IsEligible(r, source, target.value, required) {
        candidates := candidates[target.value.agentId := CandidateOrder(r, source, role, target.value)];
      }
    }
    CandidatesDistinct(r, source, role, required, seen, candidates);
    found := FirstEntry(r, candidates);
    LeastIsBest(r, source, role, required, seen, candidates, found);
  }

  /** The candidates collected: those whose role has been seen, with their sort keys. */
  ghost predicate AreCandidates(r: Registry, source: AgentSpec, role: string, required: Option<Capability>, seen: set<string>,
                                candidates: map<string, seq<int>>)
  {
    && (forall id :: id in candidates ==>
          IsCandidate(r, source, role, required, id) && candidates[id] == CandidateOrder(r, source, role, r.agents[id]))
    && (forall id :: IsCandidate(r, source, role, required, id) && r.agents[id].role in seen ==> id in candidates)
  }

  /** Seeing one more listed role adds its agent, if there is an eligible one. */
  lemma SeeRole(r: Registry, source: AgentSpec, role: string, required: Option<Capability>, seen: set<string>,
                candidates: map<string, seq<int>>, name: string)
    requires Inverse(r) && name != role && name in FallbackRoles(r, source, role)
    requires AreCandidates(r, source, role, required, seen, candidates)
    ensures var target := AgentForRole(r, name);
      AreCandidates(r, source, role, required, seen + {name},
                    if target.Some? && IsEligible(r, source, target.value, required)
                    then candidates[target.value.agentId := CandidateOrder(r, source, role, target.value)]
                    else candidates)
  {
    var target := AgentForRole(r, name);
    if target.Some? {
      EligibleMayTake(r, source, target.value, required);
    }
  }

  /** The entry with the least key. */
  ghost predicate IsLeastEntry(r: Registry, keys: map<string, seq<int>>, found: Option<AgentSpec>) {
    match found
    case None => keys == map[]
    case Some(agent) =>
      && agent.agentId in keys && agent.agentId in r.agents && r.agents[agent.agentId] == agent
      && forall id :: id in keys && id != agent.agentId ==> LexLess(keys[agent.agentId], keys[id])
  }

  lemma LeastIsBest(r: Registry, source: AgentSpec, role: string, required: Option<Capability>, seen: set<string>,
                    candidates: map<string, seq<int>>, found: Option<AgentSpec>)
    requires AreCandidates(r, source, role, required, seen, candidates)
    requires forall id :: IsCandidate(r, source, role, required, id) ==> r.agents[id].role in seen
    requires IsLeastEntry(r, candidates, found)
    ensures IsBestFallback(r, source, role, required, found)
  {
    if found.Some? {
      forall id | id in candidates && id != found.value.agentId ensures Outranks(r, source, role, found.value, r.agents[id]) {
        CandidateOrderRanks(r, source, role, found.value, r.agents[id]);
      }
    }
  }

  lemma LeastIsFirst(r: Registry, source: AgentSpec, required: Option<Capability>, targets: map<string, seq<int>>,
                     found: Option<AgentSpec>)
    requires forall id :: id in targets <==> IsRouteTarget(r, source, required, id)
    requires forall id :: id in targets ==> targets[id] == Codes(id)
    requires IsLeastEntry(r, targets, found)
    ensures IsFirstTarget(r, source, required, found)
  {
    if found.Some? {
      forall id | id in targets && id != found.value.agentId ensures ComesBefore(found.value.agentId, id) {
        CodesOrder(found.value.agentId, id);
      }
    }
  }

  lemma CandidatesDistinct(r: Registry, source: AgentSpec, role: string, required: Option<Capability>, seen: set<string>,
                           candidates: map<string, seq<int>>)
    requires Inverse(r) && AreCandidates(r, source, role, required, seen, candidates)
    ensures DistinctKeys(candidates)
  {
    forall x, y | x in candidates && y in candidates && x != y ensures candidates[x] != candidates[y] {
      CandidateOrdersDiffer(r, source, role, r.agents[x], r.agents[y]);
    }
  }

  /** The agent with the least key. */
  method FirstEntry(r: Registry, keys: map<string, seq<int>>) returns (found: Option<AgentSpec>)
    requires DistinctKeys(keys) && Inverse(r) && keys.Keys <= r.agents.Keys
    ensures IsLeastEntry(r, keys, found)
  {
    var sorted := SortedEntries(keys);
    if sorted == [] {
      return None;
    }
    assert sorted[0] in sorted;
    found := Some(r.agents[sorted[0]]);
    forall id | id in keys && id != sorted[0] ensures LexLess(keys[sorted[0]], keys[id]) {
      var j :| 0 <= j < |sorted| && sorted[j] == id;
    }
  }

  /** Stops at the first entry for a role that is not registered. */
  method NormalizePriorities(roles: map<string, string>, entries: seq<(string, int)>)
    returns (normalized: Option<map<string, int>>)
    ensures normalized == if PrioritiesKnown(roles, entries) then Some(PriorityMap(entries)) else None
  {
    var priorities: map<string, int> := map[];
    for i := 0 to |entries|
      invariant forall j :: 0 <= j < i ==> Text.Strip(entries[j].0) == "" || Text.Strip(entries[j].0) in roles
      invariant priorities == PriorityMap(entries[..i])
    {
      assert entries[..i + 1][..i] == entries[..i];
      var name := Text.Strip(entries[i].0);
      if name == "" {
        continue;
      }
      if name !in roles {
        return None;
      }
      priorities := priorities[name := entries[i].1];
    }
    assert entries[..|entries|] == entries;
    return Some(priorities);
  }

  method NormalizeRoles(roles: seq<string>, target: string) returns (normalized: seq<string>)
    ensures normalized == Normalized(roles, target)
  {
    normalized := [];
    var seen: set<string> := {};
    for i := 0 to |roles|
      invariant normalized == Normalized(roles[..i], target)
      invariant forall name :: name in seen <==> name in normalized
    {
      assert roles[..i + 1][..i] == roles[..i];
      var name := Text.Strip(roles[i]);
      if name == "" || name == target || name in seen {
        continue;
      }
      seen := seen + {name};
      normalized := normalized + [name];
    }
    assert roles[..|roles|] == roles;
  }
}
