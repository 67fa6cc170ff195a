/** The dependency graph of a background job: construction, validation and the
    ready query (src/core/task_graph.py). */
module TaskGraphs {
  import opened Values

  type NodeId = string

  /** What one awaited handler call amounts to: an output, a timeout, or any other exception. */
  datatype HandlerResult =
    | Returned(output: Payload)
    | TimedOut
    | Raised(message: string)

  /** A handler is a function of its input and of the number of the attempt, counted from 1. */
  type Handler = (Payload, nat) -> HandlerResult

  datatype TaskNode = TaskNode(nodeId: NodeId, dependsOn: seq<NodeId>, retryLimit: int, handler: Handler)

  /** An insertion-ordered dictionary of nodes: `order` lists the keys of `nodes`. */
  datatype TaskGraph = TaskGraph(order: seq<NodeId>, nodes: map<NodeId, TaskNode>) {
    function Deps(id: NodeId): seq<NodeId>
      requires id in nodes
    {
      nodes[id].dependsOn
    }
  }

  datatype GraphError =
    | DuplicateNodeId
    | UnknownDependency(nodeId: NodeId, unknown: seq<NodeId>)
    | CycleDetected(nodeId: NodeId)

  // ----- What a valid graph is -----

  ghost predicate DistinctIds(nodes: seq<TaskNode>) {
    forall i, j :: 0 <= i < j < |nodes| ==> nodes[i].nodeId != nodes[j].nodeId
  }

  ghost predicate Indexed(g: TaskGraph) {
    && (forall i, j :: 0 <= i < j < |g.order| ==> g.order[i] != g.order[j])
    && (forall id :: id in g.order <==> id in g.nodes)
    && (forall id :: id in g.nodes ==> g.nodes[id].nodeId == id)
  }

  ghost predicate KnownDependencies(g: TaskGraph) {
    forall id, i :: id in g.nodes && 0 <= i < |g.Deps(id)| ==> g.Deps(id)[i] in g.nodes
  }

  /** A path follows dependency edges inside the graph. */
  ghost predicate IsPath(g: TaskGraph, p: seq<NodeId>) {
    && |p| > 0
    && (forall i :: 0 <= i < |p| ==> p[i] in g.nodes)
    && (forall i, j :: 0 <= i < j < |p| && j == i + 1 ==> p[j] in g.Deps(p[i]))
  }

  /** A path with at least one edge that leads from `id` back to `id`. */
  ghost predicate IsCycleAt(g: TaskGraph, p: seq<NodeId>, id: NodeId) {
    IsPath(g, p) && |p| >= 2 && p[0] == id == p[|p| - 1]
  }

  ghost predicate OnCycle(g: TaskGraph, id: NodeId) {
    exists p :: IsCycleAt(g, p, id)
  }

  ghost predicate Acyclic(g: TaskGraph) {
    forall id :: !OnCycle(g, id)
  }

  /** `rank` certifies acyclicity: every dependency edge lowers it. */
  ghost predicate IsRank(g: TaskGraph, rank: map<NodeId, nat>) {
    && rank.Keys == g.nodes.Keys
    && (forall id, i :: id in g.nodes && 0 <= i < |g.Deps(id)| ==>
          g.Deps(id)[i] in rank && rank[g.Deps(id)[i]] < rank[id])
  }

  /** The graphs the constructor lets through. */
  ghost predicate WellFormed(g: TaskGraph) {
    Indexed(g) && exists rank :: IsRank(g, rank)
  }

  ghost function Rank(g: TaskGraph): (rank: map<NodeId, nat>)
    requires WellFormed(g)
    ensures IsRank(g, rank)
  {
    var rank :| IsRank(g, rank);
    rank
  }

  /** Along a path the rank drops by at least one per edge. */
  lemma {:induction false} RankDropsAlongPath(g: TaskGraph, rank: map<NodeId, nat>, p: seq<NodeId>)
    requires IsRank(g, rank) && IsPath(g, p)
    ensures rank[p[|p| - 1]] + (|p| - 1) <= rank[p[0]]
    decreases |p|
  {
    if |p| > 1 {
      var tail := p[1..];
      forall i, j | 0 <= i < j < |tail| && j == i + 1 ensures tail[j] in g.Deps(tail[i]) {
        assert p[j + 1] in g.Deps(p[i + 1]);
      }
      RankDropsAlongPath(g, rank, tail);
      assert p[1] in g.Deps(p[0]);
    }
  }

  lemma RankedMeansAcyclic(g: TaskGraph, rank: map<NodeId, nat>)
    requires IsRank(g, rank)
    ensures Acyclic(g)
  {
    forall id, p | IsCycleAt(g, p, id) ensures false {
      RankDropsAlongPath(g, rank, p);
    }
  }

  lemma WellFormedGraphIsValid(g: TaskGraph)
    requires WellFormed(g)
    ensures KnownDependencies(g) && Acyclic(g)
  {
    RankedMeansAcyclic(g, Rank(g));
  }

  // ----- Construction -----

  /** The dictionary comprehension over the node list: later nodes overwrite earlier ones. */
  function IndexById(nodes: seq<TaskNode>): map<NodeId, TaskNode> {
    if nodes == [] then map[]
    else
      var last := nodes[|nodes| - 1];
      IndexById(nodes[..|nodes| - 1])[last.nodeId := last]
  }

  function Ids(nodes: seq<TaskNode>): seq<NodeId> {
    seq(|nodes|, i requires 0 <= i < |nodes| => nodes[i].nodeId)
  }

  function GraphOf(nodes: seq<TaskNode>): TaskGraph {
    TaskGraph(Ids(nodes), IndexById(nodes))
  }

  lemma {:induction false} IndexKeys(nodes: seq<TaskNode>)
    ensures forall id :: id in IndexById(nodes) <==> id in Ids(nodes)
    ensures forall id :: id in IndexById(nodes) ==> IndexById(nodes)[id].nodeId == id
    decreases |nodes|
  {
    if nodes != [] {
      var front, last := nodes[..|nodes| - 1], nodes[|nodes| - 1];
      IndexKeys(front);
      assert Ids(nodes) == Ids(front) + [last.nodeId];
    }
  }

  lemma UpdatedSize<K, V>(m: map<K, V>, k: K, v: V)
    ensures |m[k := v]| == if k in m then |m| else |m| + 1
  {
    assert m[k := v].Keys == m.Keys + {k};
    if k in m {
      assert m.Keys + {k} == m.Keys;
    }
  }

  /** The length comparison of the constructor detects exactly the duplicate ids. */
  lemma {:induction false} IndexSize(nodes: seq<TaskNode>)
    ensures |IndexById(nodes)| <= |nodes|
    ensures |IndexById(nodes)| == |nodes| <==> DistinctIds(nodes)
    decreases |nodes|
  {
    if nodes != [] {
      var front, last := nodes[..|nodes| - 1], nodes[|nodes| - 1];
      IndexSize(front);
      IndexKeys(front);
      UpdatedSize(IndexById(front), last.nodeId, last);
      DistinctSnoc(front, last);
      assert nodes == front + [last];
    }
  }

  lemma DistinctSnoc(front: seq<TaskNode>, last: TaskNode)
    ensures DistinctIds(front + [last]) <==> DistinctIds(front) && last.nodeId !in Ids(front)
  {
    var nodes := front + [last];
    if DistinctIds(front) && last.nodeId !in Ids(front) {
      forall i, j | 0 <= i < j < |nodes| ensures nodes[i].nodeId != nodes[j].nodeId {
        assert nodes[i].nodeId == Ids(front)[i];
      }
    }
    if DistinctIds(nodes) {
      forall i, j | 0 <= i < j < |front| ensures front[i].nodeId != front[j].nodeId {
        assert nodes[i].nodeId != nodes[j].nodeId;
      }
      forall i | 0 <= i < |front| ensures Ids(front)[i] != last.nodeId {
        assert nodes[i].nodeId != nodes[|front|].nodeId;
      }
    }
  }

  lemma GraphOfIsIndexed(nodes: seq<TaskNode>)
    requires DistinctIds(nodes)
    ensures Indexed(GraphOf(nodes))
  {
    IndexKeys(nodes);
  }

  function UnknownOf(deps: seq<NodeId>, known: set<NodeId>): (unknown: seq<NodeId>)
    ensures forall dep :: dep in unknown <==> dep in deps && dep !in known
  {
    if deps == [] then []
    else (if deps[0] in known then [] else [deps[0]]) + UnknownOf(deps[1..], known)
  }

  /** The unknown dependencies are listed in their order, each as often as it is named. */
  lemma {:induction false} UnknownInOrder(a: seq<NodeId>, dep: NodeId, b: seq<NodeId>, known: set<NodeId>)
    ensures UnknownOf(a + [dep] + b, known) ==
            UnknownOf(a, known) + (if dep in known then [] else [dep]) + UnknownOf(b, known)
    decreases |a|
  {
    var all := a + [dep] + b;
    if a == [] {
      assert all[0] == dep && all[1..] == b;
    } else {
      assert all[0] == a[0] && all[1..] == a[1..] + [dep] + b;
      UnknownInOrder(a[1..], dep, b, known);
      FourAssociate(if a[0] in known then [] else [a[0]], UnknownOf(a[1..], known), if dep in known then [] else [dep],
                    UnknownOf(b, known));
    }
  }

  lemma FourAssociate(h: seq<NodeId>, x: seq<NodeId>, m: seq<NodeId>, y: seq<NodeId>)
    ensures h + (x + m + y) == (h + x) + m + y
  {
  }

  function UnknownAt(g: TaskGraph, k: nat): (unknown: seq<NodeId>)
    requires Indexed(g) && k < |g.order|
    ensures unknown != [] ==> !KnownDependencies(g)
  {
    var id := g.order[k];
    var unknown := UnknownOf(g.Deps(id), g.nodes.Keys);
    assert unknown != [] ==> unknown[0] in unknown;
    unknown
  }

  lemma AllKnown(g: TaskGraph)
    requires Indexed(g)
    requires forall k :: 0 <= k < |g.order| ==> UnknownAt(g, k) == []
    ensures KnownDependencies(g)
  {
    forall id, dep | id in g.nodes && dep in g.Deps(id) ensures dep in g.nodes {
      var k :| 0 <= k < |g.order| && g.order[k] == id;
      assert UnknownAt(g, k) == [];
    }
  }

  /** The error names the first node in insertion order that has unknown dependencies, and lists them. */
  ghost predicate IsFirstUnknown(g: TaskGraph, error: GraphError)
    requires Indexed(g)
  {
    exists k :: 0 <= k < |g.order|
      && UnknownAt(g, k) != []
      && error == UnknownDependency(g.order[k], UnknownAt(g, k))
      && forall j :: 0 <= j < k ==> UnknownAt(g, j) == []
  }

  method ValidateDependencies(g: TaskGraph) returns (error: Option<GraphError>)
    requires Indexed(g)
    ensures error.None? <==> KnownDependencies(g)
    ensures error.Some? ==> IsFirstUnknown(g, error.value)
  {
    for k := 0 to |g.order|
      invariant forall j :: 0 <= j < k ==> UnknownAt(g, j) == []
    {
      var unknown := UnknownAt(g, k);
      if unknown != [] {
        return Some(UnknownDependency(g.order[k], unknown));
      }
    }
    AllKnown(g);
    return None;
  }

  lemma PathExtends(g: TaskGraph, p: seq<NodeId>, id: NodeId)
    requires id in g.nodes
    requires p != [] ==> IsPath(g, p) && id in g.Deps(p[|p| - 1])
    ensures IsPath(g, p + [id])
  {
    var q := p + [id];
    forall i, j | 0 <= i < j < |q| && j == i + 1 ensures q[j] in g.Deps(q[i]) {
      if j < |p| {
        assert p[j] in g.Deps(p[i]);
      }
    }
  }

  lemma CycleCloses(g: TaskGraph, p: seq<NodeId>, id: NodeId)
    requires p != [] && IsPath(g, p) && id in p && id in g.Deps(p[|p| - 1])
    ensures OnCycle(g, id)
  {
    var k :| 0 <= k < |p| && p[k] == id;
    var q := p[k..];
    forall i, j | 0 <= i < j < |q| && j == i + 1 ensures q[j] in g.Deps(q[i]) {
      assert p[k + j] in g.Deps(p[k + i]);
    }
    PathExtends(g, q, id);
    assert IsCycleAt(g, q + [id], id);
  }

  /** The active nodes, outermost first, form a path of dependency edges. */
  ghost predicate IsStack(g: TaskGraph, active: set<NodeId>, stack: seq<NodeId>) {
    && active <= g.nodes.Keys
    && (forall id :: id in active ==> id in stack)
    && (stack == [] || IsPath(g, stack))
  }

  lemma StackPush(g: TaskGraph, active: set<NodeId>, stack: seq<NodeId>, id: NodeId)
    requires IsStack(g, active, stack) && id in g.nodes
    requires stack != [] ==> id in g.Deps(stack[|stack| - 1])
    ensures IsStack(g, active + {id}, stack + [id])
  {
    PathExtends(g, stack, id);
  }

  /** The finished nodes are ranked and closed under dependencies. */
  ghost predicate IsFinished(g: TaskGraph, visited: set<NodeId>, rank: map<NodeId, nat>, clock: nat) {
    && rank.Keys == visited <= g.nodes.Keys
    && (forall id :: id in visited ==> rank[id] < clock)
    && (forall id, i :: id in visited && 0 <= i < |g.Deps(id)| ==>
          g.Deps(id)[i] in rank && rank[g.Deps(id)[i]] < rank[id])
  }

  lemma FinishNode(g: TaskGraph, visited: set<NodeId>, rank: map<NodeId, nat>, clock: nat, id: NodeId)
    requires IsFinished(g, visited, rank, clock) && id in g.nodes && id !in visited
    requires forall i :: 0 <= i < |g.Deps(id)| ==> g.Deps(id)[i] in visited
    ensures IsFinished(g, visited + {id}, rank[id := clock], clock + 1)
  {
  }

  lemma FinishedGraphIsRanked(g: TaskGraph, visited: set<NodeId>, rank: map<NodeId, nat>, clock: nat)
    requires Indexed(g) && IsFinished(g, visited, rank, clock)
    requires forall k :: 0 <= k < |g.order| ==> g.order[k] in visited
    ensures IsRank(g, rank) && Acyclic(g)
  {
    assert g.nodes.Keys <= visited;
    RankedMeansAcyclic(g, rank);
  }

  /** The depth-first search of the cycle check, with its two sets. */
  class CycleChecker {
    const graph: TaskGraph
    var visited: set<NodeId>
    var active: set<NodeId>
    ghost var rank: map<NodeId, nat>
    ghost var clock: nat

    constructor (g: TaskGraph)
      ensures graph == g && visited == {} && active == {} && rank == map[]
    {
      graph := g;
      visited, active := {}, {};
      rank, clock := map[], 0;
    }

    ghost predicate Valid(stack: seq<NodeId>)
      reads this
    {
      IsStack(graph, active, stack) && IsFinished(graph, visited, rank, clock) && visited !! active
    }

    /** Visits `id`; answers the node at which a cycle closes, if one is met. */
    method Dfs(id: NodeId, ghost stack: seq<NodeId>) returns (cycle: Option<NodeId>)
      requires KnownDependencies(graph) && Valid(stack) && id in graph.nodes
      requires stack != [] ==> id in graph.Deps(stack[|stack| - 1])
      modifies this
      ensures cycle.None? ==> Valid(stack) && active == old(active) && old(visited) + {id} <= visited
      ensures cycle.Some? ==> OnCycle(graph, cycle.value)
      decreases graph.nodes.Keys - active, 0
    {
      if id in active {
        CycleCloses(graph, stack, id);
        return Some(id);
      }
      if id in visited {
        return None;
      }
      StackPush(graph, active, stack, id);
      active := active + {id};
      cycle := VisitDependencies(id, stack + [id]);
      if cycle.None? {
        FinishNode(graph, visited, rank, clock, id);
        active := active - {id};
        assert active == old(active);
        rank, clock := rank[id := clock], clock + 1;
        visited := visited + {id};
      }
    }

    /** The loop of the search over the dependencies of the innermost active node. */
    method VisitDependencies(id: NodeId, ghost stack: seq<NodeId>) returns (cycle: Option<NodeId>)
      requires KnownDependencies(graph) && Valid(stack) && id in active
      requires stack != [] && stack[|stack| - 1] == id
      modifies this
      ensures cycle.None? ==> Valid(stack) && active == old(active) && old(visited) <= visited
      ensures cycle.None? ==> forall i :: 0 <= i < |graph.Deps(id)| ==> graph.Deps(id)[i] in visited
      ensures cycle.Some? ==> OnCycle(graph, cycle.value)
      decreases graph.nodes.Keys - active, 1
    {
      var deps := graph.Deps(id);
      for i := 0 to |deps|
        invariant Valid(stack) && active == old(active) && old(visited) <= visited
        invariant forall j :: 0 <= j < i ==> deps[j] in visited
      {
        cycle := Dfs(deps[i], stack);
        if cycle.Some? {
          return;
        }
      }
      return None;
    }
  }

  method ValidateAcyclic(g: TaskGraph) returns (error: Option<GraphError>)
    requires Indexed(g) && KnownDependencies(g)
    ensures error.None? <==> Acyclic(g)
    ensures error.None? ==> exists rank :: IsRank(g, rank)
    ensures error.Some? ==> error.value.CycleDetected? && OnCycle(g, error.value.nodeId)
  {
    var checker := new CycleChecker(g);
    for k := 0 to |g.order|
      invariant checker.graph == g && checker.Valid([])
      invariant forall j :: 0 <= j < k ==> g.order[j] in checker.visited
    {
      var cycle := checker.Dfs(g.order[k], []);
      if cycle.Some? {
        return Some(CycleDetected(cycle.value));
      }
    }
    FinishedGraphIsRanked(g, checker.visited, checker.rank, checker.clock);
    return None;
  }

  /** The graph of a list: its nodes under their ids, in the order of the list. */
  ghost predicate HoldsNodes(g: TaskGraph, nodes: seq<TaskNode>) {
    && |g.order| == |nodes|
    && (forall i :: 0 <= i < |nodes| ==>
          g.order[i] == nodes[i].nodeId && nodes[i].nodeId in g.nodes && g.nodes[nodes[i].nodeId] == nodes[i])
    && (forall id :: id in g.nodes ==> exists i :: 0 <= i < |nodes| && nodes[i].nodeId == id)
  }

  lemma {:induction false} GraphHoldsNodes(nodes: seq<TaskNode>)
    requires DistinctIds(nodes)
    ensures HoldsNodes(GraphOf(nodes), nodes)
    decreases |nodes|
  {
    if nodes != [] {
      var n := |nodes| - 1;
      var front, last := nodes[..n], nodes[n];
      assert nodes == front + [last];
      DistinctSnoc(front, last);
      GraphHoldsNodes(front);
      forall i | 0 <= i < n ensures IndexById(nodes)[nodes[i].nodeId] == nodes[i] && nodes[i].nodeId in IndexById(nodes) {
        assert front[i] == nodes[i] && Ids(front)[i] == nodes[i].nodeId;
      }
      forall id | id in IndexById(nodes) ensures exists i :: 0 <= i < |nodes| && nodes[i].nodeId == id {
        if id == last.nodeId {
          assert nodes[n].nodeId == id;
        } else {
          var i :| 0 <= i < |front| && front[i].nodeId == id;
          assert nodes[i].nodeId == id;
        }
      }
    }
  }

  /** The constructor: the graph of the list exactly when ids are distinct, dependencies known and
      the relation acyclic; otherwise the first check that fails says why. */
  method Build(nodes: seq<TaskNode>) returns (r: Result<TaskGraph, GraphError>)
    ensures r.Success? <==> DistinctIds(nodes) && KnownDependencies(GraphOf(nodes)) && Acyclic(GraphOf(nodes))
    ensures r.Success? ==> r.value == GraphOf(nodes) && WellFormed(r.value) && HoldsNodes(r.value, nodes)
    ensures r.Failure? && r.error.DuplicateNodeId? <==> !DistinctIds(nodes)
    ensures r.Failure? && r.error.UnknownDependency? ==>
      Indexed(GraphOf(nodes)) && IsFirstUnknown(GraphOf(nodes), r.error)
    ensures r.Failure? && r.error.CycleDetected? ==>
      DistinctIds(nodes) && KnownDependencies(GraphOf(nodes))
      && OnCycle(GraphOf(nodes), r.error.nodeId)
  {
    var index: map<NodeId, TaskNode> := map[];
    for i := 0 to |nodes|
      invariant index == IndexById(nodes[..i])
    {
      assert nodes[..i + 1][..i] == nodes[..i];
      index := index[nodes[i].nodeId := nodes[i]];
    }
    assert nodes[..|nodes|] == nodes;
    IndexSize(nodes);
    if |index| != |nodes| {
      return Failure(DuplicateNodeId);
    }
    var g := TaskGraph(Ids(nodes), index);
    GraphOfIsIndexed(nodes);
    GraphHoldsNodes(nodes);
    var error := ValidateDependencies(g);
    if error.Some? {
      return Failure(error.value);
    }
    error := ValidateAcyclic(g);
    if error.Some? {
      return Failure(error.value);
    }
    return Success(g);
  }

  // ----- The ready query -----

  predicate DepsWithin(g: TaskGraph, id: NodeId, nodes: set<NodeId>)
    requires id in g.nodes
  {
    forall i :: 0 <= i < |g.Deps(id)| ==> g.Deps(id)[i] in nodes
  }

  predicate IsReady(g: TaskGraph, completed: set<NodeId>, running: set<NodeId>, failed: set<NodeId>, id: NodeId)
    requires id in g.nodes
  {
    && id !in completed && id !in running && id !in failed
    && DepsWithin(g, id, completed)
  }

  /** The ready nodes, each once, in insertion order. */
  function ReadyAmong(g: TaskGraph, ids: seq<NodeId>, completed: set<NodeId>, running: set<NodeId>, failed: set<NodeId>)
    : (ready: seq<NodeId>)
    requires forall id :: id in ids ==> id in g.nodes
    ensures forall id :: id in ready <==> id in ids && IsReady(g, completed, running, failed, id)
  {
    if ids == [] then []
    else
      var front, last := ids[..|ids| - 1], ids[|ids| - 1];
      assert ids == front + [last];
      ReadyAmong(g, front, completed, running, failed)
      + if IsReady(g, completed, running, failed, last) then [last] else []
  }

  method ReadyNodes(g: TaskGraph, completed: set<NodeId>, running: set<NodeId>, failed: set<NodeId>)
    returns (ready: seq<NodeId>)
    requires Indexed(g)
    ensures ready == ReadyAmong(g, g.order, completed, running, failed)
    ensures forall id :: id in ready <==>
      && id in g.nodes && id !in completed && id !in running && id !in failed
      && forall dep :: dep in g.Deps(id) ==> dep in completed
  {
    ready := [];
    for i := 0 to |g.order|
      invariant ready == ReadyAmong(g, g.order[..i], completed, running, failed)
    {
      var id := g.order[i];
      assert g.order[..i + 1][..i] == g.order[..i];
      if id in completed || id in running || id in failed {
        continue;
      }
      if DepsWithin(g, id, completed) {
        ready := ready + [id];
      }
    }
    assert g.order[..|g.order|] == g.order;
    forall id | id in g.nodes ensures DepsWithin(g, id, completed) <==> forall dep :: dep in g.Deps(id) ==> dep in completed {
    }
  }
}
