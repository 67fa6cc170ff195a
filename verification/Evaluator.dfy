/** The meaning of a job: a recursive evaluator over its dependency graph, with no
    waves, no store and no interleaving. The scheduler is proved against it. */
module Evaluator {
  import opened Values
  import opened TaskGraphs

  datatype TaskStatus = Pending | Running | Completed | Failed | Cancelled

  datatype TaskOutcome = TaskOutcome(
    nodeId: NodeId,
    status: TaskStatus,
    output: Payload,
    reasonCode: string,
    errorMessage: string,
    attempts: nat)

  datatype Job = Job(jobId: string, graph: TaskGraph, base: Payload)

  // ----- One node -----

  function MaxAttempts(node: TaskNode): (n: nat)
    ensures n >= 1
  {
    if node.retryLimit + 1 > 1 then node.retryLimit + 1 else 1
  }

  function CompletedOutcome(id: NodeId, output: Payload, attempts: nat): TaskOutcome {
    TaskOutcome(id, Completed, output, "", "", attempts)
  }

  function FailedOutcome(id: NodeId, failure: HandlerResult, attempts: nat): TaskOutcome
    requires !failure.Returned?
  {
    match failure
    case TimedOut => TaskOutcome(id, Failed, map[], "TASK_TIMEOUT", "Task '" + id + "' timed out", attempts)
    case Raised(message) => TaskOutcome(id, Failed, map[], "TASK_EXECUTION_ERROR", message, attempts)
  }

  function CancelledOutcome(id: NodeId): TaskOutcome {
    TaskOutcome(id, Cancelled, map[], "UPSTREAM_FAILED", "", 1)
  }

  predicate IsRunOutcome(o: TaskOutcome) {
    || (o.status.Completed? && o.reasonCode == "" && o.errorMessage == "")
    || (o.status.Failed? && o.output == map[])
  }

  /** What the retry loop still returns once `made` attempts have failed. */
  function RunFrom(node: TaskNode, input: Payload, made: nat): (o: TaskOutcome)
    requires made < MaxAttempts(node)
    ensures o.nodeId == node.nodeId && IsRunOutcome(o)
    decreases MaxAttempts(node) - made
  {
    var result := node.handler(input, made + 1);
    if result.Returned? then CompletedOutcome(node.nodeId, result.output, made + 1)
    else if made + 1 >= MaxAttempts(node) then FailedOutcome(node.nodeId, result, made + 1)
    else RunFrom(node, input, made + 1)
  }

  function RunOutcome(node: TaskNode, input: Payload): TaskOutcome {
    RunFrom(node, input, 0)
  }

  /** The retry loop completes with the first attempt that returns, and fails with the reason of the
      last one exactly when none of the allowed attempts returns. */
  lemma {:induction false} RetryTakesFirstSuccess(node: TaskNode, input: Payload, made: nat)
    requires made < MaxAttempts(node)
    ensures var o := RunFrom(node, input, made);
      && made < o.attempts <= MaxAttempts(node)
      && (forall k :: made < k < o.attempts ==> !node.handler(input, k).Returned?)
      && (o.status.Completed? ==> node.handler(input, o.attempts) == Returned(o.output))
      && (o.status.Failed? ==>
            && o.attempts == MaxAttempts(node)
            && !node.handler(input, o.attempts).Returned?
            && o == FailedOutcome(node.nodeId, node.handler(input, o.attempts), o.attempts))
    decreases MaxAttempts(node) - made
  {
    if !node.handler(input, made + 1).Returned? && made + 1 < MaxAttempts(node) {
      RetryTakesFirstSuccess(node, input, made + 1);
    }
  }

  /** What one run of a node amounts to. Attempts count from 1; a limit below one retry allows a single one. The
      attempt that decides is the first that returns, and then its output is the outcome; or it is the last one
      allowed, and then the outcome says why that one failed. */
  ghost predicate IsRunOf(node: TaskNode, input: Payload, o: TaskOutcome) {
    && o.nodeId == node.nodeId && o.attempts >= 1
    && (o.attempts == 1 || o.attempts <= node.retryLimit + 1)
    && (forall k :: 1 <= k < o.attempts ==> !node.handler(input, k).Returned?)
    && match node.handler(input, o.attempts)
       case Returned(output) => o.status.Completed? && o.output == output && o.reasonCode == "" && o.errorMessage == ""
       case TimedOut =>
         && o.attempts >= node.retryLimit + 1 && o.status.Failed? && o.output == map[]
         && o.reasonCode == "TASK_TIMEOUT" && o.errorMessage == "Task '" + node.nodeId + "' timed out"
       case Raised(message) =>
         && o.attempts >= node.retryLimit + 1 && o.status.Failed? && o.output == map[]
         && o.reasonCode == "TASK_EXECUTION_ERROR" && o.errorMessage == message
  }

  lemma {:induction false} RunFromIsRun(node: TaskNode, input: Payload, made: nat)
    requires made < MaxAttempts(node) && forall k :: 1 <= k <= made ==> !node.handler(input, k).Returned?
    ensures IsRunOf(node, input, RunFrom(node, input, made))
    decreases MaxAttempts(node) - made
  {
    if !node.handler(input, made + 1).Returned? && made + 1 < MaxAttempts(node) {
      RunFromIsRun(node, input, made + 1);
    }
  }

  /** There is one outcome of a run, and the retry loop returns it. */
  lemma {:induction false} RunIsOutcomeIff(node: TaskNode, input: Payload, o: TaskOutcome)
    ensures IsRunOf(node, input, o) <==> o == RunOutcome(node, input)
  {
    var run := RunOutcome(node, input);
    RunFromIsRun(node, input, 0);
    if IsRunOf(node, input, o) {
      assert o.attempts < run.attempts ==> !node.handler(input, o.attempts).Returned?;
      assert run.attempts < o.attempts ==> !node.handler(input, run.attempts).Returned?;
      assert o.attempts == run.attempts;
    }
  }

  // ----- The whole graph -----

  /** The handler input: the base payload with three reserved entries overwritten. */
  function InputPayload(jobId: string, base: Payload, id: NodeId, outputs: map<NodeId, Payload>): Payload {
    var dependencies := map dep | dep in outputs :: Obj(outputs[dep]);
    base["dependencies" := Obj(dependencies)]["node_id" := Str(id)]["job_id" := Str(jobId)]
  }

  /** Apart from its dependencies an input names the node and the job, and holds the base payload's other entries. */
  ghost predicate IsFramed(job: Job, id: NodeId, input: Payload) {
    && "node_id" in input && input["node_id"] == Str(id)
    && "job_id" in input && input["job_id"] == Str(job.jobId)
    && forall key :: key != "dependencies" && key != "node_id" && key != "job_id" ==>
         (key in input <==> key in job.base) && (key in job.base ==> input[key] == job.base[key])
  }

  /** The dependencies an input passes on: these outputs, each as a dictionary under the id of its node. */
  ghost predicate PassesOn(input: Payload, outputs: map<NodeId, Payload>) {
    && "dependencies" in input && input["dependencies"].Obj?
    && (forall dep :: dep in input["dependencies"].fields <==> dep in outputs)
    && (forall dep :: dep in outputs ==> input["dependencies"].fields[dep] == Obj(outputs[dep]))
  }

  lemma InputIs(job: Job, id: NodeId, outputs: map<NodeId, Payload>)
    ensures var input := InputPayload(job.jobId, job.base, id, outputs); IsFramed(job, id, input) && PassesOn(input, outputs)
  {
    assert "dependencies"[0] == 'd' && "node_id"[0] == 'n' && "job_id"[0] == 'j';
  }

  /** The value of a node: run on the outputs of its dependencies, or cancelled when one of them has none. */
  ghost function Eval(job: Job, id: NodeId): (o: TaskOutcome)
    requires WellFormed(job.graph) && id in job.graph.nodes
    ensures o.nodeId == id && (IsRunOutcome(o) || o == CancelledOutcome(id))
    decreases Rank(job.graph)[id], 2
  {
    var deps := job.graph.Deps(id);
    if forall i :: 0 <= i < |deps| ==> Eval(job, deps[i]).status.Completed?
    then RunOutcome(job.graph.nodes[id], EvalInput(job, id))
    else CancelledOutcome(id)
  }

  ghost function EvalInput(job: Job, id: NodeId): Payload
    requires WellFormed(job.graph) && id in job.graph.nodes
    decreases Rank(job.graph)[id], 1
  {
    InputPayload(job.jobId, job.base, id, EvalOutputs(job, job.graph.Deps(id), id))
  }

  ghost function EvalOutputs(job: Job, deps: seq<NodeId>, id: NodeId): map<NodeId, Payload>
    requires WellFormed(job.graph) && id in job.graph.nodes
    requires forall i :: 0 <= i < |deps| ==> deps[i] in job.graph.nodes && Rank(job.graph)[deps[i]] < Rank(job.graph)[id]
    decreases Rank(job.graph)[id], 0
  {
    map dep | dep in deps :: Eval(job, dep).output
  }

  /** The evaluator as one table, and the equations that table satisfies. */
  ghost function Verdicts(job: Job): (v: map<NodeId, TaskOutcome>)
    requires WellFormed(job.graph)
  {
    map id | id in job.graph.nodes :: Eval(job, id)
  }

  ghost predicate DepsComplete(job: Job, v: map<NodeId, TaskOutcome>, id: NodeId)
    requires id in job.graph.nodes
  {
    forall i :: 0 <= i < |job.graph.Deps(id)| ==>
      job.graph.Deps(id)[i] in v && v[job.graph.Deps(id)[i]].status.Completed?
  }

  function OutputsOf(deps: seq<NodeId>, v: map<NodeId, TaskOutcome>): map<NodeId, Payload> {
    map dep | dep in deps && dep in v :: v[dep].output
  }

  ghost function VerdictInput(job: Job, v: map<NodeId, TaskOutcome>, id: NodeId): Payload
    requires id in job.graph.nodes
  {
    InputPayload(job.jobId, job.base, id, OutputsOf(job.graph.Deps(id), v))
  }

  ghost predicate VerdictOk(job: Job, v: map<NodeId, TaskOutcome>, id: NodeId)
    requires id in job.graph.nodes
  {
    && id in v && v[id].nodeId == id
    && v[id] == if DepsComplete(job, v, id) then RunOutcome(job.graph.nodes[id], VerdictInput(job, v, id))
                else CancelledOutcome(id)
  }

  ghost predicate IsVerdict(job: Job, v: map<NodeId, TaskOutcome>) {
    && WellFormed(job.graph)
    && v.Keys == job.graph.nodes.Keys
    && forall id {:trigger VerdictOk(job, v, id)} :: id in job.graph.nodes ==> VerdictOk(job, v, id)
  }

  lemma {:induction false} VerdictInputIsEvalInput(job: Job, id: NodeId)
    requires WellFormed(job.graph) && id in job.graph.nodes
    ensures VerdictInput(job, Verdicts(job), id) == EvalInput(job, id)
  {
    var deps := job.graph.Deps(id);
    assert OutputsOf(deps, Verdicts(job)) == EvalOutputs(job, deps, id);
  }

  lemma VerdictsSatisfyEquations(job: Job)
    requires WellFormed(job.graph)
    ensures IsVerdict(job, Verdicts(job))
  {
    var v := Verdicts(job);
    forall id | id in job.graph.nodes ensures VerdictOk(job, v, id) {
      EvalSatisfiesEquation(job, id);
    }
  }

  lemma EvalSatisfiesEquation(job: Job, id: NodeId)
    requires WellFormed(job.graph) && id in job.graph.nodes
    ensures VerdictOk(job, Verdicts(job), id)
  {
    VerdictInputIsEvalInput(job, id);
    DepsCompleteIff(job, id);
  }

  lemma {:induction false} DepsCompleteIff(job: Job, id: NodeId)
    requires WellFormed(job.graph) && id in job.graph.nodes
    ensures DepsComplete(job, Verdicts(job), id) <==>
      forall i :: 0 <= i < |job.graph.Deps(id)| ==> Eval(job, job.graph.Deps(id)[i]).status.Completed?
  {
  }

  /** A node whose dependencies have the evaluator's values has it too. */
  lemma {:induction false} VerdictFromDeps(job: Job, v: map<NodeId, TaskOutcome>, id: NodeId)
    requires IsVerdict(job, v) && id in job.graph.nodes
    requires DepsAgree(job, v, id)
    ensures v[id] == Eval(job, id)
  {
    assert VerdictOk(job, v, id);
    SameOutputsOfDeps(job, v, id);
  }

  ghost predicate DepsAgree(job: Job, v: map<NodeId, TaskOutcome>, id: NodeId)
    requires IsVerdict(job, v) && id in job.graph.nodes
  {
    forall i :: 0 <= i < |job.graph.Deps(id)| ==> v[job.graph.Deps(id)[i]] == Eval(job, job.graph.Deps(id)[i])
  }

  lemma {:induction false} SameOutputsOfDeps(job: Job, v: map<NodeId, TaskOutcome>, id: NodeId)
    requires IsVerdict(job, v) && id in job.graph.nodes && DepsAgree(job, v, id)
    ensures OutputsOf(job.graph.Deps(id), v) == EvalOutputs(job, job.graph.Deps(id), id)
  {
    var deps := job.graph.Deps(id);
    forall dep | dep in deps ensures dep in v && v[dep].output == Eval(job, dep).output {
      var i :| 0 <= i < |deps| && deps[i] == dep;
    }
  }

  /** The equations have no other solution: a table that satisfies them is the evaluator's. */
  lemma {:induction false} VerdictIsEval(job: Job, v: map<NodeId, TaskOutcome>, id: NodeId)
    requires IsVerdict(job, v) && id in job.graph.nodes
    ensures v[id] == Eval(job, id)
    decreases Rank(job.graph)[id]
  {
    var deps := job.graph.Deps(id);
    forall i | 0 <= i < |deps| ensures v[deps[i]] == Eval(job, deps[i]) {
      VerdictIsEval(job, v, deps[i]);
    }
    VerdictFromDeps(job, v, id);
  }

  // ----- What a table of outcomes says of the handlers -----

  ghost predicate AllDepsComplete(job: Job, t: map<NodeId, TaskOutcome>, id: NodeId)
    requires id in job.graph.nodes
  {
    forall dep :: dep in job.graph.Deps(id) ==> dep in t && t[dep].status.Completed?
  }

  /** The input holds the outputs of all the node's dependencies, and nothing else under "dependencies". */
  ghost predicate Receives(job: Job, t: map<NodeId, TaskOutcome>, id: NodeId, input: Payload)
    requires id in job.graph.nodes && AllDepsComplete(job, t, id)
  {
    && IsFramed(job, id, input)
    && "dependencies" in input && input["dependencies"].Obj?
    && (forall dep :: dep in input["dependencies"].fields <==> dep in job.graph.Deps(id))
    && (forall dep :: dep in job.graph.Deps(id) ==> input["dependencies"].fields[dep] == Obj(t[dep].output))
  }

  /** A node whose dependencies all completed has the outcome of a run of its handler on their outputs; any other is
      cancelled. */
  ghost predicate IsSettled(job: Job, t: map<NodeId, TaskOutcome>, id: NodeId)
    requires id in job.graph.nodes && id in t
  {
    if AllDepsComplete(job, t, id) then
      exists input :: Receives(job, t, id, input) && IsRunOf(job.graph.nodes[id], input, t[id])
    else t[id] == TaskOutcome(id, Cancelled, map[], "UPSTREAM_FAILED", "", 1)
  }

  ghost predicate IsConsistent(job: Job, t: map<NodeId, TaskOutcome>) {
    t.Keys == job.graph.nodes.Keys && forall id :: id in job.graph.nodes ==> IsSettled(job, t, id)
  }

  lemma VerdictIsSettled(job: Job, v: map<NodeId, TaskOutcome>, id: NodeId)
    requires IsVerdict(job, v) && id in job.graph.nodes
    ensures IsSettled(job, v, id)
  {
    var deps, input := job.graph.Deps(id), VerdictInput(job, v, id);
    assert VerdictOk(job, v, id);
    assert AllDepsComplete(job, v, id) <==> DepsComplete(job, v, id);
    if DepsComplete(job, v, id) {
      InputIs(job, id, OutputsOf(deps, v));
      RunIsOutcomeIff(job.graph.nodes[id], input, v[id]);
      assert Receives(job, v, id, input);
    }
  }

  /** The evaluator runs every node on its dependencies' outputs, or cancels it. */
  lemma VerdictsAreConsistent(job: Job)
    requires WellFormed(job.graph)
    ensures IsConsistent(job, Verdicts(job))
  {
    VerdictsSatisfyEquations(job);
    forall id | id in job.graph.nodes ensures IsSettled(job, Verdicts(job), id) {
      VerdictIsSettled(job, Verdicts(job), id);
    }
  }

  lemma InputIsOnly(job: Job, id: NodeId, outputs: map<NodeId, Payload>, input: Payload)
    requires IsFramed(job, id, input) && PassesOn(input, outputs)
    ensures input == InputPayload(job.jobId, job.base, id, outputs)
  {
    var expected := InputPayload(job.jobId, job.base, id, outputs);
    InputIs(job, id, outputs);
    assert input["dependencies"].fields == expected["dependencies"].fields;
    forall key ensures key in input <==> key in expected {
    }
  }

  /** The table of a consistent job satisfies the evaluator's equations. */
  lemma SettledIsVerdict(job: Job, t: map<NodeId, TaskOutcome>, id: NodeId)
    requires WellFormed(job.graph) && IsConsistent(job, t) && id in job.graph.nodes
    ensures VerdictOk(job, t, id)
  {
    var deps := job.graph.Deps(id);
    assert IsSettled(job, t, id);
    assert AllDepsComplete(job, t, id) <==> DepsComplete(job, t, id);
    if AllDepsComplete(job, t, id) {
      var input :| Receives(job, t, id, input) && IsRunOf(job.graph.nodes[id], input, t[id]);
      InputIsOnly(job, id, OutputsOf(deps, t), input);
      RunIsOutcomeIff(job.graph.nodes[id], input, t[id]);
    }
  }

  /** Those conditions have one solution: a table of outcomes is the evaluator's exactly when every node has the
      outcome of its handler on its dependencies' outputs, or is cancelled for want of one. */
  lemma ConsistentIffVerdicts(job: Job, t: map<NodeId, TaskOutcome>)
    requires WellFormed(job.graph)
    ensures IsConsistent(job, t) <==> t == Verdicts(job)
  {
    VerdictsAreConsistent(job);
    if IsConsistent(job, t) {
      forall id | id in job.graph.nodes ensures VerdictOk(job, t, id) {
        SettledIsVerdict(job, t, id);
      }
      assert IsVerdict(job, t);
      forall id | id in job.graph.nodes ensures t[id] == Eval(job, id) {
        VerdictIsEval(job, t, id);
      }
    }
  }

  function FailedIn(v: map<NodeId, TaskOutcome>): set<NodeId> {
    set id | id in v && v[id].status.Failed?
  }

  // ----- Reachability -----

  /** `id` transitively depends on a member of `targets`. */
  ghost predicate Downstream(g: TaskGraph, id: NodeId, targets: set<NodeId>)
    requires WellFormed(g) && id in g.nodes
    decreases Rank(g)[id]
  {
    exists i :: 0 <= i < |g.Deps(id)| && (g.Deps(id)[i] in targets || Downstream(g, g.Deps(id)[i], targets))
  }

  /** `Downstream` is reachability along at least one dependency edge. */
  lemma {:induction false} DownstreamIsReachability(g: TaskGraph, id: NodeId, targets: set<NodeId>)
    requires WellFormed(g) && id in g.nodes
    ensures Downstream(g, id, targets) <==> exists p :: IsPathInto(g, p, id, targets)
  {
    if Downstream(g, id, targets) {
      DownstreamIsReached(g, id, targets);
    }
    forall p | IsPathInto(g, p, id, targets) ensures Downstream(g, id, targets) {
      ReachedIsDownstream(g, p, id, targets);
    }
  }

  lemma {:induction false} DownstreamIsReached(g: TaskGraph, id: NodeId, targets: set<NodeId>)
    requires WellFormed(g) && id in g.nodes && Downstream(g, id, targets)
    ensures exists p :: IsPathInto(g, p, id, targets)
    decreases Rank(g)[id]
  {
    var i :| 0 <= i < |g.Deps(id)| && (g.Deps(id)[i] in targets || Downstream(g, g.Deps(id)[i], targets));
    var dep := g.Deps(id)[i];
    if dep in targets {
      assert IsPathInto(g, [id, dep], id, targets);
    } else {
      DownstreamIsReached(g, dep, targets);
      var p :| IsPathInto(g, p, dep, targets);
      PathPrepends(g, id, p);
      assert IsPathInto(g, [id] + p, id, targets);
    }
  }

  lemma {:induction false} ReachedIsDownstream(g: TaskGraph, p: seq<NodeId>, id: NodeId, targets: set<NodeId>)
    requires WellFormed(g) && id in g.nodes && IsPathInto(g, p, id, targets)
    ensures Downstream(g, id, targets)
    decreases |p|
  {
    assert p[1] in g.Deps(p[0]);
    var i :| 0 <= i < |g.Deps(id)| && g.Deps(id)[i] == p[1];
    if |p| > 2 {
      PathTail(g, p);
      assert IsPathInto(g, p[1..], p[1], targets);
      ReachedIsDownstream(g, p[1..], p[1], targets);
    }
  }

  ghost predicate IsPathInto(g: TaskGraph, p: seq<NodeId>, id: NodeId, targets: set<NodeId>) {
    IsPath(g, p) && |p| >= 2 && p[0] == id && p[|p| - 1] in targets
  }

  lemma PathPrepends(g: TaskGraph, id: NodeId, p: seq<NodeId>)
    requires id in g.nodes && IsPath(g, p) && p[0] in g.Deps(id)
    ensures IsPath(g, [id] + p)
  {
    var q := [id] + p;
    forall i, j | 0 <= i < j < |q| && j == i + 1 ensures q[j] in g.Deps(q[i]) {
      if i > 0 {
        assert p[j - 1] in g.Deps(p[i - 1]);
      }
    }
  }

  lemma PathTail(g: TaskGraph, p: seq<NodeId>)
    requires IsPath(g, p) && |p| >= 2
    ensures IsPath(g, p[1..])
  {
    var q := p[1..];
    forall i, j | 0 <= i < j < |q| && j == i + 1 ensures q[j] in g.Deps(q[i]) {
      assert p[j + 1] in g.Deps(p[i + 1]);
    }
  }

  lemma {:induction false} DownstreamOfUnion(g: TaskGraph, id: NodeId, a: set<NodeId>, b: set<NodeId>)
    requires WellFormed(g) && id in g.nodes
    ensures Downstream(g, id, a + b) <==> Downstream(g, id, a) || Downstream(g, id, b)
    decreases Rank(g)[id]
  {
    forall i | 0 <= i < |g.Deps(id)| {
      DownstreamOfUnion(g, g.Deps(id)[i], a, b);
    }
  }

  /** Whatever depends on a node without an output is cancelled. */
  lemma {:induction false} DownstreamIsCancelled(job: Job, v: map<NodeId, TaskOutcome>, id: NodeId, targets: set<NodeId>)
    requires IsVerdict(job, v) && id in job.graph.nodes
    requires forall t :: t in targets && t in v ==> !v[t].status.Completed?
    requires Downstream(job.graph, id, targets)
    ensures v[id] == CancelledOutcome(id)
    decreases Rank(job.graph)[id]
  {
    var deps := job.graph.Deps(id);
    var i :| 0 <= i < |deps| && (deps[i] in targets || Downstream(job.graph, deps[i], targets));
    if deps[i] !in targets {
      DownstreamIsCancelled(job, v, deps[i], targets);
    }
    assert VerdictOk(job, v, id);
  }

  lemma {:induction false} CancelledIsDownstream(job: Job, v: map<NodeId, TaskOutcome>, id: NodeId)
    requires IsVerdict(job, v) && id in job.graph.nodes && !v[id].status.Completed?
    ensures id in FailedIn(v) || Downstream(job.graph, id, FailedIn(v))
    decreases Rank(job.graph)[id]
  {
    assert VerdictOk(job, v, id);
    var deps := job.graph.Deps(id);
    if v[id].status.Cancelled? {
      var i :| 0 <= i < |deps| && !v[deps[i]].status.Completed?;
      CancelledIsDownstream(job, v, deps[i]);
    }
  }

  /** A node is cancelled exactly when it transitively depends on a node that fails. */
  lemma {:induction false} CancelledIffDownstreamOfFailure(job: Job, v: map<NodeId, TaskOutcome>, id: NodeId)
    requires IsVerdict(job, v) && id in job.graph.nodes
    ensures v[id].status.Cancelled? <==> Downstream(job.graph, id, FailedIn(v))
  {
    if Downstream(job.graph, id, FailedIn(v)) {
      DownstreamIsCancelled(job, v, id, FailedIn(v));
    } else if v[id].status.Cancelled? {
      CancelledIsDownstream(job, v, id);
    }
  }

  // ----- Depth -----

  /** One more than the greatest depth among the first `n` dependencies, or zero for none. */
  ghost function DepthOver(g: TaskGraph, id: NodeId, n: nat): nat
    requires WellFormed(g) && id in g.nodes && n <= |g.Deps(id)|
    decreases Rank(g)[id], n
  {
    if n == 0 then 0
    else
      var before, here := DepthOver(g, id, n - 1), Depth(g, g.Deps(id)[n - 1]) + 1;
      if before < here then here else before
  }

  ghost function Depth(g: TaskGraph, id: NodeId): nat
    requires WellFormed(g) && id in g.nodes
    decreases Rank(g)[id], |g.Deps(id)| + 1
  {
    DepthOver(g, id, |g.Deps(id)|)
  }

  lemma {:induction false} DepthOverDominates(g: TaskGraph, id: NodeId, n: nat, i: nat)
    requires WellFormed(g) && id in g.nodes && i < n <= |g.Deps(id)|
    ensures Depth(g, g.Deps(id)[i]) < DepthOver(g, id, n)
    decreases n
  {
    if i < n - 1 {
      DepthOverDominates(g, id, n - 1, i);
    }
  }

  lemma {:induction false} DepthOverAttained(g: TaskGraph, id: NodeId, n: nat) returns (i: nat)
    requires WellFormed(g) && id in g.nodes && n <= |g.Deps(id)| && DepthOver(g, id, n) > 0
    ensures i < n && Depth(g, g.Deps(id)[i]) + 1 == DepthOver(g, id, n)
    decreases n
  {
    i := n - 1;
    if DepthOver(g, id, n) != Depth(g, g.Deps(id)[i]) + 1 {
      i := DepthOverAttained(g, id, n - 1);
    }
  }

  lemma {:induction false} LongestChain(g: TaskGraph, id: NodeId) returns (p: seq<NodeId>)
    requires WellFormed(g) && id in g.nodes
    ensures IsChain(g, p, id, Depth(g, id))
    decreases Rank(g)[id]
  {
    p := [id];
    if Depth(g, id) > 0 {
      var i := DepthOverAttained(g, id, |g.Deps(id)|);
      var tail := LongestChain(g, g.Deps(id)[i]);
      PathPrepends(g, id, tail);
      p := [id] + tail;
    }
  }

  lemma {:induction false} ChainWithinDepth(g: TaskGraph, p: seq<NodeId>, id: NodeId, n: nat)
    requires WellFormed(g) && id in g.nodes && IsChain(g, p, id, n)
    ensures n <= Depth(g, id)
    decreases n
  {
    if n > 0 {
      assert p[1] in g.Deps(p[0]);
      var i :| 0 <= i < |g.Deps(id)| && g.Deps(id)[i] == p[1];
      PathTail(g, p);
      ChainWithinDepth(g, p[1..], p[1], n - 1);
      DepthOverDominates(g, id, |g.Deps(id)|, i);
    }
  }

  /** The depth of a node is the number of edges of the longest dependency chain below it. */
  lemma {:induction false} DepthIsLongestChain(g: TaskGraph, id: NodeId)
    requires WellFormed(g) && id in g.nodes
    ensures exists p :: IsChain(g, p, id, Depth(g, id))
    ensures forall p, n: nat :: IsChain(g, p, id, n) ==> n <= Depth(g, id)
  {
    var p := LongestChain(g, id);
    forall p, n: nat | IsChain(g, p, id, n) ensures n <= Depth(g, id) {
      ChainWithinDepth(g, p, id, n);
    }
  }

  ghost predicate IsChain(g: TaskGraph, p: seq<NodeId>, id: NodeId, edges: nat) {
    IsPath(g, p) && p[0] == id && |p| == edges + 1
  }
}
