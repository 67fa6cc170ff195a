/** The scheduler as a state machine. One action is one indivisible stretch of `execute` or of a
    node task, so a sequence of actions is one interleaving of a wave's tasks, with crashes and
    resumes wherever `Restart` occurs (src/core/scheduler.py). */
module SchedulerModel {
  import opened Values
  import opened TaskGraphs
  import opened Evaluator
  import opened Checkpoints

  /** Where the task of a node stands: waiting for a permit, between attempts, about to write its
      final checkpoint, or returned to the wave. */
  datatype Phase =
    | Queued
    | Trying(input: Payload, made: nat)
    | Saving(outcome: TaskOutcome)
    | Done(outcome: TaskOutcome)

  /** `store` is durable; everything else is lost in a crash. `inherited` are the failed nodes the
      current run restored, `waves` counts the waves it has closed. */
  datatype ExecState = ExecState(
    store: map<NodeId, CheckpointRecord>,
    outcomes: map<NodeId, TaskOutcome>,
    completed: set<NodeId>,
    failed: set<NodeId>,
    cancelled: set<NodeId>,
    tasks: map<NodeId, Phase>,
    inherited: set<NodeId>,
    waves: nat)

  datatype Action =
    | OpenWave
    | Begin(id: NodeId)
    | Attempt(id: NodeId)
    | Save(id: NodeId)
    | CloseWave
    | Restart

  // ----- Records -----

  function RunningRecord(id: NodeId): CheckpointRecord {
    CheckpointRecord(id, RUNNING, 1, "", map[])
  }

  /** The final checkpoint of a node: the error message of a failure is not stored. */
  function RecordOf(o: TaskOutcome): CheckpointRecord {
    CheckpointRecord(o.nodeId, if o.status.Completed? then COMPLETED else FAILED, o.attempts, o.reasonCode, o.output)
  }

  function StatusFromCheckpoint(status: CheckpointStatus): TaskStatus {
    match status
    case PENDING => Pending
    case RUNNING => Running
    case COMPLETED => Completed
    case FAILED => Failed
    case CANCELLED => Cancelled
  }

  function RestoredOutcome(record: CheckpointRecord): TaskOutcome {
    TaskOutcome(record.nodeId, StatusFromCheckpoint(record.status), record.payload, record.reasonCode, "", record.attempt)
  }

  function WithoutMessage(o: TaskOutcome): TaskOutcome {
    o.(errorMessage := "")
  }

  // ----- Transitions -----

  function FreshState(store: map<NodeId, CheckpointRecord>): ExecState {
    ExecState(store, map[], {}, {}, {}, map[], {}, 0)
  }

  function ResumedState(store: map<NodeId, CheckpointRecord>): ExecState {
    var completed := set id | id in store && store[id].status.COMPLETED?;
    var failed := set id | id in store && store[id].status.FAILED?;
    ExecState(store, map id | id in store :: RestoredOutcome(store[id]), completed, failed, {}, map[], failed, 0)
  }

  function ReadySet(job: Job, s: ExecState): set<NodeId> {
    set id | id in job.graph.nodes && IsReady(job.graph, s.completed, {}, s.failed, id) && id !in s.cancelled
  }

  /** The outputs of those dependencies that have completed, and the input made of them. */
  function CompletedOutputs(deps: seq<NodeId>, outcomes: map<NodeId, TaskOutcome>): map<NodeId, Payload> {
    map dep | dep in deps && dep in outcomes && outcomes[dep].status.Completed? :: outcomes[dep].output
  }

  function BuildInput(job: Job, id: NodeId, outcomes: map<NodeId, TaskOutcome>): Payload
    requires id in job.graph.nodes
  {
    InputPayload(job.jobId, job.base, id, CompletedOutputs(job.graph.Deps(id), outcomes))
  }

  function AfterAttempt(node: TaskNode, input: Payload, made: nat): Phase {
    var result := node.handler(input, made + 1);
    if result.Returned? then Saving(CompletedOutcome(node.nodeId, result.output, made + 1))
    else if made + 1 >= MaxAttempts(node) then Saving(FailedOutcome(node.nodeId, result, made + 1))
    else Trying(input, made + 1)
  }

  function DoneWith(s: ExecState, status: TaskStatus): set<NodeId> {
    set id | id in s.tasks && s.tasks[id].Done? && s.tasks[id].outcome.status == status
  }

  /** The nodes the closing wave cancels: without an outcome, and downstream of one of its failures. */
  ghost function NewlyCancelled(job: Job, s: ExecState): set<NodeId>
    requires WellFormed(job.graph)
  {
    set id | id in job.graph.nodes && id !in s.outcomes && id !in s.tasks && Downstream(job.graph, id, DoneWith(s, Failed))
  }

  /** The outcomes of those tasks among `handled` that have returned. */
  function TaskOutcomes(s: ExecState, handled: set<NodeId>): map<NodeId, TaskOutcome> {
    map id | id in handled && id in s.tasks && s.tasks[id].Done? :: s.tasks[id].outcome
  }

  function WithCancelled(outcomes: map<NodeId, TaskOutcome>, cancelled: set<NodeId>): map<NodeId, TaskOutcome> {
    outcomes + map id | id in cancelled :: CancelledOutcome(id)
  }

  ghost function ClosedState(job: Job, s: ExecState): ExecState
    requires WellFormed(job.graph)
  {
    var cancelled := NewlyCancelled(job, s);
    s.(outcomes := WithCancelled(s.outcomes + TaskOutcomes(s, s.tasks.Keys), cancelled),
       completed := s.completed + DoneWith(s, Completed),
       failed := s.failed + DoneWith(s, Failed),
       cancelled := s.cancelled + cancelled,
       tasks := map[],
       waves := s.waves + 1)
  }

  predicate Enabled(job: Job, s: ExecState, a: Action) {
    match a
    case OpenWave => s.tasks == map[] && ReadySet(job, s) != {}
    case Begin(id) => id in job.graph.nodes && id in s.tasks && s.tasks[id].Queued?
    case Attempt(id) => id in job.graph.nodes && id in s.tasks && s.tasks[id].Trying?
    case Save(id) => id in s.tasks && s.tasks[id].Saving?
    case CloseWave => s.tasks != map[] && forall id | id in s.tasks :: s.tasks[id].Done?
    case Restart => true
  }

  ghost function Apply(job: Job, s: ExecState, a: Action): ExecState
    requires WellFormed(job.graph) && Enabled(job, s, a)
  {
    match a
    case OpenWave => s.(tasks := map id | id in ReadySet(job, s) :: Queued)
    case Begin(id) =>
      s.(tasks := s.tasks[id := Trying(BuildInput(job, id, s.outcomes), 0)],
         store := s.store[id := RunningRecord(id)])
    case Attempt(id) =>
      s.(tasks := s.tasks[id := AfterAttempt(job.graph.nodes[id], s.tasks[id].input, s.tasks[id].made)])
    case Save(id) =>
      s.(tasks := s.tasks[id := Done(s.tasks[id].outcome)],
         store := s.store[id := RecordOf(s.tasks[id].outcome)])
    case CloseWave => ClosedState(job, s)
    case Restart => ResumedState(s.store)
  }

  /** The state a run of actions leads to; a run stops short of the first action that is not enabled. */
  ghost predicate IsRun(job: Job, s: ExecState, run: seq<Action>)
    requires WellFormed(job.graph)
    decreases |run|
  {
    run == [] || (Enabled(job, s, run[0]) && IsRun(job, Apply(job, s, run[0]), run[1..]))
  }

  ghost function After(job: Job, s: ExecState, run: seq<Action>): ExecState
    requires WellFormed(job.graph) && IsRun(job, s, run)
    decreases |run|
  {
    if run == [] then s else After(job, Apply(job, s, run[0]), run[1..])
  }

  /** `execute` returns: no wave is open and no node is ready. */
  predicate Finished(job: Job, s: ExecState) {
    s.tasks == map[] && ReadySet(job, s) == {}
  }

  // ----- The invariant, against a table of verdicts -----

  type Table = map<NodeId, TaskOutcome>

  /** A task is exactly as far as the retry loop of its node, on the way to the outcome `e`. */
  ghost predicate PhaseOk(node: TaskNode, e: TaskOutcome, phase: Phase, record: Option<CheckpointRecord>) {
    match phase
    case Queued => record == None || record == Some(RunningRecord(e.nodeId))
    case Trying(input, made) =>
      made < MaxAttempts(node) && RunFrom(node, input, made) == e && record == Some(RunningRecord(e.nodeId))
    case Saving(o) => o == e && record == Some(RunningRecord(e.nodeId))
    case Done(o) => o == e && record == Some(RecordOf(e))
  }

  function Lookup<T>(m: map<NodeId, T>, id: NodeId): Option<T> {
    if id in m then Some(m[id]) else None
  }

  /** What the state says of one node. `doomed` nodes are downstream of a failure of this run. */
  datatype View = View(
    completed: bool,
    failed: bool,
    inherited: bool,
    cancelled: bool,
    task: Option<Phase>,
    record: Option<CheckpointRecord>,
    outcome: Option<TaskOutcome>,
    depsDone: bool,
    doomed: bool)

  ghost function ViewOf(job: Job, s: ExecState, id: NodeId): View
    requires WellFormed(job.graph) && id in job.graph.nodes
  {
    View(id in s.completed, id in s.failed, id in s.inherited, id in s.cancelled,
         Lookup(s.tasks, id), Lookup(s.store, id), Lookup(s.outcomes, id),
         DepsWithin(job.graph, id, s.completed), Downstream(job.graph, id, s.failed - s.inherited))
  }

  /** The collections agree on the node and on its verdict `e`. */
  ghost predicate ViewOk(node: TaskNode, e: TaskOutcome, w: View) {
    && (w.inherited ==> w.failed)
    && (w.completed ==> e.status.Completed? && w.task.None? && w.record == Some(RecordOf(e)) && w.outcome == Some(e))
    && (w.failed ==>
          && e.status.Failed? && w.task.None? && w.record == Some(RecordOf(e))
          && w.outcome == Some(if w.inherited then WithoutMessage(e) else e))
    && (w.cancelled ==> e.status.Cancelled? && w.task.None? && w.record.None? && w.outcome == Some(e))
    && (w.cancelled <==> w.doomed)
    && (w.task.Some? ==> w.depsDone && PhaseOk(node, e, w.task.value, w.record))
    && (w.record.Some? ==> w.depsDone)
    && (w.record.Some? && !w.completed && !w.failed && w.task.None? ==> w.record == Some(RunningRecord(e.nodeId)))
    && (w.outcome.Some? && !w.completed && !w.failed && !w.cancelled ==>
          w.outcome.value.status.Running? && w.depsDone)
  }

  ghost predicate WithinGraph(job: Job, s: ExecState) {
    && s.store.Keys <= job.graph.nodes.Keys && s.outcomes.Keys <= job.graph.nodes.Keys
    && s.tasks.Keys <= job.graph.nodes.Keys
    && s.completed <= job.graph.nodes.Keys && s.failed <= job.graph.nodes.Keys && s.cancelled <= job.graph.nodes.Keys
    && s.inherited <= job.graph.nodes.Keys
  }

  ghost predicate Inv(job: Job, v: Table, s: ExecState) {
    && IsVerdict(job, v)
    && WithinGraph(job, s)
    && forall id {:trigger ViewOf(job, s, id)} :: id in job.graph.nodes ==> ViewOk(job.graph.nodes[id], v[id], ViewOf(job, s, id))
  }

  /** What a store may hold between runs: final records are the evaluator's, and a node has a record
      only if each of its dependencies has a completed one. */
  ghost predicate RecordOk(job: Job, v: Table, store: map<NodeId, CheckpointRecord>, id: NodeId)
    requires id in job.graph.nodes && id in v
  {
    id in store ==>
      && (forall i :: 0 <= i < |job.graph.Deps(id)| ==>
            job.graph.Deps(id)[i] in store && store[job.graph.Deps(id)[i]].status.COMPLETED?)
      && !v[id].status.Cancelled?
      && (store[id] == RunningRecord(id) || store[id] == RecordOf(v[id]))
  }

  ghost predicate StoreOk(job: Job, v: Table, store: map<NodeId, CheckpointRecord>) {
    && IsVerdict(job, v)
    && store.Keys <= job.graph.nodes.Keys
    && forall id {:trigger RecordOk(job, v, store, id)} :: id in job.graph.nodes ==> RecordOk(job, v, store, id)
  }

  // ----- The invariant is kept by every action -----

  lemma NodeFacts(job: Job, v: Table, s: ExecState, id: NodeId)
    requires Inv(job, v, s) && id in job.graph.nodes
    ensures ViewOk(job.graph.nodes[id], v[id], ViewOf(job, s, id)) && v[id].nodeId == id
  {
    assert VerdictOk(job, v, id);
  }

  lemma CompletedDependency(job: Job, v: Table, s: ExecState, id: NodeId, i: nat)
    requires Inv(job, v, s) && id in job.graph.nodes && i < |job.graph.Deps(id)|
    requires DepsWithin(job.graph, id, s.completed)
    ensures var dep := job.graph.Deps(id)[i];
      dep in s.outcomes && dep in v && s.outcomes[dep] == v[dep] && v[dep].status.Completed?
      && dep in s.store && s.store[dep].status.COMPLETED?
  {
    NodeFacts(job, v, s, job.graph.Deps(id)[i]);
  }

  lemma SameOutputs(deps: seq<NodeId>, v: Table, outcomes: map<NodeId, TaskOutcome>)
    requires forall i :: 0 <= i < |deps| ==>
      deps[i] in outcomes && deps[i] in v && outcomes[deps[i]] == v[deps[i]] && v[deps[i]].status.Completed?
    ensures CompletedOutputs(deps, outcomes) == OutputsOf(deps, v)
  {
  }

  /** A node whose dependencies are done is run, on the input the evaluator gives it. */
  lemma ReadyNodeRuns(job: Job, v: Table, s: ExecState, id: NodeId)
    requires Inv(job, v, s) && id in job.graph.nodes && DepsWithin(job.graph, id, s.completed)
    ensures v[id] == RunOutcome(job.graph.nodes[id], BuildInput(job, id, s.outcomes))
    ensures v[id].nodeId == id && IsRunOutcome(v[id])
  {
    forall i | 0 <= i < |job.graph.Deps(id)| {
      CompletedDependency(job, v, s, id, i);
    }
    SameOutputs(job.graph.Deps(id), v, s.outcomes);
    assert VerdictOk(job, v, id);
  }

  lemma {:induction false} NothingDownstreamOfNothing(g: TaskGraph, id: NodeId)
    requires WellFormed(g) && id in g.nodes
    ensures !Downstream(g, id, {})
    decreases Rank(g)[id]
  {
    forall i | 0 <= i < |g.Deps(id)| {
      NothingDownstreamOfNothing(g, g.Deps(id)[i]);
    }
  }

  lemma FreshStateOk(job: Job, v: Table)
    requires IsVerdict(job, v)
    ensures Inv(job, v, FreshState(map[]))
  {
    var s := FreshState(map[]);
    assert s.failed - s.inherited == {};
    forall id | id in job.graph.nodes ensures ViewOk(job.graph.nodes[id], v[id], ViewOf(job, s, id)) {
      NothingDownstreamOfNothing(job.graph, id);
    }
  }

  lemma StoreStaysOk(job: Job, v: Table, s: ExecState)
    requires Inv(job, v, s)
    ensures StoreOk(job, v, s.store)
  {
    forall id | id in job.graph.nodes ensures RecordOk(job, v, s.store, id) {
      NodeFacts(job, v, s, id);
      if id in s.store {
        ReadyNodeRuns(job, v, s, id);
        forall i | 0 <= i < |job.graph.Deps(id)| {
          CompletedDependency(job, v, s, id, i);
        }
      }
    }
  }

  lemma ResumedStateOk(job: Job, v: Table, store: map<NodeId, CheckpointRecord>)
    requires StoreOk(job, v, store)
    ensures Inv(job, v, ResumedState(store))
  {
    var s := ResumedState(store);
    forall id | id in job.graph.nodes ensures ViewOk(job.graph.nodes[id], v[id], ViewOf(job, s, id)) {
      assert RecordOk(job, v, store, id) && VerdictOk(job, v, id);
      ResumedView(job, store, id);
      ResumedViewOk(job, v, store, id);
    }
  }

  /** What a resume restores of one node. */
  function RestoredView(record: Option<CheckpointRecord>, depsDone: bool): View {
    var status := if record.Some? then Some(record.value.status) else None;
    View(status == Some(COMPLETED), status == Some(FAILED), status == Some(FAILED), false, None, record,
         if record.Some? then Some(RestoredOutcome(record.value)) else None, depsDone, false)
  }

  lemma ResumedView(job: Job, store: map<NodeId, CheckpointRecord>, id: NodeId)
    requires WellFormed(job.graph) && id in job.graph.nodes
    ensures var s := ResumedState(store);
      ViewOf(job, s, id) == RestoredView(Lookup(store, id), DepsWithin(job.graph, id, s.completed))
  {
    var s := ResumedState(store);
    assert s.failed - s.inherited == {};
    NothingDownstreamOfNothing(job.graph, id);
  }

  lemma ResumedViewOk(job: Job, v: Table, store: map<NodeId, CheckpointRecord>, id: NodeId)
    requires WellFormed(job.graph) && id in job.graph.nodes && id in v && RecordOk(job, v, store, id) && VerdictOk(job, v, id)
    ensures ViewOk(job.graph.nodes[id], v[id],
                   RestoredView(Lookup(store, id), DepsWithin(job.graph, id, ResumedState(store).completed)))
  {
  }

  lemma OpenWaveKeeps(job: Job, v: Table, s: ExecState)
    requires Inv(job, v, s) && Enabled(job, s, OpenWave)
    ensures Inv(job, v, Apply(job, s, OpenWave))
  {
    var t := Apply(job, s, OpenWave);
    forall id | id in job.graph.nodes ensures ViewOk(job.graph.nodes[id], v[id], ViewOf(job, t, id)) {
      NodeFacts(job, v, s, id);
      var w := ViewOf(job, s, id);
      assert ViewOf(job, t, id) == w.(task := if id in ReadySet(job, s) then Some(Queued) else None);
    }
  }

  /** Begin, Attempt and Save touch the task and the record of one node. */
  lemma StepOfOneTaskKeeps(job: Job, v: Table, s: ExecState, t: ExecState, x: NodeId, phase: Phase)
    requires Inv(job, v, s) && x in job.graph.nodes && x in s.tasks
    requires t.tasks == s.tasks[x := phase]
    requires t.store == s.store || (x in t.store && t.store == s.store[x := t.store[x]])
    requires t == s.(tasks := t.tasks, store := t.store)
    requires PhaseOk(job.graph.nodes[x], v[x], phase, Lookup(t.store, x))
    ensures Inv(job, v, t)
  {
    forall id | id in job.graph.nodes ensures ViewOk(job.graph.nodes[id], v[id], ViewOf(job, t, id)) {
      assert ViewOk(job.graph.nodes[id], v[id], ViewOf(job, s, id));
      SteppedView(job, s, t, x, phase, id);
      if id == x {
        SteppedViewOk(job.graph.nodes[x], v[x], ViewOf(job, s, x), phase, Lookup(t.store, x));
      }
    }
  }

  lemma SteppedView(job: Job, s: ExecState, t: ExecState, x: NodeId, phase: Phase, id: NodeId)
    requires WellFormed(job.graph) && x in job.graph.nodes && id in job.graph.nodes
    requires t == s.(tasks := s.tasks[x := phase], store := t.store)
    requires t.store == s.store || (x in t.store && t.store == s.store[x := t.store[x]])
    ensures var w := ViewOf(job, s, id);
      ViewOf(job, t, id) == if id == x then w.(task := Some(phase), record := Lookup(t.store, x)) else w
  {
  }

  lemma SteppedViewOk(node: TaskNode, e: TaskOutcome, w: View, phase: Phase, record: Option<CheckpointRecord>)
    requires ViewOk(node, e, w) && w.task.Some? && PhaseOk(node, e, phase, record)
    ensures ViewOk(node, e, w.(task := Some(phase), record := record))
  {
  }

  lemma BeginKeeps(job: Job, v: Table, s: ExecState, id: NodeId)
    requires Inv(job, v, s) && Enabled(job, s, Begin(id))
    ensures Inv(job, v, Apply(job, s, Begin(id)))
  {
    NodeFacts(job, v, s, id);
    ReadyNodeRuns(job, v, s, id);
    StepOfOneTaskKeeps(job, v, s, Apply(job, s, Begin(id)), id, Trying(BuildInput(job, id, s.outcomes), 0));
  }

  lemma AttemptKeeps(job: Job, v: Table, s: ExecState, id: NodeId)
    requires Inv(job, v, s) && Enabled(job, s, Attempt(id))
    ensures Inv(job, v, Apply(job, s, Attempt(id)))
  {
    var t, node := Apply(job, s, Attempt(id)), job.graph.nodes[id];
    NodeFacts(job, v, s, id);
    AttemptPhaseOk(node, v[id], s.tasks[id].input, s.tasks[id].made, Lookup(s.store, id));
    StepOfOneTaskKeeps(job, v, s, t, id, t.tasks[id]);
  }

  lemma AttemptPhaseOk(node: TaskNode, e: TaskOutcome, input: Payload, made: nat, record: Option<CheckpointRecord>)
    requires PhaseOk(node, e, Trying(input, made), record)
    ensures PhaseOk(node, e, AfterAttempt(node, input, made), record)
  {
  }

  lemma SaveKeeps(job: Job, v: Table, s: ExecState, id: NodeId)
    requires Inv(job, v, s) && id in job.graph.nodes && Enabled(job, s, Save(id))
    ensures Inv(job, v, Apply(job, s, Save(id)))
  {
    NodeFacts(job, v, s, id);
    StepOfOneTaskKeeps(job, v, s, Apply(job, s, Save(id)), id, Done(s.tasks[id].outcome));
  }

  /** The nodes that fail in a closing wave, as the evaluator sees them. */
  lemma FailuresOfWave(job: Job, v: Table, s: ExecState)
    requires Inv(job, v, s)
    ensures forall x :: x in DoneWith(s, Failed) ==> x in v && v[x].status.Failed? && x !in s.failed && x !in s.inherited
  {
    forall x | x in DoneWith(s, Failed) ensures x in v && v[x].status.Failed? && x !in s.failed && x !in s.inherited {
      NodeFacts(job, v, s, x);
    }
  }

  /** Nodes downstream of a failure of the closing wave have neither a task nor a running outcome. */
  lemma {:induction false} DownstreamOfWave(job: Job, v: Table, s: ExecState, id: NodeId)
    requires Inv(job, v, s) && id in job.graph.nodes && Downstream(job.graph, id, DoneWith(s, Failed))
    ensures v[id] == CancelledOutcome(id) && id !in s.tasks && (id in s.outcomes ==> id in s.cancelled)
    ensures id !in s.completed && id !in s.failed && id !in s.store
  {
    FailuresOfWave(job, v, s);
    DownstreamIsCancelled(job, v, id, DoneWith(s, Failed));
    NodeFacts(job, v, s, id);
    if DepsWithin(job.graph, id, s.completed) {
      ReadyNodeRuns(job, v, s, id);
    }
  }

  /** The view of a node after the wave closes, `hit` telling whether it is downstream of a new failure. */
  function ClosedView(id: NodeId, w: View, hit: bool, depsDone: bool): View {
    var cancelled := hit && w.outcome.None? && w.task.None?;
    var done := w.task.Some? && w.task.value.Done?;
    w.(completed := w.completed || (done && w.task.value.outcome.status.Completed?),
       failed := w.failed || (done && w.task.value.outcome.status.Failed?),
       cancelled := w.cancelled || cancelled,
       task := None,
       outcome := if cancelled then Some(CancelledOutcome(id))
                  else if done then Some(w.task.value.outcome) else w.outcome,
       depsDone := depsDone,
       doomed := w.doomed || hit)
  }

  lemma FailuresAfterWave(job: Job, v: Table, s: ExecState)
    requires Inv(job, v, s)
    ensures (s.failed + DoneWith(s, Failed)) - s.inherited == (s.failed - s.inherited) + DoneWith(s, Failed)
  {
    FailuresOfWave(job, v, s);
  }

  lemma {:induction false} ClosedStateView(job: Job, v: Table, s: ExecState, id: NodeId, hit: bool)
    requires Inv(job, v, s) && Enabled(job, s, CloseWave) && id in job.graph.nodes
    requires hit == Downstream(job.graph, id, DoneWith(s, Failed))
    ensures var t := ClosedState(job, s);
      ViewOf(job, t, id) == ClosedView(id, ViewOf(job, s, id), hit, DepsWithin(job.graph, id, t.completed))
  {
    FailuresAfterWave(job, v, s);
    DownstreamOfUnion(job.graph, id, s.failed - s.inherited, DoneWith(s, Failed));
    ClosedSets(job, s, id, hit);
    ClosedOutcome(job, s, id, hit);
  }

  /** Closing the wave, as one node sees it. */
  lemma {:induction false} ClosedSets(job: Job, s: ExecState, id: NodeId, hit: bool)
    requires WellFormed(job.graph) && Enabled(job, s, CloseWave) && id in job.graph.nodes
    requires hit == Downstream(job.graph, id, DoneWith(s, Failed))
    ensures var t, w := ClosedState(job, s), ClosedView(id, ViewOf(job, s, id), hit, false);
      && (id in t.completed <==> w.completed) && (id in t.failed <==> w.failed) && (id in t.cancelled <==> w.cancelled)
      && Lookup(t.tasks, id) == w.task
  {
  }

  lemma {:induction false} ClosedOutcome(job: Job, s: ExecState, id: NodeId, hit: bool)
    requires WellFormed(job.graph) && Enabled(job, s, CloseWave) && id in job.graph.nodes
    requires hit == Downstream(job.graph, id, DoneWith(s, Failed))
    ensures Lookup(ClosedState(job, s).outcomes, id) == ClosedView(id, ViewOf(job, s, id), hit, false).outcome
  {
    var outcomes := TaskOutcomes(s, s.tasks.Keys);
    assert id in NewlyCancelled(job, s) <==> hit && id !in s.outcomes && id !in s.tasks;
    assert Lookup(outcomes, id) == if id in s.tasks then Some(s.tasks[id].outcome) else None;
    LookupWithCancelled(s.outcomes, outcomes, NewlyCancelled(job, s), id);
  }

  lemma LookupWithCancelled(before: map<NodeId, TaskOutcome>, more: map<NodeId, TaskOutcome>, cancelled: set<NodeId>, id: NodeId)
    ensures Lookup(WithCancelled(before + more, cancelled), id) ==
      if id in cancelled then Some(CancelledOutcome(id)) else if id in more then Some(more[id]) else Lookup(before, id)
  {
  }

  lemma ClosedViewOk(node: TaskNode, e: TaskOutcome, w: View, hit: bool, depsDone: bool)
    requires ViewOk(node, e, w) && (w.task.Some? ==> w.task.value.Done? && IsRunOutcome(e))
    requires w.depsDone ==> depsDone
    requires hit ==>
      && e == CancelledOutcome(e.nodeId) && w.task.None? && w.record.None? && !w.completed && !w.failed
      && (w.outcome.Some? ==> w.cancelled)
    ensures ViewOk(node, e, ClosedView(e.nodeId, w, hit, depsDone))
  {
  }

  lemma CloseWaveKeepsNode(job: Job, v: Table, s: ExecState, id: NodeId)
    requires Inv(job, v, s) && Enabled(job, s, CloseWave) && id in job.graph.nodes
    ensures ViewOk(job.graph.nodes[id], v[id], ViewOf(job, ClosedState(job, s), id))
  {
    var hit := Downstream(job.graph, id, DoneWith(s, Failed));
    NodeFacts(job, v, s, id);
    if hit {
      DownstreamOfWave(job, v, s, id);
    }
    if id in s.tasks {
      ReadyNodeRuns(job, v, s, id);
    }
    var depsDone := DepsWithin(job.graph, id, ClosedState(job, s).completed);
    ClosedViewOk(job.graph.nodes[id], v[id], ViewOf(job, s, id), hit, depsDone);
    ClosedStateView(job, v, s, id, hit);
  }

  lemma ClosedStateWithinGraph(job: Job, s: ExecState)
    requires WellFormed(job.graph) && WithinGraph(job, s)
    ensures WithinGraph(job, ClosedState(job, s))
  {
  }

  lemma CloseWaveKeeps(job: Job, v: Table, s: ExecState)
    requires Inv(job, v, s) && Enabled(job, s, CloseWave)
    ensures Inv(job, v, Apply(job, s, CloseWave))
  {
    var t := ClosedState(job, s);
    ClosedStateWithinGraph(job, s);
    forall id | id in job.graph.nodes ensures ViewOk(job.graph.nodes[id], v[id], ViewOf(job, t, id)) {
      CloseWaveKeepsNode(job, v, s, id);
    }
  }

  /** Every action keeps the invariant, crashes included. */
  lemma StepKeepsInv(job: Job, v: Table, s: ExecState, a: Action)
    requires Inv(job, v, s) && Enabled(job, s, a)
    ensures Inv(job, v, Apply(job, s, a))
  {
    match a
    case OpenWave => OpenWaveKeeps(job, v, s);
    case CloseWave => CloseWaveKeeps(job, v, s);
    case Restart =>
      StoreStaysOk(job, v, s);
      ResumedStateOk(job, v, s.store);
    case Begin(id) => BeginKeeps(job, v, s, id);
    case Attempt(id) => AttemptKeeps(job, v, s, id);
    case Save(id) => SaveKeeps(job, v, s, id);
  }

  lemma {:induction false} RunKeepsInv(job: Job, v: Table, s: ExecState, run: seq<Action>)
    requires Inv(job, v, s) && IsRun(job, s, run)
    ensures Inv(job, v, After(job, s, run))
    decreases |run|
  {
    if run != [] {
      StepKeepsInv(job, v, s, run[0]);
      RunKeepsInv(job, v, Apply(job, s, run[0]), run[1..]);
    }
  }
}
