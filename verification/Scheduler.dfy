/** The scheduler as it is written: one execution with its four sets, the retry loop, the cancellation
    fixpoint and the wave loop, tied action by action to the state machine (src/core/scheduler.py). */
module Scheduler {
  import opened Values
  import opened TaskGraphs
  import opened Evaluator
  import opened Checkpoints
  import opened SchedulerModel
  import opened SchedulerTheorems
  import opened Cancellation

  // ----- One node on its own -----

  /** One pass of the retry loop: call the handler and decide whether to go on. */
  method CallHandler(node: TaskNode, input: Payload, made: nat) returns (phase: Phase)
    ensures phase == AfterAttempt(node, input, made)
  {
    var attempts := made + 1;
    var result := node.handler(input, attempts);
    if result.Returned? {
      return Saving(CompletedOutcome(node.nodeId, result.output, attempts));
    }
    if attempts >= MaxAttempts(node) {
      return Saving(FailedOutcome(node.nodeId, result, attempts));
    }
    return Trying(input, attempts);
  }

  /** The retry loop of a node, with its checkpoint writes, run without a break. An execution takes the same
      passes one by one (`BeginTask`, `AttemptTask`, `SaveTask`), so that other tasks can run in between. */
  method RunNode(checkpoints: InMemoryCheckpointStore, jobId: string, node: TaskNode, input: Payload)
    returns (outcome: TaskOutcome)
    modifies checkpoints
    ensures outcome == RunOutcome(node, input) && IsRunOf(node, input, outcome)
    ensures checkpoints.JobRecords(jobId, DEFAULT_TENANT) ==
      old(checkpoints.JobRecords(jobId, DEFAULT_TENANT))[node.nodeId := RecordOf(outcome)]
  {
    checkpoints.SaveCheckpoint(jobId, RunningRecord(node.nodeId));
    var phase := Trying(input, 0);
    while phase.Trying?
      invariant phase.Trying? || phase.Saving?
      invariant phase.Trying? ==>
        phase.input == input && phase.made < MaxAttempts(node) && RunFrom(node, input, phase.made) == RunOutcome(node, input)
      invariant phase.Saving? ==> phase.outcome == RunOutcome(node, input)
      invariant checkpoints.JobRecords(jobId, DEFAULT_TENANT) ==
        old(checkpoints.JobRecords(jobId, DEFAULT_TENANT))[node.nodeId := RunningRecord(node.nodeId)]
      decreases phase.Trying?, if phase.Trying? then MaxAttempts(node) - phase.made else 0
    {
      phase := CallHandler(node, phase.input, phase.made);
    }
    outcome := phase.outcome;
    RunIsOutcomeIff(node, input, outcome);
    checkpoints.SaveCheckpoint(jobId, RecordOf(outcome));
  }

  /** The input of a node, collected dependency by dependency. */
  method CollectInput(job: Job, id: NodeId, outcomes: map<NodeId, TaskOutcome>) returns (input: Payload)
    requires id in job.graph.nodes
    ensures input == BuildInput(job, id, outcomes)
    ensures IsFramed(job, id, input) && "dependencies" in input && input["dependencies"].Obj?
    ensures forall dep :: dep in input["dependencies"].fields <==>
      dep in job.graph.Deps(id) && dep in outcomes && outcomes[dep].status.Completed?
    ensures forall dep :: dep in input["dependencies"].fields ==>
      input["dependencies"].fields[dep] == Obj(outcomes[dep].output)
  {
    var deps := job.graph.Deps(id);
    var dependencies: map<NodeId, Payload> := map[];
    for i := 0 to |deps|
      invariant dependencies == CompletedOutputs(deps[..i], outcomes)
    {
      assert deps[..i + 1] == deps[..i] + [deps[i]];
      if deps[i] in outcomes && outcomes[deps[i]].status.Completed? {
        dependencies := dependencies[deps[i] := outcomes[deps[i]].output];
      }
    }
    assert deps[..|deps|] == deps;
    input := InputPayload(job.jobId, job.base, id, dependencies);
    InputIs(job, id, dependencies);
  }

  // ----- One execution -----

  /** A restored outcome is what the record holds; a record keeps no error message. */
  ghost predicate IsRestored(record: CheckpointRecord, o: TaskOutcome) {
    && o.nodeId == record.nodeId && o.output == record.payload && o.reasonCode == record.reasonCode
    && o.attempts == record.attempt && o.errorMessage == ""
    && match record.status
       case PENDING => o.status == Pending
       case RUNNING => o.status == Running
       case COMPLETED => o.status == Completed
       case FAILED => o.status == Failed
       case CANCELLED => o.status == Cancelled
  }

  /** The collections a resumed run starts from, filled record by record. */
  method RestoreCheckpoints(listed: map<NodeId, CheckpointRecord>)
    returns (outcomes: map<NodeId, TaskOutcome>, completed: set<NodeId>, failed: set<NodeId>)
    ensures var s := ResumedState(listed); outcomes == s.outcomes && completed == s.completed && failed == s.failed
    ensures outcomes.Keys == listed.Keys && forall id :: id in listed ==> IsRestored(listed[id], outcomes[id])
  {
    outcomes, completed, failed := map[], {}, {};
    var todo := listed.Keys;
    while todo != {}
      invariant todo <= listed.Keys && outcomes.Keys == listed.Keys - todo
      invariant forall id :: id in outcomes ==> outcomes[id] == RestoredOutcome(listed[id])
      invariant forall id :: id in completed <==> id in outcomes && listed[id].status.COMPLETED?
      invariant forall id :: id in failed <==> id in outcomes && listed[id].status.FAILED?
      decreases todo
    {
      var id :| id in todo;
      todo := todo - {id};
      outcomes := outcomes[id := RestoredOutcome(listed[id])];
      if listed[id].status.COMPLETED? {
        completed := completed + {id};
      } else if listed[id].status.FAILED? {
        failed := failed + {id};
      }
    }
  }

  /** How many more steps a task can take. */
  function WorkLeft(node: TaskNode, phase: Phase): nat {
    match phase
    case Queued => MaxAttempts(node) + 2
    case Trying(_, made) => if made < MaxAttempts(node) then MaxAttempts(node) - made + 1 else 1
    case Saving(_) => 1
    case Done(_) => 0
  }

  ghost function WorkOver(job: Job, tasks: map<NodeId, Phase>, wave: seq<NodeId>): nat {
    if wave == [] then 0
    else
      (if wave[0] in tasks && wave[0] in job.graph.nodes
       then WorkLeft(job.graph.nodes[wave[0]], tasks[wave[0]]) else 0)
      + WorkOver(job, tasks, wave[1..])
  }

  lemma {:induction false} WorkDrops(job: Job, tasks: map<NodeId, Phase>, wave: seq<NodeId>, x: NodeId, phase: Phase)
    requires x in tasks && x in job.graph.nodes
    requires WorkLeft(job.graph.nodes[x], phase) < WorkLeft(job.graph.nodes[x], tasks[x])
    ensures WorkOver(job, tasks[x := phase], wave) <= WorkOver(job, tasks, wave)
    ensures x in wave ==> WorkOver(job, tasks[x := phase], wave) < WorkOver(job, tasks, wave)
    decreases |wave|
  {
    if wave != [] {
      WorkDrops(job, tasks, wave[1..], x, phase);
    }
  }

  /** The local state of `execute`, with the tasks of the open wave. */
  class Execution {
    const job: Job
    const checkpoints: InMemoryCheckpointStore
    var outcomes: map<NodeId, TaskOutcome>
    var completed: set<NodeId>
    var running: set<NodeId>
    var failed: set<NodeId>
    var cancelled: set<NodeId>
    var tasks: map<NodeId, Phase>
    ghost var inherited: set<NodeId>
    ghost var waves: nat

    function Records(): map<NodeId, CheckpointRecord>
      reads checkpoints
    {
      checkpoints.JobRecords(job.jobId, DEFAULT_TENANT)
    }

    /** The abstract state this object stands for. */
    ghost function State(): ExecState
      reads this, checkpoints
    {
      ExecState(Records(), outcomes, completed, failed, cancelled, tasks, inherited, waves)
    }

    ghost predicate Valid(v: Table)
      reads this, checkpoints
    {
      Inv(job, v, State()) && running == tasks.Keys
    }

    /** Starts with empty collections, or with those the stored records give. */
    constructor (job: Job, checkpoints: InMemoryCheckpointStore, resume: bool)
      ensures this.job == job && this.checkpoints == checkpoints && running == {}
      ensures State() == if resume then ResumedState(Records()) else FreshState(Records())
    {
      this.job, this.checkpoints := job, checkpoints;
      outcomes, completed, running, failed, cancelled, tasks := map[], {}, {}, {}, {}, map[];
      inherited, waves := {}, 0;
      new;
      if resume {
        var listed := checkpoints.ListCheckpoints(job.jobId, DEFAULT_TENANT);
        outcomes, completed, failed := RestoreCheckpoints(listed);
        inherited := failed;
      }
    }

    /** The ready nodes that are not cancelled, in graph order. */
    method NextWave() returns (wave: seq<NodeId>)
      requires WellFormed(job.graph)
      ensures forall id :: id in wave <==> id in ReadySet(job, State())
    {
      var ready := ReadyNodes(job.graph, completed, {}, failed);
      wave := [];
      for i := 0 to |ready|
        invariant forall id :: id in wave <==> id in ready[..i] && id !in cancelled
      {
        assert ready[..i + 1] == ready[..i] + [ready[i]];
        if ready[i] !in cancelled {
          wave := wave + [ready[i]];
        }
      }
      assert ready[..|ready|] == ready;
    }

    /** Creates the tasks of a wave. */
    method OpenNextWave(wave: seq<NodeId>, ghost v: Table)
      requires Valid(v) && tasks == map[] && wave != []
      requires forall id :: id in wave <==> id in ReadySet(job, State())
      modifies this`running, this`tasks
      ensures old(Enabled(job, State(), OpenWave)) && State() == Apply(job, old(State()), OpenWave) && Valid(v)
    {
      ghost var s := State();
      assert wave[0] in ReadySet(job, s);
      CreateTasks(wave);
      assert tasks == map id | id in ReadySet(job, s) :: Queued;
      OpenWaveKeeps(job, v, s);
    }

    method CreateTasks(wave: seq<NodeId>)
      requires tasks == map[] && running == {}
      modifies this`running, this`tasks
      ensures tasks == (map id | id in wave :: Queued) && running == tasks.Keys
    {
      for i := 0 to |wave|
        invariant tasks == map id | id in wave[..i] :: Queued
        invariant running == tasks.Keys
      {
        assert wave[..i + 1] == wave[..i] + [wave[i]];
        running := running + {wave[i]};
        tasks := tasks[wave[i] := Queued];
      }
      assert wave[..|wave|] == wave;
    }

    /** The first step of a task: build the input and write the running checkpoint. */
    method BeginTask(id: NodeId, ghost v: Table)
      requires Valid(v) && Enabled(job, State(), Begin(id))
      modifies this`tasks, checkpoints
      ensures State() == Apply(job, old(State()), Begin(id)) && Valid(v)
      ensures id in Records() && Records()[id] == CheckpointRecord(id, RUNNING, 1, "", map[])
      ensures forall t, j :: (t, j) != (DEFAULT_TENANT, job.jobId) ==>
        checkpoints.JobRecords(j, t) == old(checkpoints.JobRecords(j, t))
    {
      ghost var s := State();
      var input := CollectInput(job, id, outcomes);
      checkpoints.SaveCheckpoint(job.jobId, RunningRecord(id), DEFAULT_TENANT);
      tasks := tasks[id := Trying(input, 0)];
      BeginKeeps(job, v, s, id);
    }

    /** One call of the handler. */
    method AttemptTask(id: NodeId, ghost v: Table)
      requires Valid(v) && Enabled(job, State(), Attempt(id))
      modifies this`tasks
      ensures State() == Apply(job, old(State()), Attempt(id)) && Valid(v)
    {
      ghost var s := State();
      var phase := CallHandler(job.graph.nodes[id], tasks[id].input, tasks[id].made);
      tasks := tasks[id := phase];
      AttemptKeeps(job, v, s, id);
    }

    /** The last step of a task: write the final checkpoint and return the outcome. */
    method SaveTask(id: NodeId, ghost v: Table)
      requires Valid(v) && Enabled(job, State(), Save(id))
      modifies this`tasks, checkpoints
      ensures State() == Apply(job, old(State()), Save(id)) && Valid(v)
      ensures forall t, j :: (t, j) != (DEFAULT_TENANT, job.jobId) ==>
        checkpoints.JobRecords(j, t) == old(checkpoints.JobRecords(j, t))
    {
      ghost var s := State();
      SavedNode(job, v, s, id);
      checkpoints.SaveCheckpoint(job.jobId, RecordOf(tasks[id].outcome), DEFAULT_TENANT);
      tasks := tasks[id := Done(tasks[id].outcome)];
      SaveKeeps(job, v, s, id);
    }

    ghost function CurrentBooks(): Books
      reads this
    {
      Books(completed, failed, cancelled, outcomes)
    }

    /** Closes a finished wave. */
    method CloseWave(wave: seq<NodeId>, ghost v: Table)
      requires Valid(v) && Enabled(job, State(), SchedulerModel.CloseWave)
      requires forall id :: id in wave <==> id in tasks
      modifies this
      ensures State() == Apply(job, old(State()), SchedulerModel.CloseWave) && Valid(v)
    {
      ghost var s := State();
      WaveIsRecordable(job, v, s);
      RecordWave(wave, s);
      ghost var books := CurrentBooks();
      tasks := map[];
      waves := waves + 1;
      ghost var t := State();
      assert books == Books(t.completed, t.failed, t.cancelled, t.outcomes);
      WaveCloses(job, v, s, t, books);
    }

    /** Records the outcomes of the wave, in the order its tasks were created. */
    method RecordWave(wave: seq<NodeId>, ghost s: ExecState)
      requires WellFormed(job.graph) && s == State() && AllRecordable(job, s)
      requires running == s.tasks.Keys && forall id :: id in wave <==> id in s.tasks
      modifies this`running, this`outcomes, this`completed, this`failed, this`cancelled
      ensures CurrentBooks() == BooksAfter(job, s, s.tasks.Keys) && running == {}
    {
      ghost var handled: set<NodeId> := {};
      BooksAtStart(job, s);
      for i := 0 to |wave|
        invariant handled <= s.tasks.Keys && forall j :: 0 <= j < i ==> wave[j] in handled
        invariant CurrentBooks() == BooksAfter(job, s, handled)
        invariant running == s.tasks.Keys - handled
      {
        assert wave[i] in wave;
        RecordOutcome(wave[i], s, handled);
        handled := handled + {wave[i]};
      }
      assert handled == s.tasks.Keys;
    }

    /** Records one outcome and, for a failure, cancels what depends on it. */
    method RecordOutcome(id: NodeId, ghost s: ExecState, ghost handled: set<NodeId>)
      requires WellFormed(job.graph) && tasks == s.tasks && AllRecordable(job, s)
      requires id in s.tasks && handled <= s.tasks.Keys
      requires CurrentBooks() == BooksAfter(job, s, handled)
      modifies this`running, this`outcomes, this`completed, this`failed, this`cancelled
      ensures CurrentBooks() == BooksAfter(job, s, handled + {id})
      ensures running == old(running) - {id}
    {
      assert Recordable(job, s, handled, id);
      ghost var books := CurrentBooks();
      var outcome := tasks[id].outcome;
      running := running - {id};
      outcomes := outcomes[id := outcome];
      if outcome.status.Completed? {
        completed := completed + {id};
        BooksRecord(job, s, handled, id, books);
      } else {
        RecordFailure(id, s, handled, books);
      }
    }

    method RecordFailure(id: NodeId, ghost s: ExecState, ghost handled: set<NodeId>, ghost books: Books)
      requires WellFormed(job.graph) && Recordable(job, s, handled, id) && s.tasks[id].outcome.status.Failed?
      requires books == BooksAfter(job, s, handled)
      requires CurrentBooks() == books.(outcomes := books.outcomes[id := s.tasks[id].outcome])
      modifies this`outcomes, this`failed, this`cancelled
      ensures CurrentBooks() == BooksAfter(job, s, handled + {id})
    {
      failed := failed + {id};
      cancelled, outcomes := MarkDownstreamCancelled(job.graph, id, cancelled, outcomes);
      BooksFail(job, s, handled, id, books, cancelled - books.cancelled);
    }
  }

  /** What recording the outcome of a finished task relies on. */
  ghost predicate Recordable(job: Job, s: ExecState, handled: set<NodeId>, id: NodeId)
    requires WellFormed(job.graph)
  {
    && id in s.tasks && s.tasks[id].Done? && (s.tasks[id].outcome.status.Completed? || s.tasks[id].outcome.status.Failed?)
    && TaskOutcomes(s, handled).Keys == handled
    && DownstreamUndecided(job.graph, s, handled) && DownstreamUndecided(job.graph, s, handled + {id})
  }

  ghost predicate AllRecordable(job: Job, s: ExecState)
    requires WellFormed(job.graph)
  {
    forall handled, id {:trigger Recordable(job, s, handled, id)} ::
      id in s.tasks && handled <= s.tasks.Keys ==> Recordable(job, s, handled, id)
  }

  lemma WaveIsRecordable(job: Job, v: Table, s: ExecState)
    requires Inv(job, v, s) && Enabled(job, s, CloseWave)
    ensures AllRecordable(job, s)
  {
    forall handled, id | id in s.tasks && handled <= s.tasks.Keys ensures Recordable(job, s, handled, id) {
      DownstreamOfHandled(job, v, s, handled);
      DownstreamOfHandled(job, v, s, handled + {id});
      TaskVerdict(job, v, s, id);
    }
  }

  lemma CancelledHaveOutcomes(job: Job, v: Table, s: ExecState)
    requires Inv(job, v, s)
    ensures s.cancelled <= s.outcomes.Keys
  {
    forall id | id in s.cancelled ensures id in s.outcomes {
      NodeFacts(job, v, s, id);
    }
  }

  lemma WaveCloses(job: Job, v: Table, s: ExecState, t: ExecState, b: Books)
    requires Inv(job, v, s) && Enabled(job, s, CloseWave)
    requires b == BooksAfter(job, s, s.tasks.Keys) == Books(t.completed, t.failed, t.cancelled, t.outcomes)
    requires t.tasks == map[] && t.store == s.store && t.inherited == s.inherited && t.waves == s.waves + 1
    ensures t == Apply(job, s, CloseWave) && Inv(job, v, t)
  {
    DownstreamOfHandled(job, v, s, s.tasks.Keys);
    CancelledHaveOutcomes(job, v, s);
    BooksAtEnd(job, s, b);
    CloseWaveKeeps(job, v, s);
  }

  // ----- The whole of execute -----

  /** Every final record of `before` is still there, unchanged. */
  ghost predicate FinalsKept(before: map<NodeId, CheckpointRecord>, after: map<NodeId, CheckpointRecord>) {
    forall id :: IsFinal(Lookup(before, id)) ==> Lookup(after, id) == Lookup(before, id)
  }

  lemma StepKeepsFinals(job: Job, v: Table, s: ExecState, a: Action, before: map<NodeId, CheckpointRecord>)
    requires Inv(job, v, s) && Enabled(job, s, a) && FinalsKept(before, s.store)
    ensures FinalsKept(before, Apply(job, s, a).store)
  {
    forall id | IsFinal(Lookup(before, id)) ensures Lookup(Apply(job, s, a).store, id) == Lookup(before, id) {
      FinalNodeIsUntouched(job, v, s, a, id);
      UntouchedRecordStays(job, s, a, id);
    }
  }

  /** The action a task takes next. */
  function NextAction(id: NodeId, phase: Phase): Action
    requires !phase.Done?
  {
    match phase
    case Queued => Begin(id)
    case Trying(_, _) => Attempt(id)
    case Saving(_) => Save(id)
  }

  lemma SavedNode(job: Job, v: Table, s: ExecState, id: NodeId)
    requires Inv(job, v, s) && Enabled(job, s, Save(id))
    ensures id in job.graph.nodes && RecordOf(s.tasks[id].outcome).nodeId == id
  {
    NodeFacts(job, v, s, id);
  }

  lemma {:induction false} TaskProgress(job: Job, v: Table, s: ExecState, id: NodeId, wave: seq<NodeId>)
    requires Inv(job, v, s) && id in s.tasks && !s.tasks[id].Done? && id in wave
    ensures Enabled(job, s, NextAction(id, s.tasks[id]))
    ensures var t := Apply(job, s, NextAction(id, s.tasks[id]));
      t.tasks.Keys == s.tasks.Keys && WorkOver(job, t.tasks, wave) < WorkOver(job, s.tasks, wave)
  {
    TaskPhase(job, v, s, id);
    PhaseWorkDrops(job, s, id);
    WorkDrops(job, s.tasks, wave, id, Apply(job, s, NextAction(id, s.tasks[id])).tasks[id]);
  }

  /** A task belongs to a node of the graph, and is not past its last attempt. */
  lemma TaskPhase(job: Job, v: Table, s: ExecState, id: NodeId)
    requires Inv(job, v, s) && id in s.tasks
    ensures id in job.graph.nodes
    ensures s.tasks[id].Trying? ==> s.tasks[id].made < MaxAttempts(job.graph.nodes[id])
  {
    NodeFacts(job, v, s, id);
  }

  lemma PhaseWorkDrops(job: Job, s: ExecState, id: NodeId)
    requires WellFormed(job.graph) && id in job.graph.nodes && id in s.tasks && !s.tasks[id].Done?
    requires s.tasks[id].Trying? ==> s.tasks[id].made < MaxAttempts(job.graph.nodes[id])
    ensures var a := NextAction(id, s.tasks[id]);
      && Enabled(job, s, a)
      && var t := Apply(job, s, a);
      && t.tasks == s.tasks[id := t.tasks[id]]
      && WorkLeft(job.graph.nodes[id], t.tasks[id]) < WorkLeft(job.graph.nodes[id], s.tasks[id])
  {
  }

  /** Lets one task take its next step. */
  method StepTask(e: Execution, id: NodeId, ghost v: Table)
    requires e.Valid(v) && id in e.tasks && !e.tasks[id].Done?
    requires Enabled(e.job, e.State(), NextAction(id, e.tasks[id]))
    modifies e`tasks, e.checkpoints
    ensures e.Valid(v) && e.State() == Apply(e.job, old(e.State()), old(NextAction(id, e.tasks[id])))
    ensures forall t, j :: (t, j) != (DEFAULT_TENANT, e.job.jobId) ==>
      e.checkpoints.JobRecords(j, t) == old(e.checkpoints.JobRecords(j, t))
  {
    match e.tasks[id] {
      case Queued => e.BeginTask(id, v);
      case Trying(_, _) => e.AttemptTask(id, v);
      case Saving(_) => e.SaveTask(id, v);
    }
  }

  /** Lets the tasks of a wave take their steps in an arbitrary order, until all are done or the
      execution is cut short. */
  method RunWave(e: Execution, wave: seq<NodeId>, ghost v: Table, ghost before: map<NodeId, CheckpointRecord>)
    returns (finished: bool)
    requires e.Valid(v) && FinalsKept(before, e.Records())
    requires forall id :: id in e.tasks ==> id in wave
    modifies e`tasks, e.checkpoints
    ensures e.Valid(v) && FinalsKept(before, e.Records()) && e.tasks.Keys == old(e.tasks.Keys)
    ensures finished ==> forall id :: id in e.tasks ==> e.tasks[id].Done?
    ensures forall t, j :: (t, j) != (DEFAULT_TENANT, e.job.jobId) ==>
      e.checkpoints.JobRecords(j, t) == old(e.checkpoints.JobRecords(j, t))
  {
    while exists id :: id in e.tasks && !e.tasks[id].Done?
      invariant e.Valid(v) && FinalsKept(before, e.Records()) && e.tasks.Keys == old(e.tasks.Keys)
      invariant forall t, j :: (t, j) != (DEFAULT_TENANT, e.job.jobId) ==>
        e.checkpoints.JobRecords(j, t) == old(e.checkpoints.JobRecords(j, t))
      decreases WorkOver(e.job, e.tasks, wave)
    {
      if * {
        return false;
      }
      var id :| id in e.tasks && !e.tasks[id].Done?;
      ghost var s := e.State();
      TaskProgress(e.job, v, s, id, wave);
      StepKeepsFinals(e.job, v, s, NextAction(id, e.tasks[id]), before);
      StepTask(e, id, v);
    }
    return true;
  }

  /** The wave a loop iteration of `execute` is about to run. */
  ghost predicate IsNextWave(e: Execution, wave: seq<NodeId>)
    reads e, e.checkpoints
  {
    e.tasks == map[] && forall id :: id in wave <==> id in ReadySet(e.job, e.State())
  }

  /** One iteration of the loop of `execute`: opens the wave, runs its tasks and, unless it is cut short, closes
      it. */
  method RunOneWave(e: Execution, wave: seq<NodeId>, ghost v: Table, ghost before: map<NodeId, CheckpointRecord>)
    returns (finished: bool)
    requires e.Valid(v) && FinalsKept(before, e.Records()) && wave != [] && IsNextWave(e, wave)
    modifies e, e.checkpoints
    ensures e.Valid(v) && FinalsKept(before, e.Records()) && e.inherited == old(e.inherited)
    ensures finished ==> e.tasks == map[] && Unsettled(e) < old(Unsettled(e))
    ensures forall t, j :: (t, j) != (DEFAULT_TENANT, e.job.jobId) ==>
      e.checkpoints.JobRecords(j, t) == old(e.checkpoints.JobRecords(j, t))
  {
    e.OpenNextWave(wave, v);
    finished := RunWave(e, wave, v, before);
    if finished {
      WaveSettles(e.job, v, e.State(), wave[0]);
      e.CloseWave(wave, v);
    }
  }

  ghost function Unsettled(e: Execution): set<NodeId>
    reads e
  {
    e.job.graph.nodes.Keys - e.completed - e.failed
  }

  /** Runs a job, fresh or from its stored checkpoints. The order of the steps within a wave and the point
      at which the execution is interrupted, if it is, are arbitrary. */
  method Execute(job: Job, checkpoints: InMemoryCheckpointStore, resume: bool)
    returns (result: Option<map<NodeId, TaskOutcome>>)
    requires WellFormed(job.graph)
    requires if resume then StoreOk(job, Verdicts(job), checkpoints.JobRecords(job.jobId, DEFAULT_TENANT))
             else checkpoints.JobRecords(job.jobId, DEFAULT_TENANT) == map[]
    modifies checkpoints
    ensures StoreOk(job, Verdicts(job), checkpoints.JobRecords(job.jobId, DEFAULT_TENANT))
    ensures FinalsKept(old(checkpoints.JobRecords(job.jobId, DEFAULT_TENANT)),
                       checkpoints.JobRecords(job.jobId, DEFAULT_TENANT))
    ensures forall t, j :: (t, j) != (DEFAULT_TENANT, job.jobId) ==>
      checkpoints.JobRecords(j, t) == old(checkpoints.JobRecords(j, t))
    ensures result.Some? ==>
      && checkpoints.JobRecords(job.jobId, DEFAULT_TENANT) == FinalStore(Verdicts(job))
      && IsResult(job, StoredFailures(old(checkpoints.JobRecords(job.jobId, DEFAULT_TENANT))), result.value)
    ensures result.Some? && !resume ==> result.value == Verdicts(job) && IsConsistent(job, result.value)
    ensures result.Some? ==> checkpoints.JobRecords(job.jobId, "default") == FinalStore(Verdicts(job))
  {
    ghost var v := Verdicts(job);
    VerdictsAreConsistent(job);
    ghost var before := checkpoints.JobRecords(job.jobId, DEFAULT_TENANT);
    StartIsOk(job, resume, before);
    var e := new Execution(job, checkpoints, resume);
    var wave := e.NextWave();
    while wave != []
      invariant e.job == job && e.checkpoints == checkpoints && e.Valid(v) && IsNextWave(e, wave)
      invariant FinalsKept(before, e.Records()) && e.inherited == StoredFailures(before)
      invariant forall t, j :: (t, j) != (DEFAULT_TENANT, job.jobId) ==>
        checkpoints.JobRecords(j, t) == old(checkpoints.JobRecords(j, t))
      decreases Unsettled(e)
    {
      var finished := RunOneWave(e, wave, v, before);
      if !finished {
        StoreStaysOk(job, v, e.State());
        return None;
      }
      wave := e.NextWave();
    }
    ExecutionEnds(job, v, e.State());
    return Some(e.outcomes);
  }

  /** What `execute` returns: the expected outcome of every node, and of nothing else. */
  ghost predicate IsResult(job: Job, inherited: set<NodeId>, outcomes: map<NodeId, TaskOutcome>)
    requires WellFormed(job.graph)
  {
    && outcomes.Keys <= job.graph.nodes.Keys
    && forall id :: id in job.graph.nodes ==> Lookup(outcomes, id) == ExpectedOutcome(job, Verdicts(job), inherited, id)
  }

  function StoredFailures(records: map<NodeId, CheckpointRecord>): set<NodeId> {
    set id | id in records && records[id].status.FAILED?
  }

  lemma StartIsOk(job: Job, resume: bool, records: map<NodeId, CheckpointRecord>)
    requires WellFormed(job.graph)
    requires if resume then StoreOk(job, Verdicts(job), records) else records == map[]
    ensures Inv(job, Verdicts(job), if resume then ResumedState(records) else FreshState(records))
  {
    VerdictsSatisfyEquations(job);
    if resume {
      ResumedStateOk(job, Verdicts(job), records);
    } else {
      FreshStateOk(job, Verdicts(job));
    }
  }

  lemma TaskIsUnsettled(job: Job, v: Table, s: ExecState, id: NodeId)
    requires Inv(job, v, s) && id in s.tasks
    ensures id in job.graph.nodes && id !in s.completed && id !in s.failed
  {
    NodeFacts(job, v, s, id);
  }

  /** Every wave settles at least one node more. */
  lemma WaveSettles(job: Job, v: Table, s: ExecState, id: NodeId)
    requires Inv(job, v, s) && id in s.tasks && Enabled(job, s, CloseWave)
    ensures var t := Apply(job, s, CloseWave);
      job.graph.nodes.Keys - t.completed - t.failed < job.graph.nodes.Keys - s.completed - s.failed
  {
    TaskIsUnsettled(job, v, s, id);
    ClosedSettles(job, v, s, id);
    var t := ClosedState(job, s);
    assert s.completed <= t.completed && s.failed <= t.failed;
    assert id in job.graph.nodes.Keys - s.completed - s.failed;
    assert id !in job.graph.nodes.Keys - t.completed - t.failed;
  }

  lemma ExecutionEnds(job: Job, v: Table, s: ExecState)
    requires Inv(job, v, s) && Finished(job, s) && v == Verdicts(job)
    ensures StoreOk(job, v, s.store) && s.store == FinalStore(v) && IsResult(job, s.inherited, s.outcomes)
    ensures s.inherited == {} ==> s.outcomes == v
  {
    StoreStaysOk(job, v, s);
    FinishedStore(job, v, s);
    OutcomesWithinGraph(job, v, s);
    forall id | id in job.graph.nodes ensures Lookup(s.outcomes, id) == ExpectedOutcome(job, v, s.inherited, id) {
      FinishedOutcome(job, v, s, id);
    }
    if s.inherited == {} {
      FreshFinishedOutcomes(job, v, s);
    }
  }

  lemma OutcomesWithinGraph(job: Job, v: Table, s: ExecState)
    requires Inv(job, v, s)
    ensures s.outcomes.Keys <= job.graph.nodes.Keys
  {
  }
}
