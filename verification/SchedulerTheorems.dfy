/** What every run of the scheduler achieves, over all interleavings, crashes and resumes. */
module SchedulerTheorems {
  import opened Values
  import opened TaskGraphs
  import opened Evaluator
  import opened Checkpoints
  import opened SchedulerModel

  ghost predicate Uninterrupted(run: seq<Action>) {
    forall i :: 0 <= i < |run| ==> !run[i].Restart?
  }

  /** A state of a job some run leads to, when the job starts with no stored record. */
  ghost predicate Reachable(job: Job, run: seq<Action>, s: ExecState) {
    WellFormed(job.graph) && IsRun(job, FreshState(map[]), run) && After(job, FreshState(map[]), run) == s
  }

  lemma ReachableKeepsInv(job: Job, v: Table, run: seq<Action>, s: ExecState)
    requires Reachable(job, run, s) && IsVerdict(job, v)
    ensures Inv(job, v, s)
  {
    FreshStateOk(job, v);
    RunKeepsInv(job, v, FreshState(map[]), run);
  }

  // ----- A finished run agrees with the evaluator -----

  lemma {:induction false} FinishedNodeIsSettled(job: Job, v: Table, s: ExecState, id: NodeId)
    requires Inv(job, v, s) && Finished(job, s) && id in job.graph.nodes
    ensures id in s.completed <==> v[id].status.Completed?
    ensures id in s.failed <==> v[id].status.Failed?
    decreases Rank(job.graph)[id]
  {
    var deps := job.graph.Deps(id);
    forall i | 0 <= i < |deps| ensures v[deps[i]].status.Completed? <==> deps[i] in s.completed {
      FinishedNodeIsSettled(job, v, s, deps[i]);
    }
    NodeFacts(job, v, s, id);
    assert VerdictOk(job, v, id);
    if DepsWithin(job.graph, id, s.completed) {
      ReadyNodeRuns(job, v, s, id);
      assert id !in ReadySet(job, s);
    }
  }

  lemma FinishedFailures(job: Job, v: Table, s: ExecState)
    requires Inv(job, v, s) && Finished(job, s)
    ensures s.failed == FailedIn(v)
    ensures forall id :: id in s.completed <==> id in v && v[id].status.Completed?
  {
    forall id | id in job.graph.nodes {
      FinishedNodeIsSettled(job, v, s, id);
    }
  }

  /** The outcome `execute` reports for a node, `inherited` being the failures it found in the store:
      the evaluator's, except that inherited failures have lost their message and cancel nothing. */
  ghost function ExpectedOutcome(job: Job, v: Table, inherited: set<NodeId>, id: NodeId): Option<TaskOutcome>
    requires WellFormed(job.graph) && id in job.graph.nodes && id in v
  {
    if v[id].status.Completed? then Some(v[id])
    else if v[id].status.Failed? then Some(if id in inherited then WithoutMessage(v[id]) else v[id])
    else if Downstream(job.graph, id, FailedIn(v) - inherited) then Some(v[id])
    else None
  }

  /** When `execute` returns, however its history was interrupted and interleaved, every node has the
      expected outcome and the store holds exactly the final records of the nodes that ran. */
  lemma FinishedOutcome(job: Job, v: Table, s: ExecState, id: NodeId)
    requires Inv(job, v, s) && Finished(job, s) && id in job.graph.nodes
    ensures Lookup(s.outcomes, id) == ExpectedOutcome(job, v, s.inherited, id)
    ensures Lookup(s.store, id) == if v[id].status.Cancelled? then None else Some(RecordOf(v[id]))
  {
    FinishedFailures(job, v, s);
    NodeFacts(job, v, s, id);
    assert VerdictOk(job, v, id);
    if DepsWithin(job.graph, id, s.completed) {
      ReadyNodeRuns(job, v, s, id);
    }
  }

  /** The final store of a job: one record for each node that is not cancelled. */
  function FinalStore(v: Table): map<NodeId, CheckpointRecord> {
    map id | id in v && !v[id].status.Cancelled? :: RecordOf(v[id])
  }

  lemma FinishedStore(job: Job, v: Table, s: ExecState)
    requires Inv(job, v, s) && Finished(job, s)
    ensures s.store == FinalStore(v)
  {
    forall id | id in job.graph.nodes
      ensures Lookup(s.store, id) == if v[id].status.Cancelled? then None else Some(RecordOf(v[id]))
    {
      FinishedOutcome(job, v, s, id);
    }
  }

  lemma {:induction false} FinishedRunMatchesEvaluator(job: Job, run: seq<Action>, s: ExecState, id: NodeId)
    requires Reachable(job, run, s) && Finished(job, s) && id in job.graph.nodes
    ensures id in Verdicts(job) && Verdicts(job)[id] == Eval(job, id)
    ensures Lookup(s.outcomes, id) == ExpectedOutcome(job, Verdicts(job), s.inherited, id)
    ensures s.store == FinalStore(Verdicts(job))
  {
    VerdictsSatisfyEquations(job);
    ReachableKeepsInv(job, Verdicts(job), run, s);
    FinishedOutcome(job, Verdicts(job), s, id);
    FinishedStore(job, Verdicts(job), s);
  }

  lemma {:induction false} UninterruptedInheritsNothing(job: Job, s: ExecState, run: seq<Action>)
    requires WellFormed(job.graph) && IsRun(job, s, run) && Uninterrupted(run)
    ensures After(job, s, run).inherited == s.inherited
    decreases |run|
  {
    if run != [] {
      assert !run[0].Restart?;
      UninterruptedInheritsNothing(job, Apply(job, s, run[0]), run[1..]);
    }
  }

  /** A fresh `execute` that is not interrupted returns exactly the evaluator's table. */
  lemma FreshExecuteIsEvaluator(job: Job, run: seq<Action>, s: ExecState)
    requires Reachable(job, run, s) && Uninterrupted(run) && Finished(job, s)
    ensures s.outcomes == Verdicts(job)
  {
    VerdictsSatisfyEquations(job);
    UninterruptedInheritsNothing(job, FreshState(map[]), run);
    ReachableKeepsInv(job, Verdicts(job), run, s);
    FreshFinishedOutcomes(job, Verdicts(job), s);
  }

  lemma FreshFinishedOutcomes(job: Job, v: Table, s: ExecState)
    requires Inv(job, v, s) && Finished(job, s) && s.inherited == {}
    ensures s.outcomes == v
  {
    assert FailedIn(v) - s.inherited == FailedIn(v);
    forall id | id in job.graph.nodes ensures Lookup(s.outcomes, id) == Some(v[id]) {
      FinishedOutcome(job, v, s, id);
      CancelledIffDownstreamOfFailure(job, v, id);
      assert VerdictOk(job, v, id);
    }
  }

  /** Crashes change nothing that is stored: whatever two histories of the same job look like, once both
      have finished they agree on the store, on the completed and the failed nodes, on every completed
      outcome, and on every failure but for its message. */
  lemma CrashesDoNotChangeResults(job: Job, run1: seq<Action>, s1: ExecState, run2: seq<Action>, s2: ExecState)
    requires Reachable(job, run1, s1) && Finished(job, s1)
    requires Reachable(job, run2, s2) && Finished(job, s2)
    ensures s1.store == s2.store && s1.completed == s2.completed && s1.failed == s2.failed
    ensures forall id :: id in s1.completed ==> Lookup(s1.outcomes, id) == Lookup(s2.outcomes, id) != None
    ensures forall id :: id in s1.failed ==> SameFailure(Lookup(s1.outcomes, id), Lookup(s2.outcomes, id))
  {
    var v := Verdicts(job);
    VerdictsSatisfyEquations(job);
    ReachableKeepsInv(job, v, run1, s1);
    ReachableKeepsInv(job, v, run2, s2);
    FinishedStatesAgree(job, v, s1, s2);
  }

  predicate SameFailure(a: Option<TaskOutcome>, b: Option<TaskOutcome>) {
    a.Some? && b.Some? && a.value.status.Failed? && WithoutMessage(a.value) == WithoutMessage(b.value)
  }

  lemma FinishedStatesAgree(job: Job, v: Table, s1: ExecState, s2: ExecState)
    requires Inv(job, v, s1) && Finished(job, s1) && Inv(job, v, s2) && Finished(job, s2)
    ensures s1.store == s2.store && s1.completed == s2.completed && s1.failed == s2.failed
    ensures forall id :: id in s1.completed ==> Lookup(s1.outcomes, id) == Lookup(s2.outcomes, id) != None
    ensures forall id :: id in s1.failed ==> SameFailure(Lookup(s1.outcomes, id), Lookup(s2.outcomes, id))
  {
    FinishedStore(job, v, s1);
    FinishedStore(job, v, s2);
    FinishedFailures(job, v, s1);
    FinishedFailures(job, v, s2);
    assert s1.completed == s2.completed;
    forall id | id in s1.completed ensures Lookup(s1.outcomes, id) == Lookup(s2.outcomes, id) != None {
      NodeFacts(job, v, s1, id);
      NodeFacts(job, v, s2, id);
    }
    forall id | id in s1.failed ensures SameFailure(Lookup(s1.outcomes, id), Lookup(s2.outcomes, id)) {
      NodeFacts(job, v, s1, id);
      NodeFacts(job, v, s2, id);
    }
  }

  /** A node ends without an outcome exactly when it is downstream of an inherited failure and of no
      failure of the run itself. */
  lemma {:induction false} MissingOutcomes(job: Job, run: seq<Action>, s: ExecState, id: NodeId)
    requires Reachable(job, run, s) && Finished(job, s) && id in job.graph.nodes
    ensures id !in s.outcomes <==>
      Downstream(job.graph, id, s.inherited) && !Downstream(job.graph, id, s.failed - s.inherited)
    ensures id in s.outcomes ==>
      var status := s.outcomes[id].status; status.Completed? || status.Failed? || status.Cancelled?
  {
    VerdictsSatisfyEquations(job);
    ReachableKeepsInv(job, Verdicts(job), run, s);
    FinishedMissing(job, Verdicts(job), s, id);
  }

  lemma {:induction false} FinishedMissing(job: Job, v: Table, s: ExecState, id: NodeId)
    requires Inv(job, v, s) && Finished(job, s) && id in job.graph.nodes
    ensures id !in s.outcomes <==>
      Downstream(job.graph, id, s.inherited) && !Downstream(job.graph, id, s.failed - s.inherited)
    ensures id in s.outcomes ==>
      var status := s.outcomes[id].status; status.Completed? || status.Failed? || status.Cancelled?
  {
    FinishedOutcome(job, v, s, id);
    FinishedFailures(job, v, s);
    InheritedHaveFailed(job, v, s);
    ExpectedMissing(job, v, s.inherited, id);
  }

  lemma {:induction false} ExpectedMissing(job: Job, v: Table, inherited: set<NodeId>, id: NodeId)
    requires IsVerdict(job, v) && id in job.graph.nodes && inherited <= FailedIn(v)
    ensures ExpectedOutcome(job, v, inherited, id).None? <==>
      Downstream(job.graph, id, inherited) && !Downstream(job.graph, id, FailedIn(v) - inherited)
    ensures ExpectedOutcome(job, v, inherited, id).Some? ==>
      var status := ExpectedOutcome(job, v, inherited, id).value.status;
      status.Completed? || status.Failed? || status.Cancelled?
  {
    CancelledIffDownstreamOfFailure(job, v, id);
    DownstreamOfUnion(job.graph, id, inherited, FailedIn(v) - inherited);
    assert inherited + (FailedIn(v) - inherited) == FailedIn(v);
    assert VerdictOk(job, v, id);
  }

  lemma InheritedHaveFailed(job: Job, v: Table, s: ExecState)
    requires Inv(job, v, s)
    ensures s.inherited <= s.failed
  {
    forall id | id in s.inherited ensures id in s.failed {
      NodeFacts(job, v, s, id);
    }
  }

  // ----- The store -----

  /** In every reachable state a node has a record only if all its dependencies have completed ones,
      and a final record is the evaluator's. */
  lemma StoreInvariant(job: Job, run: seq<Action>, s: ExecState)
    requires Reachable(job, run, s)
    ensures StoreOk(job, Verdicts(job), s.store)
  {
    VerdictsSatisfyEquations(job);
    ReachableKeepsInv(job, Verdicts(job), run, s);
    StoreStaysOk(job, Verdicts(job), s);
  }

  predicate IsFinal(record: Option<CheckpointRecord>) {
    record.Some? && (record.value.status.COMPLETED? || record.value.status.FAILED?)
  }

  predicate Touches(a: Action, id: NodeId) {
    a == Begin(id) || a == Attempt(id) || a == Save(id)
  }

  lemma FinalNodeIsUntouched(job: Job, v: Table, s: ExecState, a: Action, id: NodeId)
    requires Inv(job, v, s) && Enabled(job, s, a) && IsFinal(Lookup(s.store, id))
    ensures !Touches(a, id)
  {
    NodeFacts(job, v, s, id);
  }

  lemma UntouchedRecordStays(job: Job, s: ExecState, a: Action, id: NodeId)
    requires WellFormed(job.graph) && Enabled(job, s, a) && !Touches(a, id)
    ensures Lookup(Apply(job, s, a).store, id) == Lookup(s.store, id)
  {
  }

  /** A completed or failed checkpoint is never overwritten, and its node never begins, is attempted or
      saves again, in whatever run follows, crashes and resumes included. */
  lemma {:induction false} FinalRecordsAreNeverRerun(job: Job, v: Table, s: ExecState, run: seq<Action>, id: NodeId)
    requires Inv(job, v, s) && IsRun(job, s, run) && IsFinal(Lookup(s.store, id))
    ensures Lookup(After(job, s, run).store, id) == Lookup(s.store, id)
    ensures forall i :: 0 <= i < |run| ==> !Touches(run[i], id)
    decreases |run|
  {
    if run != [] {
      FinalNodeIsUntouched(job, v, s, run[0], id);
      UntouchedRecordStays(job, s, run[0], id);
      StepKeepsInv(job, v, s, run[0]);
      FinalRecordsAreNeverRerun(job, v, Apply(job, s, run[0]), run[1..], id);
      forall i | 0 <= i < |run| ensures !Touches(run[i], id) {
        assert i > 0 ==> run[i] == run[1..][i - 1];
      }
    }
  }

  // ----- Waves -----

  ghost predicate RunsInWave(job: Job, v: Table, id: NodeId, k: nat)
    requires WellFormed(job.graph) && id in job.graph.nodes && id in v
  {
    Depth(job.graph, id) == k && !v[id].status.Cancelled?
  }

  /** Before wave k exactly the uncancelled nodes of depth below k are settled; wave k consists of those
      of depth k. */
  ghost predicate LevelOk(job: Job, v: Table, s: ExecState, id: NodeId)
    requires WellFormed(job.graph) && id in job.graph.nodes && id in v
  {
    && (id in s.completed || id in s.failed <==> !v[id].status.Cancelled? && Depth(job.graph, id) < s.waves)
    && (s.tasks != map[] ==> (id in s.tasks <==> RunsInWave(job, v, id, s.waves)))
  }

  ghost predicate WaveInv(job: Job, v: Table, s: ExecState) {
    && Inv(job, v, s) && s.inherited == {}
    && (forall id {:trigger LevelOk(job, v, s, id)} :: id in job.graph.nodes ==> LevelOk(job, v, s, id))
    && (s.waves > 0 ==> exists id :: id in job.graph.nodes && Depth(job.graph, id) == s.waves - 1)
  }

  lemma {:induction false} SettledDependency(job: Job, v: Table, s: ExecState, id: NodeId, i: nat)
    requires WaveInv(job, v, s) && id in job.graph.nodes && i < |job.graph.Deps(id)|
    ensures var dep := job.graph.Deps(id)[i];
      && (dep in s.completed <==> v[dep].status.Completed? && Depth(job.graph, dep) < s.waves)
      && Depth(job.graph, dep) < Depth(job.graph, id)
  {
    var dep := job.graph.Deps(id)[i];
    NodeFacts(job, v, s, dep);
    assert LevelOk(job, v, s, dep);
    DepthOverDominates(job.graph, id, |job.graph.Deps(id)|, i);
  }

  lemma {:induction false} SettledDependencies(job: Job, v: Table, s: ExecState, id: NodeId)
    requires WaveInv(job, v, s) && id in job.graph.nodes
    ensures DepsWithin(job.graph, id, s.completed) <==> !v[id].status.Cancelled? && Depth(job.graph, id) <= s.waves
  {
    var deps := job.graph.Deps(id);
    forall i | 0 <= i < |deps|
      ensures deps[i] in s.completed <==> v[deps[i]].status.Completed? && Depth(job.graph, deps[i]) < s.waves
      ensures Depth(job.graph, deps[i]) < Depth(job.graph, id)
    {
      SettledDependency(job, v, s, id, i);
    }
    assert VerdictOk(job, v, id);
    if DepsWithin(job.graph, id, s.completed) && Depth(job.graph, id) > 0 {
      var i := DepthOverAttained(job.graph, id, |deps|);
    }
  }

  /** Opening wave k takes exactly the uncancelled nodes whose longest dependency chain has k edges. */
  lemma WaveIsDepthLevel(job: Job, v: Table, s: ExecState)
    requires WaveInv(job, v, s)
    ensures ReadySet(job, s) == set id | id in job.graph.nodes && RunsInWave(job, v, id, s.waves)
  {
    forall id | id in job.graph.nodes ensures id in ReadySet(job, s) <==> RunsInWave(job, v, id, s.waves) {
      NodeFacts(job, v, s, id);
      SettledDependencies(job, v, s, id);
      assert LevelOk(job, v, s, id);
    }
  }

  lemma OpenWaveLevel(job: Job, v: Table, s: ExecState)
    requires WaveInv(job, v, s) && Enabled(job, s, OpenWave)
    ensures WaveInv(job, v, Apply(job, s, OpenWave))
  {
    var t := Apply(job, s, OpenWave);
    OpenWaveKeeps(job, v, s);
    WaveIsDepthLevel(job, v, s);
    forall id | id in job.graph.nodes ensures LevelOk(job, v, t, id) {
      assert LevelOk(job, v, s, id);
    }
  }

  lemma TaskStepLevel(job: Job, v: Table, s: ExecState, a: Action)
    requires WaveInv(job, v, s) && Enabled(job, s, a) && (a.Begin? || a.Attempt? || a.Save?)
    ensures WaveInv(job, v, Apply(job, s, a))
  {
    var t := Apply(job, s, a);
    StepKeepsInv(job, v, s, a);
    assert t.tasks.Keys == s.tasks.Keys && a.id in t.tasks;
    forall id | id in job.graph.nodes ensures LevelOk(job, v, t, id) {
      LevelAfterStep(job, v, s, t, id);
    }
  }

  lemma LevelAfterStep(job: Job, v: Table, s: ExecState, t: ExecState, id: NodeId)
    requires WellFormed(job.graph) && id in job.graph.nodes && id in v && LevelOk(job, v, s, id)
    requires t.completed == s.completed && t.failed == s.failed && t.waves == s.waves && t.tasks.Keys == s.tasks.Keys
    ensures LevelOk(job, v, t, id)
  {
  }

  lemma TaskVerdict(job: Job, v: Table, s: ExecState, id: NodeId)
    requires Inv(job, v, s) && id in s.tasks
    ensures id in v && (v[id].status.Completed? || v[id].status.Failed?)
    ensures s.tasks[id].Done? ==> s.tasks[id].outcome == v[id]
  {
    NodeFacts(job, v, s, id);
    ReadyNodeRuns(job, v, s, id);
  }

  /** Closing the wave settles exactly the nodes that had a task. */
  lemma ClosedSettles(job: Job, v: Table, s: ExecState, id: NodeId)
    requires Inv(job, v, s) && Enabled(job, s, CloseWave)
    ensures var t := ClosedState(job, s);
      id in t.completed || id in t.failed <==> id in s.completed || id in s.failed || id in s.tasks
  {
    if id in s.tasks {
      TaskVerdict(job, v, s, id);
      assert id in DoneWith(s, Completed) || id in DoneWith(s, Failed);
    }
  }

  lemma ClosedLevel(job: Job, v: Table, s: ExecState, id: NodeId)
    requires WaveInv(job, v, s) && Enabled(job, s, CloseWave) && id in job.graph.nodes
    ensures LevelOk(job, v, ClosedState(job, s), id)
  {
    var t := ClosedState(job, s);
    ClosedSettles(job, v, s, id);
    assert LevelOk(job, v, s, id);
    LevelAfterClose(job, v, s, t, id);
  }

  lemma LevelAfterClose(job: Job, v: Table, s: ExecState, t: ExecState, id: NodeId)
    requires WellFormed(job.graph) && id in job.graph.nodes && id in v && LevelOk(job, v, s, id)
    requires s.tasks != map[] && t.tasks == map[] && t.waves == s.waves + 1
    requires id in t.completed || id in t.failed <==> id in s.completed || id in s.failed || id in s.tasks
    ensures LevelOk(job, v, t, id)
  {
  }

  lemma CloseWaveLevel(job: Job, v: Table, s: ExecState)
    requires WaveInv(job, v, s) && Enabled(job, s, CloseWave)
    ensures WaveInv(job, v, Apply(job, s, CloseWave))
  {
    var t := ClosedState(job, s);
    CloseWaveKeeps(job, v, s);
    forall id | id in job.graph.nodes ensures LevelOk(job, v, t, id) {
      ClosedLevel(job, v, s, id);
    }
    SomeTaskAtLevel(job, v, s);
  }

  lemma SomeTaskAtLevel(job: Job, v: Table, s: ExecState)
    requires WaveInv(job, v, s) && Enabled(job, s, CloseWave)
    ensures exists id :: id in job.graph.nodes && Depth(job.graph, id) == s.waves
  {
    var id :| id in s.tasks;
    assert LevelOk(job, v, s, id);
  }

  /** In a fresh uninterrupted run wave k is depth level k. */
  lemma {:induction false} WavesFollowDepth(job: Job, v: Table, s: ExecState, run: seq<Action>)
    requires WaveInv(job, v, s) && IsRun(job, s, run) && Uninterrupted(run)
    ensures WaveInv(job, v, After(job, s, run))
    decreases |run|
  {
    if run != [] {
      assert !run[0].Restart?;
      match run[0] {
        case OpenWave => OpenWaveLevel(job, v, s);
        case CloseWave => CloseWaveLevel(job, v, s);
        case Begin(id) => TaskStepLevel(job, v, s, Begin(id));
        case Attempt(id) => TaskStepLevel(job, v, s, Attempt(id));
        case Save(id) => TaskStepLevel(job, v, s, Save(id));
        case Restart =>
      }
      WavesFollowDepth(job, v, Apply(job, s, run[0]), run[1..]);
    }
  }

  /** No more waves are closed than the longest dependency chain has nodes. */
  lemma WavesWithinLongestChain(job: Job, v: Table, s: ExecState) returns (p: seq<NodeId>, id: NodeId)
    requires WaveInv(job, v, s) && s.waves > 0
    ensures id in job.graph.nodes && IsChain(job.graph, p, id, s.waves - 1)
  {
    id :| id in job.graph.nodes && Depth(job.graph, id) == s.waves - 1;
    p := LongestChain(job.graph, id);
  }

  lemma FreshRunsFollowDepth(job: Job, v: Table, run: seq<Action>, s: ExecState)
    requires Reachable(job, run, s) && Uninterrupted(run) && IsVerdict(job, v)
    ensures WaveInv(job, v, s)
  {
    FreshStateOk(job, v);
    WavesFollowDepth(job, v, FreshState(map[]), run);
  }

  /** Wave k of a fresh uninterrupted run takes exactly the nodes of depth k that the evaluator does not
      cancel. */
  lemma {:induction false} FreshWaves(job: Job, run: seq<Action>, s: ExecState)
    requires Reachable(job, run, s) && Uninterrupted(run)
    ensures ReadySet(job, s) ==
      set id | id in job.graph.nodes && Depth(job.graph, id) == s.waves && !Eval(job, id).status.Cancelled?
  {
    var v := Verdicts(job);
    VerdictsSatisfyEquations(job);
    FreshRunsFollowDepth(job, v, run, s);
    WaveIsDepthLevel(job, v, s);
  }

  // ----- Each node at most once -----

  ghost predicate HasBegun(s: ExecState, id: NodeId) {
    id in s.completed || id in s.failed || (id in s.tasks && !s.tasks[id].Queued?)
  }

  lemma BegunStaysBegun(job: Job, v: Table, s: ExecState, a: Action, id: NodeId)
    requires Inv(job, v, s) && Enabled(job, s, a) && !a.Restart? && HasBegun(s, id)
    ensures HasBegun(Apply(job, s, a), id) && a != Begin(id)
  {
    if a.CloseWave? {
      ClosedSettles(job, v, s, id);
    } else if a.OpenWave? {
    } else {
      NodeFacts(job, v, s, id);
      TaskStepKeepsBegun(job, s, a, id);
    }
  }

  lemma TaskStepKeepsBegun(job: Job, s: ExecState, a: Action, id: NodeId)
    requires WellFormed(job.graph) && Enabled(job, s, a) && (a.Begin? || a.Attempt? || a.Save?) && HasBegun(s, id)
    requires id in s.tasks ==> id !in s.completed && id !in s.failed
    ensures HasBegun(Apply(job, s, a), id) && a != Begin(id)
  {
  }

  /** Without a restart a node that has begun never begins again. */
  lemma {:induction false} BeginsAtMostOnce(job: Job, v: Table, s: ExecState, run: seq<Action>, id: NodeId)
    requires Inv(job, v, s) && IsRun(job, s, run) && Uninterrupted(run) && HasBegun(s, id)
    ensures forall i :: 0 <= i < |run| ==> run[i] != Begin(id)
    decreases |run|
  {
    if run != [] {
      assert !run[0].Restart?;
      BegunStaysBegun(job, v, s, run[0], id);
      StepKeepsInv(job, v, s, run[0]);
      BeginsAtMostOnce(job, v, Apply(job, s, run[0]), run[1..], id);
      forall i | 0 <= i < |run| ensures run[i] != Begin(id) {
        assert i > 0 ==> run[i] == run[1..][i - 1];
      }
    }
  }
}
