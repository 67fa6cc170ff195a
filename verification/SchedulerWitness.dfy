/** A crash between a failure and the end of its wave: the dependents of the failed node are never reported. */
module SchedulerWitness {
  import opened Values
  import opened TaskGraphs
  import opened Evaluator
  import opened Checkpoints
  import opened SchedulerModel
  import opened SchedulerTheorems

  /** Two nodes, the first failing at its only attempt, the second depending on it. */
  ghost predicate IsFailingPair(job: Job, a: NodeId, b: NodeId) {
    && a != b && job.graph.order == [a, b] && job.graph.nodes.Keys == {a, b}
    && job.graph.nodes[a].nodeId == a && job.graph.nodes[b].nodeId == b
    && job.graph.Deps(a) == [] && job.graph.Deps(b) == [a] && job.graph.nodes[a].retryLimit == 0
    && forall input :: !job.graph.nodes[a].handler(input, 1).Returned?
  }

  lemma PairIsWellFormed(job: Job, a: NodeId, b: NodeId)
    requires IsFailingPair(job, a, b)
    ensures WellFormed(job.graph)
  {
    assert IsRank(job.graph, map[a := 0, b := 1]);
  }

  lemma {:induction false} RunCons(job: Job, s: ExecState, first: Action, run: seq<Action>)
    requires WellFormed(job.graph) && Enabled(job, s, first) && IsRun(job, Apply(job, s, first), run)
    ensures IsRun(job, s, [first] + run) && After(job, s, [first] + run) == After(job, Apply(job, s, first), run)
  {
    assert ([first] + run)[1..] == run;
  }

  lemma FirstWave(job: Job, a: NodeId, b: NodeId)
    requires IsFailingPair(job, a, b) && WellFormed(job.graph)
    ensures ReadySet(job, FreshState(map[])) == {a}
  {
    assert job.graph.Deps(b)[0] == a;
    assert IsReady(job.graph, {}, {}, {}, a) && !IsReady(job.graph, {}, {}, {}, b);
  }

  lemma {:induction false} FailureIsSaved(job: Job, a: NodeId, b: NodeId, s: ExecState)
    requires IsFailingPair(job, a, b) && WellFormed(job.graph) && s == FreshState(map[]).(tasks := map[a := Queued])
    ensures IsRun(job, s, [Begin(a), Attempt(a), Save(a)])
    ensures var t := After(job, s, [Begin(a), Attempt(a), Save(a)]);
      t.store.Keys == {a} && t.store[a].status.FAILED?
  {
    var s1 := Apply(job, s, Begin(a));
    var s2 := Apply(job, s1, Attempt(a));
    assert s2.tasks[a].Saving? && s2.tasks[a].outcome.status.Failed?;
    var s3 := Apply(job, s2, Save(a));
    assert [Attempt(a), Save(a)][1..] == [Save(a)] && [Begin(a), Attempt(a), Save(a)][1..] == [Attempt(a), Save(a)];
    assert [Save(a)][1..] == [];
    assert IsRun(job, s3, []);
    RunCons(job, s2, Save(a), []);
    RunCons(job, s1, Attempt(a), [Save(a)]);
    RunCons(job, s, Begin(a), [Attempt(a), Save(a)]);
    assert [Save(a)] + [] == [Save(a)] && [Attempt(a)] + [Save(a)] == [Attempt(a), Save(a)];
    assert [Begin(a)] + [Attempt(a), Save(a)] == [Begin(a), Attempt(a), Save(a)];
  }

  lemma ResumeFindsNothing(job: Job, a: NodeId, b: NodeId, store: map<NodeId, CheckpointRecord>)
    requires IsFailingPair(job, a, b) && store.Keys == {a} && store[a].status.FAILED?
    ensures Finished(job, ResumedState(store)) && b !in ResumedState(store).outcomes
  {
    var s := ResumedState(store);
    assert job.graph.Deps(b)[0] == a && a in s.failed;
    assert ReadySet(job, s) == {};
  }

  /** From a fresh start: the failure is stored, the process crashes before the wave closes, and the resumed
      run ends at once without an outcome for the dependent node. */
  lemma CrashLosesOutcome(job: Job, a: NodeId, b: NodeId) returns (run: seq<Action>, s: ExecState)
    requires IsFailingPair(job, a, b)
    ensures Reachable(job, run, s) && Finished(job, s) && b in job.graph.nodes && b !in s.outcomes
  {
    PairIsWellFormed(job, a, b);
    FirstWave(job, a, b);
    var s0 := FreshState(map[]);
    var s1 := Apply(job, s0, OpenWave);
    assert s1 == s0.(tasks := map[a := Queued]);
    FailureIsSaved(job, a, b, s1);
    var steps := [Begin(a), Attempt(a), Save(a)];
    var s4 := After(job, s1, steps);
    s := ResumedState(s4.store);
    ResumeFindsNothing(job, a, b, s4.store);
    RunSnoc(job, s1, steps, Restart);
    RunCons(job, s0, OpenWave, steps + [Restart]);
    run := [OpenWave] + (steps + [Restart]);
  }

  lemma {:induction false} RunSnoc(job: Job, s: ExecState, run: seq<Action>, last: Action)
    requires WellFormed(job.graph) && IsRun(job, s, run) && Enabled(job, After(job, s, run), last)
    ensures IsRun(job, s, run + [last]) && After(job, s, run + [last]) == Apply(job, After(job, s, run), last)
    decreases |run|
  {
    if run == [] {
      assert [last][1..] == [] && run + [last] == [last];
      var t := Apply(job, s, last);
      assert IsRun(job, t, []) && After(job, t, []) == t;
      RunCons(job, s, last, []);
      assert [last] + [] == [last];
    } else {
      RunSnoc(job, Apply(job, s, run[0]), run[1..], last);
      RunCons(job, s, run[0], run[1..] + [last]);
      assert [run[0]] + (run[1..] + [last]) == run + [last];
    }
  }

  /** There are such jobs. */
  lemma FailingPairExists(a: NodeId, b: NodeId) returns (job: Job)
    requires a != b
    ensures IsFailingPair(job, a, b)
  {
    var handler: Handler := (input: Payload, attempt: nat) => TimedOut;
    job := Job("job", TaskGraph([a, b], map[a := TaskNode(a, [], 0, handler), b := TaskNode(b, [a], 0, handler)]), map[]);
  }
}
