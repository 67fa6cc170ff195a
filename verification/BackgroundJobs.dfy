/** The life of background jobs: synchronous calls that create, cancel and resume them, interleaved with
    the steps of their tasks (src/core/background_runtime.py). */
module BackgroundJobs {
  import opened Values

  type JobId = string

  datatype JobStatus = PENDING | RUNNING | COMPLETED | FAILED | CANCELLED

  predicate IsTerminal(s: JobStatus) {
    s.COMPLETED? || s.FAILED? || s.CANCELLED?
  }

  /** A task has been created but not entered, is inside the body of the job, or is done. */
  datatype Stage = Created | Inside | Ended

  datatype Task = Task(jobId: JobId, stage: Stage, cancelRequested: bool)

  /** The job table, the task handles, and the tasks of the event loop by number. */
  datatype Runtime = Runtime(jobs: map<JobId, JobStatus>, handles: map<JobId, nat>, tasks: seq<Task>)

  datatype Ending = Succeeded | JobFailed | Interrupted | Errored

  datatype Event =
    | Submit(id: JobId)
    | Cancel(id: JobId)
    | Resume(id: JobId)
    | FirstStep(task: nat)
    | LastStep(task: nat, ending: Ending)

  // ----- One event -----

  /** `cancel_job` answers true: the job is not terminal and its task is not done. */
  predicate CancelAccepted(r: Runtime, id: JobId) {
    && id in r.jobs && !IsTerminal(r.jobs[id])
    && id in r.handles && r.handles[id] < |r.tasks| && !r.tasks[r.handles[id]].stage.Ended?
  }

  predicate ResumeAccepted(r: Runtime, id: JobId) {
    id in r.jobs && (r.jobs[id].FAILED? || r.jobs[id].CANCELLED?)
  }

  function WithNewTask(r: Runtime, id: JobId): Runtime {
    Runtime(r.jobs[id := PENDING], r.handles[id := |r.tasks|], r.tasks + [Task(id, Created, false)])
  }

  function StatusOf(ending: Ending): JobStatus {
    match ending
    case Succeeded => COMPLETED
    case JobFailed => FAILED
    case Interrupted => CANCELLED
    case Errored => FAILED
  }

  predicate Possible(r: Runtime, e: Event) {
    match e
    case FirstStep(t) => t < |r.tasks| && r.tasks[t].stage.Created?
    case LastStep(t, _) => t < |r.tasks| && r.tasks[t].stage.Inside?
    case _ => true
  }

  /** A cancelled task that was never entered ends without running any of the job's code. */
  function Next(r: Runtime, e: Event): Runtime
    requires Possible(r, e)
  {
    match e
    case Submit(id) => WithNewTask(r, id)
    case Cancel(id) =>
      if CancelAccepted(r, id)
      then r.(tasks := r.tasks[r.handles[id] := r.tasks[r.handles[id]].(cancelRequested := true)])
      else r
    case Resume(id) => if ResumeAccepted(r, id) then WithNewTask(r, id) else r
    case FirstStep(t) =>
      if r.tasks[t].cancelRequested then r.(tasks := r.tasks[t := r.tasks[t].(stage := Ended)])
      else
        r.(tasks := r.tasks[t := r.tasks[t].(stage := Inside)], jobs := r.jobs[r.tasks[t].jobId := RUNNING])
    case LastStep(t, ending) =>
      var id := r.tasks[t].jobId;
      Runtime(r.jobs[id := StatusOf(ending)],
              if id in r.handles && r.handles[id] == t then r.handles - {id} else r.handles,
              r.tasks[t := r.tasks[t].(stage := Ended)])
  }

  /** Histories in which every submission brings a new job id. */
  ghost predicate IsHistory(r: Runtime, events: seq<Event>)
    decreases |events|
  {
    events == [] ||
    (Possible(r, events[0]) && (events[0].Submit? ==> events[0].id !in r.jobs) && IsHistory(Next(r, events[0]), events[1..]))
  }

  ghost function After(r: Runtime, events: seq<Event>): Runtime
    requires IsHistory(r, events)
    decreases |events|
  {
    if events == [] then r else After(Next(r, events[0]), events[1..])
  }

  // ----- The invariant -----

  /** A job is terminal exactly when it has no task handle; one that waits has a task that was not entered,
      or that was cancelled before it was; one that runs is inside its task. */
  ghost predicate JobOk(r: Runtime, id: JobId)
    requires id in r.jobs
  {
    && (IsTerminal(r.jobs[id]) <==> id !in r.handles)
    && (id in r.handles ==>
          && r.handles[id] < |r.tasks| && r.tasks[r.handles[id]].jobId == id
          && (r.jobs[id].RUNNING? <==> r.tasks[r.handles[id]].stage.Inside?)
          && (r.tasks[r.handles[id]].stage.Ended? ==> r.tasks[r.handles[id]].cancelRequested))
  }

  /** A task that is not done is the one its job has a handle on. */
  ghost predicate Ok(r: Runtime) {
    && r.handles.Keys <= r.jobs.Keys
    && (forall id :: id in r.jobs ==> JobOk(r, id))
    && (forall t :: 0 <= t < |r.tasks| && !r.tasks[t].stage.Ended? ==>
          r.tasks[t].jobId in r.handles && r.handles[r.tasks[t].jobId] == t)
  }

  lemma NextKeepsOk(r: Runtime, e: Event)
    requires Ok(r) && Possible(r, e) && (e.Submit? ==> e.id !in r.jobs)
    ensures Ok(Next(r, e))
  {
    var r' := Next(r, e);
    forall id | id in r'.jobs ensures JobOk(r', id) {
      assert id in r.jobs ==> JobOk(r, id);
    }
  }

  /** At every await point a job is terminal exactly when it has no task handle. */
  lemma {:induction false} TerminalIffNoHandle(r: Runtime, events: seq<Event>)
    requires Ok(r) && IsHistory(r, events)
    ensures Ok(After(r, events))
    decreases |events|
  {
    if events != [] {
      NextKeepsOk(r, events[0]);
      TerminalIffNoHandle(Next(r, events[0]), events[1..]);
    }
  }

  ghost predicate HasNoLiveTask(r: Runtime, id: JobId) {
    id in r.handles ==> r.handles[id] < |r.tasks| && r.tasks[r.handles[id]].stage.Ended?
  }

  /** Submitting an id again is harmless exactly when its earlier task, if any, is done: a live task would be
      left without a handle. */
  lemma SubmitKeepsOkIff(r: Runtime, id: JobId)
    requires Ok(r)
    ensures Ok(Next(r, Submit(id))) <==> HasNoLiveTask(r, id)
  {
    var r' := Next(r, Submit(id));
    assert id in r.jobs ==> JobOk(r, id);
    if HasNoLiveTask(r, id) {
      forall x | x in r'.jobs ensures JobOk(r', x) {
        assert x in r.jobs ==> JobOk(r, x);
      }
    } else {
      var t := r.handles[id];
      assert !r'.tasks[t].stage.Ended? && r'.handles[r'.tasks[t].jobId] != t;
    }
  }

  // ----- The life cycle -----

  /** How a job ends: completed if the scheduler reports no failure, failed if it does or raises, cancelled if it is
      interrupted. */
  ghost predicate EndsAs(ending: Ending, status: JobStatus) {
    && (ending == Succeeded ==> status == COMPLETED)
    && (ending == JobFailed || ending == Errored ==> status == FAILED)
    && (ending == Interrupted ==> status == CANCELLED)
  }

  /** The moves a status may make, and the event that makes them. */
  ghost predicate Allowed(before: JobStatus, after: JobStatus, e: Event) {
    || before == after
    || (before.PENDING? && after.RUNNING? && e.FirstStep?)
    || (before.RUNNING? && e.LastStep? && EndsAs(e.ending, after))
    || ((before.FAILED? || before.CANCELLED?) && after.PENDING? && e.Resume?)
  }

  /** Every event moves every job along the life cycle and forgets none. */
  lemma StatusFollowsLifeCycle(r: Runtime, e: Event, id: JobId)
    requires Ok(r) && Possible(r, e) && (e.Submit? ==> e.id !in r.jobs) && id in r.jobs
    ensures id in Next(r, e).jobs && Allowed(r.jobs[id], Next(r, e).jobs[id], e)
  {
    assert JobOk(r, id);
  }

  /** A completed job stays completed, whatever follows. */
  lemma {:induction false} CompletedIsAbsorbing(r: Runtime, events: seq<Event>, id: JobId)
    requires Ok(r) && IsHistory(r, events) && id in r.jobs && r.jobs[id].COMPLETED?
    ensures id in After(r, events).jobs && After(r, events).jobs[id].COMPLETED?
    decreases |events|
  {
    if events != [] {
      StatusFollowsLifeCycle(r, events[0], id);
      NextKeepsOk(r, events[0]);
      CompletedIsAbsorbing(Next(r, events[0]), events[1..], id);
    }
  }

  // ----- Cancelling before the first step -----

  /** The job waits for a task that will never enter its body. */
  ghost predicate IsStuck(r: Runtime, id: JobId) {
    && id in r.jobs && r.jobs[id].PENDING?
    && id in r.handles && r.handles[id] < |r.tasks| && r.tasks[r.handles[id]].cancelRequested
  }

  lemma {:induction false} StuckForever(r: Runtime, events: seq<Event>, id: JobId)
    requires Ok(r) && IsHistory(r, events) && IsStuck(r, id)
    ensures IsStuck(After(r, events), id)
    decreases |events|
  {
    if events != [] {
      StuckStep(r, events[0], id);
      NextKeepsOk(r, events[0]);
      StuckForever(Next(r, events[0]), events[1..], id);
    }
  }

  lemma StuckStep(r: Runtime, e: Event, id: JobId)
    requires Ok(r) && Possible(r, e) && (e.Submit? ==> e.id !in r.jobs) && IsStuck(r, id)
    ensures IsStuck(Next(r, e), id)
  {
    assert JobOk(r, id);
  }

  /** An accepted cancel can still lead to a terminal job exactly when the task had been entered: otherwise
      the job is pending for ever. */
  lemma CancelTakesEffectIff(r: Runtime, id: JobId)
    requires Ok(r) && CancelAccepted(r, id)
    ensures (exists events ::
               IsHistory(Next(r, Cancel(id)), events) && id in After(Next(r, Cancel(id)), events).jobs
               && IsTerminal(After(Next(r, Cancel(id)), events).jobs[id]))
            <==> r.jobs[id].RUNNING?
  {
    var c := Next(r, Cancel(id));
    NextKeepsOk(r, Cancel(id));
    assert JobOk(r, id);
    if r.jobs[id].RUNNING? {
      var last := LastStep(c.handles[id], Interrupted);
      assert [last][1..] == [];
      assert IsHistory(Next(c, last), []);
      assert IsHistory(c, [last]);
      assert After(c, [last]) == After(Next(c, last), []) == Next(c, last);
    } else {
      forall events | IsHistory(c, events) ensures IsStuck(After(c, events), id) {
        StuckForever(c, events, id);
      }
    }
  }

  lemma EmptyRuntimeOk()
    ensures Ok(Runtime(map[], map[], []))
  {
  }

  /** From the empty runtime: submit a job and cancel it at once. The cancel is accepted, and after whatever
      follows the job is pending. */
  lemma {:induction false} SubmitThenCancelIsStuck(id: JobId, events: seq<Event>)
    requires var r := Next(Runtime(map[], map[], []), Submit(id)); IsHistory(Next(r, Cancel(id)), events)
    ensures var r := Next(Runtime(map[], map[], []), Submit(id));
      && CancelAccepted(r, id) && IsStuck(Next(r, Cancel(id)), id)
      && IsStuck(After(Next(r, Cancel(id)), events), id)
  {
    var empty := Runtime(map[], map[], []);
    var r := Next(empty, Submit(id));
    EmptyRuntimeOk();
    NextKeepsOk(empty, Submit(id));
    NextKeepsOk(r, Cancel(id));
    StuckForever(Next(r, Cancel(id)), events, id);
  }

  // ----- The runtime as it is written -----

  class BackgroundRuntime {
    var jobs: map<JobId, JobStatus>
    var jobTasks: map<JobId, nat>
    var tasks: seq<Task>

    constructor ()
      ensures State() == Runtime(map[], map[], []) && Ok(State())
    {
      jobs, jobTasks, tasks := map[], map[], [];
    }

    function State(): Runtime
      reads this
    {
      Runtime(jobs, jobTasks, tasks)
    }

    /** Admission (the scaler's back pressure, the tenant's quota) is decided by the caller's parameter. */
    method SubmitJob(id: JobId, admitted: bool) returns (ok: bool)
      requires Ok(State())
      modifies this
      ensures ok == admitted && State() == (if admitted then Next(old(State()), Submit(id)) else old(State()))
      ensures !admitted || HasNoLiveTask(old(State()), id) <==> Ok(State())
    {
      if !admitted {
        return false;
      }
      SubmitKeepsOkIff(State(), id);
      jobs := jobs[id := PENDING];
      jobTasks := jobTasks[id := |tasks|];
      tasks := tasks + [Task(id, Created, false)];
      return true;
    }

    method CancelJob(id: JobId) returns (r: Result<bool, string>)
      requires Ok(State())
      modifies this
      ensures r.Failure? <==> id !in old(jobs)
      ensures r.Success? ==> r.value == CancelAccepted(old(State()), id)
      ensures State() == Next(old(State()), Cancel(id)) && Ok(State())
    {
      if id !in jobs {
        return Failure("Job was not found");
      }
      NextKeepsOk(State(), Cancel(id));
      assert JobOk(State(), id);
      if IsTerminal(jobs[id]) {
        return Success(false);
      }
      if id !in jobTasks || tasks[jobTasks[id]].stage.Ended? {
        return Success(false);
      }
      tasks := tasks[jobTasks[id] := tasks[jobTasks[id]].(cancelRequested := true)];
      return Success(true);
    }

    method ResumeJob(id: JobId) returns (ok: bool)
      requires Ok(State())
      modifies this
      ensures ok == ResumeAccepted(old(State()), id)
      ensures State() == Next(old(State()), Resume(id)) && Ok(State())
    {
      NextKeepsOk(State(), Resume(id));
      if id !in jobs {
        return false;
      }
      if !jobs[id].FAILED? && !jobs[id].CANCELLED? {
        return false;
      }
      jobs := jobs[id := PENDING];
      jobTasks := jobTasks[id := |tasks|];
      tasks := tasks + [Task(id, Created, false)];
      return true;
    }

    /** The event loop enters the task, or throws the cancellation into it before its first line. */
    method EnterTask(t: nat)
      requires Ok(State()) && Possible(State(), FirstStep(t))
      modifies this
      ensures State() == Next(old(State()), FirstStep(t)) && Ok(State())
    {
      NextKeepsOk(State(), FirstStep(t));
      if tasks[t].cancelRequested {
        tasks := tasks[t := tasks[t].(stage := Ended)];
      } else {
        jobs := jobs[tasks[t].jobId := RUNNING];
        tasks := tasks[t := tasks[t].(stage := Inside)];
      }
    }

    /** What follows the scheduler's return or exception, and the `finally` clause. */
    method LeaveTask(t: nat, ending: Ending)
      requires Ok(State()) && Possible(State(), LastStep(t, ending))
      modifies this
      ensures State() == Next(old(State()), LastStep(t, ending)) && Ok(State())
      ensures old(tasks)[t].jobId in jobs && EndsAs(ending, jobs[old(tasks)[t].jobId])
      ensures forall id :: id != old(tasks)[t].jobId ==>
        (id in jobs <==> id in old(jobs)) && (id in jobs ==> jobs[id] == old(jobs)[id])
    {
      NextKeepsOk(State(), LastStep(t, ending));
      var id := tasks[t].jobId;
      jobs := jobs[id := StatusOf(ending)];
      if id in jobTasks && jobTasks[id] == t {
        jobTasks := jobTasks - {id};
      }
      tasks := tasks[t := tasks[t].(stage := Ended)];
    }
  }
}
