# Verified model of the runtime core

This project models the stateful core of the agent runtime and proves what that core promises: a DAG
scheduler that checkpoints, crashes and resumes; a run-control registry with two backends; an agent
registry with a transactional plugin manager on top; background jobs with a scaler and a worker pool; the
audit hash chain; the one-turn orchestrator; and the writer and parser of the release-signoff evidence.

Code that works by changing things step by step is modelled by classes and methods with loops, each proved
against a specification on values; the properties below are proved of those specifications, over every
input, every run or every reachable state.

| module | models |
|---|---|
| `Values`, `Text`, `Ordering` | payloads and options; strip, lines, numerals; lexicographic order and "the n lowest" |
| `TaskGraphs` | graph construction: duplicate ids, unknown dependencies, the depth-first cycle check, ready nodes |
| `Evaluator` | the reference meaning of a job: a recursive evaluator over the graph |
| `Checkpoints` | the in-memory checkpoint store |
| `SchedulerModel`, `SchedulerTheorems`, `SchedulerWitness` | the scheduler as a state machine whose steps are the stretches between await points, with crashes and resumes; what all its runs achieve |
| `Cancellation`, `Scheduler` | the cancellation fixpoint; the imperative scheduler, with an arbitrary interleaving inside a wave and an arbitrary point of interruption |
| `RunControl`, `RunControlTheorems`, `RunControlAgreement` | the dictionary and the two tables; retention, simulation, and exactly when the two agree |
| `AgentRegistries`, `PluginManagers`, `PluginRollback`, `PluginReload` | five cross-referencing maps; load, rollback, unload, reload; exactly what a failed load and a failed reload restore |
| `Scaling`, `BackgroundJobs` | cooldown and permits; the job life-cycle over all interleavings |
| `AuditTrail` | chaining, verification and the fingerprint, over an arbitrary injective hash |
| `Orchestration` | the turn as a transducer over an arbitrary adapter, policy, mode choice and executor |
| `SignoffReport`, `SignoffParser`, `SignoffRoundTrip`, `SignoffTheorems`, `SignoffFields` | the evidence file: written to text and parsed back |
| `SignoffReading` | what the parser makes of any text: which line decides each field |
| `SignoffVerdict`, `SignoffGates`, `SignoffParts`, `SignoffRelease` | written reports with arbitrary captured output: the verdict, which gates are read, when verdict and parts agree, and the three gates of a release |

## Where the code does less than a reader may expect

Each of these is proved; the theorems named give the exact condition and, where the failing side needs a
history, one that starts from an empty state.

- A background job cancelled before its task's first step stays PENDING for ever, and the cancel was
  answered with true (`BackgroundJobs.CancelTakesEffectIff`, `BackgroundJobs.SubmitThenCancelIsStuck`).
- A node that depends on a FAILED node restored from the store ends without any outcome
  (`SchedulerTheorems.MissingOutcomes`, `SchedulerWitness.CrashLosesOutcome`); a restored failure has lost its
  error message.
- The two run-control backends agree throughout a history exactly when no call restarts a stored run that has
  tool calls, and no prune over the cap finds a run that ended in the same second as the first to finish but
  started before it (`RunControlAgreement.AgreeFromEmptyIff`, `RunControlAgreement.RestartWitness`,
  `RunControlAgreement.SameSecondHistory`).
- A failed plugin load restores the registry exactly when each route, fallback list and set of priorities it
  wrote between roles that stay was the one stored already, and no other list names a role that goes
  (`PluginRollback.FailedLoadRestoresIff`, `PluginRollback.FailedLoadLeaves`, `PluginRollback.ForeignRouteStays`,
  `PluginRollback.ForeignPolicyStays`, `PluginRollback.ListLosesName`). A fallback policy refused for an unknown
  priority role has already replaced the fallback list (`AgentRegistries.RefusedPolicyKeepsIff`).
- Under an allow-all policy a failed reload puts agents, roles and records back, and the whole registry exactly
  when what the old plugin declares is what was stored, the new one left nothing new, and nothing else named the old plugin's roles
  (`PluginReload.FailedReloadRestoresIff`); a route of another plugin to one of its roles is lost
  (`PluginReload.ForeignRouteIsLost`).
- A tool intent among the follow-up events of a submitted result is relayed without the checks that intents
  on the turn stream go through (`Orchestration.HeavyIntentReachesCallerIff`). The "queued" state is reported
  before the policy is asked, so a forwarded or held-back intent leaves "queued" as its last own state. A denied
  call is reported as "failed" whatever result is submitted for it (`Orchestration.TurnIsInOrderIff`,
  `Orchestration.DeniedSuccessIsOutOfOrder`).
- The parsed fields of the last gate are those of the data-safety block
  (`SignoffTheorems.LastGateComesBackIff`), in the report of every release (`SignoffRelease.ReleaseGatesNeverComeBack`,
  `SignoffRelease.QuietReleaseLosesItsLastGate`).
- Captured output that looks like a gate is read as one, and a section heading in it can hide the gates that
  follow. Names and verdicts come back exactly when no output shows the parser a gate, where no gate's output
  takes the lines after it (`SignoffGates.GatesComeBackIff`, `SignoffParts.GatesAreWrittenIff`,
  `SignoffRelease.ShownGateIsRead`); and exactly when no gate's output but the last takes the lines after it, where no
  output line is a gate heading (`SignoffGates.GatesAllReadIff`, `SignoffRelease.HeadingHidesGates`). For any output
  at all, the gates read are those seen by a pass over the lines with three states
  (`SignoffGates.ParsedGatesAreSeen`).
- The verdict of a parse that ends is always the written one (`SignoffVerdict.VerdictAlwaysComesBack`), so what
  output can do is make the parts contradict it. Where outputs stay in their blocks it does so exactly when it
  shows a failed gate or a failed data-safety check in a report that passed, or hides a failed check in one that
  did not (`SignoffParts.VerdictMatchesPartsIff`, `SignoffRelease.ShownFailureMisleads`).

## Model

| member | source | states |
|---|---|---|
| TaskGraphs.Build | src/core/task_graph.py:52-57 | construction terminates and yields a graph iff ids are distinct, dependencies known and the relation acyclic; otherwise the first failing check's error, a cycle error naming a node on a genuine cycle |
| TaskGraphs.ValidateDependencies | src/core/task_graph.py:77-82 | reports the first node in insertion order with unknown dependencies, and exactly those, or none iff all are known |
| TaskGraphs.ValidateAcyclic | src/core/task_graph.py:84-100 | finds a node on a cycle, or leaves a rank that every dependency edge lowers |
| TaskGraphs.CycleChecker.Dfs | src/core/task_graph.py:88-97 | the search keeps the active nodes a dependency path and the finished ones ranked and closed under dependencies |
| TaskGraphs.GraphHoldsNodes | src/core/task_graph.py:52-60 | the graph of a list of distinct nodes lists their ids in order and holds each under its id, and nothing else |
| TaskGraphs.UnknownInOrder | src/core/task_graph.py:79-81 | unknown dependencies are listed in their order, each as often as it is named |
| TaskGraphs.IndexSize | src/core/task_graph.py:53-55 | the dictionary is as long as the list iff all ids are distinct |
| TaskGraphs.RankedMeansAcyclic | src/core/task_graph.py:84-100 | a rank rules out cycles of any length |
| TaskGraphs.WellFormedGraphIsValid | src/core/task_graph.py:52-57 | a graph that was accepted has known dependencies and no cycle |
| TaskGraphs.ReadyNodes | src/core/task_graph.py:68-75 | the ready nodes, each once, in insertion order |
| Evaluator.RetryTakesFirstSuccess | src/core/scheduler.py:181-282 | the outcome of the retry loop is that of the first attempt that returns, after at most max(1, retry_limit + 1) attempts; FAILED with the last attempt's reason iff none of them returns |
| Evaluator.RunIsOutcomeIff | src/core/scheduler.py:181-282 | an outcome is the retry loop's iff it is that of the first attempt that returns, with its output, or of the last of max(1, retry_limit + 1) attempts, with the reason code and message of a timeout or of the exception |
| Evaluator.ConsistentIffVerdicts | src/core/scheduler.py:115-302 | a table is the evaluator's iff every node whose dependencies all completed has the outcome of its handler on the base payload, its own and the job's id and the outputs of exactly its dependencies, each under its id, and every other node is CANCELLED as UPSTREAM_FAILED |
| Evaluator.VerdictsSatisfyEquations | src/core/scheduler.py:115-302 | the evaluator's table satisfies, node by node, the equations that run a node on its dependencies' outputs or cancel it |
| Evaluator.VerdictIsEval | src/core/scheduler.py:115-302 | those equations have no other solution |
| Evaluator.CancelledIffDownstreamOfFailure | src/core/scheduler.py:303-331 | a node is CANCELLED iff it transitively depends on a FAILED one |
| Evaluator.DownstreamIsReachability | src/core/scheduler.py:303-331 | "downstream" is reachability along one or more dependency edges |
| Evaluator.DepthIsLongestChain | src/core/task_graph.py:68-75 | the depth of a node is the length of the longest dependency chain below it: one exists and none is longer |
| Checkpoints.InMemoryCheckpointStore.SaveCheckpoint | src/core/checkpoint_store.py:23-25 | writes one record of one job of one tenant and changes no other |
| Checkpoints.ListHoldsLastSaves | src/core/checkpoint_store.py:23-28 | after any history of saves for any jobs and tenants, a job lists a record for a node iff one was saved for it, and then the one saved last |
| SchedulerModel.StepKeepsInv | src/core/scheduler.py:98-143 | every step of every interleaving, crash and resume included, keeps: collections, tasks, outcomes and store agree with the evaluator at each node |
| SchedulerModel.RunKeepsInv | src/core/scheduler.py:98-143 | so does every run |
| SchedulerModel.CloseWaveKeeps | src/core/scheduler.py:135-142 | closing a wave settles its tasks and cancels exactly what is downstream of its failures, never a node of the wave |
| SchedulerModel.ResumedStateOk | src/core/scheduler.py:99-113 | a resume from any reachable store restores a state the invariant holds of |
| SchedulerTheorems.FreshExecuteIsEvaluator | src/core/scheduler.py:115-302 | an uninterrupted fresh execute returns exactly the evaluator's table, whatever order tasks finish in |
| SchedulerTheorems.FinishedRunMatchesEvaluator | src/core/scheduler.py:98-143 | after any history of crashes and resumes, every outcome is the evaluator's, but for the stated effects of inherited failures, and the store is exactly its final records |
| SchedulerTheorems.CrashesDoNotChangeResults | src/core/scheduler.py:99-143 | any two finished histories of a job agree on the store, COMPLETED and FAILED nodes, outputs, reason codes and attempt counts |
| SchedulerTheorems.MissingOutcomes | src/core/scheduler.py:99-142 | a node ends without an outcome iff it is downstream of an inherited failure and not of one of this run; every other node is COMPLETED, FAILED or CANCELLED |
| SchedulerWitness.CrashLosesOutcome | src/core/scheduler.py:99-143 | a fresh run of any failing pair of nodes that crashes before its wave closes and resumes ends with the dependent node unreported |
| SchedulerTheorems.StoreInvariant | src/core/scheduler.py:190-249 | in every reachable state a node has a record only if every dependency has a COMPLETED one |
| SchedulerTheorems.FinalRecordsAreNeverRerun | src/core/scheduler.py:99-143 | a COMPLETED or FAILED record is never overwritten and its node never runs again, through any later crashes and resumes |
| SchedulerTheorems.WaveIsDepthLevel | src/core/scheduler.py:116-142 | opening wave k takes exactly the uncancelled nodes of longest-chain depth k |
| SchedulerTheorems.FreshWaves | src/core/scheduler.py:116-142 | in every reachable state of a fresh run the next wave is exactly that level |
| SchedulerTheorems.WavesWithinLongestChain | src/core/scheduler.py:116-142 | no more waves are closed than some dependency chain has nodes |
| SchedulerTheorems.BeginsAtMostOnce | src/core/scheduler.py:125-133 | without a restart no node begins twice |
| Cancellation.MarkDownstreamCancelled | src/core/scheduler.py:303-331 | the pass-until-stable loop terminates and marks exactly the least set of undecided nodes that depend on the failed node, on a node cancelled before, or on one another |
| Cancellation.FixpointIsDownstream | src/core/scheduler.py:310-331 | one call extends the downstream set of the failures seen by exactly that of the new failure |
| Cancellation.BooksFail | src/core/scheduler.py:140-142 | recording one failure of a wave and cancelling keeps the books of a half-recorded wave |
| Scheduler.RunNode | src/core/scheduler.py:168-284 | the loop returns the outcome of the first attempt that returns or of the last one allowed, with its reason code and message, and leaves the matching final record |
| Scheduler.CollectInput | src/core/scheduler.py:286-301 | under "dependencies" the outputs of exactly the node's completed dependencies, each as a dictionary under its id; the node's and the job's id under theirs; every other entry as in the base payload, and none added |
| Scheduler.RestoreCheckpoints | src/core/scheduler.py:99-113 | outcomes, completed and failed sets are those of the stored records, field by field and without error messages |
| Scheduler.RunWave | src/core/scheduler.py:125-133 | letting the tasks of a wave take their steps in an arbitrary order ends with all of them done, or is cut short in a reachable state |
| Scheduler.Execution.CloseWave | src/core/scheduler.py:135-143 | recording the outcomes one by one has exactly the effect of closing the wave |
| Scheduler.Execute | src/core/scheduler.py:70-166 | over every interleaving and interruption: the store stays resumable, final records and other jobs are untouched, and a result, fresh or resumed, is the evaluator's with the final store; a fresh one gives each node the outcome of its handler on its dependencies' outputs, or cancels it |
| RunControl.RunControlRegistry.Finish | src/core/run_control_registry.py:131-152 | the run has the given status, event and message and ended now, and then the tenant is pruned; an unknown run changes nothing |
| RunControl.RunControlRegistry.Prune | src/core/run_control_registry.py:81-95 | nothing without a cap; else as many of the tenant's completed, errored or cancelled runs go as exceed it, each having ended, by time and then run id, before every one that stays; no other run goes or changes |
| RunControl.RunControlRegistry.AddToolCall | src/core/run_control_registry.py:118-129 | adds the stripped id to the run's set and the time of the update; refuses blank ids and unknown runs, changing nothing |
| RunControl.RunControlRegistry.Start | src/core/run_control_registry.py:97-116 | the run's record is running, not cancelled and not finished, started now, correlated by its own id for want of another, without tool calls; every other run is as it was |
| RunControl.RunControlRegistry.Cancel | src/core/run_control_registry.py:154-165 | flag, reason and time are set; a completed, errored or cancelled run keeps its status and any other becomes "cancel_requested"; its other fields, its tool calls and other runs are as they were |
| RunControl.SQLiteRunControlRegistry.Finish | src/core/run_control_registry.py:412-438 | the same on the tables |
| RunControl.SQLiteRunControlRegistry.Prune | src/core/run_control_registry.py:376-410 | the same by the second of the finish, a missing one first, then the start, then the run id; exactly the tool calls of the runs that went go with them |
| RunControl.SQLiteRunControlRegistry.AddToolCall | src/core/run_control_registry.py:350-374 | appends a row unless it is there; refuses blank ids and unknown runs |
| RunControl.SQLiteRunControlRegistry.Start | src/core/run_control_registry.py:267-312 | replaces the run row and leaves its tool calls |
| RunControl.SQLiteRunControlRegistry.Cancel | src/core/run_control_registry.py:440-458 | the same of the row; the tool-call table is unchanged |
| Ordering.CodesOrder | src/core/run_control_registry.py:92-92 | sort keys order strings by the first code point in which they differ, a prefix coming first |
| Ordering.LowestIsUnique | src/core/run_control_registry.py:93-95 | the n lowest entries are one set, whatever table orders them alike |
| Ordering.SortedPrefixIsLowest | src/core/run_control_registry.py:93-95 | the first n entries of the sorted list are the n lowest |
| RunControlTheorems.PruneRemovesTheOverflow | src/core/run_control_registry.py:81-95 | a prune removes exactly the overflow, all removed runs order before all kept terminal ones, active runs and other tenants are untouched |
| RunControlTheorems.MemoryRetention | src/core/run_control_registry.py:81-95 | with a positive cap no tenant ever holds more than cap terminal runs, over any history |
| RunControlTheorems.TablesRetention | src/core/run_control_registry.py:376-410 | the same for the tables |
| RunControlTheorems.RetentionFromEmpty | src/core/run_control_registry.py:76-95 | started empty, both backends hold to the cap after every history |
| RunControlTheorems.StepAgrees | src/core/run_control_registry.py:97-165 | one separated call keeps the two backends in agreement on rows and call ids |
| RunControlTheorems.TablesSimulateMemory | src/core/run_control_registry.py:267-458 | so does any history of calls that restart no stored run and finish runs of a tenant in distinct seconds |
| RunControlTheorems.EmptyBackendsAgree | src/core/run_control_registry.py:76-79 | two empty backends agree, so every history starts in agreement |
| RunControlTheorems.ActiveCountsAgree | src/core/run_control_registry.py:188-195 | backends that agree count the same active runs of each tenant |
| RunControlTheorems.NoToolCallLacksItsRun | src/core/run_control_registry.py:350-410 | whatever the history, no tool-call row lacks its run row |
| RunControlTheorems.ActiveAfterHistory | src/core/run_control_registry.py:188-195 | after any history from the empty state that ends runs in one of the three ways, a tenant's active runs are its stored runs less the ended ones |
| RunControlAgreement.RestartAgreesIff | src/core/run_control_registry.py:267-312 | restarting a stored run keeps the agreement iff it had no tool calls |
| RunControlAgreement.PruneAgreesIff | src/core/run_control_registry.py:392-400 | one run over the cap, both backends drop the same one iff the first to finish is also the first to start within its second |
| RunControlAgreement.SameSecondParts | src/core/run_control_registry.py:392-400 | one run over any cap, the backends drop different runs if some run of the tenant ended in the second of the first to finish and started before it |
| RunControlAgreement.StepAgreesIff | src/core/run_control_registry.py:97-165 | one call keeps the agreement iff it is harmless: no restart that drops tool calls, and no prune that the two orders decide differently |
| RunControlAgreement.AgreeThroughoutIff | src/core/run_control_registry.py:267-458 | from agreeing states, the backends agree after every call of a history iff each call is harmless when made |
| RunControlAgreement.AgreeFromEmptyIff | src/core/run_control_registry.py:76-79 | in particular from two empty backends |
| RunControlAgreement.RestartWitness | src/core/run_control_registry.py:267-312 | start, tool call, start again: the backends part at the third call |
| RunControlAgreement.SameSecondHistory | src/core/run_control_registry.py:392-400 | for every two runs of a tenant that end within one second, the later starter first, a cap of one parts the backends |
| AgentRegistries.ReachableIsValid | src/agents/registry.py:27-150 | after any calls, refused ones included: agents and roles are inverse maps, every route joins registered roles and its target has what it requires |
| AgentRegistries.StepKeepsValid | src/agents/registry.py:27-150 | each call keeps that |
| AgentRegistries.HandoffIffRoute | src/agents/registry.py:152-161 | in a valid registry a handoff is allowed iff its route is stored |
| AgentRegistries.NormalizedNames | src/agents/registry.py:129-141 | the kept fallback list holds each stripped name once, and exactly those neither blank nor the target |
| AgentRegistries.NormalizedInOrder | src/agents/registry.py:129-141 | names are kept in the order of their first occurrence |
| AgentRegistries.NormalizeRoles | src/agents/registry.py:129-141 | the loop builds that list |
| AgentRegistries.NormalizePriorities | src/agents/registry.py:142-150 | stops at the first entry for an unregistered role, else gives the stripped priorities |
| AgentRegistries.AgentRegistry.Register | src/agents/registry.py:27-37 | refuses blank or taken ids and roles, else adds the agent to both maps |
| AgentRegistries.AgentRegistry.AddHandoffRoute | src/agents/registry.py:104-121 | refuses unknown roles and missing capabilities, else stores the route |
| AgentRegistries.AgentRegistry.SetHandoffFallbackPolicy | src/agents/registry.py:123-150 | stores list and priorities; an unknown priority role is refused after the list is stored |
| AgentRegistries.RefusedPolicyKeepsIff | src/agents/registry.py:123-150 | a refused policy changes nothing iff it was refused for another reason than its priorities or its list was stored already |
| AgentRegistries.AgentRegistry.Unregister | src/agents/registry.py:51-75 | removes the agent, its role and whatever names the role; refuses unknown ids |
| AgentRegistries.UnregisteredIs | src/agents/registry.py:52-75 | exactly the agent, its role, the routes that name the role and the lists and priorities that start at it go, and its name goes from the others; all else is as it was |
| AgentRegistries.AgentRegistry.ResolveHandoffTarget | src/agents/registry.py:183-229 | the target of the role if a stored route and its capabilities allow it; else, of the listed fallbacks that are allowed, the one whose role has the highest stored priority, zero for none, ties to the id that comes first; without a role the first id a route leads to; none iff nobody is allowed |
| AgentRegistries.BestFallback | src/agents/registry.py:205-229 | collecting and sorting finds that fallback |
| AgentRegistries.FirstHandoffTarget | src/agents/registry.py:163-181 | collecting and sorting finds the smallest target id |
| PluginManagers.UnregisterAllIsOutside | src/agents/plugin_manager.py:103-104 | unregistering stored agents from last to first removes exactly them and what names their roles |
| PluginManagers.FailedLoadRestoresAgents | src/agents/plugin_manager.py:93-105 | a failed load leaves agents and roles exactly as they were |
| PluginManagers.FailedLoadRestoresAllIff | src/agents/plugin_manager.py:93-105 | a failed load of a self-contained plugin restores the whole registry iff no fallback list already named a role it had registered |
| PluginRollback.FailedLoadRestoresIff | src/agents/plugin_manager.py:93-105 | for every plugin: a failed load restores the whole registry iff every route, list and set of priorities it last wrote between roles that stay equals the stored one, and no other list names a role that goes |
| PluginRollback.AdvanceWrites | src/agents/plugin_manager.py:94-101 | what a load has stored when it stops is what was there, overlaid by the last write of each pair |
| PluginRollback.FailedLoadLeaves | src/agents/plugin_manager.py:93-105 | for every plugin and registry, what a failed load leaves, pair by pair: the last write of a pair whose roles stay, lists and priorities without the names that go, and elsewhere what was there |
| PluginRollback.ForeignRouteStays | src/agents/plugin_manager.py:98-105 | in a registry of two agents, any new route between their roles is stored after the failed load of the plugin that added it |
| PluginRollback.ForeignPolicyStays | src/agents/plugin_manager.py:100-105 | in that registry, so is the fallback list of a new policy between their roles |
| PluginRollback.ListLosesRole | src/agents/plugin_manager.py:102-105 | in any registry, a fallback list that names the role of a plugin's agent no longer does after the failed load |
| PluginRollback.ListLosesName | src/agents/plugin_manager.py:102-105 | the same in a registry of two agents with one policy, reached from the empty one |
| PluginManagers.LoadPutsInPlace | src/agents/plugin_manager.py:94-101 | after a successful load the plugin's agents are stored and what its routes and policies need is there |
| PluginManagers.LoadAgain | src/agents/plugin_manager.py:156-159 | with its agents taken out, a plugin that was in place loads again and agents and roles are as before |
| PluginManagers.FailedReloadRestores | src/agents/plugin_manager.py:144-159 | under an allow-all policy a failed reload puts the old plugin's agents, roles and records back |
| PluginReload.FailedReloadRestoresIff | src/agents/plugin_manager.py:144-159 | and the whole manager iff, pair by pair, what the old plugin declares last was stored, what the new one left between roles that stay was stored already, and nothing else named a role of the old plugin, nor any list a role the new one had registered |
| PluginReload.ForeignRouteIsLost | src/agents/plugin_manager.py:144-159 | a route that names a role of the old plugin without being declared by it is gone after every failed reload |
| PluginReload.CompleteLoadWrites | src/agents/plugin_manager.py:94-101 | a load that goes through writes exactly what the plugin declares |
| PluginManagers.FailedLoad | src/agents/plugin_manager.py:82-105 | a load refused for any reason changes at most routes and policies |
| PluginManagers.NothingWhileActive | src/agents/plugin_manager.py:117-151 | while non-idempotent tasks are active no plugin is unloaded and no loaded one reloaded: an error, and nothing changes |
| PluginManagers.AcceptedIff | src/agents/plugin_manager.py:82-135 | the exact conditions under which a load and an unload succeed |
| PluginManagers.AgentPluginManager.LoadPlugin | src/agents/plugin_manager.py:82-108 | the loops and the rollback compute the specified outcome |
| PluginManagers.AgentPluginManager.UnloadPlugin | src/agents/plugin_manager.py:117-135 | likewise for unload, agents gone meanwhile being skipped |
| PluginManagers.AgentPluginManager.ReloadPlugin | src/agents/plugin_manager.py:144-159 | likewise for reload; if restoring fails, its error is the one reported |
| Scaling.AgentScaler.Evaluate | src/core/agent_scaler.py:64-127 | scales up iff on, not cooling down, below the maximum and the backlog at the threshold, raised while the last scale-up stands, by one step or to the maximum; pushes back iff on, the backlog at its limit and the active jobs at the given ratio of the width; reason, cooldown and remembered target follow |
| Scaling.SubmissionScales | src/core/background_runtime.py:71-82 | a submission asks the scaler about the pool's width and widens the pool to the target of a scale-up |
| Scaling.ScaleUpsSpaced | src/core/agent_scaler.py:95-109 | each scale-up but the last is followed by a whole cooldown |
| Scaling.CooldownBoundsScaleUps | src/core/agent_scaler.py:95-109 | any n consecutive evaluations hold at most ceil(n / (cooldown + 1)) scale-ups |
| Scaling.WorkerPool.ScaleUpTo | src/core/worker_pool.py:33-42 | widens by releasing one permit per unit, waking waiters, and never narrows |
| Scaling.WorkerPool.Enter | src/core/worker_pool.py:44-46 | work takes a permit or queues |
| Scaling.WorkerPool.Leave | src/core/worker_pool.py:44-46 | the permit goes to the longest waiter or back |
| Scaling.WorkerPool.GiveUp | src/core/worker_pool.py:44-46 | work cancelled while it waits leaves the queue and holds no permit |
| Scaling.PoolConserved | src/core/background_runtime.py:77-82 | over whole histories, queued work being cancelled included, the width never falls nor exceeds max(initial, max_concurrency), and free permits plus work in flight equal it |
| Scaling.WorkConserved | src/core/worker_pool.py:33-46 | over whole histories the work in flight or waiting is what was, with what started and without what ended or gave up |
| BackgroundJobs.TerminalIffNoHandle | src/core/background_runtime.py:199-273 | at every await point a job is terminal iff it has no task handle |
| BackgroundJobs.StatusFollowsLifeCycle | src/core/background_runtime.py:126-273 | status moves PENDING, RUNNING, then the one the ending calls for; back to PENDING only by resume from FAILED or CANCELLED |
| BackgroundJobs.CompletedIsAbsorbing | src/core/background_runtime.py:169-197 | a COMPLETED job stays so, whatever follows |
| BackgroundJobs.SubmitKeepsOkIff | src/core/background_runtime.py:126-137 | submitting an id again keeps the invariant iff its earlier task is done |
| BackgroundJobs.CancelTakesEffectIff | src/core/background_runtime.py:145-167 | an accepted cancel can lead to a terminal job iff the task had been entered |
| BackgroundJobs.StuckForever | src/core/background_runtime.py:145-167 | otherwise the job is PENDING after every later history |
| BackgroundJobs.SubmitThenCancelIsStuck | src/core/background_runtime.py:126-167 | from the empty runtime, a job submitted and cancelled at once is PENDING after every later history |
| BackgroundJobs.BackgroundRuntime.CancelJob | src/core/background_runtime.py:145-167 | true iff the job is not terminal and its task not done; only the task's request changes |
| BackgroundJobs.BackgroundRuntime.ResumeJob | src/core/background_runtime.py:169-197 | accepted iff FAILED or CANCELLED; PENDING with a new task |
| BackgroundJobs.BackgroundRuntime.SubmitJob | src/core/background_runtime.py:71-138 | refused and unchanged, or a PENDING job with a new task |
| BackgroundJobs.BackgroundRuntime.EnterTask | src/core/background_runtime.py:199-206 | the job runs, unless the task was cancelled before |
| BackgroundJobs.BackgroundRuntime.LeaveTask | src/core/background_runtime.py:224-273 | COMPLETED on success, FAILED on a failed result or an exception, CANCELLED on an interruption; other jobs keep their status, and the handle goes only if it is this task's |
| AuditTrail.VerifyChain | src/audit/trail.py:34-41 | true iff every record carries the hash before it and its own correct hash |
| AuditTrail.FinalHashDeterminesChain | src/audit/trail.py:28-41 | two verified chains with one final hash have the same length and serialized payloads |
| AuditTrail.HashOkIsPossible | src/audit/trail.py:28-31 | hashes as assumed exist |
| AuditTrail.ChainedVerifies | src/compliance/evidence_bundle.py:116-123 | the fold always verifies and keeps the records |
| AuditTrail.ComputeFingerprint | src/compliance/evidence_bundle.py:116-123 | answers valid and the last hash of the fold |
| AuditTrail.FingerprintIsInjective | src/compliance/evidence_bundle.py:116-123 | equal fingerprints iff equal record sequences up to serialization |
| Orchestration.RunTurn | src/core/orchestrator.py:50-179 | refused with the handoff's error and nothing else, or the session is started for the resolved context and each event gets its specified response |
| Orchestration.EachIntentIsSettledOnce | src/core/orchestrator.py:73-179 | each intent with a tool call yields exactly one submitted result or one forwarded event, in stream order, and nothing else does |
| Orchestration.SettlementsAre | src/core/orchestrator.py:89-179 | the i-th settlement of a turn settles its i-th intent: with the executor's result if denied or deterministic, with a blocked one naming the call if it changes state or is HIGH or CRITICAL, else by leaving the event to the provider |
| Orchestration.ForwardedIffHarmless | src/core/orchestrator.py:115-179 | an intent is forwarded iff allowed, provider-native, not state-changing and neither HIGH nor CRITICAL |
| Orchestration.SelectorHoldsNothingBack | src/runtime/mode_selector.py:26-53 | with the repository's mode selector what is submitted is always the executor's result |
| Orchestration.SelectsProviderIff | src/runtime/mode_selector.py:26-53 | the selector leaves a call to the provider iff it is allowed, not enforced deterministic, neither state-changing nor HIGH nor CRITICAL, nothing forces the deterministic mode, and that mode is not requested unless the policy enforces the provider's |
| Orchestration.CallerSeesFilteredStream | src/core/orchestrator.py:181-184 | the caller gets every adapter event meant for it once, in order, with the payload the output policy gives for output deltas and run ends, and otherwise as it was |
| Orchestration.HeavyIntentReachesCallerIff | src/core/orchestrator.py:107-112 | an intent that needs the envelope reaches the caller iff it comes as a follow-up of a submitted result |
| Orchestration.ProgressionSpells | src/core/orchestrator.py:82-154 | states spell queued and failed; queued, running and the terminal state; or queued. Managed by the adapter: its reports, or one terminal state |
| Orchestration.ReportsSayHow | src/core/orchestrator.py:82-154 | every report of its own is about the intent's run, correlation, call and tool; the one that ends the call carries the result's status and error code, those before it neither |
| Orchestration.StatusNames | src/core/orchestrator.py:189-196 | the names of the five statuses and of the ends they are called |
| Orchestration.EntriesAreReported | src/core/orchestrator.py:198-236 | the dictionaries among the drained entries are reported one by one, in order, each field its own or empty and the call the intent's unless it names another |
| Orchestration.TurnIsInOrderIff | src/core/orchestrator.py:73-179 | a watcher of a turn without managed progress sees one open call at a time, reports with its run and id, and a result that names the call and carries the status, error code and state last reported, iff every executor result names its call and no denied call is answered with a success, a timeout or a cancellation |
| Orchestration.DeniedSuccessIsOutOfOrder | src/core/orchestrator.py:89-113 | a denied call answered with a success, a timeout or a cancellation is reported as failed before that result is submitted, which no orderly turn does |
| Orchestration.ExecutorKeepsOrder | src/tools/executor.py:64-78 | with an executor whose tools name their call and a review that renames nothing and turns no failure into anything else, every such turn is in order |
| Orchestration.DefaultReviewIsFaithful | src/policies/middleware.py:76-83 | the default post-check is such a review |
| Orchestration.RefusedCallsAreNotRun | src/tools/executor.py:64-78 | an invalid or denied call is never run: the review gets its refusal, whatever the tool would have done |
| Orchestration.ApplyAgentHandoff | src/core/orchestrator.py:235-296 | an error with its exact cause and an unchanged context, or the context handed to the agent the registry resolves to |
| Orchestration.TagsAreRead | src/core/orchestrator.py:298-310 | a name is read as a capability iff the capability goes by it |
| Orchestration.HandedOverIs | src/core/orchestrator.py:286-296 | the context handed over names the target, notes from whom to whom and why, and is otherwise as it was |
| Orchestration.HandoffReachesAnEligibleAgent | src/core/orchestrator.py:268-296 | a handoff that goes through ends at a registered agent joined by a stored route, with the capability asked for |
| SignoffReport.EnsureRequiredLinks | scripts/release/rc_signoff.py:210-215 | the missing links are exactly the required ones that are not there, in order |
| SignoffReport.WriteReport | scripts/release/rc_signoff.py:429-578 | the text is the report's lines joined by line feeds, the verdict computed on the way |
| SignoffParser.ParseMarkdown | scripts/release/parse_rc_signoff.py:54-349 | the nested loops, those of the advisory sections included, compute the recursive reading of the text's lines; of a text without a section that section is answered as not enabled, without measurements or verdict, and without an overall heading the result is FAIL |
| SignoffReading.FieldOfIff | scripts/release/parse_rc_signoff.py:26-26 | a stripped line is read as a field iff it is that field as it is written, its key neither empty nor with a colon |
| SignoffReading.LinkOfIff | scripts/release/parse_rc_signoff.py:27-27 | and as an evidence link iff it is that link as it is written |
| SignoffReading.GateOfIff | scripts/release/parse_rc_signoff.py:28-28 | and as a gate iff it is that gate's heading as it is written, its name neither empty nor with a colon |
| SignoffReading.ResultOfIff | scripts/release/parse_rc_signoff.py:29-29 | and as the overall result iff it is a written result of PASS or FAIL |
| SignoffReading.KeyNameIs | scripts/release/parse_rc_signoff.py:125-126 | a context value is filed under its stripped key, in lower case and with underscores for blanks |
| SignoffReading.SafetyReadFromStart | scripts/release/parse_rc_signoff.py:175-206 | of any text: each field of the data-safety block is the one given by the last readable line for it in the block's sections, or its default |
| SignoffReading.GateRead | scripts/release/parse_rc_signoff.py:146-174 | of any text: a gate's command, exit code and duration are those of the last readable line for them before the next gate or the overall heading |
| SignoffReading.FigureMeans | scripts/release/parse_rc_signoff.py:225-234 | a figure is its stripped text, "n/a" none, and a value with a backtick changes nothing |
| SignoffReading.TotalMeans | scripts/release/parse_rc_signoff.py:262-272 | a total is the count its stripped text denotes, "n/a" none, and any other text is marked as unreadable |
| Text.ParseNumeral | scripts/release/parse_rc_signoff.py:166-171 | parsing a printed integer gives it back |
| Text.SplitAtLineFeed | scripts/release/parse_rc_signoff.py:55-55 | splitting into lines distributes over a line feed, whatever other breaks there are |
| Text.LineThenRest | scripts/release/parse_rc_signoff.py:55-55 | a line of visible characters and blanks ends at any of the ten breaks, a carriage return taking a line feed with it |
| Text.StripIs | scripts/release/parse_rc_signoff.py:108-108 | stripping takes off exactly the blanks, tabs and line ends around a text |
| SignoffTheorems.TextSplits | scripts/release/rc_signoff.py:578-578 | the written text splits into exactly the written lines and the lines of the captured outputs |
| SignoffTheorems.ParseUndoesWrite | scripts/release/parse_rc_signoff.py:107-349 | parsing a printable report gives back times, context, evidence links, gate names and verdicts, the data-safety block, the advisory sections as far as they are readable, the verdict, and the fields of all gates but the last |
| SignoffTheorems.GateNamesAndVerdictsComeBack | scripts/release/parse_rc_signoff.py:146-174 | of the parsed text of a printable report: gate names and verdicts are the written ones in order, and so are all fields of all gates but the last |
| SignoffTheorems.LastGateComesBackIff | scripts/release/parse_rc_signoff.py:157-171 | of the parsed text: the gates are the written ones iff the last one agrees with the data-safety block |
| SignoffTheorems.VerdictMatchesParts | scripts/release/parse_rc_signoff.py:327-349 | of the parsed text of a printable report whose missing links are listed: the verdict equals the one recomputed from the parsed links, gates and data-safety block |
| SignoffTheorems.FailuresComeBack | scripts/release/parse_rc_signoff.py:327-329 | of the parsed text: the missing links and failed gates are those the report was written for, in order |
| SignoffFields.ContextComesBack | scripts/release/parse_rc_signoff.py:118-128 | of the parsed text: the execution context, each value under its key in lower case with underscores |
| SignoffFields.AdvisorySectionsComeBack | scripts/release/parse_rc_signoff.py:207-314 | of the parsed text: all three advisory sections, when figures, alerts and results are ones the parser can read |
| SignoffFields.AlertsComeBackIff | scripts/release/parse_rc_signoff.py:238-243 | joined and split again the alerts are the same iff each is stripped, not empty and without commas, and they are not the single alert "none"; no alerts are written as "none" |
| SignoffFields.FigureComesBackIff | scripts/release/parse_rc_signoff.py:225-234 | a figure's text comes back iff it is stripped, without backtick and not "n/a" |
| SignoffVerdict.VerdictAlwaysComesBack | scripts/release/parse_rc_signoff.py:316-329 | for every report, whatever its fields and captured outputs hold, a parse of its text that ends answers the verdict it was written with |
| SignoffGates.ParsedGatesAreSeen | scripts/release/parse_rc_signoff.py:107-349 | for every report, the gates read are those a three-state pass over the text's lines sees: main loop, section, search for the result |
| SignoffGates.GatesReadAre | scripts/release/parse_rc_signoff.py:146-174 | with fields of one line and any outputs: the written gates the main loop gets to see, and the gate headings it sees in outputs |
| SignoffGates.GatesComeBackIff | scripts/release/parse_rc_signoff.py:146-174 | where the main loop has the line after each gate's output, names and verdicts come back iff no output shows it a gate |
| SignoffGates.GatesAllReadIff | scripts/release/parse_rc_signoff.py:146-174 | where no line of output is a gate heading, names and verdicts come back iff the main loop has the line after each gate's output but the last |
| SignoffParts.ShownGatesAreRead | scripts/release/parse_rc_signoff.py:146-174 | where outputs stay in their blocks, the gates read are the written ones, each followed by the gate headings of its output |
| SignoffParts.GatesAreWrittenIff | scripts/release/parse_rc_signoff.py:146-174 | so they are the written ones iff no line of a gate's output is a gate heading |
| SignoffParts.PartsRead | scripts/release/parse_rc_signoff.py:130-205 | there the links are read as written, and the data-safety block with the field lines its output shows |
| SignoffParts.VerdictMatchesPartsIff | scripts/release/parse_rc_signoff.py:327-349 | there the verdict equals the one recomputed from the parts iff, listed links and written gates being in order, a passed report shows no failed gate and no failed data-safety check, and a failed one still shows one |
| SignoffRelease.ReleaseGatesNeverComeBack | scripts/release/rc_signoff.py:109-131 | no printable report on the three release gates and the data-safety command gets its gates back: the last is read with that command |
| SignoffRelease.ReleaseReportPrints | scripts/release/rc_signoff.py:109-139 | there are such reports: on the five required links, with any verdicts, exit codes and durations, for any one-line interpreter and quiet gate outputs |
| SignoffRelease.QuietReleaseLosesItsLastGate | scripts/release/rc_signoff.py:109-139 | their gates do not come back |
| SignoffRelease.ShownGateIsRead | scripts/release/parse_rc_signoff.py:146-174 | a release report whose tests print one line that looks like a gate is read with that gate after the tests |
| SignoffRelease.ShownFailureMisleads | scripts/release/parse_rc_signoff.py:327-349 | if that line says FAIL, a passed release is read with the verdict PASS and a failed gate |
| SignoffRelease.HeadingHidesGates | scripts/release/parse_rc_signoff.py:146-174 | a release report whose tests print the heading of the overall result does not get its gates back |
| SignoffTheorems.EmbeddedGateIsCounted | scripts/release/parse_rc_signoff.py:146-174 | in any list of lines, a gate's block whose output looks like a gate adds two gates |

## Left out

- Logging, metrics, tracing, timelines and lifecycle audit records: observers, assumed not to raise.
- Real clocks, SQL text, migrations and the legacy JSON call ids: time is an input in microseconds, tables are maps and sequences.
- asyncio itself: tasks are steps between await points. The worker pool's permits do not gate the tasks of a wave; any interleaving is allowed, which includes every gated one. Retry delays are dropped.
- Handlers are functions of the input and the attempt number that return, raise or time out; a handler that swallows a cancellation is not modelled.
- The checkpoint store does not raise, its sqlite and other durable variants are not modelled, and pending and cancelled checkpoint records, which the scheduler never writes, do not occur.
- Scheduler.Execute: a fresh execute starts with no stored record of its job id, and a resume starts from a store that earlier executions of the same job left.
- SchedulerTheorems.CrashesDoNotChangeResults: error messages of failures are not compared, because the store does not keep them.
- Admission of background jobs (tenant quotas, back pressure of the scaler) is a parameter of the job model; the generated job id is the caller's.
- Scaling.PoolConserved: the active-ratio threshold is a real number; rounding of the float product is not modelled.
- Queries that only project state: `get_checkpoint`, `list_runs`, `get_run`, `list_agents`, `find_with_capability`, `list_plugins` and their like would add easy members only.
- Agent instructions and metadata, plugin manifests beyond id and core version.
- The runtime, policy and tool interfaces: a turn is given, per adapter event, whatever the policy, the mode choice, the executor, the execution adapter and the runtime adapter answer; infinite streams are covered by their finite prefixes, and exceptions of these collaborators are not modelled.
- Orchestration.RunTurn: events are values, so the rewriting of an event's payload in place is a new event; values under "handoff" are taken as strings.
- SHA-256 and canonical JSON: arbitrary functions; the hash is assumed injective, never empty and free of colons.
- SignoffTheorems.ParseUndoesWrite: that captured output is quiet is a sufficient condition for the whole parse, not a necessary one (a stray field line may repeat the value it overwrites); for the verdict no condition is needed, and for gate names and verdicts the exact ones are proved.
- SignoffVerdict.VerdictAlwaysComesBack: a figure in captured output that cannot be converted makes the source raise instead of answering; the model marks such a total and keeps other figures as text.
- SignoffGates.GatesComeBackIff: outputs that both hide a written gate and show another are covered by the general description of the gates read only.
- SignoffReport.WriteReport: the figures, which the source formats from floats, are given as text, and the theorems hold for every list of required links.
- SignoffParser.ParseMarkdown: the figures stay text where the source converts them to floats, a total that is no numeral is marked where the source raises, numerals are made of ASCII digits, and only ASCII letters are lowered in context keys.
- The command-line entry points, the release gates themselves, signing and verification of bundles, keyrings.
