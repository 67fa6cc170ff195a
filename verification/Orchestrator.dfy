/** One turn as a transducer: the adapter's event stream, the policy, the mode choice and the executor are
    arbitrary; what goes to the caller and back to the adapter is decided here (src/core/orchestrator.py). */
module Orchestration {
  import opened Values
  import opened AgentRegistries
  import Text

  datatype RiskTier = Low | Medium | High | Critical

  datatype ToolMode = Deterministic | ProviderNative

  datatype ToolStatus = Succeeded | Errored | Blocked | TimedOut | Cancelled

  datatype ToolCall = ToolCall(callId: string, toolName: string, risk: RiskTier, isStateChanging: bool, requested: Option<ToolMode>)

  datatype ToolResult = ToolResult(callId: string, toolName: string, status: ToolStatus, errorCode: string)

  datatype EventKind = OutputDelta | RunComplete | ToolIntent | ErrorEvent | OtherEvent

  datatype Event = Event(kind: EventKind, runId: string, correlationId: string, call: Option<ToolCall>, payload: Payload)

  /** What only an execution adapter that manages jobs reports. */
  datatype Lease = Lease(jobId: string, token: string, expiresAt: string, claimAttempt: string)

  const NO_LEASE := Lease("", "", "", "")

  /** The progress event of a tool call; `status` is absent until the call has ended. */
  datatype Progress = Progress(runId: string, correlationId: string, callId: string, toolName: string, state: string,
                               status: string, errorCode: string, lease: Lease)

  datatype Ruling = Allow | Deny | Escalate

  datatype Decision = Decision(ruling: Ruling, enforced: Option<ToolMode>)

  /** A progress entry drained from the execution adapter: any object, or a dictionary with optional fields. */
  datatype RawProgress = NotADictionary | Entry(fields: map<string, string>)

  /** Why a turn is refused before the session starts. */
  datatype HandoffError =
    | HandoffInvalid
    | SourceAgentMissing
    | SourceAgentUnknown
    | RequiredCapabilityInvalid
    | RouteDenied
    | TargetNotFound

  /** One event of the adapter's stream with everything the environment answers while it is handled. */
  datatype Step = Step(
    event: Event,
    managed: bool,                        // the execution adapter reports progress itself
    decision: Decision,
    mode: ToolMode,                       // what the mode selector picks, if asked
    result: ToolResult,                   // what the executor returns, if asked
    drained: Option<seq<RawProgress>>,    // what the execution adapter reports, None for nothing iterable
    followUps: seq<Event>)                // what the runtime adapter answers to a submitted result

  /** What a turn does, in order: starts the session, yields events, submits results. */
  datatype Act =
    | Refuse(error: HandoffError)
    | StartSession(metadata: Payload)
    | Pass(event: Event)                  // an event that is not a tool intent
    | Forward(event: Event)               // a tool intent left to the provider
    | Report(progress: Progress)
    | Submit(runId: string, result: ToolResult)
    | FollowUp(event: Event)

  // ----- Rules -----

  predicate NeedsEnvelope(call: ToolCall) {
    call.isStateChanging || call.risk == High || call.risk == Critical
  }

  function TerminalState(status: ToolStatus): string {
    match status
    case Succeeded => "completed"
    case TimedOut => "timed_out"
    case Cancelled => "cancelled"
    case _ => "failed"
  }

  function StatusName(status: ToolStatus): string {
    match status
    case Succeeded => "success"
    case Errored => "error"
    case Blocked => "blocked"
    case TimedOut => "timeout"
    case Cancelled => "cancelled"
  }

  function BlockedResult(call: ToolCall, reason: string): ToolResult {
    ToolResult(call.callId, call.toolName, Blocked, reason)
  }

  function Filtered(policy: Payload -> Payload, event: Event): Event {
    if event.kind == OutputDelta || event.kind == RunComplete then event.(payload := policy(event.payload)) else event
  }

  predicate IsIntent(event: Event) {
    event.kind == ToolIntent && event.call.Some?
  }

  function SelectMode(call: ToolCall, forced: bool, decision: Decision): ToolMode {
    if decision.ruling != Allow || decision.enforced == Some(Deterministic) || NeedsEnvelope(call) || forced then Deterministic
    else if decision.enforced.Some? then decision.enforced.value
    else if call.requested == Some(Deterministic) then Deterministic
    else ProviderNative
  }

  // ----- What one event leads to -----

  function Own(event: Event, state: string, status: string, errorCode: string): Act
    requires IsIntent(event)
  {
    Report(Progress(event.runId, event.correlationId, event.call.value.callId, event.call.value.toolName, state, status,
                    errorCode, NO_LEASE))
  }

  function Field(fields: map<string, string>, name: string, default: string): string {
    if name in fields then fields[name] else default
  }

  function Rendered(event: Event, raw: seq<RawProgress>): seq<Act>
    requires IsIntent(event)
  {
    if raw == [] then []
    else
      var front, last := Rendered(event, raw[..|raw| - 1]), raw[|raw| - 1];
      match last
      case NotADictionary => front
      case Entry(f) => front + [Report(ProgressOf(event, f))]
  }

  function ProgressOf(event: Event, f: map<string, string>): Progress
    requires IsIntent(event)
  {
    Progress(event.runId, event.correlationId, Field(f, "call_id", event.call.value.callId), Field(f, "tool_name", ""),
             Field(f, "state", ""), Field(f, "tool_status", ""), Field(f, "error_code", ""),
             Lease(Field(f, "job_id", ""), Field(f, "lease_token", ""), Field(f, "lease_expires_at_epoch", ""),
                   Field(f, "claim_attempt", "")))
  }

  function Drained(step: Step): seq<Act>
    requires IsIntent(step.event)
  {
    if step.managed && step.drained.Some? then Rendered(step.event, step.drained.value) else []
  }

  function FollowUps(policy: Payload -> Payload, events: seq<Event>): seq<Act> {
    seq(|events|, i requires 0 <= i < |events| => FollowUp(Filtered(policy, events[i])))
  }

  /** How an intent is settled: a result goes back to the adapter, or the event goes to the caller. */
  function Settlement(policy: Payload -> Payload, step: Step): Act
    requires IsIntent(step.event)
  {
    var call := step.event.call.value;
    if step.decision.ruling != Allow || step.mode == Deterministic then Submit(step.event.runId, step.result)
    else if NeedsEnvelope(call) then Submit(step.event.runId, BlockedResult(call, "PROVIDER_NATIVE_STATE_CHANGE_BLOCKED"))
    else Forward(Filtered(policy, step.event))
  }

  /** The progress before the settlement. */
  function Progression(step: Step): seq<Act>
    requires IsIntent(step.event)
  {
    var queued := if step.managed then [] else [Own(step.event, "queued", "", "")];
    var result := step.result;
    if step.decision.ruling != Allow then
      if step.managed then [] else queued + [Own(step.event, "failed", StatusName(result.status), result.errorCode)]
    else if step.mode == ProviderNative then queued
    else
      queued + Execution(step)
  }

  /** The progress of an executed call: what the adapter reports, else running and the terminal state. */
  function Execution(step: Step): seq<Act>
    requires IsIntent(step.event)
  {
    var running := if step.managed then [] else [Own(step.event, "running", "", "")];
    var result, reported := step.result, Drained(step);
    running + (if reported != [] then reported
               else [Own(step.event, TerminalState(result.status), StatusName(result.status), result.errorCode)])
  }

  function Response(policy: Payload -> Payload, step: Step): seq<Act> {
    if !IsIntent(step.event) then [Pass(Filtered(policy, step.event))]
    else
      var settlement := Settlement(policy, step);
      Progression(step) + [settlement] + (if settlement.Submit? then FollowUps(policy, step.followUps) else [])
  }

  function Turn(policy: Payload -> Payload, steps: seq<Step>): seq<Act> {
    if steps == [] then [] else Turn(policy, steps[..|steps| - 1]) + Response(policy, steps[|steps| - 1])
  }

  lemma TurnSnoc(policy: Payload -> Payload, steps: seq<Step>, i: nat)
    requires i < |steps|
    ensures Turn(policy, steps[..i + 1]) == Turn(policy, steps[..i]) + Response(policy, steps[i])
  {
    assert steps[..i + 1][..i] == steps[..i];
  }

  // ----- Selecting acts -----

  function Only(acts: seq<Act>, keep: Act -> bool): seq<Act> {
    if acts == [] then []
    else Only(acts[..|acts| - 1], keep) + (if keep(acts[|acts| - 1]) then [acts[|acts| - 1]] else [])
  }

  lemma {:induction false} OnlyConcat(a: seq<Act>, b: seq<Act>, keep: Act -> bool)
    ensures Only(a + b, keep) == Only(a, keep) + Only(b, keep)
    decreases |b|
  {
    if b == [] {
      assert a + b == a;
    } else {
      var front, last := b[..|b| - 1], b[|b| - 1];
      assert (a + b)[..|a + b| - 1] == a + front && (a + b)[|a + b| - 1] == last;
      OnlyConcat(a, front, keep);
    }
  }

  lemma {:induction false} OnlyThree(a: seq<Act>, act: Act, b: seq<Act>, keep: Act -> bool)
    ensures Only(a + [act] + b, keep) == Only(a, keep) + (if keep(act) then [act] else []) + Only(b, keep)
  {
    OnlyConcat(a + [act], b, keep);
    OnlyConcat(a, [act], keep);
    assert Only([act], keep) == if keep(act) then [act] else [];
  }

  lemma {:induction false} OnlyNone(acts: seq<Act>, keep: Act -> bool)
    requires forall act <- acts :: !keep(act)
    ensures Only(acts, keep) == []
  {
    if acts != [] {
      assert acts[|acts| - 1] in acts;
      OnlyNone(acts[..|acts| - 1], keep);
    }
  }

  lemma {:induction false} OnlyMembers(acts: seq<Act>, keep: Act -> bool, act: Act)
    ensures act in Only(acts, keep) <==> act in acts && keep(act)
  {
    if acts != [] {
      assert acts == acts[..|acts| - 1] + [acts[|acts| - 1]];
      OnlyMembers(acts[..|acts| - 1], keep, act);
    }
  }

  // ----- One settlement per intent -----

  const SETTLES: Act -> bool := (act: Act) => act.Submit? || act.Forward?

  lemma {:induction false} RenderedAreReports(event: Event, raw: seq<RawProgress>)
    requires IsIntent(event)
    ensures forall act <- Rendered(event, raw) :: act.Report?
  {
    if raw != [] {
      RenderedAreReports(event, raw[..|raw| - 1]);
    }
  }

  lemma ProgressionIsReports(step: Step)
    requires IsIntent(step.event)
    ensures forall act <- Progression(step) :: act.Report?
  {
    if step.drained.Some? {
      RenderedAreReports(step.event, step.drained.value);
    }
  }

  /** The settlements the intents of the stream ask for, in stream order. */
  function Settlements(policy: Payload -> Payload, steps: seq<Step>): seq<Act> {
    if steps == [] then []
    else
      var last := steps[|steps| - 1];
      Settlements(policy, steps[..|steps| - 1]) + (if IsIntent(last.event) then [Settlement(policy, last)] else [])
  }

  function IntentCount(steps: seq<Step>): nat {
    if steps == [] then 0
    else IntentCount(steps[..|steps| - 1]) + (if IsIntent(steps[|steps| - 1].event) then 1 else 0)
  }

  lemma ResponseSettlesOnce(policy: Payload -> Payload, step: Step)
    ensures Only(Response(policy, step), SETTLES) == if IsIntent(step.event) then [Settlement(policy, step)] else []
  {
    if IsIntent(step.event) {
      var settlement := Settlement(policy, step);
      var tail := if settlement.Submit? then FollowUps(policy, step.followUps) else [];
      ProgressionIsReports(step);
      OnlyThree(Progression(step), settlement, tail, SETTLES);
      OnlyNone(Progression(step), SETTLES);
      OnlyNone(tail, SETTLES);
    }
  }

  /** Every intent on the stream is settled exactly once, in stream order, and nothing else is: by one
      submitted result or by one forwarded event. */
  lemma {:induction false} EachIntentIsSettledOnce(policy: Payload -> Payload, steps: seq<Step>)
    ensures Only(Turn(policy, steps), SETTLES) == Settlements(policy, steps)
    ensures |Only(Turn(policy, steps), SETTLES)| == IntentCount(steps)
  {
    if steps != [] {
      var front, last := steps[..|steps| - 1], steps[|steps| - 1];
      EachIntentIsSettledOnce(policy, front);
      OnlyConcat(Turn(policy, front), Response(policy, last), SETTLES);
      ResponseSettlesOnce(policy, last);
    }
  }

  /** The same event, with the payload the output policy makes of it if it holds output of the model: a piece of it,
      or the end of the run. */
  ghost predicate IsShownAs(policy: Payload -> Payload, offered: Event, shown: Event) {
    && shown.kind == offered.kind && shown.runId == offered.runId && shown.correlationId == offered.correlationId
    && shown.call == offered.call
    && match offered.kind
       case OutputDelta => shown.payload == policy(offered.payload)
       case RunComplete => shown.payload == policy(offered.payload)
       case ToolIntent => shown.payload == offered.payload
       case ErrorEvent => shown.payload == offered.payload
       case OtherEvent => shown.payload == offered.payload
  }

  /** The intent may be left to the provider: allowed, provider-native, not state-changing, neither high nor
      critical risk. */
  predicate IsHarmless(step: Step) {
    && step.event.kind == ToolIntent && step.event.call.Some?
    && !step.event.call.value.isStateChanging && step.event.call.value.risk in {Low, Medium}
    && step.decision.ruling == Allow && step.mode == ProviderNative
  }

  /** A call is settled by the executor's result when it is denied or deterministic, by a blocked result when it is too
      heavy for the provider, and else by leaving the event to the provider. */
  ghost predicate IsSettledBy(policy: Payload -> Payload, step: Step, act: Act)
    requires IsIntent(step.event)
  {
    var call := step.event.call.value;
    match act
    case Submit(runId, result) =>
      && runId == step.event.runId
      && (step.decision.ruling == Allow && step.mode == ProviderNative ==>
            && (call.isStateChanging || call.risk == High || call.risk == Critical)
            && result.callId == call.callId && result.toolName == call.toolName && result.status == Blocked
            && result.errorCode == "PROVIDER_NATIVE_STATE_CHANGE_BLOCKED")
      && (step.decision.ruling != Allow || step.mode != ProviderNative ==> result == step.result)
    case Forward(event) => IsHarmless(step) && IsShownAs(policy, step.event, event)
    case _ => false
  }

  lemma SettlementIs(policy: Payload -> Payload, step: Step)
    requires IsIntent(step.event)
    ensures IsSettledBy(policy, step, Settlement(policy, step))
  {
  }

  /** The i-th settling act of a turn settles the i-th intent of its stream. */
  lemma {:induction false} SettlementsAre(policy: Payload -> Payload, steps: seq<Step>)
    ensures var acts, intents := Only(Turn(policy, steps), SETTLES), Intents(steps);
      && |acts| == |intents|
      && forall i :: 0 <= i < |acts| ==> IsIntent(intents[i].event) && IsSettledBy(policy, intents[i], acts[i])
  {
    EachIntentIsSettledOnce(policy, steps);
    SettlementsOfIntents(policy, steps);
  }

  function Intents(steps: seq<Step>): seq<Step> {
    if steps == [] then []
    else Intents(steps[..|steps| - 1]) + (if IsIntent(steps[|steps| - 1].event) then [steps[|steps| - 1]] else [])
  }

  lemma {:induction false} SettlementsOfIntents(policy: Payload -> Payload, steps: seq<Step>)
    ensures var acts, intents := Settlements(policy, steps), Intents(steps);
      && |acts| == |intents|
      && forall i :: 0 <= i < |acts| ==> IsIntent(intents[i].event) && IsSettledBy(policy, intents[i], acts[i])
  {
    if steps != [] {
      SettlementsOfIntents(policy, steps[..|steps| - 1]);
      if IsIntent(steps[|steps| - 1].event) {
        SettlementIs(policy, steps[|steps| - 1]);
      }
    }
  }

  // ----- Safety of what is forwarded -----

  ghost predicate Settles(policy: Payload -> Payload, step: Step, act: Act) {
    IsIntent(step.event) && act == Settlement(policy, step)
  }

  lemma {:induction false} SettlementHasStep(policy: Payload -> Payload, steps: seq<Step>, act: Act)
    requires act in Settlements(policy, steps)
    ensures exists step <- steps :: Settles(policy, step, act)
  {
    var front, last := steps[..|steps| - 1], steps[|steps| - 1];
    if act in Settlements(policy, front) {
      SettlementHasStep(policy, front, act);
      var step :| step in front && Settles(policy, step, act);
      assert step in steps;
    } else {
      assert last in steps && Settles(policy, last, act);
    }
  }

  lemma {:induction false} StepHasSettlement(policy: Payload -> Payload, steps: seq<Step>, step: Step)
    requires step in steps && IsIntent(step.event)
    ensures Settlement(policy, step) in Settlements(policy, steps)
  {
    var front, last := steps[..|steps| - 1], steps[|steps| - 1];
    assert steps == front + [last];
    if step != last {
      StepHasSettlement(policy, front, step);
    }
  }

  lemma {:induction false} InTurnIffSettlement(policy: Payload -> Payload, steps: seq<Step>, act: Act)
    requires SETTLES(act)
    ensures act in Turn(policy, steps) <==> act in Settlements(policy, steps)
  {
    EachIntentIsSettledOnce(policy, steps);
    OnlyMembers(Turn(policy, steps), SETTLES, act);
  }

  /** A tool intent reaches the caller exactly when it is allowed, runs provider-native, and neither changes
      state nor carries high or critical risk. */
  lemma {:induction false} ForwardedIffHarmless(policy: Payload -> Payload, steps: seq<Step>, event: Event)
    ensures Forward(event) in Turn(policy, steps) <==> exists step <- steps :: IsHarmless(step) && step.event == event
  {
    InTurnIffSettlement(policy, steps, Forward(event));
    if Forward(event) in Settlements(policy, steps) {
      SettlementHasStep(policy, steps, Forward(event));
      var step :| step in steps && Settles(policy, step, Forward(event));
      assert IsHarmless(step) && step.event == event;
    }
    if step :| step in steps && IsHarmless(step) && step.event == event {
      StepHasSettlement(policy, steps, step);
    }
  }

  /** The mode selector leaves a call to the provider exactly when the policy allows it and does not ask for the
      deterministic mode, the call is neither state-changing nor of high or critical risk, the provider's capabilities do
      not force the deterministic mode, and that mode is not requested, unless the policy asks for the provider's. */
  lemma SelectsProviderIff(call: ToolCall, forced: bool, decision: Decision)
    ensures SelectMode(call, forced, decision) == ProviderNative <==>
      && decision.ruling == Allow && decision.enforced != Some(Deterministic)
      && !call.isStateChanging && call.risk in {Low, Medium} && !forced
      && (decision.enforced == Some(ProviderNative) || call.requested != Some(Deterministic))
  {
  }

  ghost predicate UsesSelector(step: Step, forced: bool) {
    step.event.call.Some? ==> step.mode == SelectMode(step.event.call.value, forced, step.decision)
  }

  /** With the repository's own mode selector no allowed call is ever held back by the envelope: what is
      submitted is always the executor's result. */
  lemma {:induction false} SelectorHoldsNothingBack(policy: Payload -> Payload, steps: seq<Step>, forced: bool, act: Act)
    requires forall step <- steps :: UsesSelector(step, forced)
    requires act in Turn(policy, steps) && act.Submit?
    ensures exists step <- steps :: IsIntent(step.event) && act == Submit(step.event.runId, step.result)
  {
    InTurnIffSettlement(policy, steps, act);
    SettlementHasStep(policy, steps, act);
    var step :| step in steps && Settles(policy, step, act);
    assert UsesSelector(step, forced);
  }

  // ----- What the caller sees of the adapter -----

  const RELAYS: Act -> bool := (act: Act) => act.Pass? || act.Forward? || act.FollowUp?

  /** A tool call that the orchestrator answers itself: denied, run in deterministic mode, or held back because it
      changes state or carries high or critical risk. */
  predicate IsAnswered(step: Step) {
    && step.event.kind == ToolIntent && step.event.call.Some?
    && (step.decision.ruling != Allow || step.mode == Deterministic
        || step.event.call.value.isStateChanging || step.event.call.value.risk in {High, Critical})
  }

  lemma AnsweredIff(policy: Payload -> Payload, step: Step)
    ensures IsAnswered(step) <==> IsIntent(step.event) && Settlement(policy, step).Submit?
  {
  }

  /** The adapter's events meant for the caller, in order. */
  function Offered(step: Step): seq<Event> {
    if IsAnswered(step) then step.followUps else [step.event]
  }

  function AllOffered(steps: seq<Step>): seq<Event> {
    if steps == [] then []
    else AllOffered(steps[..|steps| - 1]) + Offered(steps[|steps| - 1])
  }

  /** The acts show these events to the caller, one by one. */
  ghost predicate RelaysExactly(policy: Payload -> Payload, acts: seq<Act>, events: seq<Event>) {
    && |acts| == |events|
    && forall i :: 0 <= i < |acts| ==>
         (acts[i].Pass? || acts[i].Forward? || acts[i].FollowUp?) && IsShownAs(policy, events[i], acts[i].event)
  }

  lemma {:induction false} OnlyAll(acts: seq<Act>, keep: Act -> bool)
    requires forall act <- acts :: keep(act)
    ensures Only(acts, keep) == acts
  {
    if acts != [] {
      assert acts[|acts| - 1] in acts;
      OnlyAll(acts[..|acts| - 1], keep);
    }
  }

  lemma ResponseRelayed(policy: Payload -> Payload, step: Step)
    ensures Only(Response(policy, step), RELAYS) ==
            if IsIntent(step.event) && Settlement(policy, step).Submit? then FollowUps(policy, step.followUps)
            else if IsIntent(step.event) then [Settlement(policy, step)]
            else [Pass(Filtered(policy, step.event))]
  {
    if IsIntent(step.event) {
      var settlement := Settlement(policy, step);
      var tail := if settlement.Submit? then FollowUps(policy, step.followUps) else [];
      ProgressionIsReports(step);
      OnlyThree(Progression(step), settlement, tail, RELAYS);
      OnlyNone(Progression(step), RELAYS);
      OnlyAll(tail, RELAYS);
    } else {
      OnlyAll(Response(policy, step), RELAYS);
    }
  }

  lemma ResponseRelays(policy: Payload -> Payload, step: Step)
    ensures RelaysExactly(policy, Only(Response(policy, step), RELAYS), Offered(step))
  {
    ResponseRelayed(policy, step);
    AnsweredIff(policy, step);
    if IsAnswered(step) {
      FollowUpsRelay(policy, step.followUps);
    } else {
      FilteredIs(policy, step.event);
    }
  }

  lemma FilteredIs(policy: Payload -> Payload, event: Event)
    ensures IsShownAs(policy, event, Filtered(policy, event))
  {
  }

  lemma FollowUpsRelay(policy: Payload -> Payload, events: seq<Event>)
    ensures RelaysExactly(policy, FollowUps(policy, events), events)
  {
    forall i | 0 <= i < |events| ensures IsShownAs(policy, events[i], FollowUps(policy, events)[i].event) {
      FilteredIs(policy, events[i]);
    }
  }

  /** The caller gets every offered event of the adapter once, in order, each through the output policy. */
  lemma {:induction false} CallerSeesFilteredStream(policy: Payload -> Payload, steps: seq<Step>)
    ensures RelaysExactly(policy, Only(Turn(policy, steps), RELAYS), AllOffered(steps))
  {
    if steps != [] {
      var front, last := steps[..|steps| - 1], steps[|steps| - 1];
      CallerSeesFilteredStream(policy, front);
      OnlyConcat(Turn(policy, front), Response(policy, last), RELAYS);
      ResponseRelays(policy, last);
    }
  }

  /** A tool call that changes state or carries high or critical risk. */
  predicate IsHeavy(event: Event) {
    event.kind == ToolIntent && event.call.Some? && (event.call.value.isStateChanging || event.call.value.risk in {High, Critical})
  }

  ghost predicate OffersHeavyFollowUp(step: Step, event: Event) {
    IsAnswered(step) && event in step.followUps && IsHeavy(event)
  }

  lemma {:induction false} OfferedSource(steps: seq<Step>, event: Event)
    ensures event in AllOffered(steps) <==> exists step <- steps :: event in Offered(step)
  {
    if steps != [] {
      var front, last := steps[..|steps| - 1], steps[|steps| - 1];
      assert steps == front + [last];
      OfferedSource(front, event);
    }
  }

  /** An event is relayed exactly when it is the filtered form of an offered one. */
  lemma {:induction false} RelayedIffOffered(policy: Payload -> Payload, steps: seq<Step>, event: Event)
    requires IsIntent(event)
    ensures (exists act <- Turn(policy, steps) :: (act.Pass? || act.Forward? || act.FollowUp?) && act.event == event) <==>
      event in AllOffered(steps)
  {
    var relayed, offered := Only(Turn(policy, steps), RELAYS), AllOffered(steps);
    CallerSeesFilteredStream(policy, steps);
    if act :| act in Turn(policy, steps) && RELAYS(act) && act.event == event {
      OnlyMembers(Turn(policy, steps), RELAYS, act);
      var i :| 0 <= i < |relayed| && relayed[i] == act;
      assert offered[i] == event;
    }
    if i :| 0 <= i < |offered| && offered[i] == event {
      OnlyMembers(Turn(policy, steps), RELAYS, relayed[i]);
      assert relayed[i].event == event;
    }
  }

  /** Intents among the follow-up events are not gated: one that needs the envelope reaches the caller exactly
      when an adapter answers a submitted result with it. */
  lemma {:induction false} HeavyIntentReachesCallerIff(policy: Payload -> Payload, steps: seq<Step>, event: Event)
    requires IsHeavy(event)
    ensures (exists act <- Turn(policy, steps) :: (act.Pass? || act.Forward? || act.FollowUp?) && act.event == event) <==>
      exists step <- steps :: OffersHeavyFollowUp(step, event)
  {
    RelayedIffOffered(policy, steps, event);
    OfferedSource(steps, event);
    forall step <- steps
      ensures event in Offered(step) <==> OffersHeavyFollowUp(step, event)
    {
      HeavyIsOnlyAFollowUp(step, event);
    }
  }

  lemma HeavyIsOnlyAFollowUp(step: Step, event: Event)
    requires IsHeavy(event)
    ensures event in Offered(step) <==> OffersHeavyFollowUp(step, event)
  {
  }

  // ----- The order of progress -----

  /** A call as its reports name it. */
  datatype CallRef = CallRef(runId: string, callId: string)

  /** Where a watcher of a turn stands: which call is open, and how far it has got. */
  datatype Watch =
    | Idle
    | Queued(call: CallRef)
    | Running(call: CallRef)
    | Ended(call: CallRef, state: string, status: string, errorCode: string)
    | Answered                            // a result was submitted; follow-ups may come

  /** Where a report takes the watcher: queued opens a call; failed, or running and then a terminal state, end
      it. */
  function Told(w: Watch, p: Progress): Option<Watch> {
    var call := CallRef(p.runId, p.callId);
    if w.Idle? || w.Answered? then (if p.state == "queued" then Some(Queued(call)) else None)
    else if w.Queued? && w.call == call && p.state == "running" then Some(Running(call))
    else if w.Queued? && w.call == call && p.state == "failed" then Some(Ended(call, p.state, p.status, p.errorCode))
    else if w.Running? && w.call == call && p.state in ["completed", "timed_out", "cancelled", "failed"] then
      Some(Ended(call, p.state, p.status, p.errorCode))
    else None
  }

  /** A result fits where its call stands: it names the call, and it is what the last report said, or a block
      of a call that was only queued. */
  predicate Fits(w: Watch, runId: string, result: ToolResult) {
    || (w.Queued? && w.call == CallRef(runId, result.callId) && result.status == Blocked)
    || (w.Ended? && w.call == CallRef(runId, result.callId) && w.state == TerminalState(result.status)
        && w.status == StatusName(result.status) && w.errorCode == result.errorCode)
  }

  /** The watcher's next place, None for an act out of order. */
  function Watched(w: Watch, act: Act): Option<Watch> {
    match act
    case Pass(_) => if w.Idle? || w.Answered? then Some(Idle) else None
    case FollowUp(_) => if w.Answered? then Some(Answered) else None
    case Report(p) => Told(w, p)
    case Submit(runId, result) => if Fits(w, runId, result) then Some(Answered) else None
    case Forward(e) =>
      if w.Queued? && IsIntent(e) && w.call == CallRef(e.runId, e.call.value.callId) then Some(Idle) else None
    case _ => None
  }

  function WatchAll(w: Watch, acts: seq<Act>): Option<Watch> {
    if acts == [] then Some(w)
    else
      var before := WatchAll(w, acts[..|acts| - 1]);
      if before.None? then None else Watched(before.value, acts[|acts| - 1])
  }

  lemma {:induction false} WatchConcat(w: Watch, a: seq<Act>, b: seq<Act>)
    ensures WatchAll(w, a + b) == if WatchAll(w, a).None? then None else WatchAll(WatchAll(w, a).value, b)
    decreases |b|
  {
    if b == [] {
      assert a + b == a;
    } else {
      assert (a + b)[..|a + b| - 1] == a + b[..|b| - 1];
      WatchConcat(w, a, b[..|b| - 1]);
    }
  }

  lemma {:induction false} WatchOne(w: Watch, act: Act)
    ensures WatchAll(w, [act]) == Watched(w, act)
  {
    assert WatchAll(w, [act][..0]) == Some(w);
  }

  lemma {:induction false} FollowUpsAreInOrder(acts: seq<Act>)
    requires forall i :: 0 <= i < |acts| ==> acts[i].FollowUp?
    ensures WatchAll(Answered, acts) == Some(Answered)
  {
    if acts != [] {
      FollowUpsAreInOrder(acts[..|acts| - 1]);
    }
  }

  /** The states an intent's own progress spells. */
  function States(acts: seq<Act>): seq<string>
    requires forall act <- acts :: act.Report?
  {
    seq(|acts|, i requires 0 <= i < |acts| => acts[i].progress.state)
  }

  function Spelling(step: Step): seq<string> {
    if step.decision.ruling != Allow then ["queued", "failed"]
    else if step.mode == Deterministic then ["queued", "running", TerminalState(step.result.status)]
    else ["queued"]
  }

  /** Without adapter-managed progress an intent's states spell: queued and failed, or queued, running and the
      result's terminal state, or queued alone. With it they are what the adapter reports, and one terminal
      state stands in where an executed call reported nothing. */
  lemma ProgressionSpells(step: Step)
    requires IsIntent(step.event)
    ensures forall act <- Progression(step) :: act.Report?
    ensures !step.managed ==> States(Progression(step)) == Spelling(step)
    ensures step.managed && (step.decision.ruling != Allow || step.mode == ProviderNative) ==> Progression(step) == []
    ensures step.managed && step.decision.ruling == Allow && step.mode == Deterministic ==>
      if Drained(step) != [] then Progression(step) == Drained(step)
      else States(Progression(step)) == [TerminalState(step.result.status)]
  {
    ProgressionIsReports(step);
  }

  /** The names under which each status is reported and each end of a call is called. */
  lemma StatusNames()
    ensures TerminalState(Succeeded) == "completed" && StatusName(Succeeded) == "success"
    ensures TerminalState(Errored) == "failed" && StatusName(Errored) == "error"
    ensures TerminalState(Blocked) == "failed" && StatusName(Blocked) == "blocked"
    ensures TerminalState(TimedOut) == "timed_out" && StatusName(TimedOut) == "timeout"
    ensures TerminalState(Cancelled) == "cancelled" && StatusName(Cancelled) == "cancelled"
  {
  }

  /** A report of the orchestrator's own is about the intent's call: its run, correlation, id and tool. */
  ghost predicate IsAbout(event: Event, p: Progress) {
    && event.call.Some? && p.runId == event.runId && p.correlationId == event.correlationId
    && p.callId == event.call.value.callId && p.toolName == event.call.value.toolName
    && p.lease.jobId == "" && p.lease.token == "" && p.lease.expiresAt == "" && p.lease.claimAttempt == ""
  }

  /** Before a call has ended a report carries neither status nor error code; the one that ends it carries those of the
      result. */
  ghost predicate SaysHow(step: Step, p: Progress) {
    if p.state == "queued" || p.state == "running" then p.status == "" && p.errorCode == ""
    else p.status == StatusName(step.result.status) && p.errorCode == step.result.errorCode
  }

  lemma ReportsSayHow(step: Step)
    requires IsIntent(step.event) && !step.managed
    ensures forall act <- Progression(step) :: act.Report? && IsAbout(step.event, act.progress) && SaysHow(step, act.progress)
  {
    EndedStates(step.result.status);
    assert "failed" != "queued" && "failed" != "running" by {
      assert "failed"[0] == 'f' && "queued"[0] == 'q' && "running"[0] == 'r';
    }
  }

  lemma EndedStates(status: ToolStatus)
    ensures TerminalState(status) != "queued" && TerminalState(status) != "running"
  {
    assert "queued"[0] == 'q' && "running"[0] == 'r';
    assert TerminalState(status)[0] in {'c', 't', 'f'};
  }

  ghost predicate BetweenCalls(w: Option<Watch>) {
    w == Some(Idle) || w == Some(Answered)
  }

  function RefOf(step: Step): CallRef
    requires IsIntent(step.event)
  {
    CallRef(step.event.runId, step.event.call.value.callId)
  }

  /** Where the progress of an intent leaves the watcher. */
  function Reported(step: Step): Watch
    requires IsIntent(step.event)
  {
    var result := step.result;
    if step.decision.ruling != Allow then Ended(RefOf(step), "failed", StatusName(result.status), result.errorCode)
    else if step.mode == Deterministic then
      Ended(RefOf(step), TerminalState(result.status), StatusName(result.status), result.errorCode)
    else Queued(RefOf(step))
  }

  lemma {:induction false} WatchTwo(w: Watch, a: Act, b: Act, mid: Watch, end: Watch)
    requires Watched(w, a) == Some(mid) && Watched(mid, b) == Some(end)
    ensures WatchAll(w, [a, b]) == Some(end)
  {
    assert [a, b] == [a] + [b];
    WatchConcat(w, [a], [b]);
    WatchOne(w, a);
    WatchOne(mid, b);
  }

  lemma {:induction false} WatchThree(w: Watch, a: Act, b: Act, c: Act, m1: Watch, m2: Watch, end: Watch)
    requires Watched(w, a) == Some(m1) && Watched(m1, b) == Some(m2) && Watched(m2, c) == Some(end)
    ensures WatchAll(w, [a, b, c]) == Some(end)
  {
    assert [a, b, c] == [a, b] + [c];
    WatchConcat(w, [a, b], [c]);
    WatchTwo(w, a, b, m1, m2);
    WatchOne(m2, c);
  }

  lemma {:induction false} ProgressionIsInOrder(step: Step, w: Watch)
    requires IsIntent(step.event) && !step.managed && BetweenCalls(Some(w))
    ensures WatchAll(w, Progression(step)) == Some(Reported(step))
  {
    var ref, result := RefOf(step), step.result;
    var queued := Own(step.event, "queued", "", "");
    if step.decision.ruling != Allow {
      var failed := Own(step.event, "failed", StatusName(result.status), result.errorCode);
      WatchTwo(w, queued, failed, Queued(ref), Reported(step));
      assert Progression(step) == [queued, failed];
    } else if step.mode == Deterministic {
      var running := Own(step.event, "running", "", "");
      var ended := Own(step.event, TerminalState(result.status), StatusName(result.status), result.errorCode);
      WatchThree(w, queued, running, ended, Queued(ref), Running(ref), Reported(step));
      assert Progression(step) == [queued, running, ended];
    } else {
      WatchOne(w, queued);
      assert Progression(step) == [queued];
    }
  }

  /** The executor's result, where it is what goes back, names the call it was asked for; and for a denied call
      it is one of those reported as failed. */
  predicate AnswersItsCall(step: Step) {
    IsIntent(step.event) && (step.decision.ruling != Allow || step.mode == Deterministic) ==>
      && step.result.callId == step.event.call.value.callId
      && (step.decision.ruling != Allow ==> TerminalState(step.result.status) == "failed")
  }

  lemma SettlementIsInOrderIff(policy: Payload -> Payload, step: Step)
    requires IsIntent(step.event)
    ensures Watched(Reported(step), Settlement(policy, step)) ==
      if !AnswersItsCall(step) then None else Some(if Settlement(policy, step).Submit? then Answered else Idle)
  {
  }

  lemma {:induction false} WatchSettled(w: Watch, progress: seq<Act>, settlement: Act, tail: seq<Act>, reported: Watch)
    requires WatchAll(w, progress) == Some(reported)
    ensures WatchAll(w, progress + [settlement] + tail) ==
      var settled := Watched(reported, settlement); if settled.None? then None else WatchAll(settled.value, tail)
  {
    WatchConcat(w, progress, [settlement]);
    WatchOne(reported, settlement);
    WatchConcat(w, progress + [settlement], tail);
  }

  lemma {:induction false} ResponseIsInOrderIff(policy: Payload -> Payload, step: Step, w: Watch)
    requires !step.managed && BetweenCalls(Some(w))
    ensures if AnswersItsCall(step) then BetweenCalls(WatchAll(w, Response(policy, step)))
            else WatchAll(w, Response(policy, step)) == None
  {
    if !IsIntent(step.event) {
      WatchOne(w, Pass(Filtered(policy, step.event)));
    } else {
      var settlement := Settlement(policy, step);
      var tail := if settlement.Submit? then FollowUps(policy, step.followUps) else [];
      ProgressionIsInOrder(step, w);
      SettlementIsInOrderIff(policy, step);
      WatchSettled(w, Progression(step), settlement, tail, Reported(step));
      FollowUpsAreInOrder(FollowUps(policy, step.followUps));
    }
  }

  /** Where an orderly turn or a disorderly one leaves the watcher. */
  ghost predicate IsOutcome(w: Option<Watch>, orderly: bool) {
    if orderly then BetweenCalls(w) else w == None
  }

  lemma {:induction false} OutcomeSnoc(policy: Payload -> Payload, before: seq<Act>, orderly: bool, last: Step)
    requires !last.managed && IsOutcome(WatchAll(Idle, before), orderly)
    ensures IsOutcome(WatchAll(Idle, before + Response(policy, last)), orderly && AnswersItsCall(last))
  {
    var w := WatchAll(Idle, before);
    WatchConcat(Idle, before, Response(policy, last));
    if w.Some? {
      ResponseIsInOrderIff(policy, last, w.value);
    }
  }

  ghost predicate NoneManaged(steps: seq<Step>) {
    forall i :: 0 <= i < |steps| ==> !steps[i].managed
  }

  predicate AllAnswer(steps: seq<Step>) {
    forall i :: 0 <= i < |steps| ==> AnswersItsCall(steps[i])
  }

  /** Without adapter-managed progress a turn keeps the order of calls -- one open at a time, reports with its
      run and id, a forwarded intent only queued, a submitted result naming its call and carrying the status,
      error code and state last reported -- exactly when every result of the executor names its call, and no
      denied call is answered with a success, a timeout or a cancellation. */
  lemma {:induction false} TurnIsInOrderIff(policy: Payload -> Payload, steps: seq<Step>)
    requires NoneManaged(steps)
    ensures IsOutcome(WatchAll(Idle, Turn(policy, steps)), AllAnswer(steps))
  {
    if steps != [] {
      var front, last := steps[..|steps| - 1], steps[|steps| - 1];
      TurnIsInOrderIff(policy, front);
      OutcomeSnoc(policy, Turn(policy, front), AllAnswer(front), last);
      AllAnswerSnoc(steps);
    }
  }

  lemma AllAnswerSnoc(steps: seq<Step>)
    requires steps != []
    ensures AllAnswer(steps) <==> AllAnswer(steps[..|steps| - 1]) && AnswersItsCall(steps[|steps| - 1])
  {
  }

  lemma TerminalNames()
    ensures "completed" != "failed" && "timed_out" != "failed" && "cancelled" != "failed"
  {
    assert "completed"[0] == 'c' && "timed_out"[0] == 't' && "cancelled"[0] == 'c' && "failed"[0] == 'f';
  }

  /** A turn of one denied call that is answered with a success, a timeout or a cancellation: the call is reported
      as failed, and then that result is submitted. */
  lemma {:induction false} DeniedSuccessIsOutOfOrder(policy: Payload -> Payload, step: Step)
    requires IsIntent(step.event) && !step.managed && step.decision.ruling != Allow
    requires step.result.callId == step.event.call.value.callId && step.result.status in {Succeeded, TimedOut, Cancelled}
    ensures Response(policy, step) ==
            [Own(step.event, "queued", "", ""),
             Own(step.event, "failed", StatusName(step.result.status), step.result.errorCode),
             Submit(step.event.runId, step.result)] + FollowUps(policy, step.followUps)
    ensures WatchAll(Idle, Turn(policy, [step])) == None
  {
    TerminalNames();
    TurnIsInOrderIff(policy, [step]);
    assert !AnswersItsCall([step][0]);
  }

  // ----- The repository's executor -----

  /** How the executor comes to a result: the call is validated, the policy asked again, the tool run, and
      whatever came of it reviewed by the policy. */
  datatype Executor = Executor(isValid: ToolCall -> bool, run: ToolCall -> ToolResult, review: ToolResult -> ToolResult)

  function Executed(x: Executor, call: ToolCall, ruling: Ruling, reason: string): ToolResult {
    x.review(
      if !x.isValid(call) then ToolResult(call.callId, call.toolName, Errored, "TOOL_CALL_VALIDATION_ERROR")
      else if ruling != Allow then BlockedResult(call, reason)
      else x.run(call))
  }

  /** The tool's result names its call, and the review neither renames a result nor turns a failure into
      anything else. */
  ghost predicate IsFaithful(x: Executor) {
    && (forall call :: x.run(call).callId == call.callId)
    && (forall result :: x.review(result).callId == result.callId)
    && (forall result: ToolResult :: TerminalState(result.status) == "failed" ==> TerminalState(x.review(result).status) == "failed")
  }

  /** The error a call is refused with: as invalid, or else as denied for a reason. */
  ghost predicate IsRefusal(x: Executor, call: ToolCall, reason: string, error: ToolResult) {
    && error.callId == call.callId && error.toolName == call.toolName
    && (!x.isValid(call) ==> error.status == Errored && error.errorCode == "TOOL_CALL_VALIDATION_ERROR")
    && (x.isValid(call) ==> error.status == Blocked && error.errorCode == reason)
  }

  /** An invalid or a denied call is never run: whatever its tool would have done, the review gets the refusal. */
  lemma RefusedCallsAreNotRun(x: Executor, call: ToolCall, ruling: Ruling, reason: string, error: ToolResult)
    requires !x.isValid(call) || ruling != Allow
    requires IsRefusal(x, call, reason, error)
    ensures Executed(x, call, ruling, reason) == x.review(error)
  {
  }

  /** The default review: a result without an audit id, run in another mode or lacking a payload becomes an
      error under the same call id. */
  function DefaultReview(isAcceptable: ToolResult -> bool, result: ToolResult): ToolResult {
    if isAcceptable(result) then result else ToolResult(result.callId, result.toolName, Errored, "POLICY_POSTCHECK_FAILED")
  }

  lemma DefaultReviewIsFaithful(x: Executor, isAcceptable: ToolResult -> bool)
    requires forall call :: x.run(call).callId == call.callId
    requires forall result :: x.review(result) == DefaultReview(isAcceptable, result)
    ensures IsFaithful(x)
    ensures forall result :: isAcceptable(result) ==> x.review(result) == result
    ensures forall result :: !isAcceptable(result) ==>
      var reviewed := x.review(result);
      reviewed.callId == result.callId && reviewed.toolName == result.toolName
      && reviewed.status == Errored && reviewed.errorCode == "POLICY_POSTCHECK_FAILED"
  {
  }

  /** The executor is asked under the ruling the orchestrator got. */
  ghost predicate UsesExecutor(x: Executor, reason: ToolCall -> string, step: Step) {
    IsIntent(step.event) ==> step.result == Executed(x, step.event.call.value, step.decision.ruling, reason(step.event.call.value))
  }

  ghost predicate AllUseExecutor(x: Executor, reason: ToolCall -> string, steps: seq<Step>) {
    forall i :: 0 <= i < |steps| ==> UsesExecutor(x, reason, steps[i])
  }

  lemma ExecutorAnswers(steps: seq<Step>, x: Executor, reason: ToolCall -> string)
    requires IsFaithful(x) && AllUseExecutor(x, reason, steps)
    ensures AllAnswer(steps)
  {
    forall i | 0 <= i < |steps| ensures AnswersItsCall(steps[i]) {
      assert UsesExecutor(x, reason, steps[i]);
    }
  }

  lemma {:induction false} AllAnswerMeansInOrder(policy: Payload -> Payload, steps: seq<Step>)
    requires NoneManaged(steps) && AllAnswer(steps)
    ensures BetweenCalls(WatchAll(Idle, Turn(policy, steps)))
  {
    TurnIsInOrderIff(policy, steps);
  }

  /** With a faithful executor and a policy that answers alike when asked twice, every turn is in order. */
  lemma {:induction false} ExecutorKeepsOrder(policy: Payload -> Payload, steps: seq<Step>, x: Executor, reason: ToolCall -> string)
    requires NoneManaged(steps) && IsFaithful(x) && AllUseExecutor(x, reason, steps)
    ensures BetweenCalls(WatchAll(Idle, Turn(policy, steps)))
  {
    ExecutorAnswers(steps, x, reason);
    AllAnswerMeansInOrder(policy, steps);
  }

  // ----- Handing off before the turn -----

  /** What the caller may put under "handoff": any value, or a dictionary read as three strings. */
  datatype RawHandoff = NotAnObject | Handoff(requiredCapability: string, targetRole: string, reason: string)

  datatype Context = Context(agentId: string, handoff: Option<RawHandoff>, metadata: Payload)

  function ParseCapability(tag: string): Option<Capability> {
    match tag
    case "tool_use" => Some(ToolUse)
    case "workflow_routing" => Some(WorkflowRouting)
    case "review" => Some(Review)
    case "retrieval" => Some(Retrieval)
    case "mcp" => Some(Mcp)
    case "background_execution" => Some(BackgroundExecution)
    case _ => None
  }

  /** The names capabilities go by. */
  ghost function TagOf(c: Capability): string {
    match c
    case ToolUse => "tool_use"
    case WorkflowRouting => "workflow_routing"
    case Review => "review"
    case Retrieval => "retrieval"
    case Mcp => "mcp"
    case BackgroundExecution => "background_execution"
  }

  /** A name is read as a capability exactly when the capability goes by it. */
  lemma TagsAreRead(tag: string, c: Capability)
    ensures ParseCapability(tag) == Some(c) <==> tag == TagOf(c)
  {
    assert |"tool_use"| == 8 && |"workflow_routing"| == 16 && |"review"| == 6;
    assert |"retrieval"| == 9 && |"mcp"| == 3 && |"background_execution"| == 20;
  }

  /** The context as the chosen agent gets it. */
  function HandedOver(context: Context, target: AgentSpec, reason: string): Context {
    var note := Obj(map["source_agent_id" := Str(Text.Strip(context.agentId)), "target_agent_id" := Str(target.agentId),
                        "target_role" := Str(target.role), "reason" := Str(reason)]);
    context.(agentId := target.agentId, metadata := context.metadata["handoff" := note])
  }

  /** The agent is now the target, and the metadata note from whom to whom and why; nothing else changes. */
  ghost predicate IsHandedOver(context: Context, target: AgentSpec, resolved: Context)
    requires context.handoff.Some? && context.handoff.value.Handoff?
  {
    && resolved.agentId == target.agentId && resolved.handoff == context.handoff
    && "handoff" in resolved.metadata && resolved.metadata["handoff"].Obj?
    && (var note := resolved.metadata["handoff"].fields;
        && note.Keys == {"source_agent_id", "target_agent_id", "target_role", "reason"}
        && note["source_agent_id"] == Str(Text.Strip(context.agentId)) && note["target_agent_id"] == Str(target.agentId)
        && note["target_role"] == Str(target.role) && note["reason"] == Str(context.handoff.value.reason))
    && forall key :: key != "handoff" ==>
         (key in resolved.metadata <==> key in context.metadata)
         && (key in context.metadata ==> resolved.metadata[key] == context.metadata[key])
  }

  lemma HandedOverIs(context: Context, target: AgentSpec)
    requires context.handoff.Some? && context.handoff.value.Handoff?
    ensures IsHandedOver(context, target, HandedOver(context, target, context.handoff.value.reason))
  {
    assert |"source_agent_id"| == 15 && "source_agent_id"[0] == 's' && "target_agent_id"[0] == 't';
    assert |"target_role"| == 11 && |"reason"| == 6 && |"target_agent_id"| == 15;
  }

  /** The agent asking for the handoff is registered and what it requires is a capability or nothing. */
  predicate WellAsked(r: Registry, context: Context) {
    && context.handoff.Some? && context.handoff.value.Handoff?
    && Text.Strip(context.agentId) != "" && Text.Strip(context.agentId) in r.agents
    && (context.handoff.value.requiredCapability != "" ==> ParseCapability(context.handoff.value.requiredCapability).Some?)
  }

  ghost predicate Finds(r: Registry, context: Context, found: Option<AgentSpec>)
    requires WellAsked(r, context)
  {
    var h := context.handoff.value;
    ResolvesTo(r, r.agents[Text.Strip(context.agentId)], Text.Strip(h.targetRole), ParseCapability(h.requiredCapability), found)
  }

  ghost predicate FailsWith(r: Registry, context: Context, error: HandoffError)
    requires context.handoff.Some?
  {
    var source, h := Text.Strip(context.agentId), context.handoff.value;
    match error
    case HandoffInvalid => h.NotAnObject?
    case SourceAgentMissing => h.Handoff? && source == ""
    case SourceAgentUnknown => h.Handoff? && source != "" && source !in r.agents
    case RequiredCapabilityInvalid =>
      && h.Handoff? && source != "" && source in r.agents
      && h.requiredCapability != "" && ParseCapability(h.requiredCapability).None?
    case RouteDenied => WellAsked(r, context) && Text.Strip(h.targetRole) != "" && Finds(r, context, None)
    case TargetNotFound => WellAsked(r, context) && Text.Strip(h.targetRole) == "" && Finds(r, context, None)
  }

  /** What a handoff comes to: nothing asked, nothing changed; else an error that leaves the context as it was,
      or the context handed over to the agent the registry resolves to. */
  ghost predicate HandsOff(r: Registry, context: Context, error: Option<HandoffError>, resolved: Context) {
    if context.handoff.None? then error.None? && resolved == context
    else if error.Some? then resolved == context && FailsWith(r, context, error.value)
    else
      && WellAsked(r, context)
      && exists target :: Finds(r, context, Some(target)) && IsHandedOver(context, target, resolved)
  }

  method ApplyAgentHandoff(registry: AgentRegistry?, context: Context) returns (error: Option<HandoffError>, resolved: Context)
    requires registry != null ==> Valid(registry.State())
    ensures registry == null ==> error.None? && resolved == context
    ensures registry != null ==> HandsOff(registry.State(), context, error, resolved)
  {
    if registry == null || context.handoff.None? {
      return None, context;
    }
    if context.handoff.value.NotAnObject? {
      return Some(HandoffInvalid), context;
    }
    var handoff := context.handoff.value;
    var source := Text.Strip(context.agentId);
    if source == "" {
      return Some(SourceAgentMissing), context;
    }
    if source !in registry.agents {
      return Some(SourceAgentUnknown), context;
    }
    var required := ParseCapability(handoff.requiredCapability);
    if handoff.requiredCapability != "" && required.None? {
      return Some(RequiredCapabilityInvalid), context;
    }
    var role := Text.Strip(handoff.targetRole);
    var found := registry.ResolveHandoffTarget(source, role, required);
    assert Finds(registry.State(), context, found.value);
    if found.value.None? {
      return Some(if role != "" then RouteDenied else TargetNotFound), context;
    }
    HandedOverIs(context, found.value.value);
    return None, HandedOver(context, found.value.value, handoff.reason);
  }

  /** A handoff that goes through ends at a registered agent the source may hand off to, and that has the
      capability asked for. */
  lemma HandoffReachesAnEligibleAgent(r: Registry, context: Context, resolved: Context)
    requires Valid(r) && context.handoff.Some? && HandsOff(r, context, None, resolved)
    ensures resolved.agentId in r.agents
    ensures var source, target := r.agents[Text.Strip(context.agentId)], r.agents[resolved.agentId];
      && (source.role, target.role) in r.routes
      && var c := ParseCapability(context.handoff.value.requiredCapability);
         c.Some? ==> c.value in target.capabilities
  {
    var target :| Finds(r, context, Some(target)) && IsHandedOver(context, target, resolved);
    var source, role := r.agents[Text.Strip(context.agentId)], Text.Strip(context.handoff.value.targetRole);
    var primary := AgentForRole(r, role);
  }

  // ----- The turn -----

  method Drain(event: Event, raw: seq<RawProgress>) returns (rendered: seq<Act>)
    requires IsIntent(event)
    ensures rendered == Rendered(event, raw)
  {
    rendered := [];
    for i := 0 to |raw|
      invariant rendered == Rendered(event, raw[..i])
    {
      assert raw[..i + 1][..i] == raw[..i];
      if raw[i].Entry? {
        rendered := rendered + [Report(ProgressOf(event, raw[i].fields))];
      }
    }
    assert raw[..|raw|] == raw;
  }

  /** A progress entry in the adapter's words: its fields, empty ones for those it lacks, under the intent's run and
      correlation and, unless it names another, the intent's call. */
  ghost predicate IsEntryReport(event: Event, f: map<string, string>, p: Progress) {
    && event.call.Some? && p.runId == event.runId && p.correlationId == event.correlationId
    && p.callId == (if "call_id" in f then f["call_id"] else event.call.value.callId)
    && p.toolName == (if "tool_name" in f then f["tool_name"] else "")
    && p.state == (if "state" in f then f["state"] else "")
    && p.status == (if "tool_status" in f then f["tool_status"] else "")
    && p.errorCode == (if "error_code" in f then f["error_code"] else "")
    && p.lease.jobId == (if "job_id" in f then f["job_id"] else "")
    && p.lease.token == (if "lease_token" in f then f["lease_token"] else "")
    && p.lease.expiresAt == (if "lease_expires_at_epoch" in f then f["lease_expires_at_epoch"] else "")
    && p.lease.claimAttempt == (if "claim_attempt" in f then f["claim_attempt"] else "")
  }

  /** The dictionaries among the drained entries, in order. */
  function Entries(raw: seq<RawProgress>): seq<map<string, string>> {
    if raw == [] then []
    else
      Entries(raw[..|raw| - 1]) + (if raw[|raw| - 1].Entry? then [raw[|raw| - 1].fields] else [])
  }

  /** Every dictionary is reported, in order, and nothing else is. */
  lemma {:induction false} EntriesAreReported(event: Event, raw: seq<RawProgress>)
    requires IsIntent(event)
    ensures var reports, entries := Rendered(event, raw), Entries(raw);
      && |reports| == |entries|
      && forall i :: 0 <= i < |reports| ==> reports[i].Report? && IsEntryReport(event, entries[i], reports[i].progress)
  {
    if raw != [] {
      EntriesAreReported(event, raw[..|raw| - 1]);
    }
  }

  /** Submits a result and yields the adapter's follow-up events. */
  method SubmitResult(before: seq<Act>, policy: Payload -> Payload, runId: string, result: ToolResult, followUps: seq<Event>)
    returns (acts: seq<Act>)
    ensures acts == before + [Submit(runId, result)] + FollowUps(policy, followUps)
  {
    acts := before + [Submit(runId, result)];
    for i := 0 to |followUps|
      invariant acts == before + [Submit(runId, result)] + FollowUps(policy, followUps[..i])
    {
      var next := FollowUp(Filtered(policy, followUps[i]));
      assert FollowUps(policy, followUps[..i + 1]) == FollowUps(policy, followUps[..i]) + [next];
      acts := acts + [next];
    }
    assert followUps[..|followUps|] == followUps;
  }

  /** Reports the execution of a call in deterministic mode. */
  method ReportExecution(before: seq<Act>, step: Step) returns (acts: seq<Act>)
    requires IsIntent(step.event)
    ensures acts == before + Execution(step)
  {
    acts := [];
    if !step.managed {
      acts := [Own(step.event, "running", "", "")];
    }
    var result, emitted := step.result, false;
    if step.managed && step.drained.Some? {
      var rendered := Drain(step.event, step.drained.value);
      emitted := |rendered| > 0;
      acts := acts + rendered;
    }
    if !emitted {
      acts := acts + [Own(step.event, TerminalState(result.status), StatusName(result.status), result.errorCode)];
    }
    acts := before + acts;
  }

  /** Handles one event of the adapter's stream. */
  method HandleEvent(policy: Payload -> Payload, step: Step) returns (acts: seq<Act>)
    ensures acts == Response(policy, step)
  {
    var event := step.event;
    if event.kind != ToolIntent || event.call.None? {
      return [Pass(Filtered(policy, event))];
    }
    acts := [];
    if !step.managed {
      acts := [Own(event, "queued", "", "")];
    }
    if step.decision.ruling != Allow {
      var blocked := step.result;
      if !step.managed {
        acts := acts + [Own(event, "failed", StatusName(blocked.status), blocked.errorCode)];
      }
      acts := SubmitResult(acts, policy, event.runId, blocked, step.followUps);
    } else if step.mode == Deterministic {
      acts := ReportExecution(acts, step);
      acts := SubmitResult(acts, policy, event.runId, step.result, step.followUps);
    } else if NeedsEnvelope(event.call.value) {
      var blocked := BlockedResult(event.call.value, "PROVIDER_NATIVE_STATE_CHANGE_BLOCKED");
      acts := SubmitResult(acts, policy, event.runId, blocked, step.followUps);
    } else {
      acts := acts + [Forward(Filtered(policy, event))];
    }
  }

  method RunSteps(policy: Payload -> Payload, steps: seq<Step>) returns (acts: seq<Act>)
    ensures acts == Turn(policy, steps)
  {
    acts := [];
    for i := 0 to |steps|
      invariant acts == Turn(policy, steps[..i])
    {
      TurnSnoc(policy, steps, i);
      var answer := HandleEvent(policy, steps[i]);
      acts := acts + answer;
    }
    assert steps[..|steps|] == steps;
  }

  /** Runs a turn: refused with the handoff's error and nothing else, or started for the context the handoff
      leaves and then answered event by event. The adapter's stream may depend on that context. */
  method RunTurn(registry: AgentRegistry?, policy: Payload -> Payload, adapter: Context -> seq<Step>, context: Context)
    returns (acts: seq<Act>, resolved: Context, error: Option<HandoffError>)
    requires registry != null ==> Valid(registry.State())
    ensures registry == null ==> error.None? && resolved == context
    ensures registry != null ==> HandsOff(registry.State(), context, error, resolved)
    ensures acts == if error.Some? then [Refuse(error.value)]
                    else [StartSession(resolved.metadata)] + Turn(policy, adapter(resolved))
  {
    error, resolved := ApplyAgentHandoff(registry, context);
    if error.Some? {
      return [Refuse(error.value)], resolved, error;
    }
    var answers := RunSteps(policy, adapter(resolved));
    acts := [StartSession(resolved.metadata)] + answers;
  }
}
