/** The autoscaler with its cooldown, and the pool whose width it raises (src/core/agent_scaler.py,
    src/core/worker_pool.py, src/core/background_runtime.py). */
module Scaling {
  import opened Values

  datatype Config = Config(
    enabled: bool,
    minConcurrency: int,
    maxConcurrency: int,
    scaleUpBacklog: int,
    scaleUpStep: int,
    cooldownEvaluations: int,
    hysteresisDelta: int,
    backpressureBacklog: int,
    activeRatio: real)

  /** The checks of the constructor. */
  predicate ConfigOk(c: Config) {
    && c.minConcurrency >= 1 && c.maxConcurrency >= c.minConcurrency
    && c.scaleUpBacklog >= 0 && c.scaleUpStep >= 1
    && c.cooldownEvaluations >= 0 && c.hysteresisDelta >= 0
    && c.backpressureBacklog >= 1 && c.activeRatio > 0.0
  }

  datatype ScalerState = ScalerState(cooldown: nat, lastTarget: int)

  datatype Load = Load(activeJobs: int, pendingJobs: int, concurrency: int)

  datatype Decision = Decision(target: int, scaleUp: bool, backpressure: bool, reason: string)

  function Max(a: int, b: int): int {
    if a < b then b else a
  }

  function Min(a: int, b: int): int {
    if a < b then a else b
  }

  function Ceil(x: real): int {
    -((-x).Floor)
  }

  /** The backlog needed for a scale-up: higher while the last scale-up still holds. */
  function Threshold(c: Config, s: ScalerState, normalized: int): int {
    if c.hysteresisDelta > 0 && s.lastTarget >= normalized && normalized > c.minConcurrency
    then c.scaleUpBacklog + c.hysteresisDelta
    else c.scaleUpBacklog
  }

  predicate WantsScaleUp(c: Config, s: ScalerState, load: Load) {
    var normalized := Max(load.concurrency, c.minConcurrency);
    load.pendingJobs >= Threshold(c, s, normalized) && normalized < c.maxConcurrency
  }

  predicate ScalesUp(c: Config, s: ScalerState, load: Load) {
    c.enabled && s.cooldown == 0 && WantsScaleUp(c, s, load)
  }

  predicate PushesBack(c: Config, load: Load) {
    && c.enabled && load.pendingJobs >= c.backpressureBacklog
    && load.activeJobs >= Ceil(Max(load.concurrency, c.minConcurrency) as real * c.activeRatio)
  }

  function TargetOf(c: Config, s: ScalerState, load: Load): int {
    var normalized := Max(load.concurrency, c.minConcurrency);
    if ScalesUp(c, s, load) then Min(c.maxConcurrency, normalized + c.scaleUpStep) else normalized
  }

  function StateAfter(c: Config, s: ScalerState, load: Load): ScalerState
    requires ConfigOk(c)
  {
    if !c.enabled then s
    else if ScalesUp(c, s, load) then ScalerState(c.cooldownEvaluations, TargetOf(c, s, load))
    else s.(cooldown := if s.cooldown > 0 then s.cooldown - 1 else 0)
  }

  function ReasonOf(c: Config, s: ScalerState, load: Load): string {
    if !c.enabled then "SCALER_DISABLED"
    else if PushesBack(c, load) then "BACKPRESSURE_THRESHOLD_EXCEEDED"
    else if ScalesUp(c, s, load) then "SCALE_UP_THRESHOLD_REACHED"
    else if s.cooldown > 0 && WantsScaleUp(c, s, load) then "SCALER_COOLDOWN_ACTIVE"
    else "OK"
  }

  // ----- What an evaluation promises -----

  /** The least whole number that is not below. */
  lemma CeilIs(x: real)
    ensures Ceil(x) as real >= x && (Ceil(x) - 1) as real < x
  {
  }

  /** The backlog at which the pool is widened: more than configured while the width of the last scale-up stands. */
  ghost predicate BacklogCalls(c: Config, s: ScalerState, width: int, pending: int) {
    && pending >= c.scaleUpBacklog
    && (c.hysteresisDelta > 0 && s.lastTarget >= width && width > c.minConcurrency ==>
          pending >= c.scaleUpBacklog + c.hysteresisDelta)
  }

  /** The decision on a load. The width counts at least as the minimum. The pool is to grow exactly when the scaler is on,
      no cooldown is running, the backlog calls for it and the maximum is not reached; then by one step or up to the
      maximum. Work is pushed back exactly when the scaler is on, the backlog is at its limit, and the active jobs are at
      the given ratio of the width. */
  ghost predicate IsDecision(c: Config, s: ScalerState, load: Load, d: Decision)
    requires ConfigOk(c)
  {
    var width := if load.concurrency < c.minConcurrency then c.minConcurrency else load.concurrency;
    && (d.scaleUp <==>
          c.enabled && s.cooldown == 0 && BacklogCalls(c, s, width, load.pendingJobs) && width < c.maxConcurrency)
    && (d.scaleUp ==> width < d.target <= c.maxConcurrency && d.target <= width + c.scaleUpStep)
    && (d.scaleUp ==> d.target == c.maxConcurrency || d.target == width + c.scaleUpStep)
    && (!d.scaleUp ==> d.target == width)
    && (d.backpressure <==>
          c.enabled && load.pendingJobs >= c.backpressureBacklog && load.activeJobs as real >= width as real * c.activeRatio)
    && IsReason(c, s, load, width, d)
  }

  /** Being off comes before all, back pressure before a scale-up; a scale-up that only the cooldown prevents is named. */
  ghost predicate IsReason(c: Config, s: ScalerState, load: Load, width: int, d: Decision)
    requires ConfigOk(c)
  {
    && (!c.enabled ==> d.reason == "SCALER_DISABLED")
    && (d.backpressure ==> d.reason == "BACKPRESSURE_THRESHOLD_EXCEEDED")
    && (d.scaleUp && !d.backpressure ==> d.reason == "SCALE_UP_THRESHOLD_REACHED")
    && (c.enabled && !d.scaleUp && !d.backpressure ==>
          d.reason == if s.cooldown > 0 && BacklogCalls(c, s, width, load.pendingJobs) && width < c.maxConcurrency
                      then "SCALER_COOLDOWN_ACTIVE" else "OK")
  }

  /** A scale-up starts the cooldown and is remembered; any other evaluation brings the cooldown one nearer its end; a
      scaler that is off forgets nothing. */
  ghost predicate IsFollowedBy(c: Config, s: ScalerState, d: Decision, s': ScalerState) {
    && (d.scaleUp ==> s'.cooldown == c.cooldownEvaluations && s'.lastTarget == d.target)
    && (!d.scaleUp ==> s'.lastTarget == s.lastTarget)
    && (!d.scaleUp && c.enabled && s.cooldown > 0 ==> s'.cooldown == s.cooldown - 1)
    && (!d.scaleUp && (!c.enabled || s.cooldown == 0) ==> s'.cooldown == s.cooldown)
  }

  lemma DecisionIs(c: Config, s: ScalerState, load: Load)
    requires ConfigOk(c)
    ensures var d := Decision(TargetOf(c, s, load), ScalesUp(c, s, load), PushesBack(c, load), ReasonOf(c, s, load));
      IsDecision(c, s, load, d) && IsFollowedBy(c, s, d, StateAfter(c, s, load))
  {
    CeilIs(Max(load.concurrency, c.minConcurrency) as real * c.activeRatio);
  }

  class AgentScaler {
    const config: Config
    var cooldownRemaining: nat
    var lastScaleUpTarget: int

    constructor (config: Config)
      requires ConfigOk(config)
      ensures this.config == config && State() == ScalerState(0, 0)
    {
      this.config := config;
      cooldownRemaining, lastScaleUpTarget := 0, 0;
    }

    function State(): ScalerState
      reads this
    {
      ScalerState(cooldownRemaining, lastScaleUpTarget)
    }

    method Evaluate(load: Load) returns (d: Decision)
      requires ConfigOk(config)
      modifies this
      ensures State() == StateAfter(config, old(State()), load)
      ensures d == Decision(TargetOf(config, old(State()), load), ScalesUp(config, old(State()), load),
                            PushesBack(config, load), ReasonOf(config, old(State()), load))
      ensures IsDecision(config, old(State()), load, d) && IsFollowedBy(config, old(State()), d, State())
    {
      DecisionIs(config, State(), load);
      var normalized := Max(load.concurrency, config.minConcurrency);
      if !config.enabled {
        return Decision(normalized, false, false, "SCALER_DISABLED");
      }
      var target, scaleUp, reason := normalized, false, "OK";
      var activeThreshold := Ceil(normalized as real * config.activeRatio);
      var threshold := config.scaleUpBacklog;
      if config.hysteresisDelta > 0 && lastScaleUpTarget >= normalized && normalized > config.minConcurrency {
        threshold := threshold + config.hysteresisDelta;
      }
      var cooldownApplied := false;
      if cooldownRemaining > 0 {
        cooldownApplied := true;
        cooldownRemaining := cooldownRemaining - 1;
      }
      if load.pendingJobs >= threshold && normalized < config.maxConcurrency && !cooldownApplied {
        target := Min(config.maxConcurrency, normalized + config.scaleUpStep);
        scaleUp := target > normalized;
        if scaleUp {
          lastScaleUpTarget := target;
          cooldownRemaining := config.cooldownEvaluations;
        }
      } else if cooldownApplied && load.pendingJobs >= threshold && normalized < config.maxConcurrency {
        reason := "SCALER_COOLDOWN_ACTIVE";
      }
      var backpressure := load.pendingJobs >= config.backpressureBacklog && load.activeJobs >= activeThreshold;
      if backpressure {
        reason := "BACKPRESSURE_THRESHOLD_EXCEEDED";
      } else if scaleUp {
        reason := "SCALE_UP_THRESHOLD_REACHED";
      }
      return Decision(target, scaleUp, backpressure, reason);
    }
  }

  // ----- Cooldown over whole runs -----

  function ScaleUps(c: Config, s: ScalerState, loads: seq<Load>): nat
    requires ConfigOk(c)
    decreases |loads|
  {
    if loads == [] then 0
    else (if ScalesUp(c, s, loads[0]) then 1 else 0) + ScaleUps(c, StateAfter(c, s, loads[0]), loads[1..])
  }

  lemma {:induction false} NoScaleUpWhileCooling(c: Config, s: ScalerState, loads: seq<Load>)
    requires ConfigOk(c) && |loads| <= s.cooldown
    ensures ScaleUps(c, s, loads) == 0
    decreases |loads|
  {
    if loads != [] {
      NoScaleUpWhileCooling(c, StateAfter(c, s, loads[0]), loads[1..]);
    }
  }

  /** Each scale-up but the last is followed by a whole cooldown. */
  lemma {:induction false} ScaleUpsSpaced(c: Config, s: ScalerState, loads: seq<Load>)
    requires ConfigOk(c)
    ensures ScaleUps(c, s, loads) * (c.cooldownEvaluations + 1) <= Max(0, |loads| - s.cooldown) + c.cooldownEvaluations
    decreases |loads|
  {
    var k := c.cooldownEvaluations;
    if loads == [] {
      assert ScaleUps(c, s, loads) == 0;
    } else {
      var s', rest := StateAfter(c, s, loads[0]), loads[1..];
      ScaleUpsSpaced(c, s', rest);
      if ScalesUp(c, s, loads[0]) {
        var n := ScaleUps(c, s', rest);
        assert (n + 1) * (k + 1) == n * (k + 1) + (k + 1);
        if |rest| <= k {
          NoScaleUpWhileCooling(c, s', rest);
        }
      }
    }
  }

  /** Any n consecutive evaluations hold at most ceil(n / (cooldown + 1)) scale-ups. */
  lemma {:induction false} CooldownBoundsScaleUps(c: Config, s: ScalerState, loads: seq<Load>)
    requires ConfigOk(c)
    ensures ScaleUps(c, s, loads) <= (|loads| + c.cooldownEvaluations) / (c.cooldownEvaluations + 1)
  {
    ScaleUpsSpaced(c, s, loads);
    QuotientBound(ScaleUps(c, s, loads), c.cooldownEvaluations + 1, |loads| + c.cooldownEvaluations);
  }

  lemma ProductOrder(x: int, y: int, d: nat)
    requires x <= y
    ensures x * d <= y * d
  {
  }

  lemma QuotientBound(a: nat, d: nat, n: nat)
    requires d > 0 && a * d <= n
    ensures a <= n / d
  {
    var q := n / d;
    assert n < q * d + d;
    if a >= q + 1 {
      ProductOrder(q + 1, a, d);
    }
  }

  // ----- The pool -----

  /** Permits are free, held by work in flight, or awaited by queued work. */
  datatype Pool = Pool(width: int, free: nat, inFlight: nat, waiting: nat)

  predicate PoolOk(p: Pool) {
    p.width >= 1 && p.free + p.inFlight == p.width && (p.waiting > 0 ==> p.free == 0)
  }

  /** `run` asks for a permit: it starts at once or queues. */
  function Acquired(p: Pool): Pool {
    if p.free > 0 then p.(free := p.free - 1, inFlight := p.inFlight + 1) else p.(waiting := p.waiting + 1)
  }

  /** A released permit goes to the longest waiter, if any. */
  function Released(p: Pool): Pool {
    if p.waiting > 0 then p.(waiting := p.waiting - 1, inFlight := p.inFlight + 1) else p.(free := p.free + 1)
  }

  /** Queued work is cancelled: it leaves the queue and holds no permit. Work that has been handed a permit
      counts as in flight, and being cancelled ends it. */
  function GivenUp(p: Pool): Pool
    requires p.waiting > 0
  {
    p.(waiting := p.waiting - 1)
  }

  /** The semaphore after n releases that are not the end of any work. */
  function ReleasedTimes(p: Pool, n: nat): Pool {
    if n == 0 then p else Released(ReleasedTimes(p, n - 1))
  }

  lemma {:induction false} ReleasesConserve(p: Pool, n: nat)
    ensures var q := ReleasedTimes(p, n);
      && q.width == p.width && q.free + q.inFlight == p.free + p.inFlight + n
      && ((p.waiting > 0 ==> p.free == 0) ==> (q.waiting > 0 ==> q.free == 0))
      && q.inFlight >= p.inFlight && q.waiting <= p.waiting
    decreases n
  {
    if n > 0 {
      ReleasesConserve(p, n - 1);
    }
  }

  function WidenedTo(p: Pool, target: int): Pool {
    if target <= p.width then p else ReleasedTimes(p, target - p.width).(width := target)
  }

  class WorkerPool {
    var maxConcurrency: int
    var free: nat
    var inFlight: nat
    var waiting: nat

    constructor (maxConcurrency: int)
      requires maxConcurrency >= 1
      ensures State() == Pool(maxConcurrency, maxConcurrency, 0, 0)
    {
      this.maxConcurrency, free, inFlight, waiting := maxConcurrency, maxConcurrency, 0, 0;
    }

    function State(): Pool
      reads this
    {
      Pool(maxConcurrency, free, inFlight, waiting)
    }

    /** Releases one permit per unit of added width, and never narrows. */
    method ScaleUpTo(target: int) returns (r: Result<bool, string>)
      requires PoolOk(State())
      modifies this
      ensures target < 1 ==> r.Failure? && State() == old(State())
      ensures target >= 1 ==> r == Success(target > old(maxConcurrency)) && State() == WidenedTo(old(State()), target)
      ensures PoolOk(State())
    {
      if target < 1 {
        return Failure("target_concurrency must be >= 1");
      }
      if target <= maxConcurrency {
        return Success(false);
      }
      var delta := target - maxConcurrency;
      ghost var p := State();
      for i := 0 to delta
        invariant State() == ReleasedTimes(p, i)
      {
        ReleasesConserve(p, i);
        ReleasePermit();
      }
      ReleasesConserve(p, delta);
      maxConcurrency := target;
      return Success(true);
    }

    method ReleasePermit()
      modifies this
      ensures State() == Released(old(State()))
    {
      if waiting > 0 {
        waiting, inFlight := waiting - 1, inFlight + 1;
      } else {
        free := free + 1;
      }
    }

    /** The two ends of `run`. */
    method Enter()
      requires PoolOk(State())
      modifies this
      ensures State() == Acquired(old(State())) && PoolOk(State())
    {
      if free > 0 {
        free, inFlight := free - 1, inFlight + 1;
      } else {
        waiting := waiting + 1;
      }
    }

    method Leave()
      requires PoolOk(State()) && inFlight > 0
      modifies this
      ensures State() == Released(old(State()).(inFlight := old(inFlight) - 1)) && PoolOk(State())
    {
      inFlight := inFlight - 1;
      ReleasePermit();
    }

    /** `run` is cancelled while it waits for its permit. */
    method GiveUp()
      requires PoolOk(State()) && waiting > 0
      modifies this
      ensures State() == GivenUp(old(State())) && PoolOk(State())
    {
      waiting := waiting - 1;
    }
  }

  // ----- The pool driven through submissions -----

  datatype System = System(scaler: ScalerState, pool: Pool)

  datatype Event =
    | Submission(activeJobs: int, pendingJobs: int)
    | WorkStarts
    | WorkEnds
    | WaiterGivesUp

  predicate Possible(y: System, e: Event) {
    && (e.WorkEnds? ==> y.pool.inFlight > 0)
    && (e.WaiterGivesUp? ==> y.pool.waiting > 0)
  }

  /** A submission consults the scaler and widens the pool before it is accepted or rejected. */
  function Next(c: Config, y: System, e: Event): System
    requires ConfigOk(c) && Possible(y, e)
  {
    match e
    case Submission(active, pending) =>
      var load := Load(active, pending, y.pool.width);
      System(StateAfter(c, y.scaler, load),
             if ScalesUp(c, y.scaler, load) then WidenedTo(y.pool, TargetOf(c, y.scaler, load)) else y.pool)
    case WorkStarts => y.(pool := Acquired(y.pool))
    case WorkEnds => y.(pool := Released(y.pool.(inFlight := y.pool.inFlight - 1)))
    case WaiterGivesUp => y.(pool := GivenUp(y.pool))
  }

  /** A submission asks the scaler about the pool's width, and a scale-up widens the pool to the target. */
  lemma SubmissionScales(c: Config, y: System, active: int, pending: int)
    requires ConfigOk(c) && PoolOk(y.pool)
    ensures exists d ::
      && IsDecision(c, y.scaler, Load(active, pending, y.pool.width), d)
      && IsFollowedBy(c, y.scaler, d, Next(c, y, Submission(active, pending)).scaler)
      && Next(c, y, Submission(active, pending)).pool.width ==
         if d.scaleUp && d.target > y.pool.width then d.target else y.pool.width
  {
    var load := Load(active, pending, y.pool.width);
    DecisionIs(c, y.scaler, load);
    var d := Decision(TargetOf(c, y.scaler, load), ScalesUp(c, y.scaler, load), PushesBack(c, load), ReasonOf(c, y.scaler, load));
    assert IsDecision(c, y.scaler, load, d);
    if d.scaleUp && d.target > y.pool.width {
      ReleasesConserve(y.pool, d.target - y.pool.width);
    }
  }

  ghost predicate IsHistory(c: Config, y: System, events: seq<Event>)
    requires ConfigOk(c)
    decreases |events|
  {
    events == [] || (Possible(y, events[0]) && IsHistory(c, Next(c, y, events[0]), events[1..]))
  }

  ghost function AfterAll(c: Config, y: System, events: seq<Event>): System
    requires ConfigOk(c) && IsHistory(c, y, events)
    decreases |events|
  {
    if events == [] then y else AfterAll(c, Next(c, y, events[0]), events[1..])
  }

  lemma NextKeepsPool(c: Config, y: System, e: Event, bound: int)
    requires ConfigOk(c) && Possible(y, e) && PoolOk(y.pool) && y.pool.width <= bound && c.maxConcurrency <= bound
    ensures var z := Next(c, y, e);
      PoolOk(z.pool) && y.pool.width <= z.pool.width <= bound
  {
    match e
    case Submission(active, pending) =>
      var load := Load(active, pending, y.pool.width);
      var target := TargetOf(c, y.scaler, load);
      if ScalesUp(c, y.scaler, load) && target > y.pool.width {
        ReleasesConserve(y.pool, target - y.pool.width);
      }
    case WorkStarts =>
    case WorkEnds =>
    case WaiterGivesUp =>
  }

  /** Driven through submissions, with work starting, ending and being cancelled in between, the pool never narrows, never
      exceeds the larger of its first width and the configured maximum, and free permits plus work in
      flight always make up its width. */
  lemma {:induction false} PoolConserved(c: Config, y: System, events: seq<Event>)
    requires ConfigOk(c) && IsHistory(c, y, events) && PoolOk(y.pool)
    ensures var z := AfterAll(c, y, events);
      && PoolOk(z.pool)
      && y.pool.width <= z.pool.width <= Max(y.pool.width, c.maxConcurrency)
  {
    PoolConservedWithin(c, y, events, Max(y.pool.width, c.maxConcurrency));
  }

  lemma {:induction false} PoolConservedWithin(c: Config, y: System, events: seq<Event>, bound: int)
    requires ConfigOk(c) && IsHistory(c, y, events) && PoolOk(y.pool)
    requires y.pool.width <= bound && c.maxConcurrency <= bound
    ensures var z := AfterAll(c, y, events);
      PoolOk(z.pool) && y.pool.width <= z.pool.width <= bound
    decreases |events|
  {
    if events != [] {
      NextKeepsPool(c, y, events[0], bound);
      PoolConservedWithin(c, Next(c, y, events[0]), events[1..], bound);
    }
  }

  /** Work that has asked for a permit and has neither ended nor given up. */
  function PresentWork(p: Pool): int {
    p.inFlight + p.waiting
  }

  /** What an event adds to the work present. */
  function WorkAdded(e: Event): int {
    match e
    case Submission(_, _) => 0
    case WorkStarts => 1
    case WorkEnds => -1
    case WaiterGivesUp => -1
  }

  function WorkAddedBy(events: seq<Event>): int {
    if events == [] then 0 else WorkAdded(events[0]) + WorkAddedBy(events[1..])
  }

  lemma {:induction false} ReleasesKeepWork(p: Pool, n: nat)
    ensures PresentWork(ReleasedTimes(p, n)) == PresentWork(p)
    decreases n
  {
    if n > 0 {
      ReleasesKeepWork(p, n - 1);
    }
  }

  /** One event adds or ends one piece of work at most, and work waits only while every permit is taken. */
  lemma NextAccounts(c: Config, y: System, e: Event)
    requires ConfigOk(c) && Possible(y, e) && PoolOk(y.pool)
    ensures PresentWork(Next(c, y, e).pool) == PresentWork(y.pool) + WorkAdded(e)
    ensures e.WaiterGivesUp? ==> Next(c, y, e).pool.inFlight == y.pool.inFlight
    ensures e.WorkEnds? && y.pool.waiting > 0 ==> Next(c, y, e).pool.inFlight == y.pool.inFlight
    ensures e.WorkStarts? && y.pool.free > 0 ==> Next(c, y, e).pool.waiting == y.pool.waiting
  {
    match e
    case Submission(active, pending) =>
      var load := Load(active, pending, y.pool.width);
      var target := TargetOf(c, y.scaler, load);
      if target > y.pool.width {
        ReleasesKeepWork(y.pool, target - y.pool.width);
      }
    case WorkStarts =>
    case WorkEnds =>
    case WaiterGivesUp =>
  }

  /** Over any history no work is lost and none appears: what is in flight or waiting is what was, with what started and
      without what ended or gave up; however often the pool is widened. */
  lemma {:induction false} WorkConserved(c: Config, y: System, events: seq<Event>)
    requires ConfigOk(c) && IsHistory(c, y, events) && PoolOk(y.pool)
    ensures PresentWork(AfterAll(c, y, events).pool) == PresentWork(y.pool) + WorkAddedBy(events)
    decreases |events|
  {
    if events != [] {
      NextAccounts(c, y, events[0]);
      NextKeepsPool(c, y, events[0], Max(y.pool.width, c.maxConcurrency));
      WorkConserved(c, Next(c, y, events[0]), events[1..]);
    }
  }
}
