/** The restart lifecycle of the connection proxy (proxy-lifecycle.ts, proxy-event-subscriptions.ts
    and create-proxy-manager.ts), after a successful start and without stop or dispose. Every
    `await` is a point where any other handler may run. */
module ProxyLifecycle {
  import opened ConnectionState

  /** How far `executeRestart` has come. */
  datatype Restart =
    | NoRestart
    | Stopping                      // waiting for the proxy to stop
    | Starting(attempt: int)        // waiting for the proxy to start
    | BackingOff(attempt: int)      // waiting before the next attempt
    | Settled                       // done, its caller has not resumed yet
  {
    predicate Active() {
      Stopping? || Starting? || BackingOff?
    }
  }

  /** What the restart code works on. `starts` counts the start calls of the current restart;
      `illegal` and `overlap` record a transition that throws and a restart begun while another
      runs. */
  datatype Core = Core(
    status: State, isRestarting: bool, hasPromise: bool, restart: Restart, starts: nat, illegal: bool, overlap: bool)

  /** The health timer, the health checks in progress, and the callers that will re-arm the timer
      once the restart they await is over (`waiting`) or now that it is (`ready`). */
  datatype Health = Health(timerOn: bool, foregroundChecks: nat, periodicChecks: nat, waiting: nat, ready: nat)

  datatype Manager = Manager(core: Core, health: Health, wasBackgrounded: bool)

  datatype Action =
    | NetworkInterfaceChanges
    | GoesOnline
    | GoesOffline
    | GoesBackground
    | GoesForeground
    | ForegroundCheckReturns(healthy: bool)
    | HealthTimerFires
    | PeriodicCheckReturns(healthy: bool)
    | TransportFails
    | StopReturns
    | StartReturns(ok: bool)
    | BackoffElapses
    | RestartReturns
    | TimerIsRearmed

  const STARTED := Manager(Core(Connected, false, false, NoRestart, 0, false, false), Health(true, 0, 0, 0, 0), false)

  function Transition(c: Core, to: State): Core {
    if Allowed(c.status, to) then c.(status := to) else c.(illegal := true)
  }

  // ---- restart ----

  /** `restartProxy` and `executeRestart` up to their first await. */
  function BeginRestart(c: Core): Core {
    if c.isRestarting && c.hasPromise then c
    else if Allowed(c.status, Reconnecting) then
      Core(Reconnecting, true, true, Stopping, 0, c.illegal, c.overlap || !c.restart.NoRestart?)
    else c.(isRestarting := true, hasPromise := true, restart := Settled, illegal := true)
  }

  /** The loop head of `retryProxyStart`. */
  function TryStart(c: Core, attempt: int, max: int): Core {
    if attempt <= max then c.(restart := Starting(attempt), starts := c.starts + 1)
    else Transition(c, Disconnected).(restart := Settled)
  }

  function StartReturned(c: Core, ok: bool, max: int): Core {
    if !c.restart.Starting? then c
    else if ok && Allowed(c.status, Connected) then c.(status := Connected, restart := Settled)
    else
      var failed := if ok then c.(illegal := true) else c;
      if c.restart.attempt < max then failed.(restart := BackingOff(c.restart.attempt))
      else TryStart(failed, c.restart.attempt + 1, max)
  }

  /** What the steps of `executeRestart` and the resumption of its caller do. */
  function RestartStep(c: Core, a: Action, max: int): Core {
    match a
    case StopReturns => if c.restart.Stopping? then TryStart(c, 1, max) else c
    case StartReturns(ok) => StartReturned(c, ok, max)
    case BackoffElapses => if c.restart.BackingOff? then TryStart(c, c.restart.attempt + 1, max) else c
    case RestartReturns =>
      if c.restart.Settled? then c.(isRestarting := false, hasPromise := false, restart := NoRestart) else c
    case _ => c
  }

  /** Whether a handler calls `restartProxy`. */
  predicate Triggers(s: Manager, a: Action) {
    match a
    case NetworkInterfaceChanges => s.core.status.Connected?
    case GoesOnline => s.core.status.Disconnected?
    case ForegroundCheckReturns(healthy) => s.health.foregroundChecks > 0 && !healthy
    case PeriodicCheckReturns(healthy) => s.health.periodicChecks > 0 && !healthy && !s.core.isRestarting
    case TransportFails => !s.core.isRestarting && s.core.status.Connected?
    case _ => false
  }

  function CoreStep(s: Manager, a: Action, max: int): Core {
    if Triggers(s, a) then BeginRestart(s.core)
    else if a.GoesOffline? && s.core.status.Connected? then Transition(s.core, Disconnected)
    else RestartStep(s.core, a, max)
  }

  // ---- health checks ----

  /** A caller that stopped the timer awaits the restart. */
  function AwaitRestart(h: Health, settled: bool): Health {
    if settled then h.(timerOn := false, ready := h.ready + 1) else h.(timerOn := false, waiting := h.waiting + 1)
  }

  function HealthStep(s: Manager, after: Core, a: Action): Health {
    var h := s.health;
    match a
    case GoesForeground =>
      if s.wasBackgrounded && !s.core.isRestarting then h.(foregroundChecks := h.foregroundChecks + 1) else h
    case ForegroundCheckReturns(_) =>
      if h.foregroundChecks > 0 then h.(foregroundChecks := h.foregroundChecks - 1) else h
    case HealthTimerFires =>
      if h.timerOn && !s.core.isRestarting && s.core.status.Connected?
      then h.(periodicChecks := h.periodicChecks + 1) else h
    case PeriodicCheckReturns(_) =>
      if h.periodicChecks == 0 then h
      else
        var checked := h.(periodicChecks := h.periodicChecks - 1);
        if Triggers(s, a) then AwaitRestart(checked, after.restart.Settled?) else checked
    case TransportFails => if Triggers(s, a) then AwaitRestart(h, after.restart.Settled?) else h
    case TimerIsRearmed =>
      if h.ready > 0 then h.(ready := h.ready - 1, timerOn := h.timerOn || s.core.status.Connected?) else h
    case _ =>
      if s.core.restart.Active() && after.restart.Settled? then h.(ready := h.ready + h.waiting, waiting := 0) else h
  }

  /** One handler, or the part of one between two awaits. */
  function Step(s: Manager, a: Action, max: int): Manager {
    var core := CoreStep(s, a, max);
    Manager(core, HealthStep(s, core, a),
            if a.GoesBackground? then true else if a.GoesForeground? then false else s.wasBackgrounded)
  }

  function Run(s: Manager, schedule: seq<Action>, max: int): Manager
    decreases |schedule|
  {
    if schedule == [] then s else Run(Step(s, schedule[0], max), schedule[1..], max)
  }

  ghost predicate Inv(c: Core, max: int) {
    && !c.illegal && !c.overlap
    && c.isRestarting == c.hasPromise == !c.restart.NoRestart?
    && (c.restart.Active() <==> c.status.Reconnecting?)
    && (c.restart.Active() || c.status.Connected? || c.status.Disconnected?)
    && (c.restart.Stopping? ==> c.starts == 0)
    && (c.restart.Starting? ==> 1 <= c.starts == c.restart.attempt <= max)
    && (c.restart.BackingOff? ==> 1 <= c.starts == c.restart.attempt < max)
    && (c.starts == 0 || c.starts <= max)
  }

  lemma {:induction false} RunKeepsInv(s: Manager, schedule: seq<Action>, max: int)
    requires Inv(s.core, max)
    ensures Inv(Run(s, schedule, max).core, max)
    decreases |schedule|
  {
    if schedule != [] {
      RunKeepsInv(Step(s, schedule[0], max), schedule[1..], max);
    }
  }

  /** Under any interleaving of events no transition is ever illegal, no restart begins while another
      runs, none makes more than `max` starts, and while none is active the status is connected or
      disconnected. */
  lemma RestartsAreLegalSingleAndBounded(max: int, schedule: seq<Action>)
    ensures var c := Run(STARTED, schedule, max).core;
            && !c.illegal && !c.overlap
            && (c.starts == 0 || c.starts <= max)
            && (c.restart.Active() ==> c.isRestarting && c.status.Reconnecting?)
            && (!c.restart.Active() ==> c.status.Connected? || c.status.Disconnected?)
  {
    RunKeepsInv(STARTED, schedule, max);
  }

  /** What the records of the model mean: a transition is carried out if the table allows it and recorded
      as illegal if not; a restart asked for while one runs joins that one, and one begun while another
      still holds the proxy is recorded. So that `illegal` and `overlap` stay false says something. */
  lemma RecordsAreTrue(c: Core, to: State, max: int)
    ensures var t := Transition(c, to);
            if Allowed(c.status, to) then t == c.(status := to) else t == c.(illegal := true)
    ensures var t := BeginRestart(c);
            if c.isRestarting && c.hasPromise then t == c
            else if c.status == Connected || c.status == Disconnected
            then t == Core(Reconnecting, true, true, Stopping, 0, c.illegal, c.overlap || c.restart != NoRestart)
            else t == Core(c.status, true, true, Settled, c.starts, true, c.overlap)
    ensures c.restart.Starting? && c.status != Reconnecting && c.status != Connecting
            ==> StartReturned(c, true, max).illegal
  {
  }

  /** Every change of the status, in any run, is one that the table allows. */
  lemma {:induction false} StatusFollowsTheTable(max: int, schedule: seq<Action>, s: Manager, a: Action)
    requires s == Run(STARTED, schedule, max)
    ensures Step(s, a, max).core.status == s.core.status || Allowed(s.core.status, Step(s, a, max).core.status)
  {
    RunKeepsInv(STARTED, schedule, max);
  }

  // ---- when a restart begins and what it does ----

  /** What an event does outside a restart, in every reachable state: a restart begins exactly if the
      interface changes or the transport fails while connected, the device is online again while
      disconnected, or a check that was under way finds the proxy unhealthy; and nothing else changes
      the status but going offline while connected. */
  lemma {:induction false} RestartBeginsIff(max: int, schedule: seq<Action>, s: Manager, a: Action)
    requires s == Run(STARTED, schedule, max) && s.core.restart.NoRestart?
    ensures var t := Step(s, a, max).core;
            var begins := match a
              case NetworkInterfaceChanges => s.core.status == Connected
              case TransportFails => s.core.status == Connected
              case GoesOnline => s.core.status == Disconnected
              case ForegroundCheckReturns(healthy) => s.health.foregroundChecks > 0 && !healthy
              case PeriodicCheckReturns(healthy) => s.health.periodicChecks > 0 && !healthy
              case _ => false;
            if begins then t.status == Reconnecting && t.restart == Stopping && t.isRestarting && t.starts == 0
            else if a.GoesOffline? && s.core.status == Connected then t == s.core.(status := Disconnected)
            else t == s.core
  {
    RunKeepsInv(STARTED, schedule, max);
  }

  /** What a restart in progress does, in every reachable state: it stops the proxy, makes attempts 1 to
      `max` with a pause between two, ends connected at the first start that succeeds and disconnected
      when none is left, and is over when its caller resumes. No event of another kind moves it. */
  lemma {:induction false} RestartMoves(max: int, schedule: seq<Action>, s: Manager, a: Action)
    requires s == Run(STARTED, schedule, max) && !s.core.restart.NoRestart?
    ensures var (c, t) := (s.core, Step(s, a, max).core);
            match (c.restart, a)
            case (Stopping, StopReturns) =>
              if max >= 1 then t.restart == Starting(1) && t.status == Reconnecting
              else t.restart == Settled && t.status == Disconnected
            case (Starting(attempt), StartReturns(ok)) =>
              if ok then t.restart == Settled && t.status == Connected
              else if attempt < max then t.restart == BackingOff(attempt) && t.status == Reconnecting
              else t.restart == Settled && t.status == Disconnected
            case (BackingOff(attempt), BackoffElapses) =>
              t.restart == Starting(attempt + 1) && t.status == Reconnecting
            case (Settled, RestartReturns) => t.restart == NoRestart && !t.isRestarting && t.status == c.status
            case _ => t == c.(status := if a.GoesOffline? && c.status == Connected then Disconnected else c.status)
  {
    RunKeepsInv(STARTED, schedule, max);
  }

  /** Which checks an event begins or ends: one when the app comes back to the foreground outside a
      restart, one when the timer fires while connected outside a restart; an answer ends one. */
  lemma ChecksCountIff(s: Manager, a: Action, max: int)
    ensures var (h, t) := (s.health, Step(s, a, max).health);
            && t.foregroundChecks == h.foregroundChecks
               + (if a.GoesForeground? && s.wasBackgrounded && !s.core.isRestarting then 1 else 0)
               - (if a.ForegroundCheckReturns? && h.foregroundChecks > 0 then 1 else 0)
            && t.periodicChecks == h.periodicChecks
               + (if a.HealthTimerFires? && h.timerOn && !s.core.isRestarting && s.core.status == Connected then 1 else 0)
               - (if a.PeriodicCheckReturns? && h.periodicChecks > 0 then 1 else 0)
    ensures Step(s, a, max).wasBackgrounded <==> a == GoesBackground || (s.wasBackgrounded && a != GoesForeground)
  {
  }

  ghost predicate WaitsOnlyWhileActive(s: Manager) {
    s.health.waiting > 0 ==> s.core.restart.Active()
  }

  lemma StepKeepsWaiting(s: Manager, a: Action, max: int)
    requires Inv(s.core, max) && WaitsOnlyWhileActive(s)
    ensures WaitsOnlyWhileActive(Step(s, a, max))
  {
  }

  lemma {:induction false} RunKeepsWaiting(s: Manager, schedule: seq<Action>, max: int)
    requires Inv(s.core, max) && WaitsOnlyWhileActive(s)
    ensures Inv(Run(s, schedule, max).core, max) && WaitsOnlyWhileActive(Run(s, schedule, max))
    decreases |schedule|
  {
    if schedule != [] {
      StepKeepsWaiting(s, schedule[0], max);
      RunKeepsInv(s, [schedule[0]], max);
      RunKeepsWaiting(Step(s, schedule[0], max), schedule[1..], max);
    }
  }

  /** The timer, in every reachable state: a failure that begins a restart stops it and its caller waits;
      callers are ready to resume when their restart is over, and a caller that
      resumes turns it on if the proxy is connected. Nothing else changes it, and no caller waits for a
      restart that is over. */
  lemma {:induction false} TimerChangesIff(max: int, schedule: seq<Action>, s: Manager, a: Action)
    requires s == Run(STARTED, schedule, max)
    ensures var (h, t) := (s.health, Step(s, a, max).health);
            var fails := s.core.restart.NoRestart?
              && match a
                 case TransportFails => s.core.status == Connected
                 case PeriodicCheckReturns(healthy) => h.periodicChecks > 0 && !healthy
                 case _ => false;
            && t.timerOn == (if fails then false
                             else h.timerOn || (a == TimerIsRearmed && h.ready > 0 && s.core.status == Connected))
            && var over := s.core.restart.Active() && !Step(s, a, max).core.restart.Active();
            && t.waiting == (if over then 0 else h.waiting + if fails then 1 else 0)
            && t.ready == h.ready + (if over then h.waiting else 0) - (if a == TimerIsRearmed && h.ready > 0 then 1 else 0)
            && (t.waiting > 0 ==> Step(s, a, max).core.restart.Active())
  {
    RunKeepsWaiting(STARTED, schedule, max);
    StepKeepsWaiting(s, a, max);
  }

  // ---- every restart ends ----

  /** The steps a restart has left. */
  function Remaining(c: Core, max: int): int {
    match c.restart
    case NoRestart => 0
    case Settled => 1
    case BackingOff(attempt) => 2 * (max - attempt) + 1
    case Starting(attempt) => 2 * (max - attempt) + 2
    case Stopping => if max >= 1 then 2 * max + 1 else 2
  }

  predicate OwnStep(c: Core, a: Action) {
    match c.restart
    case NoRestart => false
    case Stopping => a.StopReturns?
    case Starting(_) => a.StartReturns?
    case BackingOff(_) => a.BackoffElapses?
    case Settled => a.RestartReturns?
  }

  /** Each step of the restart brings its end nearer and no other event touches it. */
  lemma RestartEnds(s: Manager, a: Action, max: int)
    requires Inv(s.core, max) && !s.core.restart.NoRestart?
    ensures OwnStep(s.core, a) ==> 0 <= Remaining(Step(s, a, max).core, max) < Remaining(s.core, max)
    ensures !OwnStep(s.core, a)
        ==> Step(s, a, max).core.restart == s.core.restart && Step(s, a, max).core.starts == s.core.starts
  {
  }

  /** A restart is in progress from the first state of a run to the last. */
  ghost predicate StaysRestarting(s: Manager, schedule: seq<Action>, max: int)
    decreases |schedule|
  {
    !s.core.restart.NoRestart?
    && (schedule == [] || StaysRestarting(Step(s, schedule[0], max), schedule[1..], max))
  }

  /** How many steps of a run are the restart's own. */
  function OwnSteps(s: Manager, schedule: seq<Action>, max: int): nat
    decreases |schedule|
  {
    if schedule == [] then 0
    else (if OwnStep(s.core, schedule[0]) then 1 else 0) + OwnSteps(Step(s, schedule[0], max), schedule[1..], max)
  }

  /** Whatever else happens meanwhile, a restart with at least one attempt is over after at most
      `2 * max + 1` answers from the proxy and the clock. */
  lemma {:induction false} RestartTakesBoundedSteps(s: Manager, schedule: seq<Action>, max: int)
    requires Inv(s.core, max) && StaysRestarting(s, schedule, max)
    ensures OwnSteps(s, schedule, max) <= Remaining(s.core, max) <= if max >= 1 then 2 * max + 1 else 2
    decreases |schedule|
  {
    if schedule != [] {
      RestartEnds(s, schedule[0], max);
      RestartTakesBoundedSteps(Step(s, schedule[0], max), schedule[1..], max);
    }
  }

  /** And it can take that many: every start fails, and only the last answer ends the restart. */
  lemma {:induction false} LongestRestart(s: Manager, max: int) returns (schedule: seq<Action>)
    requires Inv(s.core, max) && s.core.restart.Stopping? && max >= 1
    ensures |schedule| == 2 * max + 1 == OwnSteps(s, schedule, max)
    ensures StaysRestarting(s, schedule[..|schedule| - 1], max) && Run(s, schedule, max).core.restart == NoRestart
  {
    RunKeepsInv(s, [StopReturns], max);
    var rest := AllAttemptsFail(Step(s, StopReturns, max), max);
    FirstOwnStep(s, StopReturns, rest, max);
    schedule := [StopReturns] + rest;
  }

  lemma {:induction false} AllAttemptsFail(s: Manager, max: int) returns (schedule: seq<Action>)
    requires Inv(s.core, max) && s.core.restart.Starting?
    ensures |schedule| == 2 * (max - s.core.restart.attempt) + 2 == OwnSteps(s, schedule, max)
    ensures StaysRestarting(s, schedule[..|schedule| - 1], max) && Run(s, schedule, max).core.restart == NoRestart
    decreases max - s.core.restart.attempt
  {
    var t := Step(s, StartReturns(false), max);
    if t.core.restart.Settled? {
      LastAnswer(t, max);
      FirstOwnStep(s, StartReturns(false), [RestartReturns], max);
      schedule := [StartReturns(false)] + [RestartReturns];
    } else {
      var u := Step(t, BackoffElapses, max);
      RunKeepsInv(s, [StartReturns(false)], max);
      RunKeepsInv(t, [BackoffElapses], max);
      var rest := AllAttemptsFail(u, max);
      FirstOwnStep(t, BackoffElapses, rest, max);
      FirstOwnStep(s, StartReturns(false), [BackoffElapses] + rest, max);
      schedule := [StartReturns(false)] + ([BackoffElapses] + rest);
    }
  }

  lemma LastAnswer(s: Manager, max: int)
    requires s.core.restart.Settled?
    ensures OwnSteps(s, [RestartReturns], max) == 1 && Run(s, [RestartReturns], max).core.restart == NoRestart
  {
    RunUnfolds(s, [RestartReturns], max);
    assert OwnSteps(s, [RestartReturns], max) == 1 + OwnSteps(Step(s, RestartReturns, max), [], max);
  }

  lemma FirstOwnStep(s: Manager, first: Action, rest: seq<Action>, max: int)
    requires OwnStep(s.core, first) && rest != []
    ensures OwnSteps(s, [first] + rest, max) == 1 + OwnSteps(Step(s, first, max), rest, max)
    ensures Run(s, [first] + rest, max) == Run(Step(s, first, max), rest, max)
    ensures StaysRestarting(Step(s, first, max), rest[..|rest| - 1], max)
            ==> StaysRestarting(s, ([first] + rest)[..|rest|], max)
  {
    assert ([first] + rest)[1..] == rest;
    assert ([first] + rest)[..|rest|][1..] == rest[..|rest| - 1];
  }

  /** Whenever a restart ends, in any run, it has connected after a successful start, or made all its
      attempts. */
  lemma {:induction false} RestartOutcome(max: int, schedule: seq<Action>, s: Manager, a: Action)
    requires s == Run(STARTED, schedule, max)
    requires s.core.restart.Active() && Step(s, a, max).core.restart.Settled?
    ensures var c := Step(s, a, max).core;
            if c.status.Connected? then a == StartReturns(true)
            else c.status.Disconnected? && (max <= 0 || c.starts == max)
  {
    RunKeepsInv(STARTED, schedule, max);
  }

  // ---- the health timer ----

  /** The timer is on, or a caller that awaits a restart will look whether to turn it on. */
  predicate Armed(h: Health) {
    h.timerOn || h.waiting > 0 || h.ready > 0
  }

  /** The last caller that could turn the timer on finds the proxy not connected. */
  predicate Forgets(s: Manager, a: Action) {
    a.TimerIsRearmed? && !s.health.timerOn && s.health.ready == 1 && s.health.waiting == 0
    && !s.core.status.Connected?
  }

  /** Exactly which steps forget the timer, and exactly which bring it back. */
  lemma ForgottenIff(s: Manager, a: Action, max: int)
    requires Inv(s.core, max)
    ensures Armed(s.health) ==> (!Armed(Step(s, a, max).health) <==> Forgets(s, a))
    ensures !Armed(s.health)
        ==> (Armed(Step(s, a, max).health) <==> (a.TransportFails? || a.PeriodicCheckReturns?) && Triggers(s, a))
  {
  }

  ghost predicate AlwaysArmed(s: Manager, schedule: seq<Action>, max: int)
    decreases |schedule|
  {
    Armed(s.health) && (schedule == [] || AlwaysArmed(Step(s, schedule[0], max), schedule[1..], max))
  }

  ghost predicate NeverForgets(s: Manager, schedule: seq<Action>, max: int)
    decreases |schedule|
  {
    schedule == [] || (!Forgets(s, schedule[0]) && NeverForgets(Step(s, schedule[0], max), schedule[1..], max))
  }

  lemma {:induction false} ArmedIffNeverForgets(s: Manager, schedule: seq<Action>, max: int)
    requires Inv(s.core, max) && Armed(s.health)
    ensures AlwaysArmed(s, schedule, max) <==> NeverForgets(s, schedule, max)
    decreases |schedule|
  {
    if schedule != [] {
      var t := Step(s, schedule[0], max);
      ForgottenIff(s, schedule[0], max);
      if Armed(t.health) {
        ArmedIffNeverForgets(t, schedule[1..], max);
      }
    }
  }

  /** In any run the timer is on or going to be looked at throughout, if and only if no caller that
      awaited a restart was the last one and found the proxy not connected. */
  lemma TimerIsKeptIff(schedule: seq<Action>, max: int)
    ensures AlwaysArmed(STARTED, schedule, max) <==> NeverForgets(STARTED, schedule, max)
  {
    ArmedIffNeverForgets(STARTED, schedule, max);
  }

  /** Nothing is left that arms the timer. */
  predicate Forgotten(h: Health) {
    !h.timerOn && h.waiting == 0 && h.ready == 0 && h.periodicChecks == 0
  }

  lemma {:induction false} ForgottenTimerStaysOff(s: Manager, schedule: seq<Action>, max: int)
    requires Forgotten(s.health)
    requires forall i :: 0 <= i < |schedule| ==> !schedule[i].TransportFails?
    ensures Forgotten(Run(s, schedule, max).health)
    decreases |schedule|
  {
    if schedule != [] {
      ForgottenTimerStaysOff(Step(s, schedule[0], max), schedule[1..], max);
    }
  }

  const EXHAUSTED := [TransportFails, StopReturns, StartReturns(false)]
  const RESUMED := [RestartReturns, TimerIsRearmed]
  const BACK_ONLINE := [GoesOnline, StopReturns, StartReturns(true), RestartReturns]

  const IDLE_HEALTH := Health(false, 0, 0, 0, 0)

  /** A restart after a failed transport that uses up its attempts, followed by a good one when the
      device is online again, ends connected with the timer off and nothing left to arm it: from
      then on only another transport failure brings periodic checks back. */
  lemma {:induction false} ExhaustedRestartForgetsTimer(
    started: Manager, exhausted: Manager, resumed: Manager, online: Manager, rest: seq<Action>)
    requires started == STARTED && exhausted == Run(started, EXHAUSTED, 1)
    requires resumed == Run(exhausted, RESUMED, 1) && online == Run(resumed, BACK_ONLINE, 1)
    requires forall i :: 0 <= i < |rest| ==> !rest[i].TransportFails?
    ensures online.core.status.Connected? && !online.core.isRestarting && Forgotten(online.health)
    ensures !Run(online, rest, 1).health.timerOn
  {
    AfterExhausted(started);
    AfterResumed(exhausted);
    AfterBackOnline(resumed);
    ForgottenTimerStaysOff(online, rest, 1);
  }

  lemma {:induction false} AfterExhausted(s: Manager)
    requires s == STARTED
    ensures Run(s, EXHAUSTED, 1)
         == Manager(Core(Disconnected, true, true, Settled, 1, false, false), Health(false, 0, 0, 0, 1), false)
  {
    var s1 := Step(s, TransportFails, 1);
    assert s1 == Manager(Core(Reconnecting, true, true, Stopping, 0, false, false), Health(false, 0, 0, 1, 0), false);
    var s2 := Step(s1, StopReturns, 1);
    assert s2 == Manager(Core(Reconnecting, true, true, Starting(1), 1, false, false), Health(false, 0, 0, 1, 0), false);
    RunUnfolds(s, EXHAUSTED, 1);
    RunUnfolds(s1, EXHAUSTED[1..], 1);
    RunUnfolds(s2, EXHAUSTED[1..][1..], 1);
  }

  lemma RunUnfolds(s: Manager, schedule: seq<Action>, max: int)
    requires schedule != []
    ensures Run(s, schedule, max) == Run(Step(s, schedule[0], max), schedule[1..], max)
  {
  }

  lemma AfterResumed(s: Manager)
    requires s == Manager(Core(Disconnected, true, true, Settled, 1, false, false), Health(false, 0, 0, 0, 1), false)
    ensures Run(s, RESUMED, 1) == Manager(Core(Disconnected, false, false, NoRestart, 1, false, false), IDLE_HEALTH, false)
  {
  }

  lemma AfterBackOnline(s: Manager)
    requires s == Manager(Core(Disconnected, false, false, NoRestart, 1, false, false), IDLE_HEALTH, false)
    ensures Run(s, BACK_ONLINE, 1)
         == Manager(Core(Connected, false, false, NoRestart, 1, false, false), IDLE_HEALTH, false)
  {
    var s1 := Step(s, GoesOnline, 1);
    var s2 := Step(s1, StopReturns, 1);
    var s3 := Step(s2, StartReturns(true), 1);
    assert s3 == Manager(Core(Connected, true, true, Settled, 1, false, false), IDLE_HEALTH, false);
  }

  // ---- the manager object ----

  /** The manager's fields. A method is the part of a handler between two awaits; calls that the
      source leaves in progress are the numbers in `State()`. */
  class ProxyManager {
    const machine: ConnectionStateMachine
    const maxRestartAttempts: int
    var isRestarting: bool
    var hasPromise: bool
    var wasBackgrounded: bool
    var timerOn: bool
    var restart: Restart
    var foregroundChecks: nat
    var periodicChecks: nat
    var waiting: nat
    var ready: nat
    ghost var starts: nat
    ghost var illegal: bool
    ghost var overlap: bool

    ghost function CoreState(): Core
      reads this, machine
    {
      Core(machine.currentState, isRestarting, hasPromise, restart, starts, illegal, overlap)
    }

    ghost function HealthState(): Health
      reads this
    {
      Health(timerOn, foregroundChecks, periodicChecks, waiting, ready)
    }

    ghost function State(): Manager
      reads this, machine
    {
      Manager(CoreState(), HealthState(), wasBackgrounded)
    }

    constructor (maxRestartAttempts: int)
      ensures this.maxRestartAttempts == maxRestartAttempts && fresh(machine)
      ensures State() == Manager(STARTED.core.(status := Idle), IDLE_HEALTH, false)
    {
      machine := new ConnectionStateMachine();
      this.maxRestartAttempts := maxRestartAttempts;
      isRestarting, hasPromise, restart, wasBackgrounded := false, false, NoRestart, false;
      timerOn, foregroundChecks, periodicChecks, waiting, ready := false, 0, 0, 0, 0;
      starts, illegal, overlap := 0, false, false;
    }

    /** `started` tells whether the proxy starts; a failure to start is passed on to the caller. */
    method StartManager(started: bool)
      requires State() == Manager(STARTED.core.(status := Idle), IDLE_HEALTH, false)
      modifies this, machine
      ensures started ==> State() == STARTED
      ensures !started ==> State() == old(State()).(core := old(CoreState()).(status := Disconnected))
    {
      var ok := machine.Transition(Connecting);
      if !started {
        ok := machine.Transition(Disconnected);
        return;
      }
      ok := machine.Transition(Connected);
      timerOn := true;
    }

    method Transit(to: State)
      modifies this`illegal, machine
      ensures CoreState() == Transition(old(CoreState()), to)
    {
      var ok := machine.Transition(to);
      illegal := illegal || !ok;
    }

    method RestartProxy()
      modifies this, machine
      ensures CoreState() == BeginRestart(old(CoreState()))
      ensures HealthState() == old(HealthState()) && wasBackgrounded == old(wasBackgrounded)
    {
      if isRestarting && hasPromise {
        return;
      }
      isRestarting, hasPromise := true, true;
      var ok := machine.Transition(Reconnecting);
      if ok {
        overlap := overlap || !restart.NoRestart?;
        restart, starts := Stopping, 0;
      } else {
        illegal := true;
        restart := Settled;
      }
    }

    method OnNetworkInterfaceChange()
      modifies this, machine
      ensures State() == Step(old(State()), NetworkInterfaceChanges, maxRestartAttempts)
      ensures old(machine.currentState) == Connected && !old(isRestarting)
          ==> machine.currentState == Reconnecting && restart == Stopping && isRestarting
      ensures old(machine.currentState) != Connected
          ==> machine.currentState == old(machine.currentState) && restart == old(restart)
    {
      if machine.currentState != Connected {
        return;
      }
      RestartProxy();
    }

    method OnOnlineStateChange(isOnline: bool)
      modifies this, machine
      ensures State() == Step(old(State()), if isOnline then GoesOnline else GoesOffline, maxRestartAttempts)
      ensures !isOnline ==>
                && restart == old(restart)
                && machine.currentState == if old(machine.currentState) == Connected then Disconnected else old(machine.currentState)
      ensures isOnline && old(machine.currentState) == Disconnected && !old(isRestarting)
          ==> machine.currentState == Reconnecting && restart == Stopping && isRestarting
      ensures isOnline && old(machine.currentState) != Disconnected
          ==> machine.currentState == old(machine.currentState) && restart == old(restart)
    {
      if !isOnline {
        if machine.currentState == Connected {
          Transit(Disconnected);
        }
      } else if machine.currentState == Disconnected {
        RestartProxy();
      }
    }

    method OnAppStateChange(active: bool)
      modifies this
      ensures State() == Step(old(State()), if active then GoesForeground else GoesBackground, maxRestartAttempts)
      ensures wasBackgrounded == !active
      ensures foregroundChecks == old(foregroundChecks) + if active && old(wasBackgrounded) && !isRestarting then 1 else 0
    {
      if !active {
        wasBackgrounded := true;
      } else if wasBackgrounded {
        wasBackgrounded := false;
        if !isRestarting {
          foregroundChecks := foregroundChecks + 1;
        }
      }
    }

    method OnForegroundCheck(isHealthy: bool)
      requires foregroundChecks > 0
      modifies this, machine
      ensures State() == Step(old(State()), ForegroundCheckReturns(isHealthy), maxRestartAttempts)
      ensures foregroundChecks == old(foregroundChecks) - 1
      ensures isHealthy ==> machine.currentState == old(machine.currentState) && restart == old(restart)
      ensures !isHealthy && !old(isRestarting) && old(machine.currentState) in {Connected, Disconnected}
          ==> machine.currentState == Reconnecting && restart == Stopping && isRestarting
    {
      foregroundChecks := foregroundChecks - 1;
      if !isHealthy {
        RestartProxy();
      }
    }

    method OnHealthTimer()
      requires timerOn
      modifies this
      ensures State() == Step(old(State()), HealthTimerFires, maxRestartAttempts)
      ensures periodicChecks == old(periodicChecks) + if !isRestarting && machine.currentState == Connected then 1 else 0
    {
      if isRestarting || machine.currentState != Connected {
        return;
      }
      periodicChecks := periodicChecks + 1;
    }

    /** Stops the timer, restarts, and leaves re-arming to when the restart is over. */
    method RestartAndRearm()
      modifies this, machine
      ensures CoreState() == BeginRestart(old(CoreState()))
      ensures HealthState() == AwaitRestart(old(HealthState()), restart.Settled?)
      ensures wasBackgrounded == old(wasBackgrounded)
    {
      timerOn := false;
      RestartProxy();
      if restart.Settled? {
        ready := ready + 1;
      } else {
        waiting := waiting + 1;
      }
    }

    method OnPeriodicCheck(isHealthy: bool)
      requires periodicChecks > 0
      modifies this, machine
      ensures State() == Step(old(State()), PeriodicCheckReturns(isHealthy), maxRestartAttempts)
      ensures periodicChecks == old(periodicChecks) - 1
      ensures isHealthy || old(isRestarting) ==>
                && timerOn == old(timerOn)
                && machine.currentState == old(machine.currentState) && restart == old(restart)
      ensures !isHealthy && !old(isRestarting) && old(machine.currentState) in {Connected, Disconnected}
          ==> machine.currentState == Reconnecting && restart == Stopping && isRestarting && !timerOn
    {
      periodicChecks := periodicChecks - 1;
      if !isHealthy && !isRestarting {
        RestartAndRearm();
      }
    }

    method OnTransportFailure()
      modifies this, machine
      ensures State() == Step(old(State()), TransportFails, maxRestartAttempts)
      ensures old(isRestarting) || old(machine.currentState) != Connected ==>
                && timerOn == old(timerOn)
                && machine.currentState == old(machine.currentState) && restart == old(restart)
      ensures !old(isRestarting) && old(machine.currentState) == Connected
          ==> machine.currentState == Reconnecting && restart == Stopping && isRestarting && !timerOn
    {
      if !isRestarting && machine.currentState == Connected {
        RestartAndRearm();
      }
    }

    method OnRestartOver()
      requires ready > 0
      modifies this
      ensures State() == Step(old(State()), TimerIsRearmed, maxRestartAttempts)
    {
      ready := ready - 1;
      if machine.currentState == Connected {
        timerOn := true;
      }
    }

    method Settle()
      modifies this
      ensures CoreState() == old(CoreState()).(restart := Settled)
      ensures HealthState() == old(HealthState()).(ready := old(ready) + old(waiting), waiting := 0)
      ensures wasBackgrounded == old(wasBackgrounded)
    {
      restart := Settled;
      ready, waiting := ready + waiting, 0;
    }

    /** The loop of `retryProxyStart` from one attempt to the next await. */
    method RetryProxyStart(attempt: int)
      requires restart.Active()
      modifies this, machine
      ensures CoreState() == TryStart(old(CoreState()), attempt, maxRestartAttempts)
      ensures HealthState() == if restart.Settled? then old(HealthState()).(ready := old(ready) + old(waiting), waiting := 0)
                               else old(HealthState())
      ensures wasBackgrounded == old(wasBackgrounded)
    {
      if attempt <= maxRestartAttempts {
        restart, starts := Starting(attempt), starts + 1;
      } else {
        Transit(Disconnected);
        Settle();
      }
    }

    method OnProxyStopped()
      requires restart.Stopping?
      modifies this, machine
      ensures State() == Step(old(State()), StopReturns, maxRestartAttempts)
    {
      RetryProxyStart(1);
    }

    method OnProxyStart(started: bool)
      requires restart.Starting?
      modifies this, machine
      ensures State() == Step(old(State()), StartReturns(started), maxRestartAttempts)
    {
      var attempt := restart.attempt;
      if started {
        var ok := machine.Transition(Connected);
        if ok {
          Settle();
          return;
        }
        illegal := true;
      }
      if attempt < maxRestartAttempts {
        restart := BackingOff(attempt);
      } else {
        RetryProxyStart(attempt + 1);
      }
    }

    method OnBackoffElapsed()
      requires restart.BackingOff?
      modifies this, machine
      ensures State() == Step(old(State()), BackoffElapses, maxRestartAttempts)
    {
      RetryProxyStart(restart.attempt + 1);
    }

    method OnRestartReturned()
      requires restart.Settled?
      modifies this
      ensures State() == Step(old(State()), RestartReturns, maxRestartAttempts)
    {
      isRestarting, hasPromise, restart := false, false, NoRestart;
    }
  }
}
