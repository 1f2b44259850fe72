/** Long polling with a cursor (long-poll-client.ts): timers, at most one request in flight, network
    pauses and resumes, and a server that answers with the log after the cursor. */
module LongPoll {
  import opened Wrappers
  import opened ConnectionState

  type Message = string

  /** A position in the server's log; the source's empty cursor is 0. */
  type Cursor = nat

  datatype Response = Response(inbox: seq<Message>, cursor: Cursor, retryMs: Option<int>)

  datatype Adaptive = Adaptive(minIntervalMs: int, maxIntervalMs: int, idleIncrementMs: int, backgroundIntervalMs: int)

  /** The configuration and the interval chosen last. */
  datatype Pace = Pace(adaptive: Adaptive, currentIntervalMs: int)

  /** `timers` are the pending timeouts, `pollTimerId` the last one scheduled, which may have fired;
      `inFlight` the cursors of the requests not answered yet. */
  datatype Client = Client(
    state: State, cursor: Cursor, isPolling: bool, timers: set<nat>, pollTimerId: Option<nat>, nextTimer: nat,
    inFlight: seq<Cursor>, errorCount: nat, delivered: seq<Message>, illegal: bool, pace: Pace)

  function Init(a: Adaptive): Client {
    Client(Idle, 0, false, {}, None, 0, [], 0, [], false, Pace(a, a.minIntervalMs))
  }

  function ComputeNextInterval(p: Pace, isBackground: bool, hasData: bool, retryMs: Option<int>): int {
    if retryMs.Some? then retryMs.value
    else if isBackground then p.adaptive.backgroundIntervalMs
    else if hasData then p.adaptive.minIntervalMs
    else if p.currentIntervalMs + p.adaptive.idleIncrementMs <= p.adaptive.maxIntervalMs
    then p.currentIntervalMs + p.adaptive.idleIncrementMs
    else p.adaptive.maxIntervalMs
  }

  /** The pace after a response. Nothing in the source puts a client in the background. */
  function Paced(p: Pace, hasData: bool, retryMs: Option<int>): Pace {
    p.(currentIntervalMs := ComputeNextInterval(p, false, hasData, retryMs))
  }

  function Transition(c: Client, to: State): Client {
    if Allowed(c.state, to) then c.(state := to) else c.(illegal := true)
  }

  function PollScheduled(c: Client): Client {
    c.(timers := c.timers + {c.nextTimer}, pollTimerId := Some(c.nextTimer), nextTimer := c.nextTimer + 1)
  }

  function TimerCleared(c: Client): Client {
    if c.pollTimerId.Some? then c.(timers := c.timers - {c.pollTimerId.value}, pollTimerId := None) else c
  }

  function PollingStarted(c: Client): Client {
    if c.state.Idle? || c.state.Disconnected? then PollScheduled(Transition(c, Connecting)) else c
  }

  /** `executePollCycle` up to the request. */
  function ExecutePollCycle(c: Client): Client {
    if c.isPolling then c
    else
      var polling := c.(isPolling := true);
      var ensured := if c.state.Disconnected? then Transition(polling, Reconnecting) else polling;
      ensured.(inFlight := ensured.inFlight + [ensured.cursor])
  }

  function TimerFires(c: Client, id: nat): Client {
    if id in c.timers then ExecutePollCycle(c.(timers := c.timers - {id})) else c
  }

  function Answered(c: Client, i: nat): Client
    requires i < |c.inFlight|
  {
    c.(inFlight := c.inFlight[..i] + c.inFlight[i + 1..])
  }

  function MadeConnected(c: Client): Client {
    if c.state.Connecting? || c.state.Reconnecting? then Transition(c, Connected) else c
  }

  function HandlePollSuccess(c: Client, response: Response): Client {
    PollScheduled(MadeConnected(c).(errorCount := 0, cursor := response.cursor, delivered := c.delivered + response.inbox,
                             pace := Paced(c.pace, response.inbox != [], response.retryMs)))
      .(isPolling := false)
  }

  function MadeUnconnected(c: Client): Client {
    if c.state.Connected? then Transition(c, Reconnecting)
    else if c.state.Connecting? then Transition(c, Disconnected) else c
  }

  function HandlePollError(c: Client): Client {
    PollScheduled(MadeUnconnected(c).(errorCount := c.errorCount + 1)).(isPolling := false)
  }

  /** A pause also aborts the request in flight, which then is answered by an error unless its
      response has arrived already. */
  function PollingPaused(c: Client): Client {
    TimerCleared(c)
  }

  function PollingResumed(c: Client): Client {
    if c.state.Idle? || c.state.Disconnected? then c else PollScheduled(c)
  }

  function RepollTriggered(c: Client): Client {
    if c.isPolling then c else PollScheduled(TimerCleared(c))
  }

  // ---- client, server and network ----

  datatype System = System(client: Client, log: seq<Message>)

  datatype Action =
    | Connect
    | Fire(timer: nat)
    | PollSucceeds(request: nat, upTo: Cursor, retryMs: Option<int>)
    | PollFails(request: nat)
    | Pause
    | Resume
    | InterfaceChanges
    | LogGrows(message: Message)

  /** The server answers a request with what follows its cursor in the log, up to some point. Network
      events are subscribed to on connecting, so an idle client sees none. */
  function Step(s: System, a: Action): System {
    var c := s.client;
    match a
    case Connect => s.(client := PollingStarted(c))
    case Fire(timer) => s.(client := TimerFires(c, timer))
    case PollSucceeds(i, upTo, retryMs) =>
      if i < |c.inFlight| && c.inFlight[i] <= upTo <= |s.log|
      then s.(client := HandlePollSuccess(Answered(c, i), Response(s.log[c.inFlight[i]..upTo], upTo, retryMs)))
      else s
    case PollFails(i) => if i < |c.inFlight| then s.(client := HandlePollError(Answered(c, i))) else s
    case Pause => s.(client := PollingPaused(c))
    case Resume => s.(client := PollingResumed(c))
    case InterfaceChanges => if c.state.Idle? then s else s.(client := RepollTriggered(c))
    case LogGrows(message) => s.(log := s.log + [message])
  }

  function Run(s: System, schedule: seq<Action>): System
    decreases |schedule|
  {
    if schedule == [] then s else Run(Step(s, schedule[0]), schedule[1..])
  }

  ghost predicate Inv(s: System) {
    var c := s.client;
    && !c.illegal
    && |c.inFlight| == (if c.isPolling then 1 else 0)
    && (c.isPolling ==> c.inFlight[0] == c.cursor && !c.state.Idle?)
    && (c.state.Idle? ==> c.timers == {})
    && (c.isPolling && c.state.Disconnected? ==> false)
    && (forall id :: id in c.timers ==> id < c.nextTimer)
    && c.cursor <= |s.log| && c.delivered == s.log[..c.cursor]
  }

  lemma AnswerKeepsInv(s: System, i: nat, upTo: Cursor, retryMs: Option<int>)
    requires Inv(s) && i < |s.client.inFlight|
    ensures Inv(Step(s, PollSucceeds(i, upTo, retryMs))) && Inv(Step(s, PollFails(i)))
  {
    var c := s.client;
    assert i == 0 && c.inFlight[..i] + c.inFlight[i + 1..] == [];
    if c.cursor <= upTo <= |s.log| {
      assert s.log[..c.cursor] + s.log[c.cursor..upTo] == s.log[..upTo];
    }
  }

  lemma StepKeepsInv(s: System, a: Action)
    requires Inv(s)
    ensures Inv(Step(s, a))
  {
    match a
    case PollSucceeds(i, upTo, retryMs) =>
      if i < |s.client.inFlight| {
        AnswerKeepsInv(s, i, upTo, retryMs);
      }
    case PollFails(i) =>
      if i < |s.client.inFlight| {
        AnswerKeepsInv(s, i, 0, None);
      }
    case LogGrows(message) =>
      assert (s.log + [message])[..s.client.cursor] == s.log[..s.client.cursor];
    case _ =>
  }

  lemma {:induction false} RunKeepsInv(s: System, schedule: seq<Action>)
    requires Inv(s)
    ensures Inv(Run(s, schedule))
    decreases |schedule|
  {
    if schedule != [] {
      StepKeepsInv(s, schedule[0]);
      RunKeepsInv(Step(s, schedule[0]), schedule[1..]);
    }
  }

  /** In any run without disconnect, whatever pauses, resumes, extra timers and failures happen, at
      most one poll is in flight and it carries the last successful cursor, no transition is
      illegal, and what was delivered is the log up to the cursor, each message once and in order. */
  lemma DeliveredIsLogPrefix(a: Adaptive, log: seq<Message>, schedule: seq<Action>)
    ensures var s := Run(System(Init(a), log), schedule);
            && |s.client.inFlight| <= 1
            && (forall i :: 0 <= i < |s.client.inFlight| ==> s.client.inFlight[i] == s.client.cursor)
            && !s.client.illegal
            && s.client.cursor <= |s.log| && s.client.delivered == s.log[..s.client.cursor]
  {
    RunKeepsInv(System(Init(a), log), schedule);
  }

  /** What the messages that arrive at the server in a run are. */
  function Said(schedule: seq<Action>): seq<Message> {
    if schedule == [] then []
    else (if schedule[0].LogGrows? then [schedule[0].message] else []) + Said(schedule[1..])
  }

  /** The server's log is what arrived there, in order: nothing the client does changes it. */
  lemma {:induction false} LogIsWhatArrived(s: System, schedule: seq<Action>)
    ensures Run(s, schedule).log == s.log + Said(schedule)
    decreases |schedule|
  {
    if schedule != [] {
      LogIsWhatArrived(Step(s, schedule[0]), schedule[1..]);
      if !schedule[0].LogGrows? {
        assert [] + Said(schedule[1..]) == Said(schedule[1..]);
      }
    }
  }

  // ---- what each event does ----

  /** A transition is carried out if the table allows it and recorded as illegal if not; in a run the state
      changes only as the table allows. */
  lemma StateFollowsTheTable(a: Adaptive, log: seq<Message>, schedule: seq<Action>, s: System, e: Action, to: State)
    requires s == Run(System(Init(a), log), schedule)
    ensures Transition(s.client, to)
         == if Allowed(s.client.state, to) then s.client.(state := to) else s.client.(illegal := true)
    ensures Step(s, e).client.state == s.client.state || Allowed(s.client.state, Step(s, e).client.state)
  {
    RunKeepsInv(System(Init(a), log), schedule);
  }

  /** A request is sent exactly when a pending timer fires and none is in flight, and it carries the
      cursor. */
  lemma PollBeginsIff(a: Adaptive, log: seq<Message>, schedule: seq<Action>, s: System, e: Action)
    requires s == Run(System(Init(a), log), schedule)
    ensures var (c, t) := (s.client, Step(s, e).client);
            && ((c.inFlight == [] && t.inFlight != []) <==> e.Fire? && e.timer in c.timers && c.inFlight == [])
            && (c.inFlight == [] && t.inFlight != [] ==> t.inFlight == [c.cursor])
            && (c.inFlight != [] && t.inFlight == []
                <==> c.inFlight != [] && match e
                     case PollSucceeds(i, upTo, _) => i == 0 && c.cursor <= upTo <= |s.log|
                     case PollFails(i) => i == 0
                     case _ => false)
  {
    RunKeepsInv(System(Init(a), log), schedule);
  }

  /** What an event does to the connection state: an answer connects a client that was not, an error
      takes a connected client to reconnecting and a connecting one to disconnected, a poll from
      disconnected is a reconnection, and only a request to connect leaves idle. */
  lemma StateAfter(a: Adaptive, log: seq<Message>, schedule: seq<Action>, s: System, e: Action)
    requires s == Run(System(Init(a), log), schedule)
    ensures var (c, t) := (s.client, Step(s, e).client);
            var answered := match e
              case PollSucceeds(i, upTo, _) => i < |c.inFlight| && c.cursor <= upTo <= |s.log|
              case PollFails(i) => i < |c.inFlight|
              case _ => false;
            && t.state == (match e
                 case PollSucceeds(_, _, _) => if answered && c.state != Idle && c.state != Disconnected then Connected else c.state
                 case PollFails(_) =>
                   if answered && c.state == Connected then Reconnecting
                   else if answered && c.state == Connecting then Disconnected else c.state
                 case Connect => if c.state == Idle || c.state == Disconnected then Connecting else c.state
                 case Fire(timer) => if timer in c.timers && c.state == Disconnected then Reconnecting else c.state
                 case _ => c.state)
            && t.errorCount == (if answered then if e.PollFails? then c.errorCount + 1 else 0 else c.errorCount)
  {
    RunKeepsInv(System(Init(a), log), schedule);
  }

  /** Exactly which events schedule a poll: a request to connect that is heeded, every answer and every
      error, a resumption unless idle or disconnected, and an interface change unless idle or polling. */
  lemma ScheduledIff(a: Adaptive, log: seq<Message>, schedule: seq<Action>, s: System, e: Action)
    requires s == Run(System(Init(a), log), schedule)
    ensures var (c, t) := (s.client, Step(s, e).client);
            (exists timer :: timer in t.timers && timer !in c.timers)
            <==> match e
                 case Connect => c.state == Idle || c.state == Disconnected
                 case PollSucceeds(i, upTo, _) => i < |c.inFlight| && c.cursor <= upTo <= |s.log|
                 case PollFails(i) => i < |c.inFlight|
                 case Resume => c.state != Idle && c.state != Disconnected
                 case InterfaceChanges => c.state != Idle && c.inFlight == []
                 case _ => false
  {
    RunKeepsInv(System(Init(a), log), schedule);
    var t := Step(s, e).client;
    assert s.client.nextTimer !in s.client.timers;
    assert t.nextTimer == s.client.nextTimer || s.client.nextTimer in t.timers;
  }

  /** And which timers go: the one that fires, and the last one scheduled at a pause or an interface
      change heeded. */
  lemma ClearedIff(a: Adaptive, log: seq<Message>, schedule: seq<Action>, s: System, e: Action, timer: nat)
    requires s == Run(System(Init(a), log), schedule) && timer in s.client.timers
    ensures timer !in Step(s, e).client.timers
        <==> e == Fire(timer)
             || (s.client.pollTimerId == Some(timer)
                 && (e == Pause || (e == InterfaceChanges && s.client.state != Idle && s.client.inFlight == [])))
  {
    RunKeepsInv(System(Init(a), log), schedule);
  }

  // ---- liveness: whether anything is scheduled at all ----

  /** No request in flight and no timer pending: nothing happens until someone acts. */
  predicate Stalled(c: Client) {
    c.inFlight == [] && c.timers == {}
  }

  /** Nothing but a pause stops a client that has something scheduled. */
  lemma OnlyPauseStalls(s: System, a: Action)
    requires Inv(s) && !Stalled(s.client) && !a.Pause?
    ensures !Stalled(Step(s, a).client)
  {
    if a.Fire? && a.timer in s.client.timers && !s.client.isPolling {
      assert Step(s, a).client.inFlight[|s.client.inFlight|] == s.client.cursor;
    }
    if a.PollSucceeds? || a.PollFails? || a.Connect? || a.Resume? || a.InterfaceChanges? {
      var n := s.client.nextTimer;
      assert Step(s, a).client == s.client || n in Step(s, a).client.timers;
    }
  }

  /** So a client that has something scheduled always will, in any run without a pause. */
  lemma {:induction false} NeverStallsWithoutPause(s: System, schedule: seq<Action>)
    requires Inv(s) && !Stalled(s.client)
    requires forall i :: 0 <= i < |schedule| ==> !schedule[i].Pause?
    ensures !Stalled(Run(s, schedule).client)
    decreases |schedule|
  {
    if schedule != [] {
      OnlyPauseStalls(s, schedule[0]);
      StepKeepsInv(s, schedule[0]);
      NeverStallsWithoutPause(Step(s, schedule[0]), schedule[1..]);
    }
  }

  /** Exactly when going offline and online again stalls the client: no request is in flight, the
      state says disconnected or idle, and the only timer is the one that the pause clears. */
  lemma PauseAndResumeStallIff(s: System)
    ensures Stalled(Step(Step(s, Pause), Resume).client)
        <==> s.client.inFlight == [] && (s.client.state.Disconnected? || s.client.state.Idle?)
             && s.client.timers <= (if s.client.pollTimerId.Some? then {s.client.pollTimerId.value} else {})
  {
    var paused := Step(s, Pause).client;
    if paused.state.Disconnected? || paused.state.Idle? {
      assert paused.timers == {} <==>
        s.client.timers <= (if s.client.pollTimerId.Some? then {s.client.pollTimerId.value} else {});
    } else {
      assert paused.nextTimer in Step(Step(s, Pause), Resume).client.timers;
    }
  }

  ghost predicate AlwaysStalled(s: System, schedule: seq<Action>)
    decreases |schedule|
  {
    Stalled(s.client) && (schedule == [] || AlwaysStalled(Step(s, schedule[0]), schedule[1..]))
  }

  /** A client stalled while disconnected stays so exactly until it is asked to connect or the network
      interface changes: no timer, no answer and no change of the online state revives it. */
  lemma {:induction false} StalledUntilRevived(s: System, rest: seq<Action>)
    requires Stalled(s.client) && s.client.state.Disconnected? && !s.client.isPolling
    ensures AlwaysStalled(s, rest)
        <==> forall i :: 0 <= i < |rest| ==> !rest[i].Connect? && !rest[i].InterfaceChanges?
    decreases |rest|
  {
    if rest != [] {
      var t := Step(s, rest[0]);
      if rest[0].Connect? || rest[0].InterfaceChanges? {
        assert s.client.nextTimer in t.client.timers;
      } else {
        assert t.client == s.client || rest[0].Pause?;
        StalledUntilRevived(t, rest[1..]);
        assert rest == [rest[0]] + rest[1..];
      }
    }
  }

  const FIRST_POLL_FAILS := [Connect, Fire(0), PollFails(0)]
  const OFFLINE_AND_BACK := [Pause, Resume]

  /** And that does happen: after a first poll that fails, going offline and online again stalls the
      client. */
  lemma {:induction false} StallExample(a: Adaptive, start: System, rest: seq<Action>)
    requires start == System(Init(a), [])
    ensures var s := Run(Run(start, FIRST_POLL_FAILS), OFFLINE_AND_BACK);
            && Stalled(s.client) && s.client.state.Disconnected?
            && (AlwaysStalled(s, rest)
                <==> forall i :: 0 <= i < |rest| ==> !rest[i].Connect? && !rest[i].InterfaceChanges?)
  {
    FirstPollFails(a);
    var s := Run(start, FIRST_POLL_FAILS);
    RunUnfolds(s, OFFLINE_AND_BACK);
    RunUnfolds(Step(s, Pause), OFFLINE_AND_BACK[1..]);
    StalledUntilRevived(Run(s, OFFLINE_AND_BACK), rest);
  }

  lemma FirstPollFails(a: Adaptive)
    ensures Run(System(Init(a), []), FIRST_POLL_FAILS)
         == System(Init(a).(state := Disconnected, timers := {1}, pollTimerId := Some(1), nextTimer := 2, errorCount := 1), [])
  {
    var s0 := System(Init(a), []);
    var s1 := Step(s0, Connect);
    assert s1.client == Init(a).(state := Connecting, timers := {0}, pollTimerId := Some(0), nextTimer := 1);
    var s2 := Step(s1, Fire(0));
    assert s2.client == s1.client.(isPolling := true, timers := {}, inFlight := [0]);
    RunUnfolds(s0, FIRST_POLL_FAILS);
    RunUnfolds(s1, FIRST_POLL_FAILS[1..]);
    RunUnfolds(s2, FIRST_POLL_FAILS[1..][1..]);
  }

  lemma RunUnfolds(s: System, schedule: seq<Action>)
    requires schedule != []
    ensures Run(s, schedule) == Run(Step(s, schedule[0]), schedule[1..])
  {
  }

  // ---- the poll interval ----

  /** What of a response decides the interval. */
  datatype Reply = Reply(hasData: bool, retryMs: Option<int>)

  function PaceAfter(p: Pace, replies: seq<Reply>): Pace
    decreases |replies|
  {
    if replies == [] then p else PaceAfter(Paced(p, replies[0].hasData, replies[0].retryMs), replies[1..])
  }

  function RepliesOf(s: System, a: Action): seq<Reply> {
    if a.PollSucceeds? && a.request < |s.client.inFlight| && s.client.inFlight[a.request] <= a.upTo <= |s.log|
    then [Reply(s.client.inFlight[a.request] < a.upTo, a.retryMs)]
    else []
  }

  /** The replies that come in during a run. */
  function RepliesIn(s: System, schedule: seq<Action>): seq<Reply>
    decreases |schedule|
  {
    if schedule == [] then [] else RepliesOf(s, schedule[0]) + RepliesIn(Step(s, schedule[0]), schedule[1..])
  }

  lemma StepPace(s: System, a: Action)
    ensures Step(s, a).client.pace
         == if RepliesOf(s, a) == [] then s.client.pace
            else Paced(s.client.pace, RepliesOf(s, a)[0].hasData, RepliesOf(s, a)[0].retryMs)
  {
  }

  lemma PaceFirst(p: Pace, first: seq<Reply>, rest: seq<Reply>)
    requires |first| <= 1
    ensures PaceAfter(p, first + rest)
         == PaceAfter(if first == [] then p else Paced(p, first[0].hasData, first[0].retryMs), rest)
  {
    if first == [] {
      assert first + rest == rest;
    } else {
      assert (first + rest)[1..] == rest;
    }
  }

  lemma {:induction false} PaceFollowsReplies(s: System, schedule: seq<Action>)
    ensures Run(s, schedule).client.pace == PaceAfter(s.client.pace, RepliesIn(s, schedule))
    decreases |schedule|
  {
    if schedule != [] {
      var t := Step(s, schedule[0]);
      StepPace(s, schedule[0]);
      PaceFollowsReplies(t, schedule[1..]);
      PaceFirst(s.client.pace, RepliesOf(s, schedule[0]), RepliesIn(t, schedule[1..]));
    }
  }

  /** The interval after each response: what the server dictates; else the shortest when it brought data;
      else one increment more, up to the maximum. */
  lemma IntervalAfterPoll(s: System, i: nat, upTo: Cursor, retryMs: Option<int>)
    requires i < |s.client.inFlight| && s.client.inFlight[i] <= upTo <= |s.log|
    ensures var (p, t) := (s.client.pace, Step(s, PollSucceeds(i, upTo, retryMs)).client.pace);
            && t.adaptive == p.adaptive
            && (retryMs.Some? ==> t.currentIntervalMs == retryMs.value)
            && (retryMs.None? && s.client.inFlight[i] < upTo ==> t.currentIntervalMs == p.adaptive.minIntervalMs)
            && (retryMs.None? && s.client.inFlight[i] == upTo ==>
                  var raised := p.currentIntervalMs + p.adaptive.idleIncrementMs;
                  t.currentIntervalMs
                  == if raised < p.adaptive.maxIntervalMs then raised else p.adaptive.maxIntervalMs)
  {
  }

  /** A client in the background, were it told so, would keep the background interval unless the server
      dictates one. */
  lemma BackgroundInterval(p: Pace, hasData: bool, retryMs: Option<int>)
    ensures ComputeNextInterval(p, true, hasData, retryMs)
         == if retryMs == None then p.adaptive.backgroundIntervalMs else retryMs.value
  {
  }

  predicate Within(p: Pace) {
    p.adaptive.minIntervalMs <= p.currentIntervalMs <= p.adaptive.maxIntervalMs
  }

  ghost predicate AlwaysWithin(p: Pace, replies: seq<Reply>)
    decreases |replies|
  {
    Within(p)
    && (replies == [] || AlwaysWithin(Paced(p, replies[0].hasData, replies[0].retryMs), replies[1..]))
  }

  lemma {:induction false} PaceWithinIff(p: Pace, replies: seq<Reply>)
    requires Within(p) && p.adaptive.idleIncrementMs >= 0
    ensures AlwaysWithin(p, replies)
        <==> forall i :: 0 <= i < |replies| && replies[i].retryMs.Some?
               ==> p.adaptive.minIntervalMs <= replies[i].retryMs.value <= p.adaptive.maxIntervalMs
    decreases |replies|
  {
    if replies != [] {
      var next := Paced(p, replies[0].hasData, replies[0].retryMs);
      assert replies == [replies[0]] + replies[1..];
      if Within(next) {
        PaceWithinIff(next, replies[1..]);
      }
    }
  }

  /** In any run the interval stays within its bounds throughout if and only if every interval that the
      server dictates does: the source does not clamp it. */
  lemma IntervalStaysWithinIff(a: Adaptive, log: seq<Message>, schedule: seq<Action>)
    requires a.minIntervalMs <= a.maxIntervalMs && a.idleIncrementMs >= 0
    ensures var replies := RepliesIn(System(Init(a), log), schedule);
            && Run(System(Init(a), log), schedule).client.pace == PaceAfter(Init(a).pace, replies)
            && (AlwaysWithin(Init(a).pace, replies)
                <==> forall i :: 0 <= i < |replies| && replies[i].retryMs.Some?
                       ==> a.minIntervalMs <= replies[i].retryMs.value <= a.maxIntervalMs)
  {
    PaceFollowsReplies(System(Init(a), log), schedule);
    PaceWithinIff(Init(a).pace, RepliesIn(System(Init(a), log), schedule));
  }

  /** A first response that dictates an interval beyond the maximum. */
  lemma {:induction false} DictatedIntervalExample(a: Adaptive, retryMs: int)
    ensures Run(System(Init(a), []), [Connect, Fire(0), PollSucceeds(0, 0, Some(retryMs))]).client.pace
         == Pace(a, retryMs)
  {
    var s0 := System(Init(a), []);
    var schedule := [Connect, Fire(0), PollSucceeds(0, 0, Some(retryMs))];
    RunUnfolds(s0, schedule);
    RunUnfolds(Step(s0, Connect), schedule[1..]);
    RunUnfolds(Step(Step(s0, Connect), Fire(0)), schedule[1..][1..]);
  }

  /** From any interval, whatever the server had dictated, idle responses raise it by the increment each
      up to the maximum. */
  lemma {:induction false} IdleResponsesBackOff(p: Pace, replies: seq<Reply>)
    requires p.adaptive.idleIncrementMs >= 0 && replies != []
    requires forall i :: 0 <= i < |replies| ==> replies[i] == Reply(false, None)
    ensures var grown := p.currentIntervalMs + |replies| * p.adaptive.idleIncrementMs;
            PaceAfter(p, replies).currentIntervalMs
            == if grown <= p.adaptive.maxIntervalMs then grown else p.adaptive.maxIntervalMs
    decreases |replies|
  {
    var next := Paced(p, false, None);
    var inc := p.adaptive.idleIncrementMs;
    assert |replies| * inc == (|replies| - 1) * inc + inc;
    assert 0 <= (|replies| - 1) * inc;
    if |replies| > 1 {
      IdleResponsesBackOff(next, replies[1..]);
    }
  }

  // ---- the client object ----

  class LongPollClient {
    const machine: ConnectionStateMachine
    var cursor: Cursor
    var isPolling: bool
    var timers: set<nat>
    var pollTimerId: Option<nat>
    var nextTimer: nat
    var inFlight: seq<Cursor>
    var errorCount: nat
    var delivered: seq<Message>
    ghost var illegal: bool
    const adaptive: Adaptive
    var currentIntervalMs: int

    ghost function Rest(): Client
      reads this
    {
      Client(Idle, cursor, isPolling, timers, pollTimerId, nextTimer, inFlight, errorCount, delivered, illegal,
             Pace(adaptive, currentIntervalMs))
    }

    ghost function State(): Client
      reads this, machine
    {
      Rest().(state := machine.currentState)
    }

    constructor (adaptive: Adaptive)
      ensures fresh(machine) && State() == Init(adaptive)
    {
      this.adaptive, currentIntervalMs := adaptive, adaptive.minIntervalMs;
      machine := new ConnectionStateMachine();
      cursor, isPolling, timers, pollTimerId, nextTimer := 0, false, {}, None, 0;
      inFlight, errorCount, delivered, illegal := [], 0, [], false;
    }

    method Transit(to: ConnectionState.State)
      modifies this`illegal, machine
      ensures State() == Transition(old(State()), to)
    {
      var ok := machine.Transition(to);
      illegal := illegal || !ok;
    }

    method SchedulePoll()
      modifies this`timers, this`pollTimerId, this`nextTimer
      ensures State() == PollScheduled(old(State()))
    {
      timers := timers + {nextTimer};
      pollTimerId := Some(nextTimer);
      nextTimer := nextTimer + 1;
    }

    method ClearTimer()
      modifies this`timers, this`pollTimerId
      ensures State() == TimerCleared(old(State()))
    {
      if pollTimerId.Some? {
        timers := timers - {pollTimerId.value};
        pollTimerId := None;
      }
    }

    method StartPolling()
      modifies this, machine
      ensures State() == PollingStarted(old(State()))
    {
      if machine.currentState != Idle && machine.currentState != Disconnected {
        return;
      }
      Transit(Connecting);
      SchedulePoll();
    }

    method OnTimer(id: nat)
      requires id in timers
      modifies this, machine
      ensures State() == TimerFires(old(State()), id)
    {
      timers := timers - {id};
      if isPolling {
        return;
      }
      isPolling := true;
      if machine.currentState == Disconnected {
        Transit(Reconnecting);
      }
      inFlight := inFlight + [cursor];
    }

    method TakeAnswer(request: nat)
      requires request < |inFlight|
      modifies this`inFlight
      ensures State() == Answered(old(State()), request)
    {
      inFlight := inFlight[..request] + inFlight[request + 1..];
    }

    method TransitionToConnected()
      modifies this`illegal, machine
      ensures State() == MadeConnected(old(State()))
    {
      if machine.currentState == Connecting || machine.currentState == Reconnecting {
        Transit(Connected);
      }
    }

    /** What a response brings, apart from the connection. */
    method TakeResponse(response: Response)
      modifies this`errorCount, this`cursor, this`delivered, this`currentIntervalMs
      ensures State() == old(State()).(errorCount := 0, cursor := response.cursor,
                                       delivered := old(State()).delivered + response.inbox,
                                       pace := Paced(old(State()).pace, response.inbox != [], response.retryMs))
    {
      errorCount := 0;
      cursor := response.cursor;
      delivered := delivered + response.inbox;
      currentIntervalMs :=
        ComputeNextInterval(Pace(adaptive, currentIntervalMs), false, |response.inbox| > 0, response.retryMs);
    }

    method OnResponse(request: nat, response: Response)
      requires request < |inFlight|
      modifies this, machine
      ensures State() == HandlePollSuccess(Answered(old(State()), request), response)
    {
      TakeAnswer(request);
      TransitionToConnected();
      TakeResponse(response);
      SchedulePoll();
      isPolling := false;
    }

    method TransitionAfterError()
      modifies this`illegal, machine
      ensures State() == MadeUnconnected(old(State()))
    {
      var state := machine.currentState;
      if state == Connected {
        Transit(Reconnecting);
      }
      if state == Connecting {
        Transit(Disconnected);
      }
    }

    method OnError(request: nat)
      requires request < |inFlight|
      modifies this, machine
      ensures State() == HandlePollError(Answered(old(State()), request))
    {
      TakeAnswer(request);
      ghost var answered := State();
      errorCount := errorCount + 1;
      assert State() == answered.(errorCount := answered.errorCount + 1);
      TransitionAfterError();
      SchedulePoll();
      isPolling := false;
    }

    method PausePolling()
      modifies this
      ensures State() == PollingPaused(old(State()))
    {
      ClearTimer();
    }

    method ResumePolling()
      modifies this
      ensures State() == PollingResumed(old(State()))
    {
      if machine.currentState == Idle || machine.currentState == Disconnected {
        return;
      }
      SchedulePoll();
    }

    method TriggerImmediateRepoll()
      modifies this
      ensures State() == RepollTriggered(old(State()))
    {
      if isPolling {
        return;
      }
      ClearTimer();
      SchedulePoll();
    }
  }
}
