/** The offline request queue and its replay (request-queue.ts). The stored list is loaded, changed
    and saved again with an `await` between, so a step of the model is what happens between two
    awaits. */
module RequestQueue {
  type Id = nat

  /** A queued request; `id` is the random identifier given on enqueuing. */
  datatype Request = Request(id: Id, enqueuedAt: int, timeToLiveMs: int)

  datatype Outcome = Sent | NetworkFailure | Rejected

  datatype ReplayResult = ReplayResult(total: nat, succeeded: nat, failed: nat, expired: nat)

  predicate Expired(r: Request, now: int) {
    now - r.enqueuedAt > r.timeToLiveMs
  }

  /** The list that enqueuing saves: the oldest item goes when the list is full. */
  function Pushed(items: seq<Request>, item: Request, maxSize: nat): seq<Request> {
    (if |items| >= maxSize && items != [] then items[1..] else items) + [item]
  }

  /** The items whose id is not in `gone`, in order. */
  function Remaining(items: seq<Request>, gone: set<Id>): seq<Request> {
    if items == [] then []
    else
      Remaining(items[..|items| - 1], gone)
      + if items[|items| - 1].id in gone then [] else [items[|items| - 1]]
  }

  function IdSet(items: seq<Request>): set<Id> {
    set item | item in items :: item.id
  }

  ghost predicate DistinctIds(items: seq<Request>) {
    forall i, j :: 0 <= i < j < |items| ==> items[i].id != items[j].id
  }

  lemma {:induction false} RemainingMembers(items: seq<Request>, gone: set<Id>)
    ensures forall item :: item in Remaining(items, gone) <==> item in items && item.id !in gone
    ensures |Remaining(items, gone)| <= |items|
  {
    if items != [] {
      RemainingMembers(items[..|items| - 1], gone);
      assert items == items[..|items| - 1] + [items[|items| - 1]];
    }
  }

  lemma {:induction false} RemainingDistinct(items: seq<Request>, gone: set<Id>)
    requires DistinctIds(items)
    ensures DistinctIds(Remaining(items, gone))
  {
    if items != [] {
      var front := items[..|items| - 1];
      RemainingDistinct(front, gone);
      RemainingMembers(front, gone);
      assert forall item :: item in front ==> item.id != items[|items| - 1].id;
    }
  }

  lemma RemainingFacts(items: seq<Request>, gone: set<Id>)
    ensures forall item :: item in Remaining(items, gone) <==> item in items && item.id !in gone
    ensures |Remaining(items, gone)| <= |items|
    ensures DistinctIds(items) ==> DistinctIds(Remaining(items, gone))
  {
    RemainingMembers(items, gone);
    if DistinctIds(items) {
      RemainingDistinct(items, gone);
    }
  }

  lemma RemainingAppend(items: seq<Request>, item: Request, gone: set<Id>)
    ensures Remaining(items + [item], gone) == Remaining(items, gone) + if item.id in gone then [] else [item]
  {
    assert (items + [item])[..|items|] == items;
  }

  lemma {:induction false} RemainingTwice(items: seq<Request>, first: set<Id>, second: set<Id>)
    ensures Remaining(Remaining(items, first), second) == Remaining(items, first + second)
  {
    if items != [] {
      var (front, last) := (items[..|items| - 1], items[|items| - 1]);
      RemainingTwice(front, first, second);
      RemainingAppend(Remaining(front, first), last, second);
      if last.id in first {
        assert Remaining(items, first) == Remaining(front, first);
      }
    }
  }

  /** Without its first item, a list of distinct ids is what remains without that id. */
  lemma {:induction false} RemainingWithoutFirst(items: seq<Request>)
    requires items != [] && DistinctIds(items)
    ensures Remaining(items, {items[0].id}) == items[1..]
  {
    if |items| == 1 {
      assert items[..0] == [];
    } else {
      var (front, last) := (items[..|items| - 1], items[|items| - 1]);
      RemainingWithoutFirst(front);
      assert items[1..] == front[1..] + [last];
    }
  }

  // ---- the system ----

  datatype Enqueue =
    | Loading(item: Request)
    | HoldingEnqueue(item: Request, snapshot: seq<Request>)
    | Stored

  datatype Phase = Deciding | Sending | Removing | HoldingRemove(snapshot: seq<Request>)

  /** `items` is the list loaded when the replay began, `next` the item being processed, and `before`
      the ids that had been removed by then. */
  datatype Replay = NoReplay | Replaying(items: seq<Request>, next: nat, phase: Phase, result: ReplayResult, before: set<Id>)

  /** `arrived` lists every item saved so far, in order; `displaced` the ids dropped because the
      queue was full, `removed` those taken out by a replay; `sent` and `expired` are the ids whose
      replay succeeded and that were found expired. */
  datatype System = System(
    stored: seq<Request>, enqueues: seq<Enqueue>, replay: Replay, nextId: Id, arrived: seq<Request>,
    displaced: set<Id>, removed: set<Id>, sent: set<Id>, expired: set<Id>)

  datatype Action =
    | EnqueueCalled(enqueuedAt: int, timeToLiveMs: int)
    | EnqueueLoads(i: nat)
    | EnqueueSaves(i: nat)
    | ReplayCalled
    | ReplayDecides(now: int)
    | SendReturns(outcome: Outcome)
    | RemoveLoads
    | RemoveSaves

  const EMPTY := System([], [], NoReplay, 0, [], {}, {}, {}, {})

  function StepEnqueue(s: System, a: Action, maxSize: nat): System {
    match a
    case EnqueueCalled(enqueuedAt, ttl) =>
      s.(enqueues := s.enqueues + [Loading(Request(s.nextId, enqueuedAt, ttl))], nextId := s.nextId + 1)
    case EnqueueLoads(i) =>
      if i < |s.enqueues| && s.enqueues[i].Loading?
      then s.(enqueues := s.enqueues[i := HoldingEnqueue(s.enqueues[i].item, s.stored)])
      else s
    case EnqueueSaves(i) =>
      if i < |s.enqueues| && s.enqueues[i].HoldingEnqueue? then
        var (item, snapshot) := (s.enqueues[i].item, s.enqueues[i].snapshot);
        s.(enqueues := s.enqueues[i := Stored], stored := Pushed(snapshot, item, maxSize),
           arrived := s.arrived + [item],
           displaced := if |snapshot| >= maxSize && snapshot != [] then s.displaced + {snapshot[0].id} else s.displaced)
      else s
    case _ => s
  }

  function StepReplay(s: System, a: Action): System {
    match s.replay
    case NoReplay =>
      if a.ReplayCalled?
      then s.(replay := Replaying(s.stored, 0, Deciding, ReplayResult(|s.stored|, 0, 0, 0), s.removed))
      else s
    case Replaying(items, next, phase, result, before) =>
      match a
      case ReplayDecides(now) =>
        if !phase.Deciding? then s
        else if next >= |items| then s.(replay := NoReplay)
        else if Expired(items[next], now) then
          s.(replay := Replaying(items, next, Removing, result.(expired := result.expired + 1), before),
             expired := s.expired + {items[next].id})
        else s.(replay := Replaying(items, next, Sending, result, before))
      case SendReturns(outcome) =>
        if !phase.Sending? || next >= |items| then s
        else
          (match outcome
           case Sent =>
             s.(replay := Replaying(items, next, Removing, result.(succeeded := result.succeeded + 1), before),
                sent := s.sent + {items[next].id})
           case NetworkFailure => s.(replay := NoReplay)
           case Rejected =>
             s.(replay := Replaying(items, next + 1, Deciding, result.(failed := result.failed + 1), before)))
      case RemoveLoads =>
        if phase.Removing? then s.(replay := Replaying(items, next, HoldingRemove(s.stored), result, before)) else s
      case RemoveSaves =>
        if phase.HoldingRemove? && next < |items| then
          s.(replay := Replaying(items, next + 1, Deciding, result, before),
             stored := Remaining(phase.snapshot, {items[next].id}), removed := s.removed + {items[next].id})
        else s
      case _ => s
  }

  function Step(s: System, a: Action, maxSize: nat): System {
    if a.EnqueueCalled? || a.EnqueueLoads? || a.EnqueueSaves? then StepEnqueue(s, a, maxSize) else StepReplay(s, a)
  }

  function Run(s: System, schedule: seq<Action>, maxSize: nat): System
    decreases |schedule|
  {
    if schedule == [] then s else Run(Step(s, schedule[0], maxSize), schedule[1..], maxSize)
  }

  // ---- storage updates one at a time ----

  predicate EnqueueHolds(s: System) {
    exists i :: 0 <= i < |s.enqueues| && s.enqueues[i].HoldingEnqueue?
  }

  predicate RemoveHolds(s: System) {
    s.replay.Replaying? && s.replay.phase.HoldingRemove?
  }

  /** A load while another update is between its load and its save. */
  predicate Overlaps(s: System, a: Action) {
    (a.EnqueueLoads? || a.RemoveLoads?) && (EnqueueHolds(s) || RemoveHolds(s))
  }

  ghost predicate OneAtATime(s: System, schedule: seq<Action>, maxSize: nat)
    decreases |schedule|
  {
    schedule == []
    || (!Overlaps(s, schedule[0]) && OneAtATime(Step(s, schedule[0], maxSize), schedule[1..], maxSize))
  }

  // ---- invariant ----

  ghost predicate HoldersCurrent(s: System) {
    && (forall i :: 0 <= i < |s.enqueues| && s.enqueues[i].HoldingEnqueue? ==> s.enqueues[i].snapshot == s.stored)
    && (RemoveHolds(s) ==> s.replay.phase.snapshot == s.stored && !EnqueueHolds(s))
    && (forall i, j :: 0 <= i < j < |s.enqueues| && s.enqueues[i].HoldingEnqueue? ==> !s.enqueues[j].HoldingEnqueue?)
  }

  ghost predicate IdsFresh(s: System) {
    && (forall item :: item in s.arrived ==> item.id < s.nextId)
    && (forall i :: 0 <= i < |s.enqueues| && !s.enqueues[i].Stored? ==>
          s.enqueues[i].item.id < s.nextId && forall item :: item in s.arrived ==> item.id != s.enqueues[i].item.id)
    && (forall i, j :: 0 <= i < j < |s.enqueues| && !s.enqueues[i].Stored? && !s.enqueues[j].Stored?
          ==> s.enqueues[i].item.id != s.enqueues[j].item.id)
    && DistinctIds(s.arrived)
    && (forall id :: id in s.displaced + s.removed ==> id in IdSet(s.arrived))
  }

  ghost predicate ReplayOk(s: System) {
    s.replay.Replaying? ==>
      var r := s.replay;
      && r.next <= |r.items| && (!r.phase.Deciding? ==> r.next < |r.items|)
      && (forall item :: item in r.items ==> item in s.arrived && item.id !in r.before) && DistinctIds(r.items)
      && r.before <= s.removed <= r.before + IdSet(r.items[..r.next])
      && r.result.total == |r.items|
      && r.result.succeeded + r.result.failed + r.result.expired
         == r.next + (if r.phase.Removing? || r.phase.HoldingRemove? then 1 else 0)
      && (r.phase.Removing? || r.phase.HoldingRemove? ==> r.items[r.next].id in s.sent + s.expired)
  }

  ghost predicate Conserved(s: System, maxSize: nat) {
    && |s.stored| <= maxSize
    && s.stored == Remaining(s.arrived, s.displaced + s.removed)
    && s.removed <= s.sent + s.expired
  }

  ghost predicate Inv(s: System, maxSize: nat) {
    HoldersCurrent(s) && IdsFresh(s) && ReplayOk(s) && Conserved(s, maxSize)
  }

  lemma SavedWhenFull(s: System, item: Request, maxSize: nat)
    requires Conserved(s, maxSize) && DistinctIds(s.arrived) && s.stored != []
    requires item.id !in s.displaced + s.removed
    requires forall other :: other in s.arrived ==> other.id != item.id
    ensures s.stored[1..] + [item] == Remaining(s.arrived + [item], s.displaced + {s.stored[0].id} + s.removed)
  {
    var gone := s.displaced + s.removed;
    var first := s.stored[0];
    RemainingFacts(s.arrived, gone);
    RemainingWithoutFirst(s.stored);
    RemainingTwice(s.arrived, gone, {first.id});
    assert gone + {first.id} == s.displaced + {first.id} + s.removed;
    assert first in s.stored && first.id != item.id;
    RemainingAppend(s.arrived, item, gone + {first.id});
  }

  lemma EnqueueSavesConserves(s: System, i: nat, maxSize: nat)
    requires HoldersCurrent(s) && IdsFresh(s) && Conserved(s, maxSize)
    requires maxSize >= 1 && i < |s.enqueues| && s.enqueues[i].HoldingEnqueue?
    ensures Conserved(Step(s, EnqueueSaves(i), maxSize), maxSize)
  {
    var item := s.enqueues[i].item;
    assert s.enqueues[i].snapshot == s.stored && !s.enqueues[i].Stored?;
    assert item.id !in s.displaced + s.removed;
    if |s.stored| >= maxSize {
      SavedWhenFull(s, item, maxSize);
    }
  }

  lemma RemoveSavesConserves(s: System, maxSize: nat)
    requires Conserved(s, maxSize) && RemoveHolds(s) && s.replay.phase.snapshot == s.stored
    requires s.replay.next < |s.replay.items| && s.replay.items[s.replay.next].id in s.sent + s.expired
    ensures Conserved(Step(s, RemoveSaves, maxSize), maxSize)
  {
    var id := s.replay.items[s.replay.next].id;
    var t := Step(s, RemoveSaves, maxSize);
    assert t.stored == Remaining(s.stored, {id}) && t.removed == s.removed + {id};
    RemainingTwice(s.arrived, s.displaced + s.removed, {id});
    RemainingFacts(s.stored, {id});
    assert s.displaced + s.removed + {id} == s.displaced + t.removed;
  }

  lemma EnqueueSavesKeepsIds(s: System, i: nat, maxSize: nat)
    requires IdsFresh(s) && i < |s.enqueues| && s.enqueues[i].HoldingEnqueue?
    requires forall item :: item in s.enqueues[i].snapshot ==> item in s.arrived
    ensures IdsFresh(Step(s, EnqueueSaves(i), maxSize))
  {
    var t := Step(s, EnqueueSaves(i), maxSize);
    assert t.arrived == s.arrived + [s.enqueues[i].item];
    SavedIdsArrived(s, i, maxSize);
  }

  lemma SavedIdsArrived(s: System, i: nat, maxSize: nat)
    requires i < |s.enqueues| && s.enqueues[i].HoldingEnqueue?
    requires forall item :: item in s.enqueues[i].snapshot ==> item in s.arrived
    requires forall id :: id in s.displaced + s.removed ==> id in IdSet(s.arrived)
    ensures var t := Step(s, EnqueueSaves(i), maxSize);
            forall id :: id in t.displaced + t.removed ==> id in IdSet(t.arrived)
  {
    var t := Step(s, EnqueueSaves(i), maxSize);
    forall id | id in t.displaced + t.removed
      ensures id in IdSet(t.arrived)
    {
      if id in s.displaced + s.removed {
        var other :| other in s.arrived && other.id == id;
        assert other in t.arrived;
      } else {
        var first := s.enqueues[i].snapshot[0];
        assert first in s.arrived && first in t.arrived;
      }
    }
  }

  lemma EnqueueKeepsHolders(s: System, a: Action, maxSize: nat)
    requires HoldersCurrent(s) && !Overlaps(s, a) && (a.EnqueueCalled? || a.EnqueueLoads? || a.EnqueueSaves?)
    ensures HoldersCurrent(Step(s, a, maxSize))
  {
  }

  lemma ReplayKeepsIds(s: System, a: Action)
    requires IdsFresh(s) && ReplayOk(s)
    ensures IdsFresh(StepReplay(s, a))
  {
    if a.RemoveSaves? && RemoveHolds(s) {
      var item := s.replay.items[s.replay.next];
      assert item in s.replay.items && item.id in IdSet(s.arrived);
    }
  }

  lemma ReplayKeepsHolders(s: System, a: Action)
    requires HoldersCurrent(s) && !Overlaps(s, a)
    ensures HoldersCurrent(StepReplay(s, a))
  {
  }

  lemma ReplayKeepsReplayOk(s: System, a: Action, maxSize: nat)
    requires ReplayOk(s) && Conserved(s, maxSize) && DistinctIds(s.arrived)
    ensures ReplayOk(StepReplay(s, a))
  {
    if a.ReplayCalled? && s.replay.NoReplay? {
      RemainingFacts(s.arrived, s.displaced + s.removed);
    }
  }

  lemma ReplayKeepsConserved(s: System, a: Action, maxSize: nat)
    requires Inv(s, maxSize)
    ensures Conserved(StepReplay(s, a), maxSize)
  {
    if a.RemoveSaves? && RemoveHolds(s) {
      RemoveSavesConserves(s, maxSize);
    }
  }

  lemma StepKeepsInv(s: System, a: Action, maxSize: nat)
    requires Inv(s, maxSize) && maxSize >= 1 && !Overlaps(s, a)
    ensures Inv(Step(s, a, maxSize), maxSize)
  {
    if a.EnqueueCalled? || a.EnqueueLoads? || a.EnqueueSaves? {
      EnqueueKeepsHolders(s, a, maxSize);
      if a.EnqueueSaves? && a.i < |s.enqueues| && s.enqueues[a.i].HoldingEnqueue? {
        EnqueueSavesConserves(s, a.i, maxSize);
        RemainingFacts(s.arrived, s.displaced + s.removed);
        EnqueueSavesKeepsIds(s, a.i, maxSize);
      }
    } else {
      ReplayKeepsIds(s, a);
      ReplayKeepsHolders(s, a);
      ReplayKeepsReplayOk(s, a, maxSize);
      ReplayKeepsConserved(s, a, maxSize);
    }
  }

  lemma {:induction false} RunKeepsInv(s: System, schedule: seq<Action>, maxSize: nat)
    requires Inv(s, maxSize) && maxSize >= 1 && OneAtATime(s, schedule, maxSize)
    ensures Inv(Run(s, schedule, maxSize), maxSize)
    decreases |schedule|
  {
    if schedule != [] {
      StepKeepsInv(s, schedule[0], maxSize);
      RunKeepsInv(Step(s, schedule[0], maxSize), schedule[1..], maxSize);
    }
  }

  // ---- main results ----

  /** In every run with storage updates one at a time, the queue is exactly the arrived items less
      those displaced and those removed, in their order; nothing was removed but after a successful
      replay or expiry; and the size bound holds. */
  lemma QueueConservesItems(schedule: seq<Action>, maxSize: nat)
    requires maxSize >= 1 && OneAtATime(EMPTY, schedule, maxSize)
    ensures var s := Run(EMPTY, schedule, maxSize);
            && s.stored == Remaining(s.arrived, s.displaced + s.removed)
            && s.removed <= s.sent + s.expired
            && |s.stored| <= maxSize && DistinctIds(s.arrived)
  {
    RunKeepsInv(EMPTY, schedule, maxSize);
  }

  /** Enqueuing displaces an item only when the queue is full, and then the oldest. */
  lemma {:induction false} DisplacesOldestOnlyWhenFull(schedule: seq<Action>, s: System, i: nat, maxSize: nat)
    requires maxSize >= 1 && OneAtATime(EMPTY, schedule, maxSize) && s == Run(EMPTY, schedule, maxSize)
    requires i < |s.enqueues| && s.enqueues[i].HoldingEnqueue?
    ensures var t := Step(s, EnqueueSaves(i), maxSize);
            if |s.stored| == maxSize
            then t.displaced == s.displaced + {s.stored[0].id} && t.stored == s.stored[1..] + [s.enqueues[i].item]
            else t.displaced == s.displaced && t.stored == s.stored + [s.enqueues[i].item]
  {
    RunKeepsInv(EMPTY, schedule, maxSize);
  }

  lemma UnprocessedIsQueued(s: System, j: nat, maxSize: nat)
    requires ReplayOk(s) && Conserved(s, maxSize) && s.replay.Replaying? && s.replay.next <= j < |s.replay.items|
    ensures s.replay.items[j] in s.stored || s.replay.items[j].id in s.displaced
  {
    RemainingMembers(s.arrived, s.displaced + s.removed);
    assert s.replay.items[j] in s.replay.items;
  }

  /** During a replay the counts add up to the items processed, and the items not yet processed are
      still queued unless displaced; a rejection and a network failure leave the queue as it is, and
      the failure ends the replay there. */
  lemma {:induction false} ReplayCountsAndLeavesTheRest(schedule: seq<Action>, s: System, maxSize: nat)
    requires maxSize >= 1 && OneAtATime(EMPTY, schedule, maxSize) && s == Run(EMPTY, schedule, maxSize)
    requires s.replay.Replaying?
    ensures var r := s.replay;
            && r.next <= |r.items| && r.result.total == |r.items|
            && r.result.succeeded + r.result.failed + r.result.expired
               == r.next + (if r.phase.Deciding? || r.phase.Sending? then 0 else 1)
            && (forall j :: r.next <= j < |r.items| ==> r.items[j] in s.stored || r.items[j].id in s.displaced)
            && (r.phase.Sending? ==>
                  var stopped := Step(s, SendReturns(NetworkFailure), maxSize);
                  stopped.replay.NoReplay? && stopped.stored == s.stored
                  && Step(s, SendReturns(Rejected), maxSize).stored == s.stored)
  {
    RunKeepsInv(EMPTY, schedule, maxSize);
    forall j | s.replay.next <= j < |s.replay.items|
      ensures s.replay.items[j] in s.stored || s.replay.items[j].id in s.displaced
    {
      UnprocessedIsQueued(s, j, maxSize);
    }
  }

  // ---- sent at most once ----

  /** The ids sent successfully in a run, in order. */
  function SentIn(s: System, schedule: seq<Action>, maxSize: nat): seq<Id>
    decreases |schedule|
  {
    if schedule == [] then [] else SentNow(s, schedule[0]) + SentIn(Step(s, schedule[0], maxSize), schedule[1..], maxSize)
  }

  function SentNow(s: System, a: Action): seq<Id> {
    if a == SendReturns(Sent) && s.replay.Replaying? && s.replay.phase.Sending? && s.replay.next < |s.replay.items|
    then [s.replay.items[s.replay.next].id]
    else []
  }

  predicate BeingRemoved(s: System, id: Id) {
    && s.replay.Replaying? && (s.replay.phase.Removing? || s.replay.phase.HoldingRemove?)
    && s.replay.next < |s.replay.items| && s.replay.items[s.replay.next].id == id
  }

  /** An item that was sent is queued, or still to come in the replay, only while it is being removed. */
  ghost predicate SentIsOnItsWayOut(s: System) {
    && s.sent <= IdSet(s.arrived)
    && (forall item :: item in s.stored && item.id in s.sent ==> BeingRemoved(s, item.id))
    && (s.replay.Replaying? ==>
          forall j :: s.replay.next <= j < |s.replay.items| && s.replay.items[j].id in s.sent
            ==> j == s.replay.next && BeingRemoved(s, s.replay.items[j].id))
  }

  lemma EnqueueKeepsSentOut(s: System, a: Action, maxSize: nat)
    requires Inv(s, maxSize) && SentIsOnItsWayOut(s) && (a.EnqueueCalled? || a.EnqueueLoads? || a.EnqueueSaves?)
    ensures SentIsOnItsWayOut(StepEnqueue(s, a, maxSize))
  {
    var t := StepEnqueue(s, a, maxSize);
    assert s.arrived <= t.arrived;
    forall id | id in s.sent
      ensures id in IdSet(t.arrived)
    {
      var item :| item in s.arrived && item.id == id;
      assert item in t.arrived;
    }
    forall item | item in t.stored && item.id in t.sent
      ensures item in s.stored
    {
    }
  }

  lemma ReplayKeepsSentOut(s: System, a: Action, maxSize: nat)
    requires Inv(s, maxSize) && SentIsOnItsWayOut(s)
    ensures SentIsOnItsWayOut(StepReplay(s, a))
  {
    if a.RemoveSaves? && RemoveHolds(s) {
      RemovalKeepsSentOut(s, maxSize);
    } else if SentNow(s, a) != [] {
      assert s.replay.items[s.replay.next] in s.arrived;
    }
  }

  lemma RemovalKeepsSentOut(s: System, maxSize: nat)
    requires Inv(s, maxSize) && SentIsOnItsWayOut(s) && RemoveHolds(s)
    ensures SentIsOnItsWayOut(StepReplay(s, RemoveSaves))
  {
    RemainingMembers(s.stored, {s.replay.items[s.replay.next].id});
  }

  lemma StepKeepsSentOut(s: System, a: Action, maxSize: nat)
    requires Inv(s, maxSize) && SentIsOnItsWayOut(s)
    ensures SentIsOnItsWayOut(Step(s, a, maxSize))
    ensures forall id :: id in SentNow(s, a) ==> id !in s.sent
    ensures forall id :: id in Step(s, a, maxSize).sent <==> id in s.sent || id in SentNow(s, a)
  {
    if a.EnqueueCalled? || a.EnqueueLoads? || a.EnqueueSaves? {
      EnqueueKeepsSentOut(s, a, maxSize);
    } else {
      ReplayKeepsSentOut(s, a, maxSize);
    }
  }

  lemma {:induction false} NeverSentAgain(s: System, schedule: seq<Action>, maxSize: nat)
    requires Inv(s, maxSize) && SentIsOnItsWayOut(s) && maxSize >= 1 && OneAtATime(s, schedule, maxSize)
    ensures forall id :: id in SentIn(s, schedule, maxSize) ==> id !in s.sent
    ensures forall i, j :: 0 <= i < j < |SentIn(s, schedule, maxSize)|
              ==> SentIn(s, schedule, maxSize)[i] != SentIn(s, schedule, maxSize)[j]
    decreases |schedule|
  {
    if schedule != [] {
      var t := Step(s, schedule[0], maxSize);
      StepKeepsInv(s, schedule[0], maxSize);
      StepKeepsSentOut(s, schedule[0], maxSize);
      NeverSentAgain(t, schedule[1..], maxSize);
    }
  }

  /** With storage updates one at a time, over any number of replays, no item is sent successfully
      twice. */
  lemma NoItemIsSentTwice(schedule: seq<Action>, maxSize: nat)
    requires maxSize >= 1 && OneAtATime(EMPTY, schedule, maxSize)
    ensures var sent := SentIn(EMPTY, schedule, maxSize);
            forall i, j :: 0 <= i < j < |sent| ==> sent[i] != sent[j]
  {
    NeverSentAgain(EMPTY, schedule, maxSize);
  }

  // ---- what overlapping updates cost ----

  /** Saved, neither displaced nor removed, and yet not queued. */
  predicate Lost(s: System, item: Request) {
    item in s.arrived && item.id !in s.displaced + s.removed && item !in s.stored
  }

  lemma StoredIdsArrived(s: System, maxSize: nat)
    requires Inv(s, maxSize)
    ensures forall item :: item in s.stored ==> item in s.arrived
  {
    RemainingFacts(s.arrived, s.displaced + s.removed);
  }

  /** Two enqueues that loaded the same list: the second save takes the first item away. */
  lemma EnqueuesOverlap(s: System, i: nat, j: nat, maxSize: nat)
    requires Inv(s, maxSize) && maxSize >= 1 && i < |s.enqueues| && j < |s.enqueues|
    requires s.enqueues[i].Loading? && s.enqueues[j].HoldingEnqueue?
    ensures var item := s.enqueues[i].item;
            var loaded := Step(s, EnqueueLoads(i), maxSize);
            Lost(Step(Step(loaded, EnqueueSaves(i), maxSize), EnqueueSaves(j), maxSize), item)
  {
    StoredIdsArrived(s, maxSize);
    var item := s.enqueues[i].item;
    var saved := Step(Step(s, EnqueueLoads(i), maxSize), EnqueueSaves(i), maxSize);
    assert saved.enqueues[j] == s.enqueues[j] && saved.arrived == s.arrived + [item];
    var t := Step(saved, EnqueueSaves(j), maxSize);
    assert t.stored == Pushed(s.stored, s.enqueues[j].item, maxSize);
    assert item.id !in s.displaced + s.removed;
    assert s.stored != [] ==> s.stored[0] in s.arrived;
    assert s.enqueues[j].item.id != item.id by {
      assert i < j || j < i;
    }
  }

  ghost predicate IsNew(s: System, item: Request) {
    item.id !in s.displaced + s.removed && forall other :: other in s.arrived ==> other.id != item.id
  }

  /** An enqueue and a removal that loaded the same list: the removal's save takes the item away. */
  lemma RemovalOverlaps(s: System, i: nat, maxSize: nat)
    requires RemoveHolds(s) && i < |s.enqueues| && s.enqueues[i].HoldingEnqueue?
    requires s.enqueues[i].snapshot == s.replay.phase.snapshot && IsNew(s, s.enqueues[i].item)
    requires s.replay.next < |s.replay.items| && s.replay.items[s.replay.next] in s.arrived
    requires forall item :: item in s.replay.phase.snapshot ==> item in s.arrived
    ensures var item := s.enqueues[i].item;
            Lost(Step(Step(s, EnqueueSaves(i), maxSize), RemoveSaves, maxSize), item)
  {
    var item := s.enqueues[i].item;
    var (snapshot, done) := (s.replay.phase.snapshot, s.replay.items[s.replay.next]);
    var t := Step(Step(s, EnqueueSaves(i), maxSize), RemoveSaves, maxSize);
    RemainingMembers(snapshot, {done.id});
    assert t.stored == Remaining(snapshot, {done.id}) && t.arrived == s.arrived + [item];
    assert snapshot != [] ==> snapshot[0] in s.arrived;
  }

  lemma RemovalOverlapsInRun(s: System, i: nat, maxSize: nat)
    requires IdsFresh(s) && ReplayOk(s) && RemoveHolds(s) && i < |s.enqueues| && s.enqueues[i].HoldingEnqueue?
    requires s.enqueues[i].snapshot == s.replay.phase.snapshot
    requires forall item :: item in s.replay.phase.snapshot ==> item in s.arrived
    ensures var item := s.enqueues[i].item;
            Lost(Step(Step(s, EnqueueSaves(i), maxSize), RemoveSaves, maxSize), item)
  {
    assert IsNew(s, s.enqueues[i].item);
    assert s.replay.items[s.replay.next] in s.replay.items;
    RemovalOverlaps(s, i, maxSize);
  }

  /** Whenever a load does overlap another update, two saves are enough to lose an item. */
  lemma OverlapCanLoseItem(s: System, a: Action, maxSize: nat)
    requires Inv(s, maxSize) && maxSize >= 1 && Overlaps(s, a) && Step(s, a, maxSize) != s
    ensures exists first, second, item ::
              Lost(Step(Step(Step(s, a, maxSize), first, maxSize), second, maxSize), item)
  {
    StoredIdsArrived(s, maxSize);
    var t := Step(s, a, maxSize);
    if a.EnqueueLoads? && EnqueueHolds(s) {
      var j :| 0 <= j < |s.enqueues| && s.enqueues[j].HoldingEnqueue?;
      EnqueuesOverlap(s, a.i, j, maxSize);
    } else if a.EnqueueLoads? {
      RemovalOverlapsInRun(t, a.i, maxSize);
    } else {
      var j :| 0 <= j < |s.enqueues| && s.enqueues[j].HoldingEnqueue?;
      RemovalOverlapsInRun(t, j, maxSize);
    }
  }

  /** The removal of a queued item and enqueue `k` have both loaded the list as it is stored. */
  ghost predicate BothLoaded(s: System, k: nat) {
    && RemoveHolds(s) && k < |s.enqueues| && s.enqueues[k].HoldingEnqueue? && IdsFresh(s)
    && s.replay.phase.snapshot == s.stored && s.enqueues[k].snapshot == s.stored && DistinctIds(s.stored)
    && (forall item :: item in s.stored ==> item in s.arrived)
    && s.replay.next < |s.replay.items| && s.replay.items[s.replay.next] in s.stored
  }

  /** A removal and an enqueue that loaded the same list, the removal saving first: the enqueue's save
      brings the item back, unless that save displaces it. */
  lemma StaleSaveBringsBack(s: System, k: nat, maxSize: nat)
    requires BothLoaded(s, k)
    ensures var item := s.replay.items[s.replay.next];
            var removed := Step(s, RemoveSaves, maxSize);
            var t := Step(removed, EnqueueSaves(k), maxSize);
            && item !in removed.stored && item.id in removed.removed && t.sent == s.sent
            && t.replay == s.replay.(next := s.replay.next + 1, phase := Deciding)
            && (item in t.stored <==> |s.stored| < maxSize || s.stored[0] != item)
  {
    var item := s.replay.items[s.replay.next];
    RemainingMembers(s.stored, {item.id});
    var t := Step(Step(s, RemoveSaves, maxSize), EnqueueSaves(k), maxSize);
    assert t.stored == Pushed(s.stored, s.enqueues[k].item, maxSize);
    PushedMembers(s.stored, s.enqueues[k].item, maxSize, item);
  }

  lemma PushedMembers(items: seq<Request>, added: Request, maxSize: nat, item: Request)
    requires item in items && DistinctIds(items) && item != added
    ensures item in Pushed(items, added, maxSize) <==> |items| < maxSize || items[0] != item
  {
    assert items == [items[0]] + items[1..];
  }

  lemma RunTwo(s: System, a: Action, b: Action, maxSize: nat)
    ensures Run(s, [a, b], maxSize) == Step(Step(s, a, maxSize), b, maxSize)
    ensures SentIn(s, [a, b], maxSize) == SentNow(s, a) + SentNow(Step(s, a, maxSize), b)
  {
    RunUnfolds(s, [a, b], maxSize);
    RunUnfolds(Step(s, a, maxSize), [a, b][1..], maxSize);
    assert [a, b][1..] == [b] && [b][1..] == [];
    assert SentIn(Step(s, a, maxSize), [b], maxSize) == SentNow(Step(s, a, maxSize), b) + SentIn(Run(s, [a, b], maxSize), [], maxSize);
  }

  lemma {:induction false} SentInConcat(s: System, first: seq<Action>, second: seq<Action>, maxSize: nat)
    ensures Run(s, first + second, maxSize) == Run(Run(s, first, maxSize), second, maxSize)
    ensures SentIn(s, first + second, maxSize)
         == SentIn(s, first, maxSize) + SentIn(Run(s, first, maxSize), second, maxSize)
    decreases |first|
  {
    if first == [] {
      assert first + second == second;
    } else {
      assert (first + second)[1..] == first[1..] + second;
      SentInConcat(Step(s, first[0], maxSize), first[1..], second, maxSize);
    }
  }

  /** One item of a replay, reached before it expires and answered with `outcome`. */
  function Attempt(item: Request, outcome: Outcome): seq<Action> {
    [ReplayDecides(item.enqueuedAt + item.timeToLiveMs), SendReturns(outcome)]
  }

  lemma AttemptRuns(s: System, outcome: Outcome, maxSize: nat)
    requires s.replay.Replaying? && s.replay.phase.Deciding? && s.replay.next < |s.replay.items|
    ensures var r := s.replay;
            var t := Run(s, Attempt(r.items[r.next], outcome), maxSize);
            && t.stored == s.stored
            && (outcome.Rejected? ==> t.replay.Replaying? && t.replay == r.(next := r.next + 1, result := t.replay.result))
            && (outcome.NetworkFailure? ==> t.replay.NoReplay?)
            && (outcome.Sent? ==> SentIn(s, Attempt(r.items[r.next], outcome), maxSize) == [r.items[r.next].id])
  {
    var item := s.replay.items[s.replay.next];
    RunTwo(s, ReplayDecides(item.enqueuedAt + item.timeToLiveMs), SendReturns(outcome), maxSize);
  }

  /** A replay may send any item it loaded, the ones before it being rejected. */
  lemma {:induction false} AnyItemCanBeSent(s: System, j: nat, maxSize: nat) returns (schedule: seq<Action>)
    requires s.replay.Replaying? && s.replay.phase.Deciding? && s.replay.next <= j < |s.replay.items|
    ensures s.replay.items[j].id in SentIn(s, schedule, maxSize)
    decreases j - s.replay.next
  {
    var item := s.replay.items[s.replay.next];
    if s.replay.next == j {
      AttemptRuns(s, Sent, maxSize);
      schedule := Attempt(item, Sent);
    } else {
      AttemptRuns(s, Rejected, maxSize);
      var later := AnyItemCanBeSent(Run(s, Attempt(item, Rejected), maxSize), j, maxSize);
      SentInConcat(s, Attempt(item, Rejected), later, maxSize);
      schedule := Attempt(item, Rejected) + later;
    }
  }

  lemma {:induction false} ReplayCanEnd(s: System, maxSize: nat) returns (schedule: seq<Action>)
    requires s.replay.Replaying? && s.replay.phase.Deciding?
    ensures Run(s, schedule, maxSize).replay.NoReplay? && Run(s, schedule, maxSize).stored == s.stored
  {
    if s.replay.next < |s.replay.items| {
      AttemptRuns(s, NetworkFailure, maxSize);
      schedule := Attempt(s.replay.items[s.replay.next], NetworkFailure);
    } else {
      schedule := [ReplayDecides(0)];
      RunUnfolds(s, schedule, maxSize);
    }
  }

  lemma {:induction false} QueuedCanBeSent(s: System, item: Request, maxSize: nat) returns (schedule: seq<Action>)
    requires s.replay.Replaying? && s.replay.phase.Deciding? && item in s.stored
    ensures item.id in SentIn(s, schedule, maxSize)
  {
    var first := ReplayCanEnd(s, maxSize);
    var ended := Run(s, first, maxSize);
    var called := Step(ended, ReplayCalled, maxSize);
    var j :| 0 <= j < |s.stored| && s.stored[j] == item;
    var second := AnyItemCanBeSent(called, j, maxSize);
    assert ([ReplayCalled] + second)[1..] == second;
    SentInConcat(s, first, [ReplayCalled] + second, maxSize);
    schedule := first + ([ReplayCalled] + second);
  }

  lemma OverlapLoadsBoth(s: System, a: Action, k: nat, maxSize: nat)
    requires Inv(s, maxSize) && Overlaps(s, a) && Step(s, a, maxSize) != s
    requires if a.EnqueueLoads? then RemoveHolds(s) && k == a.i else k < |s.enqueues| && s.enqueues[k].HoldingEnqueue?
    requires s.replay.items[s.replay.next] in s.stored
    ensures var t := Step(s, a, maxSize);
            && BothLoaded(t, k) && t.stored == s.stored && t.sent == s.sent && SentNow(s, a) == []
            && t.replay.items == s.replay.items && t.replay.next == s.replay.next
  {
    RemainingFacts(s.arrived, s.displaced + s.removed);
  }

  /** Whenever the removal of a sent item does overlap an enqueue, the item can come back into the queue
      and be sent again, unless the enqueue displaces it. */
  lemma {:induction false} OverlapCanSendAgain(s: System, a: Action, k: nat, maxSize: nat) returns (schedule: seq<Action>)
    requires Inv(s, maxSize) && maxSize >= 1 && Overlaps(s, a) && Step(s, a, maxSize) != s
    requires if a.EnqueueLoads? then RemoveHolds(s) && k == a.i else k < |s.enqueues| && s.enqueues[k].HoldingEnqueue?
    requires var item := s.replay.items[s.replay.next];
             item.id in s.sent && item in s.stored && (|s.stored| < maxSize || s.stored[0] != item)
    ensures s.replay.items[s.replay.next].id in SentIn(s, schedule, maxSize)
  {
    var item := s.replay.items[s.replay.next];
    var t := Step(s, a, maxSize);
    OverlapLoadsBoth(s, a, k, maxSize);
    StaleSaveBringsBack(t, k, maxSize);
    var u := Step(Step(t, RemoveSaves, maxSize), EnqueueSaves(k), maxSize);
    var rest := QueuedCanBeSent(u, item, maxSize);
    schedule := [a] + ([RemoveSaves, EnqueueSaves(k)] + rest);
    assert schedule[1..] == [RemoveSaves, EnqueueSaves(k)] + rest;
    RunTwo(t, RemoveSaves, EnqueueSaves(k), maxSize);
    SentInConcat(t, [RemoveSaves, EnqueueSaves(k)], rest, maxSize);
  }

  const ONE_QUEUED := [EnqueueCalled(0, 100), EnqueueLoads(0), EnqueueSaves(0)]
  const SENT_AND_LOADED := [ReplayCalled, ReplayDecides(0), SendReturns(Sent), RemoveLoads]
  const ENQUEUED_MEANWHILE := [EnqueueCalled(0, 100), EnqueueLoads(1), EnqueueSaves(1)]

  const A: Request := Request(0, 0, 100)
  const B: Request := Request(1, 0, 100)

  /** With an enqueue between the load and the save of a removal, the new item is lost: it arrived,
      was never sent, found expired or displaced, and is not queued. */
  lemma {:induction false} OverlapLosesItem(empty: System, queued: System, loaded: System, overlapped: System, s: System)
    requires empty == EMPTY && queued == Run(empty, ONE_QUEUED, 10)
    requires loaded == Run(queued, SENT_AND_LOADED, 10) && overlapped == Run(loaded, ENQUEUED_MEANWHILE, 10)
    requires s == Run(overlapped, [RemoveSaves], 10)
    ensures s.stored == [] && B in s.arrived && B.id !in s.displaced + s.removed + s.sent + s.expired
  {
    ExampleQueued(empty);
    ExampleSent(queued);
    ExampleEnqueued(loaded);
    ExampleRemoved(overlapped);
  }

  lemma ExampleSent(s: System)
    requires s == System([A], [Stored], NoReplay, 1, [A], {}, {}, {}, {})
    ensures Run(s, SENT_AND_LOADED, 10)
         == s.(replay := Replaying([A], 0, HoldingRemove([A]), ReplayResult(1, 1, 0, 0), {}), sent := {0})
  {
    var s1 := Step(s, ReplayCalled, 10);
    var s2 := Step(s1, ReplayDecides(0), 10);
    var s3 := Step(s2, SendReturns(Sent), 10);
    assert s3 == s.(replay := Replaying([A], 0, Removing, ReplayResult(1, 1, 0, 0), {}), sent := {0});
  }

  lemma {:induction false} ExampleQueued(s: System)
    requires s == EMPTY
    ensures Run(s, ONE_QUEUED, 10) == System([A], [Stored], NoReplay, 1, [A], {}, {}, {}, {})
  {
    var s1 := Step(s, EnqueueCalled(0, 100), 10);
    assert s1.enqueues == [Loading(A)];
    var s2 := Step(s1, EnqueueLoads(0), 10);
    assert s2.enqueues == [HoldingEnqueue(A, [])];
    RunUnfolds(s, ONE_QUEUED, 10);
    RunUnfolds(s1, ONE_QUEUED[1..], 10);
    RunUnfolds(s2, ONE_QUEUED[1..][1..], 10);
  }

  lemma ExampleEnqueued(s: System)
    requires s == System([A], [Stored], Replaying([A], 0, HoldingRemove([A]), ReplayResult(1, 1, 0, 0), {}), 1,
                         [A], {}, {}, {0}, {})
    ensures Run(s, ENQUEUED_MEANWHILE, 10)
         == s.(stored := [A, B], enqueues := [Stored, Stored], nextId := 2, arrived := [A, B])
  {
    var s1 := Step(s, EnqueueCalled(0, 100), 10);
    assert s1.enqueues == [Stored, Loading(B)];
    var s2 := Step(s1, EnqueueLoads(1), 10);
    assert s2.enqueues == [Stored, HoldingEnqueue(B, [A])];
    RunUnfolds(s, ENQUEUED_MEANWHILE, 10);
    RunUnfolds(s1, ENQUEUED_MEANWHILE[1..], 10);
    RunUnfolds(s2, ENQUEUED_MEANWHILE[1..][1..], 10);
    assert [A] + [B] == [A, B];
    assert [Stored, HoldingEnqueue(B, [A])][1 := Stored] == [Stored, Stored];
  }

  lemma RunUnfolds(s: System, schedule: seq<Action>, maxSize: nat)
    requires schedule != []
    ensures Run(s, schedule, maxSize) == Run(Step(s, schedule[0], maxSize), schedule[1..], maxSize)
  {
  }

  lemma ExampleRemoved(s: System)
    requires s == System([A, B], [Stored, Stored], Replaying([A], 0, HoldingRemove([A]), ReplayResult(1, 1, 0, 0), {}), 2,
                         [A, B], {}, {}, {0}, {})
    ensures Run(s, [RemoveSaves], 10)
         == s.(stored := [], replay := Replaying([A], 1, Deciding, ReplayResult(1, 1, 0, 0), {}), removed := {0})
  {
    var t := Step(s, RemoveSaves, 10);
    assert t.stored == Remaining([A], {0});
    assert [A][..0] == [];
    assert Run(t, [RemoveSaves][1..], 10) == t;
  }

  const ENQUEUE_OVERLAPS := [EnqueueCalled(0, 100), EnqueueLoads(1)]
  const BOTH_SAVE := [RemoveSaves, EnqueueSaves(1)]
  const REPLAYED_AGAIN := [ReplayDecides(0), ReplayCalled]

  /** In the same run up to the removal's load, an enqueue that loads before the removal saves and saves after it brings the
      sent item back, and the next replay sends it again. */
  lemma {:induction false} OverlapSendsTwice(
    empty: System, queued: System, loaded: System, overlapped: System, saved: System, again: System)
    requires empty == EMPTY && queued == Run(empty, ONE_QUEUED, 10) && loaded == Run(queued, SENT_AND_LOADED, 10)
    requires overlapped == Run(loaded, ENQUEUE_OVERLAPS, 10) && saved == Run(overlapped, BOTH_SAVE, 10)
    requires again == Run(saved, REPLAYED_AGAIN, 10)
    ensures saved.stored == [A, B] && A.id in saved.sent
    ensures SentIn(again, Attempt(A, Sent), 10) == [A.id]
  {
    ExampleQueued(empty);
    ExampleSent(queued);
    ExampleOverlaps(loaded);
    ExampleSaves(overlapped);
    RunTwo(saved, ReplayDecides(0), ReplayCalled, 10);
    assert again.replay == Replaying([A, B], 0, Deciding, ReplayResult(2, 0, 0, 0), {0});
    AttemptRuns(again, Sent, 10);
  }

  lemma ExampleOverlaps(s: System)
    requires s == System([A], [Stored], Replaying([A], 0, HoldingRemove([A]), ReplayResult(1, 1, 0, 0), {}), 1,
                         [A], {}, {}, {0}, {})
    ensures Run(s, ENQUEUE_OVERLAPS, 10) == s.(enqueues := [Stored, HoldingEnqueue(B, [A])], nextId := 2)
  {
    RunTwo(s, EnqueueCalled(0, 100), EnqueueLoads(1), 10);
    assert Step(s, EnqueueCalled(0, 100), 10).enqueues == [Stored, Loading(B)];
  }

  lemma ExampleSaves(s: System)
    requires s == System([A], [Stored, HoldingEnqueue(B, [A])],
                         Replaying([A], 0, HoldingRemove([A]), ReplayResult(1, 1, 0, 0), {}), 2, [A], {}, {}, {0}, {})
    ensures Run(s, BOTH_SAVE, 10)
         == System([A, B], [Stored, Stored], Replaying([A], 1, Deciding, ReplayResult(1, 1, 0, 0), {}), 2,
                   [A, B], {}, {0}, {0}, {})
  {
    var removed := Step(s, RemoveSaves, 10);
    RunTwo(s, RemoveSaves, EnqueueSaves(1), 10);
    assert removed == s.(stored := removed.stored, replay := Replaying([A], 1, Deciding, ReplayResult(1, 1, 0, 0), {}), removed := {0});
    assert [Stored, HoldingEnqueue(B, [A])][1 := Stored] == [Stored, Stored];
    assert [A] + [B] == [A, B];
  }

  // ---- the queue object ----

  /** One item of a replay with nothing else going on: the stored list, the counts, and whether the
      replay goes on. */
  function ProcessItem(
    stored: seq<Request>, result: ReplayResult, item: Request, outcome: Outcome, now: int)
    : (seq<Request>, ReplayResult, bool)
  {
    if Expired(item, now) then
      (Remaining(stored, {item.id}), result.(expired := result.expired + 1), true)
    else
      match outcome
      case Sent => (Remaining(stored, {item.id}), result.(succeeded := result.succeeded + 1), true)
      case NetworkFailure => (stored, result, false)
      case Rejected => (stored, result.(failed := result.failed + 1), true)
  }

  function ReplayItems(
    stored: seq<Request>, result: ReplayResult, items: seq<Request>, outcomes: seq<Outcome>, clock: seq<int>)
    : (seq<Request>, ReplayResult)
    requires |outcomes| == |clock| == |items|
    decreases |items|
  {
    if items == [] then (stored, result)
    else
      var (after, counted, goOn) := ProcessItem(stored, result, items[0], outcomes[0], clock[0]);
      if goOn then ReplayItems(after, counted, items[1..], outcomes[1..], clock[1..]) else (after, counted)
  }

  predicate Stops(item: Request, outcome: Outcome, now: int) {
    !Expired(item, now) && outcome.NetworkFailure?
  }

  /** How many items come before the first unexpired one that meets a network failure. */
  function Processed(items: seq<Request>, outcomes: seq<Outcome>, clock: seq<int>): (n: nat)
    requires |outcomes| == |clock| == |items|
    ensures n <= |items| && (n < |items| ==> Stops(items[n], outcomes[n], clock[n]))
    ensures forall i :: 0 <= i < n ==> !Stops(items[i], outcomes[i], clock[i])
  {
    if items == [] || Stops(items[0], outcomes[0], clock[0]) then 0
    else Processed(items[1..], outcomes[1..], clock[1..]) + 1
  }

  /** The ids of those of the first `n` items that had expired or were sent. */
  function Gone(items: seq<Request>, outcomes: seq<Outcome>, clock: seq<int>, n: nat): (ids: set<Id>)
    requires n <= |outcomes| == |clock| == |items|
    ensures forall id :: id in ids <==>
              exists i :: 0 <= i < n && items[i].id == id && (Expired(items[i], clock[i]) || outcomes[i].Sent?)
  {
    set i | 0 <= i < n && (Expired(items[i], clock[i]) || outcomes[i].Sent?) :: items[i].id
  }

  lemma GoneFirst(items: seq<Request>, outcomes: seq<Outcome>, clock: seq<int>, n: nat)
    requires 0 < n <= |outcomes| == |clock| == |items|
    ensures Gone(items, outcomes, clock, n)
         == (if Expired(items[0], clock[0]) || outcomes[0].Sent? then {items[0].id} else {})
            + Gone(items[1..], outcomes[1..], clock[1..], n - 1)
  {
    var (tail, answers, times) := (items[1..], outcomes[1..], clock[1..]);
    forall id | id in Gone(items, outcomes, clock, n)
      ensures id in Gone(tail, answers, times, n - 1)
              || (id == items[0].id && (Expired(items[0], clock[0]) || outcomes[0].Sent?))
    {
      var i :| 0 <= i < n && items[i].id == id && (Expired(items[i], clock[i]) || outcomes[i].Sent?);
      if i > 0 {
        assert tail[i - 1] == items[i] && answers[i - 1] == outcomes[i] && times[i - 1] == clock[i];
      }
    }
    forall id | id in Gone(tail, answers, times, n - 1)
      ensures id in Gone(items, outcomes, clock, n)
    {
      var i :| 0 <= i < n - 1 && tail[i].id == id && (Expired(tail[i], times[i]) || answers[i].Sent?);
      assert items[i + 1] == tail[i];
    }
  }

  /** How many of the first `n` items were within their time to live and met `outcome`. */
  function Met(outcome: Outcome, items: seq<Request>, outcomes: seq<Outcome>, clock: seq<int>, n: nat): nat
    requires n <= |outcomes| == |clock| == |items|
  {
    if n == 0 then 0
    else
      (if clock[0] <= items[0].enqueuedAt + items[0].timeToLiveMs && outcomes[0] == outcome then 1 else 0)
      + Met(outcome, items[1..], outcomes[1..], clock[1..], n - 1)
  }

  /** How many of them were past it. */
  function Outlived(items: seq<Request>, clock: seq<int>, n: nat): nat
    requires n <= |clock| == |items|
  {
    if n == 0 then 0
    else
      (if clock[0] > items[0].enqueuedAt + items[0].timeToLiveMs then 1 else 0) + Outlived(items[1..], clock[1..], n - 1)
  }

  /** Each counter of a replay counts its own kind of items: `succeeded` those sent, `failed` those
      rejected, `expired` those past their time to live. */
  lemma {:induction false} ReplayCountsEachOutcome(
    stored: seq<Request>, result: ReplayResult, items: seq<Request>, outcomes: seq<Outcome>, clock: seq<int>)
    requires |outcomes| == |clock| == |items|
    ensures var counted := ReplayItems(stored, result, items, outcomes, clock).1;
            var n := Processed(items, outcomes, clock);
            && counted.total == result.total
            && counted.succeeded == result.succeeded + Met(Sent, items, outcomes, clock, n)
            && counted.failed == result.failed + Met(Rejected, items, outcomes, clock, n)
            && counted.expired == result.expired + Outlived(items, clock, n)
    decreases |items|
  {
    if items != [] && !Stops(items[0], outcomes[0], clock[0]) {
      var (after, counted, _) := ProcessItem(stored, result, items[0], outcomes[0], clock[0]);
      ReplayCountsEachOutcome(after, counted, items[1..], outcomes[1..], clock[1..]);
    }
  }

  /** An uninterrupted replay stops at the first network failure: the counts add up to the items
      before it, and of those exactly the expired and the sent leave the queue, order kept. */
  lemma {:induction false} ReplayStopsAtNetworkFailure(
    stored: seq<Request>, result: ReplayResult, items: seq<Request>, outcomes: seq<Outcome>, clock: seq<int>)
    requires |outcomes| == |clock| == |items|
    ensures var (after, counted) := ReplayItems(stored, result, items, outcomes, clock);
            var n := Processed(items, outcomes, clock);
            && after == Remaining(stored, Gone(items, outcomes, clock, n))
            && counted.succeeded + counted.failed + counted.expired
               == result.succeeded + result.failed + result.expired + n
            && counted.total == result.total
    decreases |items|
  {
    if items == [] || Stops(items[0], outcomes[0], clock[0]) {
      RemainingWithoutNone(stored);
      assert Gone(items, outcomes, clock, 0) == {};
    } else {
      var (after, counted, _) := ProcessItem(stored, result, items[0], outcomes[0], clock[0]);
      var n := Processed(items, outcomes, clock);
      ReplayStopsAtNetworkFailure(after, counted, items[1..], outcomes[1..], clock[1..]);
      GoneFirst(items, outcomes, clock, n);
      var later := Gone(items[1..], outcomes[1..], clock[1..], n - 1);
      if Expired(items[0], clock[0]) || outcomes[0].Sent? {
        RemainingTwice(stored, {items[0].id}, later);
      } else {
        assert {} + later == later;
      }
    }
  }

  lemma {:induction false} RemainingWithoutNone(items: seq<Request>)
    ensures Remaining(items, {}) == items
  {
    if items != [] {
      RemainingWithoutNone(items[..|items| - 1]);
    }
  }

  /** The steps of one item, run without interruption, do the same. */
  lemma ItemStepsMatch(s: System, maxSize: nat, outcome: Outcome, now: int)
    requires s.replay.Replaying? && s.replay.phase.Deciding? && s.replay.next < |s.replay.items|
    ensures var (stored, result, goOn) :=
              ProcessItem(s.stored, s.replay.result, s.replay.items[s.replay.next], outcome, now);
            var decided := Step(s, ReplayDecides(now), maxSize);
            var answered := Step(decided, SendReturns(outcome), maxSize);
            var t := Step(Step(answered, RemoveLoads, maxSize), RemoveSaves, maxSize);
            && t.stored == stored
            && (goOn ==> t.replay.Replaying? && t.replay.result == result && t.replay.next == s.replay.next + 1
                         && t.replay.phase.Deciding?)
            && (!goOn ==> t.replay.NoReplay? && result == s.replay.result)
  {
  }

  class Queue {
    const maxSize: nat
    var stored: seq<Request>
    var nextId: Id

    constructor (maxSize: nat)
      ensures this.maxSize == maxSize && stored == [] && nextId == 0
    {
      this.maxSize := maxSize;
      stored, nextId := [], 0;
    }

    method EnqueueRequest(enqueuedAt: int, timeToLiveMs: int)
      modifies this
      ensures nextId == old(nextId) + 1
      ensures stored == Pushed(old(stored), Request(old(nextId), enqueuedAt, timeToLiveMs), maxSize)
    {
      var sanitized := Request(nextId, enqueuedAt, timeToLiveMs);
      nextId := nextId + 1;
      var items := stored;
      if |items| >= maxSize && |items| > 0 {
        items := items[1..];
      }
      stored := items + [sanitized];
    }

    method RemoveItem(item: Request)
      modifies this`stored
      ensures stored == Remaining(old(stored), {item.id})
    {
      var filtered: seq<Request> := [];
      for i := 0 to |stored|
        invariant stored == old(stored) && filtered == Remaining(stored[..i], {item.id})
      {
        assert stored[..i + 1][..i] == stored[..i];
        if stored[i].id != item.id {
          filtered := filtered + [stored[i]];
        }
      }
      assert stored[..|stored|] == stored;
      stored := filtered;
    }

    /** `outcomes` and `clock` give the answer and the time for each item. */
    method ExecuteReplay(outcomes: seq<Outcome>, clock: seq<int>) returns (result: ReplayResult)
      requires |outcomes| == |clock| == |stored|
      modifies this`stored
      ensures (stored, result) == ReplayItems(old(stored), ReplayResult(|old(stored)|, 0, 0, 0), old(stored), outcomes, clock)
    {
      var items := stored;
      result := ReplayResult(|items|, 0, 0, 0);
      for i := 0 to |items|
        invariant ReplayItems(stored, result, items[i..], outcomes[i..], clock[i..])
               == ReplayItems(old(stored), ReplayResult(|items|, 0, 0, 0), items, outcomes, clock)
      {
        var item := items[i];
        assert items[i..][1..] == items[i + 1..] && outcomes[i..][1..] == outcomes[i + 1..];
        assert clock[i..][1..] == clock[i + 1..];
        if Expired(item, clock[i]) {
          result := result.(expired := result.expired + 1);
          RemoveItem(item);
        } else {
          match outcomes[i]
          case Sent =>
            result := result.(succeeded := result.succeeded + 1);
            RemoveItem(item);
          case NetworkFailure => return;
          case Rejected => result := result.(failed := result.failed + 1);
        }
      }
    }
  }
}
