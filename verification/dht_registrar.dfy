/** The registered bags, their region index and the refresh sweep (dht_registrar.go). The recency
    list is the LRU cache: the least recently added bag first. Its eviction callback, which a
    removal fires too, runs after the cache's own lock is released. */
module DhtRegistrar {
  import opened Wrappers

  type Bag = nat
  type Region = r: int | 0 <= r < REGION_COUNT

  const REGION_COUNT := 256

  // ---- the LRU cache ----

  function Without(recent: seq<Bag>, bag: Bag): seq<Bag> {
    if recent == [] then []
    else (if recent[0] == bag then [] else [recent[0]]) + Without(recent[1..], bag)
  }

  /** The bag that adding `bag` evicts. */
  function Victim(recent: seq<Bag>, bag: Bag, limit: nat): Option<Bag> {
    if bag !in recent && |recent| >= limit then Some((recent + [bag])[0]) else None
  }

  function Added(recent: seq<Bag>, bag: Bag, limit: nat): seq<Bag> {
    if bag in recent then Without(recent, bag) + [bag]
    else if |recent| >= limit then (recent + [bag])[1..]
    else recent + [bag]
  }

  ghost predicate Distinct(recent: seq<Bag>) {
    forall i, j :: 0 <= i < j < |recent| ==> recent[i] != recent[j]
  }

  lemma {:induction false} WithoutFacts(recent: seq<Bag>, bag: Bag)
    ensures forall b :: b in Without(recent, bag) <==> b in recent && b != bag
    ensures |Without(recent, bag)| <= |recent| && (bag in recent ==> |Without(recent, bag)| < |recent|)
    ensures Distinct(recent) ==> Distinct(Without(recent, bag))
  {
    if recent != [] {
      WithoutFacts(recent[1..], bag);
      assert forall b :: b in recent <==> b == recent[0] || b in recent[1..];
      if Distinct(recent) {
        assert recent[0] !in recent[1..];
      }
    }
  }

  lemma AddedFacts(recent: seq<Bag>, bag: Bag, limit: nat)
    requires Distinct(recent) && |recent| <= limit && limit >= 1
    ensures Distinct(Added(recent, bag, limit)) && |Added(recent, bag, limit)| <= limit
    ensures forall b :: b in Added(recent, bag, limit) <==> (b in recent && Some(b) != Victim(recent, bag, limit)) || b == bag
    ensures Victim(recent, bag, limit).Some? ==> Victim(recent, bag, limit).value in recent
    ensures Victim(recent, bag, limit) != Some(bag)
  {
    WithoutFacts(recent, bag);
    if bag !in recent && |recent| >= limit {
      assert recent == [recent[0]] + recent[1..] && recent[0] !in recent[1..];
      assert (recent + [bag])[1..] == recent[1..] + [bag];
    }
  }

  // ---- the region index ----

  predicate In(index: map<Region, set<Bag>>, region: Region, bag: Bag) {
    region in index && bag in index[region]
  }

  function IndexAdd(index: map<Region, set<Bag>>, region: Region, bag: Bag): map<Region, set<Bag>> {
    index[region := (if region in index then index[region] else {}) + {bag}]
  }

  function IndexRemove(index: map<Region, set<Bag>>, region: Region, bag: Bag): map<Region, set<Bag>> {
    if region !in index then index
    else if index[region] - {bag} == {} then index - {region}
    else index[region := index[region] - {bag}]
  }

  predicate NoEmptyRegion(index: map<Region, set<Bag>>) {
    forall region :: region in index ==> index[region] != {}
  }

  ghost predicate RightRegions(index: map<Region, set<Bag>>, overlayRegion: Bag -> Region) {
    forall region, bag :: In(index, region, bag) ==> region == overlayRegion(bag)
  }

  /** A bag is in the cache exactly when it is indexed under its own region and nowhere else. */
  ghost predicate Mirrors(recent: seq<Bag>, index: map<Region, set<Bag>>, overlayRegion: Bag -> Region) {
    && RightRegions(index, overlayRegion)
    && forall bag :: bag in recent <==> In(index, overlayRegion(bag), bag)
  }

  // ---- calls as steps ----

  datatype IndexOp = AddToIndex(bag: Bag) | RemoveFromIndex(bag: Bag)

  /** `calls` holds, for every call begun, the index updates it has still to make. */
  datatype System = System(recent: seq<Bag>, index: map<Region, set<Bag>>, calls: seq<seq<IndexOp>>)

  datatype Action = RegisterBegins(bag: Bag) | DeregisterBegins(bag: Bag) | IndexStep(i: nat)

  const EMPTY := System([], map[], [])

  /** What a call does to the index, the eviction callback first. */
  function OpsOf(recent: seq<Bag>, a: Action, limit: nat): seq<IndexOp>
    requires !a.IndexStep?
  {
    match a
    case RegisterBegins(bag) =>
      (match Victim(recent, bag, limit)
       case Some(victim) => [RemoveFromIndex(victim), AddToIndex(bag)]
       case None => [AddToIndex(bag)])
    case DeregisterBegins(bag) =>
      if bag in recent then [RemoveFromIndex(bag), RemoveFromIndex(bag)] else [RemoveFromIndex(bag)]
  }

  function Applied(index: map<Region, set<Bag>>, op: IndexOp, overlayRegion: Bag -> Region): map<Region, set<Bag>> {
    match op
    case AddToIndex(bag) => IndexAdd(index, overlayRegion(bag), bag)
    case RemoveFromIndex(bag) => IndexRemove(index, overlayRegion(bag), bag)
  }

  function Step(s: System, a: Action, limit: nat, overlayRegion: Bag -> Region): System {
    match a
    case RegisterBegins(bag) =>
      s.(recent := Added(s.recent, bag, limit), calls := s.calls + [OpsOf(s.recent, a, limit)])
    case DeregisterBegins(bag) =>
      s.(recent := Without(s.recent, bag), calls := s.calls + [OpsOf(s.recent, a, limit)])
    case IndexStep(i) =>
      if i < |s.calls| && s.calls[i] != []
      then s.(index := Applied(s.index, s.calls[i][0], overlayRegion), calls := s.calls[i := s.calls[i][1..]])
      else s
  }

  function Run(s: System, schedule: seq<Action>, limit: nat, overlayRegion: Bag -> Region): System
    decreases |schedule|
  {
    if schedule == [] then s
    else Run(Step(s, schedule[0], limit, overlayRegion), schedule[1..], limit, overlayRegion)
  }

  predicate Pending(s: System, op: IndexOp) {
    exists i :: 0 <= i < |s.calls| && op in s.calls[i]
  }

  /** No index update for `bag` is still to come. */
  predicate Settled(s: System, bag: Bag) {
    !Pending(s, AddToIndex(bag)) && !Pending(s, RemoveFromIndex(bag))
  }

  predicate Quiet(s: System) {
    forall i :: 0 <= i < |s.calls| ==> s.calls[i] == []
  }

  /** A call changes whether a bag is cached while an index update of the opposite kind for the same
      bag is still to come. */
  predicate Crosses(s: System, a: Action, limit: nat) {
    match a
    case RegisterBegins(bag) =>
      || Pending(s, RemoveFromIndex(bag))
      || (var victim := Victim(s.recent, bag, limit); victim.Some? && Pending(s, AddToIndex(victim.value)))
    case DeregisterBegins(bag) => Pending(s, AddToIndex(bag))
    case IndexStep(_) => false
  }

  ghost predicate NeverCrosses(s: System, schedule: seq<Action>, limit: nat, overlayRegion: Bag -> Region)
    decreases |schedule|
  {
    schedule == []
    || (!Crosses(s, schedule[0], limit)
        && NeverCrosses(Step(s, schedule[0], limit, overlayRegion), schedule[1..], limit, overlayRegion))
  }

  // ---- what every step keeps ----

  predicate OneKindPerBag(ops: seq<IndexOp>) {
    forall j, k :: 0 <= j < |ops| && 0 <= k < |ops| && ops[j].bag == ops[k].bag ==> ops[j] == ops[k]
  }

  /** Kept in every run. */
  ghost predicate WellFormed(s: System, limit: nat, overlayRegion: Bag -> Region) {
    && Distinct(s.recent) && |s.recent| <= limit
    && NoEmptyRegion(s.index) && RightRegions(s.index, overlayRegion)
    && (forall i :: 0 <= i < |s.calls| ==> OneKindPerBag(s.calls[i]))
  }

  /** Kept for every bag in every run that never crosses. */
  ghost predicate AgreesOn(s: System, overlayRegion: Bag -> Region, bag: Bag) {
    && (Pending(s, AddToIndex(bag)) ==> bag in s.recent)
    && (Pending(s, RemoveFromIndex(bag)) ==> bag !in s.recent)
    && (Settled(s, bag) ==> (bag in s.recent <==> In(s.index, overlayRegion(bag), bag)))
  }

  ghost predicate Agrees(s: System, overlayRegion: Bag -> Region) {
    forall bag :: AgreesOn(s, overlayRegion, bag)
  }

  lemma AppliedMembers(
    index: map<Region, set<Bag>>, op: IndexOp, overlayRegion: Bag -> Region, region: Region, bag: Bag)
    ensures In(Applied(index, op, overlayRegion), region, bag)
            <==> if bag == op.bag && region == overlayRegion(op.bag) then op.AddToIndex? else In(index, region, bag)
  {
    var own := overlayRegion(op.bag);
    if own in index && region == own {
      assert bag in index[own] - {op.bag} <==> bag in index[own] && bag != op.bag;
    }
  }

  lemma AppliedFacts(index: map<Region, set<Bag>>, op: IndexOp, overlayRegion: Bag -> Region)
    requires NoEmptyRegion(index) && RightRegions(index, overlayRegion)
    ensures var after := Applied(index, op, overlayRegion);
            && NoEmptyRegion(after) && RightRegions(after, overlayRegion)
            && (forall bag :: In(after, overlayRegion(bag), bag)
                  <==> if bag == op.bag then op.AddToIndex? else In(index, overlayRegion(bag), bag))
  {
    forall region, bag
      ensures In(Applied(index, op, overlayRegion), region, bag)
              <==> if bag == op.bag && region == overlayRegion(op.bag) then op.AddToIndex? else In(index, region, bag)
    {
      AppliedMembers(index, op, overlayRegion, region, bag);
    }
  }

  /** The updates a call has to make: a registration adds its bag after the bag it evicts, if any, has been
      taken out by the callback; a deregistration takes its bag out, after the callback has done so
      already if the bag was registered. */
  lemma UpdatesOfACall(recent: seq<Bag>, bag: Bag, limit: nat)
    requires Distinct(recent) && |recent| <= limit && limit >= 1
    ensures bag in recent || |recent| < limit ==> OpsOf(recent, RegisterBegins(bag), limit) == [AddToIndex(bag)]
    ensures bag !in recent && |recent| == limit
        ==> OpsOf(recent, RegisterBegins(bag), limit) == [RemoveFromIndex(recent[0]), AddToIndex(bag)]
    ensures |OpsOf(recent, DeregisterBegins(bag), limit)| == if bag in recent then 2 else 1
    ensures forall op :: op in OpsOf(recent, DeregisterBegins(bag), limit) ==> op == RemoveFromIndex(bag)
  {
  }

  lemma StepKeepsWellFormed(s: System, a: Action, limit: nat, overlayRegion: Bag -> Region)
    requires WellFormed(s, limit, overlayRegion) && limit >= 1
    ensures WellFormed(Step(s, a, limit, overlayRegion), limit, overlayRegion)
  {
    match a
    case RegisterBegins(bag) => AddedFacts(s.recent, bag, limit);
    case DeregisterBegins(bag) => WithoutFacts(s.recent, bag);
    case IndexStep(i) =>
      if i < |s.calls| && s.calls[i] != [] {
        AppliedFacts(s.index, s.calls[i][0], overlayRegion);
      }
  }

  lemma BeginsPending(s: System, a: Action, limit: nat, overlayRegion: Bag -> Region, op: IndexOp)
    requires !a.IndexStep?
    ensures Pending(Step(s, a, limit, overlayRegion), op) <==> Pending(s, op) || op in OpsOf(s.recent, a, limit)
  {
    var t := Step(s, a, limit, overlayRegion);
    assert t.calls[|s.calls|] == OpsOf(s.recent, a, limit);
    if Pending(s, op) {
      var i :| 0 <= i < |s.calls| && op in s.calls[i];
      assert op in t.calls[i];
    }
  }

  lemma IndexStepPending(s: System, i: nat, limit: nat, overlayRegion: Bag -> Region, op: IndexOp)
    requires i < |s.calls| && s.calls[i] != []
    ensures Pending(Step(s, IndexStep(i), limit, overlayRegion), op) ==> Pending(s, op)
    ensures op != s.calls[i][0] && Pending(s, op) ==> Pending(Step(s, IndexStep(i), limit, overlayRegion), op)
    ensures Pending(s, s.calls[i][0])
  {
    var t := Step(s, IndexStep(i), limit, overlayRegion);
    if Pending(t, op) {
      var j :| 0 <= j < |t.calls| && op in t.calls[j];
      assert op in s.calls[j];
    }
    if op != s.calls[i][0] && Pending(s, op) {
      var j :| 0 <= j < |s.calls| && op in s.calls[j];
      assert op in t.calls[j];
    }
  }

  lemma RegisterKeepsAgrees(s: System, bag: Bag, limit: nat, overlayRegion: Bag -> Region, other: Bag)
    requires WellFormed(s, limit, overlayRegion) && Agrees(s, overlayRegion) && limit >= 1
    requires !Crosses(s, RegisterBegins(bag), limit)
    ensures AgreesOn(Step(s, RegisterBegins(bag), limit, overlayRegion), overlayRegion, other)
  {
    var a := RegisterBegins(bag);
    AddedFacts(s.recent, bag, limit);
    assert AgreesOn(s, overlayRegion, other);
    BeginsPending(s, a, limit, overlayRegion, AddToIndex(other));
    BeginsPending(s, a, limit, overlayRegion, RemoveFromIndex(other));
    assert AddToIndex(other) in OpsOf(s.recent, a, limit) <==> other == bag;
    assert RemoveFromIndex(other) in OpsOf(s.recent, a, limit) <==> Some(other) == Victim(s.recent, bag, limit);
  }

  lemma DeregisterKeepsAgrees(s: System, bag: Bag, limit: nat, overlayRegion: Bag -> Region, other: Bag)
    requires Agrees(s, overlayRegion) && !Crosses(s, DeregisterBegins(bag), limit)
    ensures AgreesOn(Step(s, DeregisterBegins(bag), limit, overlayRegion), overlayRegion, other)
  {
    var a := DeregisterBegins(bag);
    WithoutFacts(s.recent, bag);
    assert AgreesOn(s, overlayRegion, other);
    BeginsPending(s, a, limit, overlayRegion, AddToIndex(other));
    BeginsPending(s, a, limit, overlayRegion, RemoveFromIndex(other));
    assert RemoveFromIndex(other) in OpsOf(s.recent, a, limit) <==> other == bag;
  }

  lemma BeginKeepsAgrees(s: System, a: Action, limit: nat, overlayRegion: Bag -> Region)
    requires WellFormed(s, limit, overlayRegion) && Agrees(s, overlayRegion) && limit >= 1
    requires !a.IndexStep? && !Crosses(s, a, limit)
    ensures Agrees(Step(s, a, limit, overlayRegion), overlayRegion)
  {
    forall other
      ensures AgreesOn(Step(s, a, limit, overlayRegion), overlayRegion, other)
    {
      match a
      case RegisterBegins(bag) => RegisterKeepsAgrees(s, bag, limit, overlayRegion, other);
      case DeregisterBegins(bag) => DeregisterKeepsAgrees(s, bag, limit, overlayRegion, other);
    }
  }

  lemma IndexStepKeepsAgrees(s: System, i: nat, limit: nat, overlayRegion: Bag -> Region)
    requires WellFormed(s, limit, overlayRegion) && Agrees(s, overlayRegion)
    requires i < |s.calls| && s.calls[i] != []
    ensures Agrees(Step(s, IndexStep(i), limit, overlayRegion), overlayRegion)
  {
    var t := Step(s, IndexStep(i), limit, overlayRegion);
    var op := s.calls[i][0];
    AppliedFacts(s.index, op, overlayRegion);
    forall bag
      ensures AgreesOn(t, overlayRegion, bag)
    {
      assert AgreesOn(s, overlayRegion, bag);
      IndexStepPending(s, i, limit, overlayRegion, AddToIndex(bag));
      IndexStepPending(s, i, limit, overlayRegion, RemoveFromIndex(bag));
    }
  }

  lemma {:induction false} RunKeepsAgrees(s: System, schedule: seq<Action>, limit: nat, overlayRegion: Bag -> Region)
    requires WellFormed(s, limit, overlayRegion) && limit >= 1
    ensures WellFormed(Run(s, schedule, limit, overlayRegion), limit, overlayRegion)
    ensures (Agrees(s, overlayRegion) && NeverCrosses(s, schedule, limit, overlayRegion))
              ==> Agrees(Run(s, schedule, limit, overlayRegion), overlayRegion)
    decreases |schedule|
  {
    if schedule != [] {
      var a := schedule[0];
      StepKeepsWellFormed(s, a, limit, overlayRegion);
      if Agrees(s, overlayRegion) && !Crosses(s, a, limit) {
        if !a.IndexStep? {
          BeginKeepsAgrees(s, a, limit, overlayRegion);
        } else if a.i < |s.calls| && s.calls[a.i] != [] {
          IndexStepKeepsAgrees(s, a.i, limit, overlayRegion);
        }
      }
      RunKeepsAgrees(Step(s, a, limit, overlayRegion), schedule[1..], limit, overlayRegion);
    }
  }

  /** In every interleaving the cache keeps its limit, no region is left empty and no bag is indexed
      under a region not its own; and when no call crossed a pending update and all have ended, the
      index is the mirror of the cache. */
  lemma {:induction false} IndexMirrorsCache(schedule: seq<Action>, limit: nat, overlayRegion: Bag -> Region)
    requires limit >= 1
    ensures var s := Run(EMPTY, schedule, limit, overlayRegion);
            && |s.recent| <= limit && Distinct(s.recent)
            && NoEmptyRegion(s.index) && RightRegions(s.index, overlayRegion)
            && ((NeverCrosses(EMPTY, schedule, limit, overlayRegion) && Quiet(s))
                  ==> Mirrors(s.recent, s.index, overlayRegion))
  {
    RunKeepsAgrees(EMPTY, schedule, limit, overlayRegion);
    var s := Run(EMPTY, schedule, limit, overlayRegion);
    if NeverCrosses(EMPTY, schedule, limit, overlayRegion) && Quiet(s) {
      forall bag
        ensures bag in s.recent <==> In(s.index, overlayRegion(bag), bag)
      {
        assert Settled(s, bag) && AgreesOn(s, overlayRegion, bag);
      }
    }
  }

  // ---- without the condition the mirror can break ----

  /** Whether `bag` is indexed once `ops` have been made, given whether it was. */
  function IndexedAfter(ops: seq<IndexOp>, bag: Bag, was: bool): bool {
    if ops == [] then was
    else IndexedAfter(ops[1..], bag, if ops[0].bag == bag then ops[0].AddToIndex? else was)
  }

  lemma {:induction false} LastWordIsTheKind(ops: seq<IndexOp>, op: IndexOp, was: bool)
    requires OneKindPerBag(ops)
    ensures op in ops ==> IndexedAfter(ops, op.bag, was) == op.AddToIndex?
    ensures (was == op.AddToIndex? && forall other :: other in ops && other.bag == op.bag ==> other == op)
            ==> IndexedAfter(ops, op.bag, was) == op.AddToIndex?
  {
    if ops != [] {
      var first := ops[0];
      assert forall other :: other in ops[1..] ==> other in ops;
      assert op in ops ==> op == first || op in ops[1..];
      if op in ops {
        var k :| 0 <= k < |ops| && ops[k] == op;
        assert forall j :: 0 <= j < |ops| && ops[j].bag == ops[k].bag ==> ops[j] == ops[k];
      }
      LastWordIsTheKind(ops[1..], op, if first.bag == op.bag then first.AddToIndex? else was);
    }
  }

  function Repeated(i: nat, n: nat): seq<Action> {
    if n == 0 then [] else [IndexStep(i)] + Repeated(i, n - 1)
  }

  lemma {:induction false} RunConcat(s: System, first: seq<Action>, second: seq<Action>, limit: nat, overlayRegion: Bag -> Region)
    ensures Run(s, first + second, limit, overlayRegion)
         == Run(Run(s, first, limit, overlayRegion), second, limit, overlayRegion)
    decreases |first|
  {
    if first == [] {
      assert first + second == second;
    } else {
      assert (first + second)[1..] == first[1..] + second;
      RunConcat(Step(s, first[0], limit, overlayRegion), first[1..], second, limit, overlayRegion);
    }
  }

  // ---- least recently registered ----

  /** When the bag was last registered in a run, or -1. */
  function LastRegistered(schedule: seq<Action>, bag: Bag): int {
    if schedule == [] then -1
    else if schedule[|schedule| - 1] == RegisterBegins(bag) then |schedule| - 1
    else LastRegistered(schedule[..|schedule| - 1], bag)
  }

  lemma {:induction false} LastRegisteredIsEarlier(schedule: seq<Action>, bag: Bag)
    ensures -1 <= LastRegistered(schedule, bag) < |schedule|
  {
    if schedule != [] {
      LastRegisteredIsEarlier(schedule[..|schedule| - 1], bag);
    }
  }

  ghost predicate ByRegistration(recent: seq<Bag>, schedule: seq<Action>) {
    && (forall i :: 0 <= i < |recent| ==> LastRegistered(schedule, recent[i]) >= 0)
    && (forall i, j :: 0 <= i < j < |recent| ==> LastRegistered(schedule, recent[i]) < LastRegistered(schedule, recent[j]))
  }

  lemma {:induction false} WithoutKeepsOrder(recent: seq<Bag>, bag: Bag, schedule: seq<Action>)
    requires ByRegistration(recent, schedule)
    ensures ByRegistration(Without(recent, bag), schedule)
  {
    if recent != [] {
      WithoutKeepsOrder(recent[1..], bag, schedule);
      WithoutFacts(recent[1..], bag);
      FirstIsEarliest(recent, schedule);
      if recent[0] != bag {
        FirstComesFirst(recent[0], Without(recent[1..], bag), schedule);
      }
    }
  }

  lemma FirstComesFirst(first: Bag, rest: seq<Bag>, schedule: seq<Action>)
    requires ByRegistration(rest, schedule) && LastRegistered(schedule, first) >= 0
    requires forall bag :: bag in rest ==> LastRegistered(schedule, first) < LastRegistered(schedule, bag)
    ensures ByRegistration([first] + rest, schedule)
  {
    assert forall i :: 0 <= i < |rest| ==> rest[i] in rest;
  }

  lemma FirstIsEarliest(recent: seq<Bag>, schedule: seq<Action>)
    requires recent != [] && ByRegistration(recent, schedule)
    ensures forall bag :: bag in recent[1..] ==> LastRegistered(schedule, recent[0]) < LastRegistered(schedule, bag)
  {
    forall bag | bag in recent[1..]
      ensures LastRegistered(schedule, recent[0]) < LastRegistered(schedule, bag)
    {
      var j :| 0 <= j < |recent[1..]| && recent[1..][j] == bag;
      assert recent[j + 1] == bag;
    }
  }

  lemma RegisteredComesLast(kept: seq<Bag>, bag: Bag, schedule: seq<Action>)
    requires ByRegistration(kept, schedule) && bag !in kept
    ensures ByRegistration(kept + [bag], schedule + [RegisterBegins(bag)])
  {
    var after := schedule + [RegisterBegins(bag)];
    assert after[..|schedule|] == schedule;
    forall i | 0 <= i < |kept|
      ensures LastRegistered(after, kept[i]) == LastRegistered(schedule, kept[i]) < |schedule|
    {
      assert kept[i] in kept;
      LastRegisteredIsEarlier(schedule, kept[i]);
    }
  }

  lemma AddedKeepsOrder(recent: seq<Bag>, bag: Bag, limit: nat, schedule: seq<Action>)
    requires ByRegistration(recent, schedule) && |recent| <= limit && limit >= 1
    ensures ByRegistration(Added(recent, bag, limit), schedule + [RegisterBegins(bag)])
  {
    if bag in recent {
      WithoutFacts(recent, bag);
      WithoutKeepsOrder(recent, bag, schedule);
      RegisteredComesLast(Without(recent, bag), bag, schedule);
    } else if |recent| >= limit {
      assert (recent + [bag])[1..] == recent[1..] + [bag];
      RegisteredComesLast(recent[1..], bag, schedule);
    } else {
      RegisteredComesLast(recent, bag, schedule);
    }
  }

  /** The recency list, in any interleaving: the registered bags in the order of their last
      registration. */
  lemma {:induction false} RecentIsByRegistration(schedule: seq<Action>, limit: nat, overlayRegion: Bag -> Region)
    requires limit >= 1
    ensures ByRegistration(Run(EMPTY, schedule, limit, overlayRegion).recent, schedule)
    decreases |schedule|
  {
    if schedule != [] {
      var (front, last) := (schedule[..|schedule| - 1], schedule[|schedule| - 1]);
      var s := Run(EMPTY, front, limit, overlayRegion);
      assert schedule == front + [last];
      RunConcat(EMPTY, front, [last], limit, overlayRegion);
      assert Run(s, [last], limit, overlayRegion) == Step(s, last, limit, overlayRegion);
      RecentIsByRegistration(front, limit, overlayRegion);
      RunKeepsAgrees(EMPTY, front, limit, overlayRegion);
      match last
      case RegisterBegins(bag) => AddedKeepsOrder(s.recent, bag, limit, front);
      case DeregisterBegins(bag) => WithoutKeepsOrder(s.recent, bag, front);
      case IndexStep(_) =>
    }
  }

  /** So a registration evicts exactly when the bag is new and the cache full, and then the bag whose last
      registration is the longest ago. */
  lemma {:induction false} VictimIsLeastRecent(schedule: seq<Action>, bag: Bag, limit: nat, overlayRegion: Bag -> Region)
    requires limit >= 1
    ensures var s := Run(EMPTY, schedule, limit, overlayRegion);
            var t := Step(s, RegisterBegins(bag), limit, overlayRegion);
            && bag in t.recent
            && (forall other :: other in t.recent ==> other in s.recent || other == bag)
            && (forall gone :: gone in s.recent && gone !in t.recent ==>
                  && bag !in s.recent && |s.recent| == limit
                  && forall other :: other in s.recent && other != gone ==>
                       other in t.recent && LastRegistered(schedule, gone) < LastRegistered(schedule, other))
            && (bag !in s.recent && |s.recent| == limit ==> exists gone :: gone in s.recent && gone !in t.recent)
  {
    var s := Run(EMPTY, schedule, limit, overlayRegion);
    RecentIsByRegistration(schedule, limit, overlayRegion);
    RunKeepsAgrees(EMPTY, schedule, limit, overlayRegion);
    AddedFacts(s.recent, bag, limit);
    if bag !in s.recent && |s.recent| == limit {
      var gone := s.recent[0];
      assert gone in s.recent && Victim(s.recent, bag, limit) == Some(gone);
      forall other | other in s.recent && other != gone
        ensures LastRegistered(schedule, gone) < LastRegistered(schedule, other)
      {
        var i :| 0 <= i < |s.recent| && s.recent[i] == other;
      }
    }
  }

  function Drained(index: map<Region, set<Bag>>, ops: seq<IndexOp>, overlayRegion: Bag -> Region): map<Region, set<Bag>>
    decreases |ops|
  {
    if ops == [] then index else Drained(Applied(index, ops[0], overlayRegion), ops[1..], overlayRegion)
  }

  lemma {:induction false} DrainedFacts(
    index: map<Region, set<Bag>>, ops: seq<IndexOp>, overlayRegion: Bag -> Region, bag: Bag)
    requires NoEmptyRegion(index) && RightRegions(index, overlayRegion)
    ensures var after := Drained(index, ops, overlayRegion);
            && NoEmptyRegion(after) && RightRegions(after, overlayRegion)
            && In(after, overlayRegion(bag), bag) == IndexedAfter(ops, bag, In(index, overlayRegion(bag), bag))
    decreases |ops|
  {
    if ops != [] {
      AppliedFacts(index, ops[0], overlayRegion);
      DrainedFacts(Applied(index, ops[0], overlayRegion), ops[1..], overlayRegion, bag);
    }
  }

  /** One call run to its end. */
  function Finish(s: System, i: nat, overlayRegion: Bag -> Region): System
    requires i < |s.calls|
  {
    s.(index := Drained(s.index, s.calls[i], overlayRegion), calls := s.calls[i := []])
  }

  lemma {:induction false} FinishRuns(s: System, i: nat, limit: nat, overlayRegion: Bag -> Region)
    requires i < |s.calls|
    ensures Run(s, Repeated(i, |s.calls[i]|), limit, overlayRegion) == Finish(s, i, overlayRegion)
    decreases |s.calls[i]|
  {
    if s.calls[i] == [] {
      assert s.calls[i := []] == s.calls;
    } else {
      var t := Step(s, IndexStep(i), limit, overlayRegion);
      assert Repeated(i, |s.calls[i]|)[1..] == Repeated(i, |t.calls[i]|);
      assert t.calls[i := []] == s.calls[i := []];
      FinishRuns(t, i, limit, overlayRegion);
    }
  }

  /** The calls below `n` run to their ends in turn, leaving out call `last`. */
  function OthersDone(s: System, n: nat, last: nat, overlayRegion: Bag -> Region): (t: System)
    requires n <= |s.calls|
    ensures |t.calls| == |s.calls| && t.recent == s.recent
    ensures forall j :: 0 <= j < |s.calls| ==> t.calls[j] == if j < n && j != last then [] else s.calls[j]
  {
    if n == 0 then s
    else if n - 1 == last then OthersDone(s, n - 1, last, overlayRegion)
    else Finish(OthersDone(s, n - 1, last, overlayRegion), n - 1, overlayRegion)
  }

  lemma {:induction false} OthersKeepIndex(s: System, n: nat, last: nat, overlayRegion: Bag -> Region)
    requires n <= |s.calls| && NoEmptyRegion(s.index) && RightRegions(s.index, overlayRegion)
    ensures NoEmptyRegion(OthersDone(s, n, last, overlayRegion).index)
    ensures RightRegions(OthersDone(s, n, last, overlayRegion).index, overlayRegion)
  {
    if n > 0 {
      OthersKeepIndex(s, n - 1, last, overlayRegion);
      var t := OthersDone(s, n - 1, last, overlayRegion);
      DrainedFacts(t.index, t.calls[n - 1], overlayRegion, 0);
    }
  }

  lemma {:induction false} OthersRun(s: System, n: nat, last: nat, limit: nat, overlayRegion: Bag -> Region)
    returns (schedule: seq<Action>)
    requires n <= |s.calls|
    ensures Run(s, schedule, limit, overlayRegion) == OthersDone(s, n, last, overlayRegion)
    decreases n
  {
    if n == 0 {
      schedule := [];
    } else {
      schedule := OthersRun(s, n - 1, last, limit, overlayRegion);
      if n - 1 != last {
        schedule := FinishAfter(s, schedule, OthersDone(s, n - 1, last, overlayRegion), n - 1, limit, overlayRegion);
      }
    }
  }

  lemma {:induction false} FinishAfter(s: System, before: seq<Action>, t: System, i: nat, limit: nat, overlayRegion: Bag -> Region)
    returns (schedule: seq<Action>)
    requires i < |t.calls| && Run(s, before, limit, overlayRegion) == t
    ensures Run(s, schedule, limit, overlayRegion) == Finish(t, i, overlayRegion)
  {
    FinishRuns(t, i, limit, overlayRegion);
    RunConcat(s, before, Repeated(i, |t.calls[i]|), limit, overlayRegion);
    schedule := before + Repeated(i, |t.calls[i]|);
  }

  lemma FinishedLast(s: System, op: IndexOp, i: nat, overlayRegion: Bag -> Region)
    requires NoEmptyRegion(s.index) && RightRegions(s.index, overlayRegion)
    requires i < |s.calls| && op in s.calls[i] && OneKindPerBag(s.calls[i])
    ensures var t := Finish(OthersDone(s, |s.calls|, i, overlayRegion), i, overlayRegion);
            Quiet(t) && t.recent == s.recent && (In(t.index, overlayRegion(op.bag), op.bag) <==> op.AddToIndex?)
  {
    var t := OthersDone(s, |s.calls|, i, overlayRegion);
    OthersKeepIndex(s, |s.calls|, i, overlayRegion);
    DrainedFacts(t.index, t.calls[i], overlayRegion, op.bag);
    LastWordIsTheKind(t.calls[i], op, In(t.index, overlayRegion(op.bag), op.bag));
  }

  /** Any pending update can be made the last one for its bag. */
  lemma {:induction false} PendingCanComeLast(s: System, op: IndexOp, limit: nat, overlayRegion: Bag -> Region)
    requires WellFormed(s, limit, overlayRegion) && Pending(s, op)
    ensures exists schedule :: EndsWith(s, schedule, op, limit, overlayRegion)
  {
    var i :| 0 <= i < |s.calls| && op in s.calls[i];
    FinishedLast(s, op, i, overlayRegion);
    var others := OthersRun(s, |s.calls|, i, limit, overlayRegion);
    var t := OthersDone(s, |s.calls|, i, overlayRegion);
    var schedule := FinishAfter(s, others, t, i, limit, overlayRegion);
    assert EndsWith(s, schedule, op, limit, overlayRegion);
  }

  ghost predicate EndsWith(s: System, schedule: seq<Action>, op: IndexOp, limit: nat, overlayRegion: Bag -> Region) {
    var t := Run(s, schedule, limit, overlayRegion);
    Quiet(t) && t.recent == s.recent && (In(t.index, overlayRegion(op.bag), op.bag) <==> op.AddToIndex?)
  }

  /** Cached and not indexed, or indexed and not cached, with no index update to come. */
  predicate Disagrees(s: System, bag: Bag, overlayRegion: Bag -> Region) {
    Settled(s, bag) && (bag in s.recent) != In(s.index, overlayRegion(bag), bag)
  }

  /** Whenever a call does cross a pending update, the calls can end with the index wrong about a bag:
      one evicted or deregistered is still indexed, or a registered one is missing. */
  lemma {:induction false} CrossingCanBreakTheMirror(s: System, a: Action, limit: nat, overlayRegion: Bag -> Region)
    requires WellFormed(s, limit, overlayRegion) && limit >= 1 && Crosses(s, a, limit)
    ensures exists schedule, bag ::
              var t := Run(Step(s, a, limit, overlayRegion), schedule, limit, overlayRegion);
              Quiet(t) && Disagrees(t, bag, overlayRegion) && !Mirrors(t.recent, t.index, overlayRegion)
  {
    var t := Step(s, a, limit, overlayRegion);
    StepKeepsWellFormed(s, a, limit, overlayRegion);
    WithoutFacts(s.recent, a.bag);
    AddedFacts(s.recent, a.bag, limit);
    var op := CrossedOp(s, a, limit);
    BeginsPending(s, a, limit, overlayRegion, op);
    PendingCanComeLast(t, op, limit, overlayRegion);
    var schedule :| EndsWith(t, schedule, op, limit, overlayRegion);
    var u := Run(t, schedule, limit, overlayRegion);
    assert Disagrees(u, op.bag, overlayRegion);
  }

  /** The pending update that the call crosses. */
  ghost function CrossedOp(s: System, a: Action, limit: nat): (op: IndexOp)
    requires Crosses(s, a, limit)
    ensures Pending(s, op)
  {
    match a
    case RegisterBegins(bag) =>
      if Pending(s, RemoveFromIndex(bag)) then RemoveFromIndex(bag) else AddToIndex(Victim(s.recent, bag, limit).value)
    case DeregisterBegins(bag) => AddToIndex(bag)
  }

  const CROSSED := [RegisterBegins(7), DeregisterBegins(7)]
  const INDEXED_LATE := [IndexStep(1), IndexStep(1), IndexStep(0)]

  /** A registration whose index update comes after the deregistration that followed it: the bag is not
      registered and stays indexed. */
  lemma CrossingExample(overlayRegion: Bag -> Region)
    ensures var s := Run(Run(EMPTY, CROSSED, 1, overlayRegion), INDEXED_LATE, 1, overlayRegion);
            Quiet(s) && s.recent == [] && In(s.index, overlayRegion(7), 7)
  {
  }

  /** A call that registers, deregisters or evicts the bag. */
  predicate Concerns(s: System, a: Action, bag: Bag, limit: nat) {
    match a
    case RegisterBegins(b) => b == bag || Victim(s.recent, b, limit) == Some(bag)
    case DeregisterBegins(b) => b == bag
    case IndexStep(_) => false
  }

  ghost predicate NeverConcerns(
    s: System, schedule: seq<Action>, bag: Bag, limit: nat, overlayRegion: Bag -> Region)
    decreases |schedule|
  {
    schedule == []
    || (!Concerns(s, schedule[0], bag, limit)
        && NeverConcerns(Step(s, schedule[0], limit, overlayRegion), schedule[1..], bag, limit, overlayRegion))
  }

  lemma StepKeepsDisagreement(s: System, a: Action, bag: Bag, limit: nat, overlayRegion: Bag -> Region)
    requires WellFormed(s, limit, overlayRegion) && limit >= 1
    requires Disagrees(s, bag, overlayRegion) && !Concerns(s, a, bag, limit)
    ensures Disagrees(Step(s, a, limit, overlayRegion), bag, overlayRegion)
  {
    if a.IndexStep? {
      if a.i < |s.calls| && s.calls[a.i] != [] {
        IndexStepPending(s, a.i, limit, overlayRegion, AddToIndex(bag));
        IndexStepPending(s, a.i, limit, overlayRegion, RemoveFromIndex(bag));
        AppliedFacts(s.index, s.calls[a.i][0], overlayRegion);
        assert s.calls[a.i][0] == AddToIndex(s.calls[a.i][0].bag) || s.calls[a.i][0] == RemoveFromIndex(s.calls[a.i][0].bag);
      }
    } else {
      WithoutFacts(s.recent, a.bag);
      AddedFacts(s.recent, a.bag, limit);
      BeginsPending(s, a, limit, overlayRegion, AddToIndex(bag));
      BeginsPending(s, a, limit, overlayRegion, RemoveFromIndex(bag));
    }
  }

  /** Such a disagreement lasts until a call concerns the bag again, */
  lemma {:induction false} DisagreementLasts(
    s: System, schedule: seq<Action>, bag: Bag, limit: nat, overlayRegion: Bag -> Region)
    requires WellFormed(s, limit, overlayRegion) && limit >= 1
    requires Disagrees(s, bag, overlayRegion) && NeverConcerns(s, schedule, bag, limit, overlayRegion)
    ensures Disagrees(Run(s, schedule, limit, overlayRegion), bag, overlayRegion)
    decreases |schedule|
  {
    if schedule != [] {
      StepKeepsDisagreement(s, schedule[0], bag, limit, overlayRegion);
      StepKeepsWellFormed(s, schedule[0], limit, overlayRegion);
      DisagreementLasts(Step(s, schedule[0], limit, overlayRegion), schedule[1..], bag, limit, overlayRegion);
    }
  }

  /** and a call that does, run to its end, repairs it: index and cache agree about every bag that the
      call concerns. */
  lemma {:induction false} CallRepairsItsBags(s: System, a: Action, bag: Bag, limit: nat, overlayRegion: Bag -> Region)
    requires WellFormed(s, limit, overlayRegion) && limit >= 1 && Concerns(s, a, bag, limit)
    ensures var begun := Step(s, a, limit, overlayRegion);
            var t := Run(begun, Repeated(|s.calls|, |begun.calls[|s.calls|]|), limit, overlayRegion);
            t.recent == begun.recent && (bag in t.recent <==> In(t.index, overlayRegion(bag), bag))
  {
    var begun := Step(s, a, limit, overlayRegion);
    var ops := OpsOf(s.recent, a, limit);
    StepKeepsWellFormed(s, a, limit, overlayRegion);
    WithoutFacts(s.recent, a.bag);
    AddedFacts(s.recent, a.bag, limit);
    FinishRuns(begun, |s.calls|, limit, overlayRegion);
    DrainedFacts(s.index, ops, overlayRegion, bag);
    var op := if bag in begun.recent then AddToIndex(bag) else RemoveFromIndex(bag);
    assert begun.calls[|s.calls|] == ops && op in ops;
    LastWordIsTheKind(ops, op, In(s.index, overlayRegion(bag), bag));
  }

  // ---- the sweep ----

  datatype Event = Tick | Registered(bag: Bag) | Deregistered(bag: Bag)

  /** The registrar between calls, with the region the next tick sweeps. */
  datatype Sweeping = Sweeping(recent: seq<Bag>, currentRegion: Region)

  function Next(s: Sweeping, e: Event, limit: nat): Sweeping {
    match e
    case Tick => s.(currentRegion := (s.currentRegion + 1) % REGION_COUNT)
    case Registered(bag) => s.(recent := Added(s.recent, bag, limit))
    case Deregistered(bag) => s.(recent := Without(s.recent, bag))
  }

  function Ticks(events: seq<Event>): nat {
    if events == [] then 0 else (if events[0].Tick? then 1 else 0) + Ticks(events[1..])
  }

  /** How often the sweep visits `bag`, the index mirroring the cache. */
  function Visits(s: Sweeping, events: seq<Event>, bag: Bag, limit: nat, overlayRegion: Bag -> Region): nat
    decreases |events|
  {
    if events == [] then 0
    else
      (if events[0].Tick? && bag in s.recent && overlayRegion(bag) == s.currentRegion then 1 else 0)
      + Visits(Next(s, events[0], limit), events[1..], bag, limit, overlayRegion)
  }

  predicate StaysRegistered(s: Sweeping, events: seq<Event>, bag: Bag, limit: nat)
    decreases |events|
  {
    bag in s.recent && (events == [] || StaysRegistered(Next(s, events[0], limit), events[1..], bag, limit))
  }

  /** Ticks until the sweep reaches `region`. */
  function Away(region: Region, current: Region): (n: nat)
    ensures n < REGION_COUNT && (current + n) % REGION_COUNT == region
  {
    if region >= current then region - current else region + REGION_COUNT - current
  }

  /** Between ticks the sweep sees the bags that the calls leave registered. */
  lemma SweepSeesTheCalls(s: Sweeping, t: System, bag: Bag, limit: nat, overlayRegion: Bag -> Region)
    requires s.recent == t.recent
    ensures Next(s, Registered(bag), limit)
         == Sweeping(Step(t, RegisterBegins(bag), limit, overlayRegion).recent, s.currentRegion)
    ensures Next(s, Deregistered(bag), limit)
         == Sweeping(Step(t, DeregisterBegins(bag), limit, overlayRegion).recent, s.currentRegion)
    ensures Next(s, Tick, limit) == Sweeping(s.recent, if s.currentRegion == 255 then 0 else s.currentRegion + 1)
  {
  }

  lemma {:induction false} VisitsWithinOneRound(
    s: Sweeping, events: seq<Event>, bag: Bag, limit: nat, overlayRegion: Bag -> Region)
    requires StaysRegistered(s, events, bag, limit) && Ticks(events) <= REGION_COUNT
    ensures Visits(s, events, bag, limit, overlayRegion)
         == if Away(overlayRegion(bag), s.currentRegion) < Ticks(events) then 1 else 0
    decreases |events|
  {
    if events != [] {
      VisitsWithinOneRound(Next(s, events[0], limit), events[1..], bag, limit, overlayRegion);
    }
  }

  /** From any region, any 256 ticks visit a bag that stays registered exactly once, whatever is
      registered, evicted and deregistered between them. */
  lemma EveryRoundVisitsOnce(
    s: Sweeping, events: seq<Event>, bag: Bag, limit: nat, overlayRegion: Bag -> Region)
    requires StaysRegistered(s, events, bag, limit) && Ticks(events) == REGION_COUNT
    ensures Visits(s, events, bag, limit, overlayRegion) == 1
  {
    VisitsWithinOneRound(s, events, bag, limit, overlayRegion);
  }

  // ---- the registrar object ----

  class Registrar {
    const limit: nat
    const overlayRegion: Bag -> Region
    var recent: seq<Bag>
    var index: map<Region, set<Bag>>
    var currentRegion: Region

    ghost predicate Valid()
      reads this
    {
      && limit >= 1 && |recent| <= limit && Distinct(recent)
      && NoEmptyRegion(index) && Mirrors(recent, index, overlayRegion)
    }

    constructor (limit: nat, overlayRegion: Bag -> Region)
      requires limit >= 1
      ensures Valid() && recent == [] && currentRegion == 0
      ensures this.limit == limit && this.overlayRegion == overlayRegion
    {
      this.limit, this.overlayRegion := limit, overlayRegion;
      recent, index, currentRegion := [], map[], 0;
    }

    method AddToRegionIndex(bag: Bag)
      modifies this`index
      ensures index == IndexAdd(old(index), overlayRegion(bag), bag)
    {
      var region := overlayRegion(bag);
      if region !in index {
        index := index[region := {}];
      }
      index := index[region := index[region] + {bag}];
    }

    method RemoveFromRegionIndex(bag: Bag)
      modifies this`index
      ensures index == IndexRemove(old(index), overlayRegion(bag), bag)
    {
      var region := overlayRegion(bag);
      if region in index {
        index := index[region := index[region] - {bag}];
        if index[region] == {} {
          index := index - {region};
        }
      }
    }

    method Register(bag: Bag)
      requires Valid()
      modifies this`recent, this`index
      ensures Valid() && recent == Added(old(recent), bag, limit)
    {
      AddedFacts(recent, bag, limit);
      var victim := Victim(recent, bag, limit);
      recent := Added(recent, bag, limit);
      if victim.Some? {
        AppliedFacts(index, RemoveFromIndex(victim.value), overlayRegion);
        RemoveFromRegionIndex(victim.value);
      }
      AppliedFacts(index, AddToIndex(bag), overlayRegion);
      AddToRegionIndex(bag);
    }

    method Deregister(bag: Bag)
      requires Valid()
      modifies this`recent, this`index
      ensures Valid() && recent == Without(old(recent), bag)
    {
      WithoutFacts(recent, bag);
      var cached := bag in recent;
      recent := Without(recent, bag);
      if cached {
        AppliedFacts(index, RemoveFromIndex(bag), overlayRegion);
        RemoveFromRegionIndex(bag);
      }
      AppliedFacts(index, RemoveFromIndex(bag), overlayRegion);
      RemoveFromRegionIndex(bag);
    }

    /** The bags of a region, each once, in any order. */
    method BagsInRegion(region: Region) returns (result: seq<Bag>)
      requires Valid()
      ensures Distinct(result)
      ensures forall bag :: bag in result <==> bag in recent && overlayRegion(bag) == region
    {
      result := [];
      assert forall bag :: In(index, region, bag) <==> bag in recent && overlayRegion(bag) == region by {
        assert forall bag :: In(index, region, bag) ==> In(index, overlayRegion(bag), bag);
      }
      if region !in index {
        return;
      }
      var left := index[region];
      while left != {}
        invariant left <= index[region] && Distinct(result)
        invariant forall bag :: bag in result <==> bag in index[region] && bag !in left
        decreases |left|
      {
        var bag :| bag in left;
        result := result + [bag];
        left := left - {bag};
      }
      assert forall bag :: bag in index[region] <==> In(index, region, bag);
    }

    /** One tick of the sweep; `bags` are the ones refreshed. */
    method SweepTick() returns (bags: seq<Bag>)
      requires Valid()
      modifies this`currentRegion
      ensures Valid() && Distinct(bags)
      ensures forall bag :: bag in bags <==> bag in recent && overlayRegion(bag) == old(currentRegion)
      ensures Sweeping(recent, currentRegion) == Next(Sweeping(recent, old(currentRegion)), Tick, limit)
    {
      bags := BagsInRegion(currentRegion);
      currentRegion := (currentRegion + 1) % REGION_COUNT;
    }
  }
}
