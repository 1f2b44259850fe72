/** The connection cap (connection_handler.go): an atomic counter added to before the check and
    undone when the check fails. Every goroutine step is an action. */
module ConnectionCap {
  /** Where the handler of one peer stands. `Checking` holds what its own increment returned; a peer
      `Lost` dropped before its disconnect handler was installed. */
  datatype Conn = Checking(newCount: int) | Rejecting | Rejected | Installing | Live | Gone | Lost

  datatype Server = Server(activeConnections: int, conns: seq<Conn>)

  datatype Action =
    | Connects(ready: bool)
    | Checks(i: nat)
    | Undoes(i: nat)
    | InstallsHandler(i: nat)
    | Disconnects(i: nat)

  const EMPTY := Server(0, [])

  function ConnStep(s: Server, i: nat, a: Action, maxConnections: int): Server
    requires i < |s.conns|
  {
    match s.conns[i]
    case Checking(newCount) =>
      if a.Checks?
      then s.(conns := s.conns[i := if newCount > maxConnections then Rejecting else Installing])
      else s
    case Rejecting =>
      if a.Undoes? then Server(s.activeConnections - 1, s.conns[i := Rejected]) else s
    case Installing =>
      if a.InstallsHandler? then s.(conns := s.conns[i := Live])
      else if a.Disconnects? then s.(conns := s.conns[i := Lost])
      else s
    case Live =>
      if a.Disconnects? then Server(s.activeConnections - 1, s.conns[i := Gone]) else s
    case _ => s
  }

  function Step(s: Server, a: Action, maxConnections: int): Server {
    match a
    case Connects(ready) =>
      if ready
      then Server(s.activeConnections + 1, s.conns + [Checking(s.activeConnections + 1)])
      else s
    case Checks(i) => if i < |s.conns| then ConnStep(s, i, a, maxConnections) else s
    case Undoes(i) => if i < |s.conns| then ConnStep(s, i, a, maxConnections) else s
    case InstallsHandler(i) => if i < |s.conns| then ConnStep(s, i, a, maxConnections) else s
    case Disconnects(i) => if i < |s.conns| then ConnStep(s, i, a, maxConnections) else s
  }

  function Run(s: Server, schedule: seq<Action>, maxConnections: int): Server
    decreases |schedule|
  {
    if schedule == [] then s else Run(Step(s, schedule[0], maxConnections), schedule[1..], maxConnections)
  }

  // ---- counting ----

  function Count(conns: seq<Conn>, p: Conn -> bool): nat {
    if conns == [] then 0
    else Count(conns[..|conns| - 1], p) + if p(conns[|conns| - 1]) then 1 else 0
  }

  lemma {:induction false} CountUpdate(conns: seq<Conn>, i: nat, c: Conn, p: Conn -> bool)
    requires i < |conns|
    ensures Count(conns[i := c], p)
         == Count(conns, p) - (if p(conns[i]) then 1 else 0) + if p(c) then 1 else 0
  {
    var front := conns[..|conns| - 1];
    if i < |front| {
      CountUpdate(front, i, c, p);
      assert conns[i := c][..|conns| - 1] == front[i := c];
    } else {
      assert conns[i := c][..|conns| - 1] == front;
    }
  }

  lemma {:induction false} CountMonotone(conns: seq<Conn>, p: Conn -> bool, q: Conn -> bool)
    requires forall c :: p(c) ==> q(c)
    ensures Count(conns, p) <= Count(conns, q)
  {
    if conns != [] {
      CountMonotone(conns[..|conns| - 1], p, q);
    }
  }

  function Admitted(): Conn -> bool {
    (c: Conn) => c.Installing? || c.Live?
  }

  function InCheck(): Conn -> bool {
    (c: Conn) => c.Checking?
  }

  function NotUndone(): Conn -> bool {
    (c: Conn) => c.Rejecting?
  }

  function LostEarly(): Conn -> bool {
    (c: Conn) => c.Lost?
  }

  /** Everything the counter counts. */
  function Counted(): Conn -> bool {
    (c: Conn) => !c.Rejected? && !c.Gone?
  }

  /** Admitted, or certain to be. */
  function Promised(maxConnections: int): Conn -> bool {
    (c: Conn) => c.Installing? || c.Live? || c.Lost? || (c.Checking? && c.newCount <= maxConnections)
  }

  lemma {:induction false} CountedSplits(conns: seq<Conn>)
    ensures Count(conns, Counted())
         == Count(conns, Admitted()) + Count(conns, InCheck()) + Count(conns, NotUndone()) + Count(conns, LostEarly())
  {
    if conns != [] {
      CountedSplits(conns[..|conns| - 1]);
    }
  }

  lemma {:induction false} AdmittedArePromised(conns: seq<Conn>, maxConnections: int)
    ensures Count(conns, Admitted()) + Count(conns, LostEarly()) <= Count(conns, Promised(maxConnections))
  {
    if conns != [] {
      AdmittedArePromised(conns[..|conns| - 1], maxConnections);
    }
  }

  // ---- what every step keeps ----

  ghost predicate Inv(s: Server, maxConnections: int) {
    && s.activeConnections == Count(s.conns, Counted())
    && Count(s.conns, Promised(maxConnections)) <= if maxConnections > 0 then maxConnections else 0
  }

  lemma ConnectKeepsInv(s: Server, maxConnections: int)
    requires Inv(s, maxConnections)
    ensures Inv(Step(s, Connects(true), maxConnections), maxConnections)
  {
    CountMonotone(s.conns, Promised(maxConnections), Counted());
  }

  lemma ConnStepKeepsInv(s: Server, i: nat, a: Action, maxConnections: int)
    requires Inv(s, maxConnections) && i < |s.conns|
    ensures Inv(ConnStep(s, i, a, maxConnections), maxConnections)
  {
    var t := ConnStep(s, i, a, maxConnections);
    var c := t.conns[i];
    CountUpdate(s.conns, i, c, Counted());
    CountUpdate(s.conns, i, c, Promised(maxConnections));
    assert s.conns[i := c] == t.conns;
  }

  lemma StepKeepsInv(s: Server, a: Action, maxConnections: int)
    requires Inv(s, maxConnections)
    ensures Inv(Step(s, a, maxConnections), maxConnections)
  {
    if a.Connects? {
      if a.ready {
        ConnectKeepsInv(s, maxConnections);
      }
    } else if a.i < |s.conns| {
      ConnStepKeepsInv(s, a.i, a, maxConnections);
    }
  }

  lemma {:induction false} RunKeepsInv(s: Server, schedule: seq<Action>, maxConnections: int)
    requires Inv(s, maxConnections)
    ensures Inv(Run(s, schedule, maxConnections), maxConnections)
    decreases |schedule|
  {
    if schedule != [] {
      StepKeepsInv(s, schedule[0], maxConnections);
      RunKeepsInv(Step(s, schedule[0], maxConnections), schedule[1..], maxConnections);
    }
  }

  // ---- main results ----

  /** In every interleaving the counter is the admitted connections, plus those in their check, plus
      rejections not yet undone, plus peers lost before their handler was installed; and admitted
      connections never exceed the cap, whatever the counter does meanwhile. */
  lemma CapHolds(schedule: seq<Action>, maxConnections: int)
    ensures var s := Run(EMPTY, schedule, maxConnections);
            && s.activeConnections
               == Count(s.conns, Admitted()) + Count(s.conns, InCheck())
                  + Count(s.conns, NotUndone()) + Count(s.conns, LostEarly())
            && Count(s.conns, Admitted()) + Count(s.conns, LostEarly()) <= if maxConnections > 0 then maxConnections else 0
  {
    var s := Run(EMPTY, schedule, maxConnections);
    RunKeepsInv(EMPTY, schedule, maxConnections);
    CountedSplits(s.conns);
    AdmittedArePromised(s.conns, maxConnections);
  }

  /** A peer is turned away exactly when, at its increment, the admitted, those in check, those not
      undone and those lost early fill the cap; so it may be turned away while fewer are live. */
  lemma RejectedIff(schedule: seq<Action>, maxConnections: int)
    ensures var s := Run(EMPTY, schedule, maxConnections);
            var connected := Step(s, Connects(true), maxConnections);
            Step(connected, Checks(|s.conns|), maxConnections).conns[|s.conns|].Rejecting?
            <==> Count(s.conns, Admitted()) + Count(s.conns, InCheck()) + Count(s.conns, NotUndone())
                 + Count(s.conns, LostEarly()) >= maxConnections
  {
    CapHolds(schedule, maxConnections);
  }

  lemma {:induction false} LostOnlyGrow(s: Server, schedule: seq<Action>, maxConnections: int)
    ensures Count(Run(s, schedule, maxConnections).conns, LostEarly()) >= Count(s.conns, LostEarly())
    decreases |schedule|
  {
    if schedule != [] {
      var (t, a) := (Step(s, schedule[0], maxConnections), schedule[0]);
      if a.Connects? {
      } else if a.i < |s.conns| {
        CountUpdate(s.conns, a.i, t.conns[a.i], LostEarly());
        assert s.conns[a.i := t.conns[a.i]] == t.conns;
      }
      LostOnlyGrow(t, schedule[1..], maxConnections);
    }
  }

  lemma {:induction false} AllPromisedAreLost(conns: seq<Conn>, maxConnections: int, i: nat)
    requires Count(conns, Promised(maxConnections)) <= Count(conns, LostEarly()) && i < |conns|
    ensures Promised(maxConnections)(conns[i]) ==> conns[i].Lost?
  {
    var front := conns[..|conns| - 1];
    CountMonotone(front, LostEarly(), Promised(maxConnections));
    if i < |front| {
      AllPromisedAreLost(front, maxConnections, i);
    }
  }

  /** Once as many peers as the cap have dropped before their disconnect handler was installed, the
      server is shut: in every continuation nobody is admitted and every check turns its peer away. */
  lemma LostPeersShutTheServer(before: seq<Action>, lossy: Server, after: seq<Action>, maxConnections: int, i: nat)
    requires lossy == Run(EMPTY, before, maxConnections)
    requires Count(lossy.conns, LostEarly()) >= maxConnections
    ensures var s := Run(lossy, after, maxConnections);
            i < |s.conns| ==>
              && !s.conns[i].Installing? && !s.conns[i].Live?
              && (s.conns[i].Checking? ==> Step(s, Checks(i), maxConnections).conns[i].Rejecting?)
  {
    var s := Run(lossy, after, maxConnections);
    RunKeepsInv(EMPTY, before, maxConnections);
    RunKeepsInv(lossy, after, maxConnections);
    LostOnlyGrow(lossy, after, maxConnections);
    if i < |s.conns| {
      AllPromisedAreLost(s.conns, maxConnections, i);
    }
  }

  /** Each connection moves only by its own goroutine and only one step at a time: it is checked, then
      undone or given its handler, and leaves; and the counter changes with an undoing and a leaving and
      with nothing else. */
  lemma ConnectionMoves(s: Server, a: Action, maxConnections: int, i: nat)
    requires !a.Connects? && i < |s.conns|
    ensures var t := Step(s, a, maxConnections);
            && |t.conns| == |s.conns|
            && t.conns[i] == (match (s.conns[i], a)
                 case (Checking(newCount), Checks(j)) =>
                   if i != j then s.conns[i] else if newCount <= maxConnections then Installing else Rejecting
                 case (Rejecting, Undoes(j)) => if i == j then Rejected else s.conns[i]
                 case (Installing, InstallsHandler(j)) => if i == j then Live else s.conns[i]
                 case (Installing, Disconnects(j)) => if i == j then Lost else s.conns[i]
                 case (Live, Disconnects(j)) => if i == j then Gone else s.conns[i]
                 case _ => s.conns[i])
            && (a.i == i ==>
                  var freed := t.conns[i] != s.conns[i] && (t.conns[i] == Rejected || t.conns[i] == Gone);
                  t.activeConnections == s.activeConnections - if freed then 1 else 0)
            && (a.i >= |s.conns| ==> t == s)
  {
  }

  /** A peer that comes when the counter has reached the cap leaves no trace, and one that comes before
      that and leaves again takes its place with it. */
  lemma PassingPeerLeavesNoTrace(s: Server, maxConnections: int)
    ensures var n := |s.conns|;
            var checked := Step(Step(s, Connects(true), maxConnections), Checks(n), maxConnections);
            var left := if s.activeConnections >= maxConnections then Step(checked, Undoes(n), maxConnections)
                        else Step(Step(checked, InstallsHandler(n), maxConnections), Disconnects(n), maxConnections);
            left == Server(s.activeConnections,
                           s.conns + [if s.activeConnections >= maxConnections then Rejected else Gone])
    ensures Step(s, Connects(false), maxConnections) == s
  {
  }

  const LOST_EARLY := [Connects(true), Checks(0), Disconnects(0)]

  /** One such peer shuts a server with a cap of one. */
  lemma OneLostPeerExample(after: seq<Action>, i: nat)
    ensures Run(EMPTY, LOST_EARLY, 1) == Server(1, [Lost])
    ensures var s := Run(Server(1, [Lost]), after, 1);
            i < |s.conns| ==> !s.conns[i].Installing? && !s.conns[i].Live?
  {
    assert Count([Lost], LostEarly()) == 1;
    LostPeersShutTheServer(LOST_EARLY, Run(EMPTY, LOST_EARLY, 1), after, 1, i);
  }

  const FIRST_LIVE := [Connects(true), Checks(0), InstallsHandler(0)]
  const SECOND_SWAPS := [Connects(true), Disconnects(0)]
  const THIRD_TRIES := [Connects(true), Checks(2)]

  /** With a cap of one: a second peer is in its check when the only live one leaves, and a third is
      then turned away though nobody is admitted. */
  lemma RejectedWithNobodyAdmitted()
    ensures var s := Run(Run(Run(EMPTY, FIRST_LIVE, 1), SECOND_SWAPS, 1), THIRD_TRIES, 1);
            s.conns == [Gone, Checking(2), Rejecting]
  {
  }

  // ---- the server object ----

  /** One handler at a time. */
  class ConnectionServer {
    const maxConnections: int
    var ready: bool
    var activeConnections: int

    constructor (maxConnections: int)
      ensures this.maxConnections == maxConnections && !ready && activeConnections == 0
    {
      this.maxConnections := maxConnections;
      ready, activeConnections := false, 0;
    }

    /** Whether the peer was admitted; a rejection leaves the counter as it was. */
    method HandleNewConnection() returns (admitted: bool)
      modifies this`activeConnections
      ensures admitted <==> ready && old(activeConnections) < maxConnections
      ensures activeConnections == old(activeConnections) + if admitted then 1 else 0
    {
      if !ready {
        return false;
      }
      activeConnections := activeConnections + 1;
      var newCount := activeConnections;
      if newCount > maxConnections {
        activeConnections := activeConnections - 1;
        return false;
      }
      return true;
    }
  }
}
