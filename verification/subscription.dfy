/** Gap-free delivery of chain events (subscriber.go and catchup.go of greenfield-client): live
    events from a websocket, and replay of the blocks since the last known height each time the
    websocket is up again. The chain, the websocket and the block requests are the environment. */
module Subscription {
  import opened Wrappers

  /** What a transaction is to the client. The subscription query selects transactions with a
      SetTag event, and replay emits every transaction with a SetTag message, so replay emits at
      least what the query matches. A live event that does not parse is skipped. */
  datatype Tx = Ignored | ReplayOnly | Matching(parses: bool)

  type Block = seq<Tx>

  /** A transaction by block height and position; the first block has height 1. */
  datatype Ref = Ref(height: int, index: nat)

  predicate InChain(chain: seq<Block>, r: Ref) {
    1 <= r.height <= |chain| && r.index < |chain[r.height - 1]|
  }

  function TxAt(chain: seq<Block>, r: Ref): Tx {
    if InChain(chain, r) then chain[r.height - 1][r.index] else Ignored
  }

  predicate Wanted(tx: Tx, live: bool) {
    tx.Matching? || (tx.ReplayOnly? && !live)
  }

  predicate Parses(chain: seq<Block>, r: Ref) {
    TxAt(chain, r).Matching? && TxAt(chain, r).parses
  }

  /** The wanted transactions of a block, in order. */
  function RefsOf(block: Block, height: int, live: bool): seq<Ref> {
    if block == [] then []
    else
      RefsOf(block[..|block| - 1], height, live)
      + if Wanted(block[|block| - 1], live) then [Ref(height, |block| - 1)] else []
  }

  ghost function ToSet(refs: seq<Ref>): set<Ref> {
    set r | r in refs
  }

  /** The transactions of a chain that live delivery, or replay, is to bring. */
  ghost function Txs(chain: seq<Block>, live: bool): set<Ref> {
    if chain == [] then {}
    else
      Txs(chain[..|chain| - 1], live) + ToSet(RefsOf(chain[|chain| - 1], |chain|, live))
  }

  /** The matching transactions above a height, in order. */
  function MatchingAbove(chain: seq<Block>, height: nat): seq<Ref> {
    if |chain| <= height then []
    else MatchingAbove(chain[..|chain| - 1], height) + RefsOf(chain[|chain| - 1], |chain|, true)
  }

  predicate Ordered(refs: seq<Ref>) {
    forall i, j :: 0 <= i < j < |refs| ==> refs[i].height <= refs[j].height
  }

  /** In the order of the chain, each once. */
  ghost predicate StrictlyOrdered(refs: seq<Ref>) {
    forall i, j :: 0 <= i < j < |refs| ==> Before(refs[i], refs[j])
  }

  predicate Before(a: Ref, b: Ref) {
    a.height < b.height || (a.height == b.height && a.index < b.index)
  }

  lemma OrderedTail(refs: seq<Ref>)
    requires refs != [] && Ordered(refs)
    ensures Ordered(refs[1..])
    ensures forall r :: r in refs[1..] ==> r in refs && refs[0].height <= r.height
    ensures forall r :: r in refs ==> r == refs[0] || r in refs[1..]
  {
  }

  lemma {:induction false} RefsOfBlock(block: Block, height: int, live: bool)
    ensures forall r :: r in RefsOf(block, height, live)
              <==> r.height == height && r.index < |block| && Wanted(block[r.index], live)
    ensures Ordered(RefsOf(block, height, live)) && StrictlyOrdered(RefsOf(block, height, live))
  {
    if block != [] {
      RefsOfBlock(block[..|block| - 1], height, live);
    }
  }

  lemma {:induction false} TxsMeaning(chain: seq<Block>, live: bool, r: Ref)
    ensures r in Txs(chain, live) <==> Wanted(TxAt(chain, r), live)
  {
    if chain != [] {
      TxsMeaning(chain[..|chain| - 1], live, r);
      RefsOfBlock(chain[|chain| - 1], |chain|, live);
    }
  }

  lemma TxsFacts(chain: seq<Block>)
    ensures forall r :: r in Txs(chain, true) ==> r in Txs(chain, false)
    ensures forall r, live :: r in Txs(chain, live) ==> 1 <= r.height <= |chain|
  {
    forall r, live | r in Txs(chain, live)
      ensures 1 <= r.height <= |chain| && r in Txs(chain, false)
    {
      TxsMeaning(chain, live, r);
      TxsMeaning(chain, false, r);
    }
  }

  lemma TxsAtHeight(chain: seq<Block>, height: int, live: bool)
    requires 1 <= height <= |chain|
    ensures forall r :: r in RefsOf(chain[height - 1], height, live) <==> r in Txs(chain, live) && r.height == height
  {
    RefsOfBlock(chain[height - 1], height, live);
    forall r
      ensures r in RefsOf(chain[height - 1], height, live) <==> r in Txs(chain, live) && r.height == height
    {
      TxsMeaning(chain, live, r);
    }
  }

  lemma {:induction false} MatchingAboveHeight(chain: seq<Block>, height: nat)
    ensures forall r :: r in MatchingAbove(chain, height) <==> r.height > height && r in Txs(chain, true)
    ensures Ordered(MatchingAbove(chain, height)) && StrictlyOrdered(MatchingAbove(chain, height))
  {
    if |chain| <= height {
      TxsFacts(chain);
    } else {
      var front := chain[..|chain| - 1];
      MatchingAboveHeight(front, height);
      TxsFacts(front);
      RefsOfBlock(chain[|chain| - 1], |chain|, true);
    }
  }

  // ---- the client and its environment ----

  datatype Phase =
    | Offline
    | Subscribed                              // websocket up, latest height not fetched yet
    | Replaying(next: int, target: int)       // catch-up, about to request block `next`
    | Live(sending: Option<Ref>)

  /** `feed` holds the live events not yet received on this connection, `open` whether the server
      still adds to them, `from` the height at which the connection was subscribed and `current`
      the height of the last event received on it. `lost` collects what the environment took
      away: events cut off inside a block, events of blocks between the height fetched for catch-up
      and the one subscribed at, and events that did not parse. */
  datatype Client = Client(
    start: int, chain: seq<Block>, lastHeight: int, out: seq<Ref>, phase: Phase,
    from: nat, feed: seq<Ref>, open: bool, current: int, lost: set<Ref>)

  datatype Action =
    | Mine(block: Block)
    | Connect(at: nat)
    | FetchHeight(latest: int)
    | FetchFails
    | ReplayBlock
    | ReplayFails
    | ReplayDone
    | Receive
    | Sent
    | CutFeed(kept: nat)
    | HangUp

  function Start(chain: seq<Block>, start: int): Client {
    Client(start, chain, if start > 0 then start else 0, [], Offline, 0, [], false, 0, {})
  }

  /** The events that a cut takes away for good unless replay or another connection brings them:
      those of a block that the client has begun to receive or still will receive in part. */
  function CutLoss(s: Client, kept: nat): set<Ref>
    requires kept <= |s.feed|
  {
    set r | r in s.feed[kept..] && r.height > s.start && r !in s.out && s.phase != Live(Some(r))
            && (r.height <= s.lastHeight || (kept > 0 && r.height <= s.feed[kept - 1].height))
  }

  /** The events between the height up to which blocks have been replayed and the height at which the
      connection was subscribed: neither replay nor this connection brings them. */
  function Skipped(s: Client, upTo: int): set<Ref> {
    set r | r in MatchingAbove(s.chain, if upTo > 0 then upTo else 0) && s.start < r.height <= s.from && r !in s.out
  }

  function GoOffline(s: Client): Client {
    s.(phase := Offline, feed := [], open := false)
  }

  /** One step of the client's goroutine or of its environment; an action that is not possible in
      the state leaves it as it is. */
  function Step(s: Client, a: Action): Client {
    match a
    case Mine(block) =>
      var mined := s.(chain := s.chain + [block]);
      if s.open then mined.(feed := s.feed + RefsOf(block, |s.chain| + 1, true)) else mined
    case Connect(at) =>
      if s.phase.Offline? && at <= |s.chain|
      then s.(phase := Subscribed, from := at, feed := MatchingAbove(s.chain, at), open := true, current := 0)
      else s
    case FetchHeight(latest) =>
      if !s.phase.Subscribed? then s
      else if s.lastHeight <= 0 then s.(phase := Live(None))
      else if latest > |s.chain| then s
      else if s.lastHeight >= latest then s.(phase := Live(None), lost := s.lost + Skipped(s, s.lastHeight))
      else s.(phase := Replaying(s.lastHeight + 1, latest))
    case FetchFails => if s.phase.Subscribed? && s.lastHeight > 0 then GoOffline(s) else s
    case ReplayBlock =>
      if s.phase.Replaying? && 1 <= s.phase.next <= s.phase.target <= |s.chain|
      then s.(out := s.out + RefsOf(s.chain[s.phase.next - 1], s.phase.next, false),
              phase := Replaying(s.phase.next + 1, s.phase.target))
      else s
    case ReplayFails => if s.phase.Replaying? then GoOffline(s) else s
    case ReplayDone =>
      if s.phase.Replaying? && s.phase.next > s.phase.target
      then s.(lastHeight := s.phase.target, phase := Live(None), lost := s.lost + Skipped(s, s.phase.target))
      else s
    case Receive =>
      if s.phase == Live(None) && s.feed != [] then
        var r := s.feed[0];
        var received := s.(feed := s.feed[1..], current := r.height);
        if Parses(s.chain, r)
        then received.(lastHeight := if r.height > s.lastHeight then r.height else s.lastHeight,
                       phase := Live(Some(r)))
        else received.(lost := s.lost + {r})
      else s
    case Sent =>
      if s.phase.Live? && s.phase.sending.Some?
      then s.(out := s.out + [s.phase.sending.value], phase := Live(None))
      else s
    case CutFeed(kept) =>
      if s.open && kept <= |s.feed|
      then s.(feed := s.feed[..kept], open := false, lost := s.lost + CutLoss(s, kept))
      else s
    case HangUp => if s.phase == Live(None) && s.feed == [] && !s.open then GoOffline(s) else s
  }

  function Run(s: Client, schedule: seq<Action>): Client
    decreases |schedule|
  {
    if schedule == [] then s else Run(Step(s, schedule[0]), schedule[1..])
  }

  lemma {:induction false} RunConcat(s: Client, first: seq<Action>, second: seq<Action>)
    ensures Run(s, first + second) == Run(Run(s, first), second)
    decreases |first|
  {
    if first == [] {
      assert first + second == second;
    } else {
      RunConcat(Step(s, first[0]), first[1..], second);
      assert (first + second)[1..] == first[1..] + second;
    }
  }

  // ---- invariant ----

  ghost predicate Settled(s: Client, r: Ref) {
    r in s.out || r in s.lost
  }

  ghost predicate Covered(s: Client, r: Ref) {
    Settled(s, r) || r in s.feed || s.phase == Live(Some(r))
  }

  /** Whether the feed is complete at a height: the server is still adding to it, or it goes on to
      that height or beyond. */
  predicate FeedReaches(s: Client, height: int) {
    s.open || (s.feed != [] && height <= s.feed[|s.feed| - 1].height)
  }

  /** Holds in every run, from any start. */
  ghost predicate FeedShape(s: Client) {
    && Ordered(s.feed) && 0 <= s.current <= |s.chain|
    && (forall r :: r in s.feed ==> r in Txs(s.chain, true) && s.current <= r.height && s.from < r.height)
    && (if s.phase.Offline? then s.feed == [] && !s.open else s.from <= |s.chain|)
  }

  ghost predicate FeedOk(s: Client) {
    && FeedShape(s)
    && (forall r :: r in s.feed && s.start < r.height <= s.lastHeight && !Settled(s, r)
          ==> s.phase.Live? && (r.height == s.current || s.phase == Live(Some(r))))
  }

  ghost predicate NoGapUpToLastHeight(s: Client) {
    forall r :: r in Txs(s.chain, true) && s.start < r.height <= s.lastHeight
      ==> if s.phase.Live? then Covered(s, r) else Settled(s, r)
  }

  ghost predicate NoGapAhead(s: Client) {
    match s.phase
    case Offline => true
    case Live(_) =>
      forall r :: r in Txs(s.chain, true) && r.height > s.start && FeedReaches(s, r.height) ==> Covered(s, r)
    case _ =>
      forall r :: r in Txs(s.chain, true) && r.height > s.from && r.height > s.start && FeedReaches(s, r.height)
        ==> r in s.feed || Settled(s, r)
  }

  ghost predicate ReplayOk(s: Client) {
    s.phase.Replaying? ==>
      && s.lastHeight < s.phase.next <= s.phase.target + 1
      && s.phase.target <= |s.chain|
      && forall r :: r in Txs(s.chain, false) && s.lastHeight < r.height < s.phase.next ==> r in s.out
  }

  ghost predicate Inv(s: Client) {
    && 0 <= s.start <= s.lastHeight && 0 < s.lastHeight && (s.lastHeight == s.start || s.lastHeight <= |s.chain|)
    && FeedOk(s) && NoGapUpToLastHeight(s) && NoGapAhead(s) && ReplayOk(s)
  }

  lemma MineKeepsShape(s: Client, block: Block)
    requires FeedShape(s)
    ensures FeedShape(Step(s, Mine(block)))
  {
    RefsOfBlock(block, |s.chain| + 1, true);
    TxsFacts(s.chain);
  }

  lemma MineKeepsFeed(s: Client, block: Block)
    requires FeedOk(s) && s.start <= s.lastHeight && (s.lastHeight == s.start || s.lastHeight <= |s.chain|)
    ensures FeedOk(Step(s, Mine(block)))
  {
    MineKeepsShape(s, block);
    RefsOfBlock(block, |s.chain| + 1, true);
  }

  lemma MineKeepsUpToLastHeight(s: Client, block: Block)
    requires Inv(s)
    ensures NoGapUpToLastHeight(Step(s, Mine(block)))
  {
    RefsOfBlock(block, |s.chain| + 1, true);
  }

  lemma MineWhileClosedKeepsAhead(s: Client, block: Block)
    requires FeedOk(s) && NoGapAhead(s) && !s.open
    ensures NoGapAhead(Step(s, Mine(block)))
  {
    RefsOfBlock(block, |s.chain| + 1, true);
    FeedWithinChain(s);
  }

  lemma MineWhileOpenKeepsAhead(s: Client, block: Block)
    requires NoGapAhead(s) && s.open
    ensures NoGapAhead(Step(s, Mine(block)))
  {
  }

  lemma FeedWithinChain(s: Client)
    requires FeedOk(s)
    ensures s.feed != [] ==> s.feed[|s.feed| - 1].height <= |s.chain|
  {
    TxsFacts(s.chain);
    if s.feed != [] {
      assert s.feed[|s.feed| - 1] in s.feed;
    }
  }

  lemma MineKeepsReplay(s: Client, block: Block)
    requires ReplayOk(s)
    ensures ReplayOk(Step(s, Mine(block)))
  {
    RefsOfBlock(block, |s.chain| + 1, false);
  }

  lemma ConnectKeepsInv(s: Client, at: nat)
    requires Inv(s)
    ensures Inv(Step(s, Connect(at)))
  {
    MatchingAboveHeight(s.chain, at);
  }

  lemma ReplayBlockKeepsInv(s: Client)
    requires Inv(s)
    ensures Inv(Step(s, ReplayBlock))
  {
    StepKeepsReplayOk(s, ReplayBlock);
    if Step(s, ReplayBlock) != s {
      ReplayBlockKeepsGaps(s, Step(s, ReplayBlock));
    }
  }

  lemma ReplayBlockKeepsGaps(s: Client, t: Client)
    requires Inv(s) && s.phase.Replaying? && t.phase.Replaying? && s.out <= t.out
    requires t == s.(out := t.out, phase := t.phase)
    ensures FeedOk(t) && NoGapUpToLastHeight(t) && NoGapAhead(t)
  {
    assert forall r :: Settled(s, r) ==> Settled(t, r);
  }

  lemma ReceiveKeepsShape(s: Client)
    requires FeedShape(s) && s.phase == Live(None) && s.feed != []
    ensures FeedShape(Step(s, Receive))
  {
    OrderedTail(s.feed);
    TxsFacts(s.chain);
    assert s.feed[0] in s.feed;
  }

  lemma ReceiveKeepsFeed(s: Client)
    requires FeedOk(s) && s.phase == Live(None) && s.feed != []
    ensures FeedOk(Step(s, Receive))
  {
    ReceiveKeepsShape(s);
    ReceiveSettles(s, Step(s, Receive));
  }

  lemma ReceiveSettles(s: Client, t: Client)
    requires FeedOk(s) && s.phase == Live(None) && s.feed != []
    requires t.start == s.start && t.feed == s.feed[1..] && t.current == s.feed[0].height && t.phase.Live?
    requires t.lastHeight == s.lastHeight || s.lastHeight < t.lastHeight == s.feed[0].height
    requires forall r :: Settled(s, r) ==> Settled(t, r)
    ensures forall r :: r in t.feed && t.start < r.height <= t.lastHeight && !Settled(t, r) ==> r.height == t.current
  {
    OrderedTail(s.feed);
    assert s.feed[0] in s.feed;
  }

  lemma ReceiveKeepsInv(s: Client)
    requires Inv(s)
    ensures Inv(Step(s, Receive))
  {
    if s.phase == Live(None) && s.feed != [] {
      ReceiveKeepsFeed(s);
      var t := Step(s, Receive);
      OrderedTail(s.feed);
      ReceiveKeepsGaps(s, t);
    }
  }

  lemma ReceiveKeepsGaps(s: Client, t: Client)
    requires Inv(s) && s.phase == Live(None) && s.feed != [] && t == Step(s, Receive)
    requires forall r :: Covered(s, r) ==> Covered(t, r)
    ensures NoGapUpToLastHeight(t) && NoGapAhead(t)
  {
    forall r: Ref | FeedReaches(t, r.height)
      ensures FeedReaches(s, r.height)
    {
      if !s.open {
        assert t.feed[|t.feed| - 1] == s.feed[|s.feed| - 1];
      }
    }
  }

  lemma CutKeepsCovered(s: Client, kept: nat, r: Ref)
    requires FeedOk(s) && s.open && kept <= |s.feed| && r.height > s.start
    ensures var t := Step(s, CutFeed(kept));
            Covered(s, r) && (r.height <= s.lastHeight || FeedReaches(t, r.height)) ==> Covered(t, r)
  {
    assert s.feed == s.feed[..kept] + s.feed[kept..];
  }

  lemma CutKeepsFeed(s: Client, kept: nat)
    requires Inv(s) && s.open && kept <= |s.feed|
    ensures FeedOk(Step(s, CutFeed(kept))) && ReplayOk(Step(s, CutFeed(kept)))
  {
  }

  lemma CutKeepsGaps(s: Client, kept: nat)
    requires Inv(s) && s.open && kept <= |s.feed|
    ensures NoGapUpToLastHeight(Step(s, CutFeed(kept)))
    ensures NoGapAhead(Step(s, CutFeed(kept)))
  {
    var t := Step(s, CutFeed(kept));
    forall r | r in Txs(t.chain, true) && s.start < r.height
      ensures Covered(s, r) && (r.height <= s.lastHeight || FeedReaches(t, r.height)) ==> Covered(t, r)
    {
      CutKeepsCovered(s, kept, r);
    }
  }

  lemma GoOfflineKeepsInv(s: Client)
    requires Inv(s) && (s.phase.Live? ==> s.phase == Live(None) && s.feed == [])
    ensures Inv(GoOffline(s))
  {
  }

  lemma SkippedFacts(s: Client, upTo: int)
    requires upTo > 0
    ensures forall r :: r in Skipped(s, upTo)
              <==> r in Txs(s.chain, true) && upTo < r.height <= s.from && s.start < r.height && r !in s.out
  {
    MatchingAboveHeight(s.chain, upTo);
  }

  lemma GoLiveKeepsFeed(s: Client, t: Client)
    requires FeedOk(s) && NoGapUpToLastHeight(s) && s.phase.Subscribed?
    requires t == s.(phase := Live(None), lost := s.lost + Skipped(s, s.lastHeight))
    ensures FeedOk(t) && NoGapUpToLastHeight(t)
  {
    assert forall r :: Settled(s, r) ==> Settled(t, r);
  }

  lemma GoLiveKeepsAhead(s: Client, t: Client)
    requires NoGapUpToLastHeight(s) && NoGapAhead(s) && s.phase.Subscribed? && s.lastHeight > 0
    requires t == s.(phase := Live(None), lost := s.lost + Skipped(s, s.lastHeight))
    ensures NoGapAhead(t)
  {
    SkippedFacts(s, s.lastHeight);
    forall r | r in Txs(s.chain, true) && r.height > s.start && FeedReaches(s, r.height)
      ensures Covered(t, r)
    {
      assert r.height <= s.lastHeight || r.height > s.from || r in Skipped(s, s.lastHeight) || r in s.out;
    }
  }

  lemma FetchKeepsInv(s: Client, latest: int)
    requires Inv(s) && s.phase.Subscribed?
    ensures Inv(Step(s, FetchHeight(latest)))
  {
    if s.lastHeight >= latest {
      GoLiveKeepsFeed(s, s.(phase := Live(None), lost := s.lost + Skipped(s, s.lastHeight)));
      GoLiveKeepsAhead(s, s.(phase := Live(None), lost := s.lost + Skipped(s, s.lastHeight)));
    }
  }

  lemma ReplayDoneKeepsInv(s: Client)
    requires Inv(s) && s.phase.Replaying? && s.phase.next > s.phase.target
    ensures Inv(Step(s, ReplayDone))
  {
    var t := Step(s, ReplayDone);
    TxsFacts(s.chain);
    ReplayDoneCovers(s, t);
    assert forall r :: Settled(s, r) ==> Settled(t, r);
  }

  lemma ReplayDoneCovers(s: Client, t: Client)
    requires NoGapUpToLastHeight(s) && NoGapAhead(s) && ReplayOk(s) && 0 <= s.start <= s.lastHeight && 0 < s.lastHeight
    requires s.phase.Replaying? && s.phase.next > s.phase.target && t == Step(s, ReplayDone)
    ensures NoGapUpToLastHeight(t) && NoGapAhead(t)
  {
    TxsFacts(s.chain);
    SkippedFacts(s, s.phase.target);
    forall r | r in Txs(s.chain, true) && s.start < r.height && (r.height <= t.lastHeight || FeedReaches(s, r.height))
      ensures Covered(t, r)
    {
      assert r.height <= s.lastHeight || r in s.out || r.height > s.from || r in Skipped(s, s.phase.target);
    }
  }

  lemma SentKeepsInv(s: Client)
    requires Inv(s)
    ensures Inv(Step(s, Sent))
  {
  }

  lemma StepKeepsInv(s: Client, a: Action)
    requires Inv(s)
    ensures Inv(Step(s, a))
  {
    match a
    case Mine(block) =>
      MineKeepsFeed(s, block);
      MineKeepsUpToLastHeight(s, block);
      if s.open {
        MineWhileOpenKeepsAhead(s, block);
      } else {
        MineWhileClosedKeepsAhead(s, block);
      }
      MineKeepsReplay(s, block);
    case Connect(at) => ConnectKeepsInv(s, at);
    case FetchHeight(latest) =>
      if s.phase.Subscribed? {
        FetchKeepsInv(s, latest);
      }
    case FetchFails =>
      if s.phase.Subscribed? {
        GoOfflineKeepsInv(s);
      }
    case ReplayBlock => ReplayBlockKeepsInv(s);
    case ReplayFails =>
      if s.phase.Replaying? {
        GoOfflineKeepsInv(s);
      }
    case ReplayDone =>
      if s.phase.Replaying? && s.phase.next > s.phase.target {
        ReplayDoneKeepsInv(s);
      }
    case Receive => ReceiveKeepsInv(s);
    case Sent => SentKeepsInv(s);
    case CutFeed(kept) =>
      if s.open && kept <= |s.feed| {
        CutKeepsFeed(s, kept);
        CutKeepsGaps(s, kept);
      }
    case HangUp =>
      if s.phase == Live(None) && s.feed == [] && !s.open {
        GoOfflineKeepsInv(s);
      }
  }

  lemma {:induction false} RunKeepsInv(s: Client, schedule: seq<Action>)
    requires Inv(s)
    ensures Inv(Run(s, schedule))
    decreases |schedule|
  {
    if schedule != [] {
      StepKeepsInv(s, schedule[0]);
      RunKeepsInv(Step(s, schedule[0]), schedule[1..]);
    }
  }

  // ---- main results ----

  /** In every run from a positive start height, every matching transaction above the start and up
      to `lastHeight` has been emitted, is being sent or waits in the feed, or the environment took
      it away. */
  lemma {:induction false} NoGapInAnyRun(chain: seq<Block>, start: int, schedule: seq<Action>, r: Ref)
    requires start > 0
    requires r in Txs(Run(Start(chain, start), schedule).chain, true)
    requires start < r.height <= Run(Start(chain, start), schedule).lastHeight
    ensures var s := Run(Start(chain, start), schedule);
            r in s.out || s.phase == Live(Some(r)) || r in s.feed || r in s.lost
  {
    RunKeepsInv(Start(chain, start), schedule);
    RunKeepsStart(Start(chain, start), schedule);
  }

  lemma {:induction false} RunKeepsStart(s: Client, schedule: seq<Action>)
    ensures Run(s, schedule).start == s.start
    decreases |schedule|
  {
    if schedule != [] {
      RunKeepsStart(Step(s, schedule[0]), schedule[1..]);
    }
  }

  /** A cut inside a block: an event that is cut off shares its block with the event before the
      cut. */
  ghost predicate CutsInsideBlock(s: Client, a: Action) {
    a.CutFeed? && s.open && a.kept <= |s.feed|
    && exists r :: r in s.feed[a.kept..]
         && r.height == if a.kept > 0 then s.feed[a.kept - 1].height else s.current
  }

  /** The node that answers for the height lags behind the one that took the subscription, and the
      client's own height does too. */
  predicate LagsBehind(s: Client, a: Action) {
    a.FetchHeight? && s.phase.Subscribed? && 0 < s.lastHeight < s.from && a.latest < s.from
  }

  predicate SkipsUnparsed(s: Client, a: Action) {
    a.Receive? && s.phase == Live(None) && s.feed != [] && !Parses(s.chain, s.feed[0])
  }

  ghost predicate Gentle(s: Client, schedule: seq<Action>)
    decreases |schedule|
  {
    schedule == []
    || (!CutsInsideBlock(s, schedule[0]) && !LagsBehind(s, schedule[0]) && !SkipsUnparsed(s, schedule[0])
        && Gentle(Step(s, schedule[0]), schedule[1..]))
  }

  lemma CleanCutLosesNothing(s: Client, kept: nat)
    requires Inv(s) && s.lost == {} && s.open && kept <= |s.feed| && !CutsInsideBlock(s, CutFeed(kept))
    ensures CutLoss(s, kept) == {}
  {
    forall r | r in s.feed[kept..]
      ensures r in s.feed && (kept > 0 ==> s.feed[kept - 1].height <= r.height && s.feed[kept - 1] in s.feed)
    {
      var i :| kept <= i < |s.feed| && s.feed[i] == r;
    }
  }

  /** The replay under way ends no lower than the subscription began. */
  predicate ReplayMeetsFeed(s: Client) {
    s.phase.Replaying? ==> s.from <= s.phase.target
  }

  lemma GentleStepLosesNothing(s: Client, a: Action)
    requires Inv(s) && s.lost == {} && ReplayMeetsFeed(s)
    requires !CutsInsideBlock(s, a) && !LagsBehind(s, a) && !SkipsUnparsed(s, a)
    ensures Step(s, a).lost == {} && ReplayMeetsFeed(Step(s, a))
  {
    SkippedFacts(s, s.lastHeight);
    if a.CutFeed? && s.open && a.kept <= |s.feed| {
      CleanCutLosesNothing(s, a.kept);
    }
    if s.phase.Replaying? && s.phase.target > 0 {
      SkippedFacts(s, s.phase.target);
    }
  }

  lemma {:induction false} GentleRunLosesNothing(s: Client, schedule: seq<Action>)
    requires Inv(s) && s.lost == {} && ReplayMeetsFeed(s) && Gentle(s, schedule)
    ensures Run(s, schedule).lost == {}
    decreases |schedule|
  {
    if schedule != [] {
      StepKeepsInv(s, schedule[0]);
      GentleStepLosesNothing(s, schedule[0]);
      GentleRunLosesNothing(Step(s, schedule[0]), schedule[1..]);
    }
  }

  /** With drops only between blocks, no lagging node and live events that parse, every matching transaction above
      the start and up to `lastHeight` has been emitted or is being sent, except that the rest of
      the block being received may still wait in the feed. */
  lemma {:induction false} CutsBetweenBlocksLeaveNoGap(chain: seq<Block>, start: int, schedule: seq<Action>, r: Ref)
    requires start > 0 && Gentle(Start(chain, start), schedule)
    requires r in Txs(Run(Start(chain, start), schedule).chain, true)
    requires start < r.height <= Run(Start(chain, start), schedule).lastHeight
    ensures var s := Run(Start(chain, start), schedule);
            r in s.out || s.phase == Live(Some(r)) || (r in s.feed && r.height == s.current)
  {
    NoGapInAnyRun(chain, start, schedule, r);
    GentleRunLosesNothing(Start(chain, start), schedule);
    RunKeepsInv(Start(chain, start), schedule);
    RunKeepsStart(Start(chain, start), schedule);
  }

  /** And once the client has received all there is on an open connection, everything above the
      start is out. */
  lemma {:induction false} IdleClientHasEmittedAll(chain: seq<Block>, start: int, schedule: seq<Action>, r: Ref)
    requires start > 0 && Gentle(Start(chain, start), schedule)
    requires var s := Run(Start(chain, start), schedule);
             s.phase == Live(None) && s.open && s.feed == [] && r in Txs(s.chain, true) && r.height > start
    ensures r in Run(Start(chain, start), schedule).out
  {
    GentleRunLosesNothing(Start(chain, start), schedule);
    RunKeepsInv(Start(chain, start), schedule);
    RunKeepsStart(Start(chain, start), schedule);
  }

  predicate ReplayGoesUp(s: Client) {
    s.phase.Replaying? ==> s.lastHeight < s.phase.next <= s.phase.target + 1
  }

  lemma StepKeepsLastHeight(s: Client, a: Action)
    requires ReplayGoesUp(s)
    ensures Step(s, a).lastHeight >= s.lastHeight && ReplayGoesUp(Step(s, a))
    ensures a.ReplayFails? || a.FetchFails? ==> Step(s, a).lastHeight == s.lastHeight && Step(s, a).lost == s.lost
  {
  }

  lemma {:induction false} RunKeepsLastHeight(s: Client, schedule: seq<Action>)
    requires ReplayGoesUp(s)
    ensures Run(s, schedule).lastHeight >= s.lastHeight && ReplayGoesUp(Run(s, schedule))
    decreases |schedule|
  {
    if schedule != [] {
      StepKeepsLastHeight(s, schedule[0]);
      RunKeepsLastHeight(Step(s, schedule[0]), schedule[1..]);
    }
  }

  /** `lastHeight` never decreases, in any run from any start. */
  lemma {:induction false} LastHeightNeverDecreases(chain: seq<Block>, start: int, before: seq<Action>, after: seq<Action>)
    ensures Run(Run(Start(chain, start), before), after).lastHeight >= Run(Start(chain, start), before).lastHeight
  {
    RunKeepsLastHeight(Start(chain, start), before);
    RunKeepsLastHeight(Run(Start(chain, start), before), after);
  }

  /** The height of an event is recorded before the event is sent: while one is being sent, `lastHeight`
      is at or above it, in any run from any start. */
  lemma {:induction false} HeightIsRaisedBeforeSending(s: Client, schedule: seq<Action>)
    requires s.phase.Live? && s.phase.sending.Some? ==> s.phase.sending.value.height <= s.lastHeight
    ensures var t := Run(s, schedule);
            t.phase.Live? && t.phase.sending.Some? ==> t.phase.sending.value.height <= t.lastHeight
    decreases |schedule|
  {
    if schedule != [] {
      HeightIsRaisedBeforeSending(Step(s, schedule[0]), schedule[1..]);
    }
  }

  ghost predicate EmitsOnlyTheChain(s: Client) {
    forall r :: r in s.out || r in s.feed || s.phase == Live(Some(r)) ==> r in Txs(s.chain, false)
  }

  lemma MineEmitsOnlyTheChain(s: Client, block: Block)
    requires EmitsOnlyTheChain(s)
    ensures EmitsOnlyTheChain(Step(s, Mine(block)))
  {
    RefsOfBlock(block, |s.chain| + 1, true);
    RefsOfBlock(block, |s.chain| + 1, false);
  }

  lemma ConnectEmitsOnlyTheChain(s: Client, at: nat)
    requires EmitsOnlyTheChain(s)
    ensures EmitsOnlyTheChain(Step(s, Connect(at)))
  {
    MatchingAboveHeight(s.chain, at);
    TxsFacts(s.chain);
  }

  lemma ReplayEmitsOnlyTheChain(s: Client)
    requires EmitsOnlyTheChain(s)
    ensures EmitsOnlyTheChain(Step(s, ReplayBlock))
  {
    if s.phase.Replaying? && 1 <= s.phase.next <= s.phase.target <= |s.chain| {
      TxsAtHeight(s.chain, s.phase.next, false);
      AddedEmitsOnlyTheChain(s, RefsOf(s.chain[s.phase.next - 1], s.phase.next, false), Step(s, ReplayBlock));
    }
  }

  lemma AddedEmitsOnlyTheChain(s: Client, refs: seq<Ref>, t: Client)
    requires EmitsOnlyTheChain(s) && forall r :: r in refs ==> r in Txs(s.chain, false)
    requires t.chain == s.chain && t.out == s.out + refs && t.feed == s.feed && !t.phase.Live?
    ensures EmitsOnlyTheChain(t)
  {
  }

  lemma FeedEmitsOnlyTheChain(s: Client, a: Action)
    requires EmitsOnlyTheChain(s) && (a.Receive? || a.CutFeed?)
    ensures EmitsOnlyTheChain(Step(s, a))
  {
    if a.Receive? && s.phase == Live(None) && s.feed != [] {
      assert s.feed[0] in s.feed;
      assert forall r :: r in s.feed[1..] ==> r in s.feed;
    } else if a.CutFeed? && a.kept <= |s.feed| {
      assert forall r :: r in s.feed[..a.kept] ==> r in s.feed;
    }
  }

  lemma StepEmitsOnlyTheChain(s: Client, a: Action)
    requires EmitsOnlyTheChain(s)
    ensures EmitsOnlyTheChain(Step(s, a))
  {
    match a
    case Mine(block) => MineEmitsOnlyTheChain(s, block);
    case Connect(at) => ConnectEmitsOnlyTheChain(s, at);
    case ReplayBlock => ReplayEmitsOnlyTheChain(s);
    case Receive => FeedEmitsOnlyTheChain(s, a);
    case CutFeed(_) => FeedEmitsOnlyTheChain(s, a);
    case _ =>
  }

  /** Whatever is emitted, repeats included, is a transaction of the chain that replay would emit:
      failed catch-ups and reconnects add nothing but repeats. */
  lemma {:induction false} RunEmitsOnlyTheChain(s: Client, schedule: seq<Action>)
    requires EmitsOnlyTheChain(s)
    ensures EmitsOnlyTheChain(Run(s, schedule))
    decreases |schedule|
  {
    if schedule != [] {
      StepEmitsOnlyTheChain(s, schedule[0]);
      RunEmitsOnlyTheChain(Step(s, schedule[0]), schedule[1..]);
    }
  }

  // ---- what is lost, and when ----

  /** A matching transaction at or below `lastHeight` that is neither out nor on its way. */
  ghost predicate Missed(s: Client, r: Ref) {
    && r in Txs(s.chain, true) && r.height <= s.lastHeight
    && r !in s.out && r !in s.feed && s.phase != Live(Some(r))
  }

  /** The client connects at a node that has not reached `height`. */
  predicate ConnectsBelow(s: Client, a: Action, height: int) {
    a.Connect? && s.phase.Offline? && a.at <= |s.chain| && a.at < height
  }

  /** Every connection made in the run is subscribed at a node that has reached `height`. */
  ghost predicate ConnectsAbove(s: Client, schedule: seq<Action>, height: int) {
    forall i :: 0 <= i < |schedule| ==> !ConnectsBelow(Run(s, schedule[..i]), schedule[i], height)
  }

  /** The steps that lose `r`. The next event received lies at or beyond it and it is not in the feed:
      it was skipped, cut off, or its block's turn has passed. Or it is itself received at or below
      `lastHeight` and does not parse. Or it waits at or below `lastHeight` and is cut off, by the
      server or because catch-up failed. */
  ghost predicate Loses(s: Client, a: Action, r: Ref) {
    && r in Txs(s.chain, true) && r !in s.out && s.phase != Live(Some(r))
    && match a
       case Receive =>
         && s.phase == Live(None) && s.feed != []
         && (if Parses(s.chain, s.feed[0]) then r !in s.feed && s.lastHeight < r.height <= s.feed[0].height
             else r == s.feed[0] && r !in s.feed[1..] && r.height <= s.lastHeight)
       case CutFeed(kept) =>
         s.open && kept <= |s.feed| && r in s.feed && r !in s.feed[..kept] && r.height <= s.lastHeight
       case FetchFails => s.phase.Subscribed? && r in s.feed && r.height <= s.lastHeight
       case ReplayFails => s.phase.Replaying? && r in s.feed && r.height <= s.lastHeight
       case _ => false
  }

  /** What every run keeps, from any start and whatever is lost. */
  ghost predicate Sound(s: Client) {
    FeedShape(s) && ReplayOk(s) && (s.lastHeight <= s.start || s.lastHeight <= |s.chain|)
  }

  lemma MissedStays(s: Client, a: Action, r: Ref)
    requires Missed(s, r) && ReplayGoesUp(s) && !ConnectsBelow(s, a, r.height)
    ensures Missed(Step(s, a), r)
  {
    TxsFacts(s.chain);
    match a
    case Mine(block) => RefsOfBlock(block, |s.chain| + 1, true);
    case Connect(at) => MatchingAboveHeight(s.chain, at);
    case ReplayBlock =>
      if s.phase.Replaying? && 1 <= s.phase.next <= s.phase.target <= |s.chain| {
        RefsOfBlock(s.chain[s.phase.next - 1], s.phase.next, false);
      }
    case _ =>
  }

  lemma StepKeepsShape(s: Client, a: Action)
    requires FeedShape(s)
    ensures FeedShape(Step(s, a))
  {
    match a
    case Mine(block) => MineKeepsShape(s, block);
    case Connect(at) => MatchingAboveHeight(s.chain, at);
    case Receive =>
      if s.phase == Live(None) && s.feed != [] {
        ReceiveKeepsShape(s);
      }
    case CutFeed(kept) =>
      if kept <= |s.feed| {
        assert forall r :: r in s.feed[..kept] ==> r in s.feed;
      }
    case _ =>
  }

  lemma StepKeepsReplayOk(s: Client, a: Action)
    requires ReplayOk(s)
    ensures ReplayOk(Step(s, a))
  {
    if a.Mine? {
      MineKeepsReplay(s, a.block);
    } else if a.ReplayBlock? && s.phase.Replaying? && 1 <= s.phase.next <= s.phase.target {
      TxsAtHeight(s.chain, s.phase.next, false);
    }
  }

  lemma StepKeepsSound(s: Client, a: Action)
    requires Sound(s)
    ensures Sound(Step(s, a))
  {
    StepKeepsShape(s, a);
    StepKeepsReplayOk(s, a);
    TxsFacts(s.chain);
    if a.Receive? && s.feed != [] {
      assert s.feed[0] in s.feed;
    }
  }

  lemma NewlyMissed(s: Client, a: Action, r: Ref)
    requires Sound(s) && r.height > s.start && !Missed(s, r) && Missed(Step(s, a), r)
    ensures Loses(s, a, r)
  {
    TxsFacts(s.chain);
    match a
    case Mine(block) => RefsOfBlock(block, |s.chain| + 1, true);
    case Connect(at) =>
    case Receive => NewlyMissedByReceive(s, r);
    case _ =>
  }

  lemma NewlyMissedByReceive(s: Client, r: Ref)
    requires Sound(s) && !Missed(s, r) && Missed(Step(s, Receive), r)
    ensures Loses(s, Receive, r)
  {
    assert s.feed == [s.feed[0]] + s.feed[1..];
  }

  lemma LosingMisses(s: Client, a: Action, r: Ref)
    requires Sound(s) && Loses(s, a, r)
    ensures Missed(Step(s, a), r)
  {
  }

  lemma ConnectingBelowFinds(s: Client, a: Action, r: Ref)
    requires Sound(s) && r in Txs(s.chain, true) && ConnectsBelow(s, a, r.height)
    ensures r in Step(s, a).feed
  {
    MatchingAboveHeight(s.chain, a.at);
  }

  /** One step: what is missed was missed before and no connection was made below it, or the step
      loses it. */
  lemma MissedAfterStepIff(s: Client, a: Action, r: Ref)
    requires Sound(s) && r.height > s.start
    ensures Missed(Step(s, a), r) <==> (Missed(s, r) && !ConnectsBelow(s, a, r.height)) || Loses(s, a, r)
  {
    if Loses(s, a, r) {
      LosingMisses(s, a, r);
    } else if Missed(s, r) {
      if ConnectsBelow(s, a, r.height) {
        ConnectingBelowFinds(s, a, r);
      } else {
        MissedStays(s, a, r);
      }
    } else if Missed(Step(s, a), r) {
      NewlyMissed(s, a, r);
    }
  }

  lemma {:induction false} RunLast(s: Client, schedule: seq<Action>)
    requires schedule != []
    ensures Run(s, schedule) == Step(Run(s, schedule[..|schedule| - 1]), schedule[|schedule| - 1])
    decreases |schedule|
  {
    if |schedule| > 1 {
      RunLast(Step(s, schedule[0]), schedule[1..]);
      assert schedule[1..][..|schedule| - 2] == schedule[..|schedule| - 1][1..];
    }
  }

  lemma {:induction false} RunKeepsSound(s: Client, schedule: seq<Action>)
    requires Sound(s)
    ensures Sound(Run(s, schedule))
    decreases |schedule|
  {
    if schedule != [] {
      StepKeepsSound(s, schedule[0]);
      RunKeepsSound(Step(s, schedule[0]), schedule[1..]);
    }
  }

  /** Step `i` of the run loses `r`, and no later step connects at a node below it. */
  ghost predicate LostAt(s: Client, schedule: seq<Action>, i: nat, r: Ref)
    requires i < |schedule|
  {
    && Loses(Run(s, schedule[..i]), schedule[i], r)
    && forall j :: i < j < |schedule| ==> !ConnectsBelow(Run(s, schedule[..j]), schedule[j], r.height)
  }

  lemma LostAtLast(s: Client, schedule: seq<Action>, r: Ref)
    requires schedule != []
    ensures var n := |schedule| - 1;
            (exists i | 0 <= i < |schedule| :: LostAt(s, schedule, i, r))
            <==> Loses(Run(s, schedule[..n]), schedule[n], r)
                 || ((exists i | 0 <= i < n :: LostAt(s, schedule[..n], i, r))
                     && !ConnectsBelow(Run(s, schedule[..n]), schedule[n], r.height))
  {
    var n := |schedule| - 1;
    var front := schedule[..n];
    assert forall j :: 0 <= j < n ==> front[..j] == schedule[..j] && front[j] == schedule[j];
    if i :| 0 <= i < |schedule| && LostAt(s, schedule, i, r) {
      if i < n {
        assert LostAt(s, front, i, r);
      }
    }
    if i :| 0 <= i < n && LostAt(s, front, i, r) && !ConnectsBelow(Run(s, schedule[..n]), schedule[n], r.height) {
      assert LostAt(s, schedule, i, r);
    }
    if Loses(Run(s, schedule[..n]), schedule[n], r) {
      assert LostAt(s, schedule, n, r);
    }
  }

  /** The exact condition for a gap, in any run from any start, gentle or not: a matching transaction
      above the start and at or below `lastHeight` is neither out nor on its way if and only if some
      step lost it and the client has not connected at a node below it since. */
  lemma {:induction false} MissedIff(chain: seq<Block>, start: int, schedule: seq<Action>, r: Ref)
    requires r.height > start
    ensures Missed(Run(Start(chain, start), schedule), r)
        <==> exists i | 0 <= i < |schedule| :: LostAt(Start(chain, start), schedule, i, r)
    decreases |schedule|
  {
    var s := Start(chain, start);
    if schedule == [] {
      TxsFacts(chain);
    } else {
      var front := schedule[..|schedule| - 1];
      MissedIff(chain, start, front, r);
      RunKeepsSound(s, front);
      RunKeepsStart(s, front);
      MissedAfterStepIff(Run(s, front), schedule[|schedule| - 1], r);
      RunLast(s, schedule);
      LostAtLast(s, schedule, r);
    }
  }

  /** What has once been missed is emitted in no continuation whose connections are all subscribed at
      nodes that have reached it, since replay starts above `lastHeight`. */
  lemma {:induction false} MissedForGood(s: Client, schedule: seq<Action>, r: Ref)
    requires Missed(s, r) && ReplayGoesUp(s) && ConnectsAbove(s, schedule, r.height)
    ensures Missed(Run(s, schedule), r) && r !in Run(s, schedule).out
    decreases |schedule|
  {
    if schedule != [] {
      var front := schedule[..|schedule| - 1];
      assert forall i :: 0 <= i < |front| ==> front[..i] == schedule[..i] && front[i] == schedule[i];
      MissedForGood(s, front, r);
      RunKeepsLastHeight(s, front);
      RunLast(s, schedule);
      MissedStays(Run(s, front), schedule[|schedule| - 1], r);
    }
  }

  /** Cutting off an event at or below `lastHeight`, which has not come another way, loses it at
      once. */
  lemma {:induction false} CutInsideBlockLosesForGood(s: Client, kept: nat, r: Ref, rest: seq<Action>)
    requires FeedShape(s) && s.phase.Live? && s.open && kept <= |s.feed|
    requires r in s.feed && r !in s.feed[..kept] && r !in s.out && s.phase != Live(Some(r))
    requires r.height <= s.lastHeight && ConnectsAbove(Step(s, CutFeed(kept)), rest, r.height)
    ensures r !in Run(Step(s, CutFeed(kept)), rest).out
  {
    MissedForGood(Step(s, CutFeed(kept)), rest, r);
  }

  /** The receiving and sending of the next `n` events. */
  function Drain(n: nat): seq<Action> {
    if n == 0 then [] else Drain(n - 1) + [Receive, Sent]
  }

  /** The loop over live events is a run of receive and send steps. */
  lemma {:induction false} DrainRuns(s: Client, n: nat)
    requires s.phase == Live(None) && n <= |s.feed|
    ensures var t := Run(s, Drain(n));
            var p := ReceivedAll(Progress(s.lastHeight, s.out), s.chain, s.feed[..n]);
            t == s.(feed := s.feed[n..], lastHeight := p.lastHeight, out := p.out, current := t.current, lost := t.lost)
  {
    if n > 0 {
      DrainRuns(s, n - 1);
      var before := Run(s, Drain(n - 1));
      RunConcat(s, Drain(n - 1), [Receive, Sent]);
      RunTwo(before, Receive, Sent);
      OneReceived(before);
      assert s.feed[..n][..n - 1] == s.feed[..n - 1] && s.feed[n - 1..][1..] == s.feed[n..];
    }
  }

  lemma OneReceived(s: Client)
    requires s.phase == Live(None) && s.feed != []
    ensures var t := Step(Step(s, Receive), Sent);
            var p := Received(Progress(s.lastHeight, s.out), s.chain, s.feed[0]);
            t == s.(feed := s.feed[1..], lastHeight := p.lastHeight, out := p.out, current := t.current, lost := t.lost)
  {
  }

  lemma {:induction false} ReceivedMeaning(p: Progress, chain: seq<Block>, feed: seq<Ref>, height: int)
    ensures var q := ReceivedAll(p, chain, feed);
            && (forall r :: r in q.out <==> r in p.out || (r in feed && Parses(chain, r)))
            && (height <= q.lastHeight
                <==> height <= p.lastHeight || exists r :: r in feed && Parses(chain, r) && height <= r.height)
  {
    if feed != [] {
      var (front, last) := (feed[..|feed| - 1], feed[|feed| - 1]);
      ReceivedMeaning(p, chain, front, height);
      assert feed == front + [last];
    }
  }

  /** Cutting off what lies beyond the first `kept` events, wherever in a block that is: once what was
      kept has been received and sent, an event cut off is missed if and only if it lies at or below
      `lastHeight` or in one block with a kept event that parses. */
  lemma {:induction false} CutLosesIff(s: Client, kept: nat, r: Ref, rest: seq<Action>)
    requires FeedShape(s) && s.phase.Live? && s.open && kept <= |s.feed|
    requires r in s.feed[kept..] && r !in s.feed[..kept] && r !in s.out && s.phase != Live(Some(r))
    ensures var t := Run(s, [CutFeed(kept), Sent] + Drain(kept));
            && t.phase == Live(None) && t.feed == []
            && (Missed(t, r) <==> r.height <= s.lastHeight
                                  || exists x :: x in s.feed[..kept] && Parses(s.chain, x) && x.height == r.height)
            && (Missed(t, r) && ConnectsAbove(t, rest, r.height) ==> r !in Run(t, rest).out)
  {
    var cut := Step(Step(s, CutFeed(kept)), Sent);
    var t := Run(s, [CutFeed(kept), Sent] + Drain(kept));
    RunTwo(s, CutFeed(kept), Sent);
    RunConcat(s, [CutFeed(kept), Sent], Drain(kept));
    assert cut.feed == s.feed[..kept] && cut.feed[..kept] == cut.feed;
    DrainRuns(cut, kept);
    ReceivedMeaning(Progress(cut.lastHeight, cut.out), s.chain, cut.feed, r.height);
    CutOffIsBeyond(s.feed, kept, r);
    if Missed(t, r) && ConnectsAbove(t, rest, r.height) {
      MissedForGood(t, rest, r);
    }
  }

  lemma CutOffIsBeyond(feed: seq<Ref>, kept: nat, r: Ref)
    requires Ordered(feed) && kept <= |feed| && r in feed[kept..]
    ensures r in feed && forall x :: x in feed[..kept] ==> x.height <= r.height
  {
    var i :| kept <= i < |feed| && feed[i] == r;
    forall x | x in feed[..kept]
      ensures x.height <= r.height
    {
      var j :| 0 <= j < kept && feed[j] == x;
    }
  }

  lemma RunTwo(s: Client, a: Action, b: Action)
    ensures Run(s, [a, b]) == Step(Step(s, a), b)
  {
    assert [a, b][1..] == [b] && [b][1..] == [];
    assert Run(Step(s, a), [b]) == Step(Step(s, a), b);
  }

  /** An event that is not in the feed when one at or beyond its height is received, because it was
      skipped, cut off or not parsed, and that no replay has brought, is lost then. */
  lemma {:induction false} SkippedEventIsLostForGood(s: Client, r: Ref, rest: seq<Action>)
    requires FirstEvent(s, Receive) && r in Txs(s.chain, true) && r !in s.out && r !in s.feed
    requires r.height <= s.feed[0].height && ConnectsAbove(Step(s, Receive), rest, r.height)
    ensures Missed(Step(s, Receive), r) && r !in Run(Step(s, Receive), rest).out
  {
    MissedForGood(Step(s, Receive), rest, r);
  }

  // ---- the way back ----

  /** The client ends its connection: what it is sending is sent, and the server cuts the rest off
      unless it had hung up before. */
  function Leave(s: Client): seq<Action> {
    match s.phase
    case Offline => []
    case Subscribed => [FetchFails]
    case Replaying(_, _) => [ReplayFails]
    case Live(_) => [Sent] + (if s.open then [CutFeed(0)] else Drain(|s.feed|)) + [HangUp]
  }

  /** It leaves, and receives all that a node which has reached the height `at` has for it. */
  function Reconnection(s: Client, at: nat): seq<Action> {
    Leave(s) + ([Connect(at), FetchHeight(at)] + Drain(|MatchingAbove(s.chain, at)|))
  }

  lemma LeaveRuns(s: Client)
    requires s.lastHeight > 0
    ensures Run(s, Leave(s)).phase.Offline? && Run(s, Leave(s)).chain == s.chain
  {
    if s.phase.Live? {
      LeaveLiveRuns(s);
    } else if !s.phase.Offline? {
      RunLast(s, Leave(s));
    }
  }

  lemma LeaveLiveRuns(s: Client)
    requires s.phase.Live?
    ensures Run(s, Leave(s)).phase.Offline? && Run(s, Leave(s)).chain == s.chain
  {
    var middle := if s.open then [CutFeed(0)] else Drain(|s.feed|);
    assert Run(s, [Sent]) == Step(s, Sent) by { RunLast(s, [Sent]); }
    FeedEnds(Step(s, Sent), middle);
    RunConcat(s, [Sent], middle);
    RunConcat(s, [Sent] + middle, [HangUp]);
    RunLast(Run(Step(s, Sent), middle), [HangUp]);
  }

  lemma FeedEnds(s: Client, middle: seq<Action>)
    requires s.phase == Live(None) && middle == if s.open then [CutFeed(0)] else Drain(|s.feed|)
    ensures var t := Run(s, middle); t.phase == Live(None) && t.feed == [] && !t.open && t.chain == s.chain
  {
    if s.open {
      RunLast(s, middle);
    } else {
      DrainRuns(s, |s.feed|);
    }
  }

  lemma {:induction false} DrainOnlyReceives(n: nat)
    ensures forall i :: 0 <= i < |Drain(n)| ==> !Drain(n)[i].Connect?
  {
    if n > 0 {
      DrainOnlyReceives(n - 1);
    }
  }

  lemma LeaveDoesNotConnect(s: Client)
    ensures forall i :: 0 <= i < |Leave(s)| ==> !Leave(s)[i].Connect?
  {
    DrainOnlyReceives(|s.feed|);
  }

  lemma ConnectsOnlyAt(s: Client, at: nat)
    ensures forall a :: a in Reconnection(s, at) && a.Connect? ==> a.at == at
  {
    LeaveDoesNotConnect(s);
    DrainOnlyReceives(|MatchingAbove(s.chain, at)|);
  }

  /** What is missed is missed only until the client gets to a node below it: leaving and connecting at
      a node that has reached the height `at`, which answers with that height, emits a transaction that
      was missed if and only if `at` is below it. */
  lemma {:induction false} ReconnectionRegainsIff(s: Client, at: nat, r: Ref)
    requires Missed(s, r) && Parses(s.chain, r) && ReplayGoesUp(s) && at <= |s.chain|
    ensures r in Run(s, Reconnection(s, at)).out <==> at < r.height
  {
    TxsFacts(s.chain);
    if at < r.height {
      var left := Run(s, Leave(s));
      LeaveRuns(s);
      LeaveDoesNotConnect(s);
      MissedForGood(s, Leave(s), r);
      RunConcat(s, Leave(s), [Connect(at), FetchHeight(at)] + Drain(|MatchingAbove(s.chain, at)|));
      ConnectionBelowEmits(left, at, r);
    } else {
      ConnectsOnlyAt(s, at);
      MissedForGood(s, Reconnection(s, at), r);
    }
  }

  lemma ConnectionBelowEmits(s: Client, at: nat, r: Ref)
    requires Missed(s, r) && Parses(s.chain, r) && s.phase.Offline? && at < r.height && at <= |s.chain|
    ensures r in Run(s, [Connect(at), FetchHeight(at)] + Drain(|MatchingAbove(s.chain, at)|)).out
  {
    var feed := MatchingAbove(s.chain, at);
    var live := Step(Step(s, Connect(at)), FetchHeight(at));
    TxsFacts(s.chain);
    MatchingAboveHeight(s.chain, at);
    RunTwo(s, Connect(at), FetchHeight(at));
    RunConcat(s, [Connect(at), FetchHeight(at)], Drain(|feed|));
    DrainRuns(live, |feed|);
    assert live.feed == feed && feed[..|feed|] == feed;
    ReceivedMeaning(Progress(live.lastHeight, live.out), s.chain, feed, r.height);
  }

  // ---- what a start that is not positive delivers ----

  /** No live event has come yet on any connection of a client that started at no height. */
  ghost predicate Awaiting(s: Client) {
    && s.start <= 0 && s.lastHeight == 0 && s.out == [] && FeedShape(s)
    && (s.phase.Offline? || s.phase.Subscribed? || s.phase == Live(None))
    && (!s.phase.Offline? ==>
          forall r :: r in Txs(s.chain, true) && r.height > s.from && FeedReaches(s, r.height)
            ==> r in s.feed || r in s.lost)
  }

  lemma MineKeepsAwaiting(s: Client, block: Block)
    requires Awaiting(s)
    ensures Awaiting(Step(s, Mine(block)))
  {
    var t := Step(s, Mine(block));
    MineKeepsShape(s, block);
    if !s.phase.Offline? {
      forall r | r in Txs(t.chain, true) && r.height > t.from && FeedReaches(t, r.height)
        ensures r in t.feed || r in t.lost
      {
        MinedIsAwaited(s, block, r);
      }
    }
  }

  lemma MinedIsAwaited(s: Client, block: Block, r: Ref)
    requires Awaiting(s) && !s.phase.Offline?
    requires r in Txs(Step(s, Mine(block)).chain, true) && r.height > s.from && FeedReaches(Step(s, Mine(block)), r.height)
    ensures r in Step(s, Mine(block)).feed || r in s.lost
  {
    RefsOfBlock(block, |s.chain| + 1, true);
    TxsFacts(s.chain);
    if s.feed != [] {
      assert s.feed[|s.feed| - 1] in s.feed;
    }
  }

  lemma CutAccounts(s: Client, kept: nat, r: Ref)
    requires 0 < kept <= |s.feed| && r.height <= s.feed[kept - 1].height
    requires s.start < r.height && r !in s.out && s.phase != Live(Some(r))
    ensures r in s.feed ==> r in s.feed[..kept] || r in CutLoss(s, kept)
  {
    assert s.feed == s.feed[..kept] + s.feed[kept..];
  }

  lemma CutKeepsAwaiting(s: Client, kept: nat)
    requires Awaiting(s) && s.open && kept <= |s.feed|
    ensures Awaiting(Step(s, CutFeed(kept)))
  {
    StepKeepsShape(s, CutFeed(kept));
    TxsFacts(s.chain);
    forall r | r in Txs(s.chain, true) && r.height > s.from && kept > 0 && r.height <= s.feed[kept - 1].height
      ensures r in s.feed[..kept] || r in s.lost + CutLoss(s, kept)
    {
      CutAccounts(s, kept, r);
    }
  }

  lemma ReceiveReachesLess(s: Client, t: Client, height: int)
    requires s.feed != [] && t.feed == s.feed[1..] && t.open == s.open && FeedReaches(t, height)
    ensures FeedReaches(s, height)
  {
    if |s.feed| > 1 {
      assert s.feed[1..][|s.feed| - 2] == s.feed[|s.feed| - 1];
    }
  }

  lemma ReceiveKeepsAwaiting(s: Client)
    requires Awaiting(s) && s.phase == Live(None) && s.feed != [] && !Parses(s.chain, s.feed[0])
    ensures Awaiting(Step(s, Receive))
  {
    var t := Step(s, Receive);
    ReceiveKeepsShape(s);
    OrderedTail(s.feed);
    forall r | r in Txs(s.chain, true) && r.height > s.from && FeedReaches(t, r.height)
      ensures r in t.feed || r in t.lost
    {
      ReceiveReachesLess(s, t, r.height);
    }
  }

  predicate FirstEvent(s: Client, a: Action) {
    a.Receive? && s.phase == Live(None) && s.feed != [] && Parses(s.chain, s.feed[0])
  }

  lemma StepKeepsAwaiting(s: Client, a: Action)
    requires Awaiting(s) && !FirstEvent(s, a)
    ensures Awaiting(Step(s, a))
  {
    match a
    case Mine(block) => MineKeepsAwaiting(s, block);
    case Connect(at) => MatchingAboveHeight(s.chain, at);
    case Receive =>
      if s.phase == Live(None) && s.feed != [] {
        ReceiveKeepsAwaiting(s);
      }
    case CutFeed(kept) =>
      if s.open && kept <= |s.feed| {
        CutKeepsAwaiting(s, kept);
      }
    case _ =>
  }

  lemma FirstEventRaisesHeight(s: Client)
    requires FeedShape(s) && FirstEvent(s, Receive)
    ensures Step(s, Receive).lastHeight > s.from && Step(s, Receive).lastHeight > 0
  {
    TxsFacts(s.chain);
    assert s.feed[0] in s.feed;
  }

  lemma {:induction false} AwaitingWhileNoHeight(s: Client, schedule: seq<Action>)
    requires Awaiting(s) && Run(s, schedule).lastHeight == 0
    ensures Awaiting(Run(s, schedule))
    decreases |schedule|
  {
    if schedule != [] {
      var t := Step(s, schedule[0]);
      StepKeepsLastHeight(s, schedule[0]);
      RunKeepsLastHeight(t, schedule[1..]);
      if FirstEvent(s, schedule[0]) {
        FirstEventRaisesHeight(s);
        assert false;
      }
      StepKeepsAwaiting(s, schedule[0]);
      AwaitingWhileNoHeight(t, schedule[1..]);
    }
  }

  lemma GentleStepKeepsNothingLost(s: Client, a: Action)
    requires Awaiting(s) && s.lost == {} && !CutsInsideBlock(s, a) && !SkipsUnparsed(s, a)
    ensures Step(s, a).lost == {}
  {
    if a.CutFeed? && s.open && a.kept <= |s.feed| {
      forall r | r in s.feed[a.kept..]
        ensures r in s.feed && (a.kept > 0 ==> s.feed[a.kept - 1].height <= r.height)
      {
        var i :| a.kept <= i < |s.feed| && s.feed[i] == r;
      }
      TxsFacts(s.chain);
      assert CutLoss(s, a.kept) == {};
    }
  }

  lemma {:induction false} GentleWhileAwaiting(s: Client, schedule: seq<Action>)
    requires Awaiting(s) && s.lost == {} && Gentle(s, schedule) && Run(s, schedule).lastHeight == 0
    ensures Run(s, schedule).lost == {}
    decreases |schedule|
  {
    if schedule != [] {
      var t := Step(s, schedule[0]);
      StepKeepsLastHeight(s, schedule[0]);
      RunKeepsLastHeight(t, schedule[1..]);
      if FirstEvent(s, schedule[0]) {
        FirstEventRaisesHeight(s);
        assert false;
      }
      StepKeepsAwaiting(s, schedule[0]);
      GentleStepKeepsNothingLost(s, schedule[0]);
      GentleWhileAwaiting(t, schedule[1..]);
    }
  }

  /** From its first event on, the client is as good as one that started where the connection was
      subscribed. */
  lemma FirstEventSetsStart(s: Client)
    requires Awaiting(s) && FirstEvent(s, Receive)
    ensures Inv(Step(s, Receive).(start := s.from))
  {
    var t := Step(s, Receive).(start := s.from);
    ReceiveKeepsShape(s);
    FirstEventRaisesHeight(s);
    TxsFacts(s.chain);
    assert s.feed[0] in s.feed;
    forall r | r in Txs(s.chain, true) && r.height > s.from && (r.height <= t.lastHeight || FeedReaches(t, r.height))
      ensures Covered(t, r)
    {
      FirstEventCovers(s, t, r);
    }
  }

  lemma FirstEventCovers(s: Client, t: Client, r: Ref)
    requires Awaiting(s) && FirstEvent(s, Receive) && t == Step(s, Receive).(start := s.from)
    requires r in Txs(s.chain, true) && r.height > s.from && (r.height <= t.lastHeight || FeedReaches(t, r.height))
    ensures Covered(t, r)
  {
    OrderedTail(s.feed);
    assert s.feed[0].height <= s.feed[|s.feed| - 1].height;
    if FeedReaches(t, r.height) {
      ReceiveReachesLess(s, t, r.height);
    }
    assert FeedReaches(s, r.height);
  }

  /** Where the client says it started decides only what counts as lost. */
  lemma StepIgnoresStart(s: Client, a: Action, start: int, lost: set<Ref>)
    ensures var t := Step(s.(start := start, lost := lost), a);
            t == Step(s, a).(start := start, lost := t.lost)
  {
  }

  lemma {:induction false} RunIgnoresStart(s: Client, schedule: seq<Action>, start: int, lost: set<Ref>)
    ensures var t := Run(s.(start := start, lost := lost), schedule);
            t == Run(s, schedule).(start := start, lost := t.lost)
    ensures Gentle(s.(start := start, lost := lost), schedule) <==> Gentle(s, schedule)
    decreases |schedule|
  {
    if schedule != [] {
      var t := Step(s.(start := start, lost := lost), schedule[0]);
      StepIgnoresStart(s, schedule[0], start, lost);
      RunIgnoresStart(Step(s, schedule[0]), schedule[1..], start, t.lost);
    }
  }

  /** A client with no positive start delivers, under the same conditions, what lies above the height at
      which the connection of its first event was subscribed. What lies at or below it and was in the
      chain then is missed from that event on, and never emitted unless the client connects below it. */
  lemma {:induction false} ZeroStartDeliversFromFirstConnection(
    chain: seq<Block>, start: int, before: seq<Action>, s: Client, rest: seq<Action>, r: Ref)
    requires start <= 0 && s == Run(Start(chain, start), before) && Gentle(Start(chain, start), before)
    requires s.lastHeight == 0 && FirstEvent(s, Receive) && Gentle(Step(s, Receive), rest)
    ensures var t := Run(Step(s, Receive), rest);
            && ((r in Txs(t.chain, true) && s.from < r.height <= t.lastHeight)
                  ==> r in t.out || t.phase == Live(Some(r)) || (r in t.feed && r.height == t.current))
            && ((r in Txs(s.chain, true) && r.height <= s.from)
                  ==> Missed(Step(s, Receive), r)
                      && (ConnectsAbove(Step(s, Receive), rest, r.height) ==> r !in t.out))
  {
    AwaitingWhileNoHeight(Start(chain, start), before);
    GentleWhileAwaiting(Start(chain, start), before);
    var t := Run(Step(s, Receive), rest);
    if r in Txs(s.chain, true) && r.height <= s.from {
      assert s.feed[0] in s.feed;
      if ConnectsAbove(Step(s, Receive), rest, r.height) {
        SkippedEventIsLostForGood(s, r, rest);
      }
    }
    if r in Txs(t.chain, true) && s.from < r.height <= t.lastHeight {
      DeliversAboveFirstConnection(s, rest, r);
    }
  }

  lemma {:induction false} DeliversAboveFirstConnection(s: Client, rest: seq<Action>, r: Ref)
    requires Awaiting(s) && s.lost == {} && FirstEvent(s, Receive) && Gentle(Step(s, Receive), rest)
    requires r in Txs(Run(Step(s, Receive), rest).chain, true)
    requires s.from < r.height <= Run(Step(s, Receive), rest).lastHeight
    ensures var t := Run(Step(s, Receive), rest);
            r in t.out || t.phase == Live(Some(r)) || (r in t.feed && r.height == t.current)
  {
    var first := Step(s, Receive).(start := s.from);
    FirstEventSetsStart(s);
    RunIgnoresStart(Step(s, Receive), rest, s.from, Step(s, Receive).lost);
    RunKeepsInv(first, rest);
    GentleRunLosesNothing(first, rest);
    RunKeepsStart(first, rest);
  }

  // ---- the client object ----

  /** What the requests for blocks `height`..`target` bring until one fails: a block that is not in
      `blocks` could not be fetched or built. */
  function Replayed(blocks: map<int, Block>, height: int, target: int): (seq<Ref>, bool)
    decreases target - height
  {
    if height > target then ([], true)
    else if height !in blocks then ([], false)
    else
      var (rest, ok) := Replayed(blocks, height + 1, target);
      (RefsOf(blocks[height], height, false) + rest, ok)
  }

  function ReplaySchedule(blocks: map<int, Block>, height: int, target: int): seq<Action>
    decreases target - height
  {
    if height > target then [ReplayDone]
    else if height !in blocks then [ReplayFails]
    else [ReplayBlock] + ReplaySchedule(blocks, height + 1, target)
  }

  /** The catch-up loop is a run of replay steps: `lastHeight` moves only if every block came. */
  lemma {:induction false} ReplayScheduleRuns(s: Client, blocks: map<int, Block>, height: int, target: int)
    requires s.phase == Replaying(height, target) && 1 <= height <= target + 1 && target <= |s.chain|
    requires forall h :: height <= h <= target && h in blocks ==> blocks[h] == s.chain[h - 1]
    ensures var t := Run(s, ReplaySchedule(blocks, height, target));
            var (refs, ok) := Replayed(blocks, height, target);
            && t.out == s.out + refs
            && t.lastHeight == (if ok then target else s.lastHeight)
            && t.phase == (if ok then Live(None) else Offline)
            && t.chain == s.chain && (ok ==> t.feed == s.feed)
    decreases target - height
  {
    var schedule := ReplaySchedule(blocks, height, target);
    if height > target || height !in blocks {
      assert schedule[1..] == [];
      assert Run(Step(s, schedule[0]), []) == Step(s, schedule[0]);
    } else {
      var next := Step(s, ReplayBlock);
      assert schedule[1..] == ReplaySchedule(blocks, height + 1, target);
      ReplayScheduleRuns(next, blocks, height + 1, target);
    }
  }

  datatype Progress = Progress(lastHeight: int, out: seq<Ref>)

  function Received(p: Progress, chain: seq<Block>, r: Ref): Progress {
    if Parses(chain, r)
    then Progress(if r.height > p.lastHeight then r.height else p.lastHeight, p.out + [r])
    else p
  }

  function ReceivedAll(p: Progress, chain: seq<Block>, feed: seq<Ref>): Progress {
    if feed == [] then p
    else Received(ReceivedAll(p, chain, feed[..|feed| - 1]), chain, feed[|feed| - 1])
  }

  /** The progress after catch-up and whether it succeeded; `latest` is None when the height could
      not be fetched. */
  function CaughtUp(p: Progress, latest: Option<int>, blocks: map<int, Block>): (Progress, bool) {
    if p.lastHeight <= 0 then (p, true)
    else if latest.None? then (p, false)
    else if p.lastHeight >= latest.value then (p, true)
    else
      var (refs, ok) := Replayed(blocks, p.lastHeight + 1, latest.value);
      (Progress(if ok then latest.value else p.lastHeight, p.out + refs), ok)
  }

  function Session(
    p: Progress, up: bool, latest: Option<int>, blocks: map<int, Block>, chain: seq<Block>, feed: seq<Ref>): Progress
  {
    if up && CaughtUp(p, latest, blocks).1 then ReceivedAll(CaughtUp(p, latest, blocks).0, chain, feed)
    else if up then CaughtUp(p, latest, blocks).0
    else p
  }

  /** The blocks fetched are blocks of the chain. */
  ghost predicate OfChain(blocks: map<int, Block>, chain: seq<Block>) {
    forall h :: h in blocks && 1 <= h <= |chain| ==> blocks[h] == chain[h - 1]
  }

  /** The actions of a catch-up with these answers: whether there is one, from which height on it replays
      and to where is the state machine's to decide. */
  function CatchUpSchedule(lastHeight: int, latest: Option<int>, blocks: map<int, Block>): seq<Action> {
    if latest.None? && lastHeight > 0 then [FetchFails]
    else
      [FetchHeight(if latest.Some? then latest.value else 0)]
      + if latest.Some? && 0 < lastHeight < latest.value then ReplaySchedule(blocks, lastHeight + 1, latest.value) else []
  }

  /** Catch-up is a run of the state machine: the same height, the same output, and live at the end
      exactly if it succeeds. */
  lemma CatchUpRuns(s: Client, latest: Option<int>, blocks: map<int, Block>)
    requires s.phase == Subscribed && OfChain(blocks, s.chain) && (latest.Some? ==> latest.value <= |s.chain|)
    ensures var t := Run(s, CatchUpSchedule(s.lastHeight, latest, blocks));
            var (p, ok) := CaughtUp(Progress(s.lastHeight, s.out), latest, blocks);
            && p == Progress(t.lastHeight, t.out) && t.chain == s.chain
            && t.phase == (if ok then Live(None) else Offline)
            && (ok ==> t.feed == s.feed)
    ensures s.lastHeight <= 0 ==> Step(s, FetchFails) == s
  {
    if latest.None? && s.lastHeight > 0 {
      RunLast(s, [FetchFails]);
    } else {
      var fetch := FetchHeight(if latest.Some? then latest.value else 0);
      RunLast(s, [fetch]);
      if latest.Some? && 0 < s.lastHeight < latest.value {
        RunConcat(s, [fetch], ReplaySchedule(blocks, s.lastHeight + 1, latest.value));
        ReplayScheduleRuns(Step(s, fetch), blocks, s.lastHeight + 1, latest.value);
      }
    }
  }

  /** What a successful catch-up has to have brought: it had every block above the old height up to the
      latest, and its output is all their wanted transactions in order. */
  lemma CatchUpBringsEveryBlock(p: Progress, latest: int, blocks: map<int, Block>)
    requires 0 < p.lastHeight < latest
    ensures var (q, ok) := CaughtUp(p, Some(latest), blocks);
            && (ok <==> forall h :: p.lastHeight < h <= latest ==> h in blocks)
            && q.lastHeight == (if ok then latest else p.lastHeight)
            && p.out <= q.out
            && StrictlyOrdered(q.out[|p.out|..])
            && (ok ==> forall r :: r in q.out[|p.out|..] <==>
                  && p.lastHeight < r.height <= latest && r.index < |blocks[r.height]|
                  && Wanted(blocks[r.height][r.index], false))
  {
    ReplayedBrings(blocks, p.lastHeight + 1, latest);
    var (refs, ok) := Replayed(blocks, p.lastHeight + 1, latest);
    assert (p.out + refs)[|p.out|..] == refs;
  }

  lemma {:induction false} ReplayedBrings(blocks: map<int, Block>, height: int, target: int)
    ensures var (refs, ok) := Replayed(blocks, height, target);
            && (ok <==> forall h :: height <= h <= target ==> h in blocks)
            && StrictlyOrdered(refs) && (forall r :: r in refs ==> height <= r.height)
            && (ok ==> forall r :: r in refs <==>
                  height <= r.height <= target && r.index < |blocks[r.height]| && Wanted(blocks[r.height][r.index], false))
    decreases target - height
  {
    if height <= target && height in blocks {
      ReplayedBrings(blocks, height + 1, target);
      RefsOfBlock(blocks[height], height, false);
    }
  }

  /** A connection is a run of the state machine: catch-up, and then the live events if it succeeded. */
  lemma SessionRuns(s: Client, latest: Option<int>, blocks: map<int, Block>)
    requires s.phase == Subscribed && OfChain(blocks, s.chain) && (latest.Some? ==> latest.value <= |s.chain|)
    ensures var caughtUp := Run(s, CatchUpSchedule(s.lastHeight, latest, blocks));
            var t := if caughtUp.phase == Live(None) then Run(caughtUp, Drain(|s.feed|)) else caughtUp;
            && Session(Progress(s.lastHeight, s.out), true, latest, blocks, s.chain, s.feed)
               == Progress(t.lastHeight, t.out)
            && (t.phase == Live(None) ==> t.feed == [])
  {
    CatchUpRuns(s, latest, blocks);
    var caughtUp := Run(s, CatchUpSchedule(s.lastHeight, latest, blocks));
    if caughtUp.phase == Live(None) {
      DrainRuns(caughtUp, |s.feed|);
      assert s.feed[..|s.feed|] == s.feed;
    }
  }

  class Subscriber {
    var lastHeight: int
    var out: seq<Ref>

    ghost function State(): Progress
      reads this
    {
      Progress(lastHeight, out)
    }

    constructor (start: int)
      ensures State() == Progress(if start > 0 then start else 0, [])
    {
      lastHeight := if start > 0 then start else 0;
      out := [];
    }

    method CatchUp(blocks: map<int, Block>, fromHeight: int, toHeight: int) returns (ok: bool)
      modifies this`out
      ensures out == old(out) + Replayed(blocks, fromHeight, toHeight).0
      ensures ok == Replayed(blocks, fromHeight, toHeight).1
    {
      var h := fromHeight;
      while h <= toHeight
        invariant h <= toHeight + 1 || h == fromHeight
        invariant Replayed(blocks, fromHeight, toHeight).1 == Replayed(blocks, h, toHeight).1
        invariant old(out) + Replayed(blocks, fromHeight, toHeight).0 == out + Replayed(blocks, h, toHeight).0
        decreases toHeight - h
      {
        if h !in blocks {
          return false;
        }
        ghost var rest := Replayed(blocks, h + 1, toHeight).0;
        assert out + (RefsOf(blocks[h], h, false) + rest) == out + RefsOf(blocks[h], h, false) + rest;
        out := out + RefsOf(blocks[h], h, false);
        h := h + 1;
      }
      return true;
    }

    method CatchUpFromLastHeight(latest: Option<int>, blocks: map<int, Block>) returns (ok: bool)
      modifies this
      ensures (State(), ok) == CaughtUp(old(State()), latest, blocks)
    {
      var stored := lastHeight;
      if stored <= 0 {
        return true;
      }
      if latest.None? {
        return false;
      }
      if stored >= latest.value {
        return true;
      }
      ok := CatchUp(blocks, stored + 1, latest.value);
      if ok {
        lastHeight := latest.value;
      }
    }

    /** Runs until the channel of live events is closed. */
    method ProcessEvents(chain: seq<Block>, feed: seq<Ref>)
      modifies this
      ensures State() == ReceivedAll(old(State()), chain, feed)
    {
      for i := 0 to |feed|
        invariant State() == ReceivedAll(old(State()), chain, feed[..i])
      {
        var r := feed[i];
        assert feed[..i + 1][..i] == feed[..i];
        if !Parses(chain, r) {
          continue;
        }
        if r.height > lastHeight {
          lastHeight := r.height;
        }
        out := out + [r];
      }
      assert feed[..|feed|] == feed;
    }

    /** One connection. */
    method RunSubscription(up: bool, latest: Option<int>, blocks: map<int, Block>, chain: seq<Block>, feed: seq<Ref>)
      modifies this
      ensures State() == Session(old(State()), up, latest, blocks, chain, feed)
    {
      if !up {
        return;
      }
      var ok := CatchUpFromLastHeight(latest, blocks);
      if !ok {
        return;
      }
      ProcessEvents(chain, feed);
    }
  }

  /** A connection, however it goes, takes back neither height nor output, and one that fails
      before the live events repeats at most what replay had already emitted. */
  lemma SessionOnlyAdds(p: Progress, up: bool, latest: Option<int>, blocks: map<int, Block>, chain: seq<Block>, feed: seq<Ref>)
    ensures var after := Session(p, up, latest, blocks, chain, feed);
            && after.lastHeight >= p.lastHeight && p.out <= after.out
            && (!up || !CaughtUp(p, latest, blocks).1 ==> after.lastHeight == p.lastHeight)
  {
    ReceivedOnlyAdds(CaughtUp(p, latest, blocks).0, chain, feed);
  }

  lemma {:induction false} ReceivedOnlyAdds(p: Progress, chain: seq<Block>, feed: seq<Ref>)
    ensures ReceivedAll(p, chain, feed).lastHeight >= p.lastHeight
    ensures p.out <= ReceivedAll(p, chain, feed).out
  {
    if feed != [] {
      ReceivedOnlyAdds(p, chain, feed[..|feed| - 1]);
    }
  }

  // ---- runs that lose a transaction ----

  const ONE_TX: Block := [Matching(true)]

  /** A lagging node does lose a transaction in a run: the websocket is subscribed at height 2, the
      height fetched is 1, so block 2 is not replayed. Only a node at height 1 or 0 brings it back. */
  lemma {:induction false} LaggingNodeExample(s: Client, rest: seq<Action>)
    requires s == Run(Start([[]], 1), [Mine(ONE_TX), Connect(2), FetchHeight(1)] + [Mine(ONE_TX), Receive, Sent])
    ensures Missed(s, Ref(2, 0)) && s.lastHeight == 3
    ensures ConnectsAbove(s, rest, 2) ==> Ref(2, 0) !in Run(s, rest).out
    ensures Ref(2, 0) in Run(s, Reconnection(s, 1)).out
  {
    var s0 := Start([[]], 1);
    var s3 := LaggingNodeConnects();
    LaggingNodeReceives(s3);
    RunConcat(s0, [Mine(ONE_TX), Connect(2), FetchHeight(1)], [Mine(ONE_TX), Receive, Sent]);
    RunThree(s0, Mine(ONE_TX), Connect(2), FetchHeight(1));
    RunThree(s3, Mine(ONE_TX), Receive, Sent);
    ReconnectionRegainsIff(s, 1, Ref(2, 0));
    if ConnectsAbove(s, rest, 2) {
      MissedForGood(s, rest, Ref(2, 0));
    }
  }

  lemma LaggingNodeConnects() returns (s: Client)
    ensures s == Step(Step(Step(Start([[]], 1), Mine(ONE_TX)), Connect(2)), FetchHeight(1))
    ensures s.chain == [[], ONE_TX] && s.lastHeight == 1 && s.out == [] && s.phase == Live(None)
    ensures s.feed == [] && s.open && s.from == 2
  {
    var s1 := Step(Start([[]], 1), Mine(ONE_TX));
    assert s1.chain == [[], ONE_TX];
    var s2 := Step(s1, Connect(2));
    assert s2.phase == Subscribed && s2.feed == [];
    s := Step(s2, FetchHeight(1));
  }

  lemma LaggingNodeReceives(s: Client)
    requires s.chain == [[], ONE_TX] && s.lastHeight == 1 && s.out == [] && s.phase == Live(None)
    requires s.feed == [] && s.open && s.from == 2
    ensures var t := Step(Step(Step(s, Mine(ONE_TX)), Receive), Sent);
            Missed(t, Ref(2, 0)) && t.lastHeight == 3 && t.phase.Live? && t.chain == [[], ONE_TX, ONE_TX]
  {
    assert RefsOf(ONE_TX[..0], 3, true) == [];
    assert RefsOf(ONE_TX, 3, true) == [Ref(3, 0)];
    var s1 := Step(s, Mine(ONE_TX));
    assert s1.feed == [Ref(3, 0)] && s1.chain == [[], ONE_TX, ONE_TX];
    assert Parses(s1.chain, Ref(3, 0));
    var s2 := Step(s1, Receive);
    assert s2.lastHeight == 3 && s2.feed == [] && s2.phase == Live(Some(Ref(3, 0)));
    TxsMeaning(s1.chain, true, Ref(2, 0));
  }

  const TWO_TXS: Block := [Matching(true), Matching(true)]
  const CUT_INSIDE_BLOCK := [Connect(1), FetchHeight(1), Mine(TWO_TXS), Receive, Sent, CutFeed(0)]

  /** Such a cut does happen in a run: here the client has emitted one of the two transactions of
      block 2. Only a node at height 1 or 0 brings the other. */
  lemma {:induction false} CutInsideBlockExample(s: Client, rest: seq<Action>)
    requires s == Run(Start([[]], 1), CUT_INSIDE_BLOCK)
    ensures Missed(s, Ref(2, 1)) && s.lastHeight == 2
    ensures ConnectsAbove(s, rest, 2) ==> Ref(2, 1) !in Run(s, rest).out
    ensures Ref(2, 1) in Run(s, Reconnection(s, 1)).out
  {
    var s0 := Start([[]], 1);
    var s3 := ExampleReceives();
    ExampleCuts(s3);
    assert CUT_INSIDE_BLOCK == [Connect(1), FetchHeight(1), Mine(TWO_TXS)] + [Receive, Sent, CutFeed(0)];
    RunConcat(s0, [Connect(1), FetchHeight(1), Mine(TWO_TXS)], [Receive, Sent, CutFeed(0)]);
    RunThree(s0, Connect(1), FetchHeight(1), Mine(TWO_TXS));
    RunThree(s3, Receive, Sent, CutFeed(0));
    ReconnectionRegainsIff(s, 1, Ref(2, 1));
    if ConnectsAbove(s, rest, 2) {
      MissedForGood(s, rest, Ref(2, 1));
    }
  }

  lemma ExampleReceives() returns (s: Client)
    ensures s == Step(Step(Step(Start([[]], 1), Connect(1)), FetchHeight(1)), Mine(TWO_TXS))
    ensures s == Client(1, [[], TWO_TXS], 1, [], Live(None), 1, [Ref(2, 0), Ref(2, 1)], true, 0, {})
  {
    assert TWO_TXS[..1] == [Matching(true)] && TWO_TXS[..1][..0] == [];
    assert RefsOf(TWO_TXS[..1], 2, true) == [Ref(2, 0)];
    assert RefsOf(TWO_TXS, 2, true) == [Ref(2, 0), Ref(2, 1)];
    var s2 := Step(Step(Start([[]], 1), Connect(1)), FetchHeight(1));
    assert s2 == Client(1, [[]], 1, [], Live(None), 1, [], true, 0, {});
    s := Step(s2, Mine(TWO_TXS));
    assert [[]] + [TWO_TXS] == [[], TWO_TXS];
  }

  lemma ExampleCuts(s: Client)
    requires s == Client(1, [[], TWO_TXS], 1, [], Live(None), 1, [Ref(2, 0), Ref(2, 1)], true, 0, {})
    ensures var t := Step(Step(Step(s, Receive), Sent), CutFeed(0));
            Missed(t, Ref(2, 1)) && t.lastHeight == 2 && t.phase.Live? && t.chain == s.chain
  {
    assert Parses(s.chain, Ref(2, 0));
    var t1 := Step(s, Receive);
    assert t1 == Client(1, s.chain, 2, [], Live(Some(Ref(2, 0))), 1, [Ref(2, 1)], true, 2, {});
    var t2 := Step(t1, Sent);
    assert t2 == Client(1, s.chain, 2, [Ref(2, 0)], Live(None), 1, [Ref(2, 1)], true, 2, {});
    TxsMeaning(s.chain, true, Ref(2, 1));
  }

  lemma RunThree(s: Client, a: Action, b: Action, c: Action)
    ensures Run(s, [a, b, c]) == Step(Step(Step(s, a), b), c)
  {
    assert [a, b, c][1..] == [b, c] && [b, c][1..] == [c] && [c][1..] == [];
    assert Run(Step(Step(s, a), b), [c]) == Step(Step(Step(s, a), b), c);
  }

  const MINED_OFFLINE := [Connect(0), FetchHeight(0), CutFeed(0)] + [HangUp, Mine([Matching(true)]), Connect(1)]
                         + [FetchHeight(1), Mine([Matching(true)]), Receive]

  /** From start height 0 there is no catch-up before the first live event: a transaction mined
      while the client was disconnected is passed over, with no cut inside a block. Only a node at
      height 0 brings it back. */
  lemma {:induction false} ZeroStartExample(s: Client, rest: seq<Action>)
    requires s == Run(Start([], 0), MINED_OFFLINE)
    ensures Missed(s, Ref(1, 0))
    ensures ConnectsAbove(s, rest, 1) ==> Ref(1, 0) !in Run(s, rest).out
    ensures Ref(1, 0) in Run(s, Reconnection(s, 0)).out
  {
    var s0 := Start([], 0);
    var s3 := Step(Step(Step(s0, Connect(0)), FetchHeight(0)), CutFeed(0));
    assert s3 == Client(0, [], 0, [], Live(None), 0, [], false, 0, {});
    var s6 := ZeroStartReconnects(s3);
    var s9 := ZeroStartReceives(s6);
    var (a, b, c) := ([Connect(0), FetchHeight(0), CutFeed(0)], [HangUp, Mine([Matching(true)]), Connect(1)],
                      [FetchHeight(1), Mine([Matching(true)]), Receive]);
    RunConcat(s0, a + b, c);
    RunConcat(s0, a, b);
    RunThree(s0, a[0], a[1], a[2]);
    RunThree(s3, b[0], b[1], b[2]);
    RunThree(s6, c[0], c[1], c[2]);
    ReconnectionRegainsIff(s, 0, Ref(1, 0));
    if ConnectsAbove(s, rest, 1) {
      MissedForGood(s, rest, Ref(1, 0));
    }
  }

  lemma ZeroStartReconnects(s: Client) returns (t: Client)
    requires s == Client(0, [], 0, [], Live(None), 0, [], false, 0, {})
    ensures t == Step(Step(Step(s, HangUp), Mine([Matching(true)])), Connect(1))
    ensures t == Client(0, [[Matching(true)]], 0, [], Subscribed, 1, [], true, 0, {})
  {
    t := Step(Step(Step(s, HangUp), Mine([Matching(true)])), Connect(1));
    var empty: seq<Block> := [];
    assert empty + [[Matching(true)]] == [[Matching(true)]];
  }

  lemma ZeroStartReceives(s: Client) returns (t: Client)
    requires s == Client(0, [[Matching(true)]], 0, [], Subscribed, 1, [], true, 0, {})
    ensures t == Step(Step(Step(s, FetchHeight(1)), Mine([Matching(true)])), Receive)
    ensures Missed(t, Ref(1, 0)) && t.phase.Live? && t.chain == [[Matching(true)], [Matching(true)]]
  {
    var block := [Matching(true)];
    assert RefsOf(block[..0], 2, true) == [];
    assert RefsOf(block, 2, true) == [Ref(2, 0)];
    var s2 := Step(Step(s, FetchHeight(1)), Mine(block));
    assert s2.feed == [Ref(2, 0)] && s2.chain == [block, block];
    assert Parses(s2.chain, Ref(2, 0));
    t := Step(s2, Receive);
    TxsMeaning(t.chain, true, Ref(1, 0));
  }
}
