# Verified models of the ION backend and client cores

Dafny models of the stateful cores of the ION repository: the RLDP-HTTP bridge and ADNL server (Go), the
Greenfield subscription and ingester (Go), and the client-side state machines and caches (TypeScript).
`dafny verify dfyconfig.toml` checks the whole project.

## How to read it

Code that runs concurrently is a state machine. One `Action` is what a goroutine does in one critical section
or atomic operation, or what a TypeScript function does between two `await`s; an action that is not possible in
a state leaves it as it is. `Step` performs one action, `Run` a schedule of them, and the main results hold for
every schedule. Beside the state machine stands a class with the source's fields, whose methods are proved equal
to the functions that the state machine is made of. I/O answers, clocks, timers and random ids are parameters.

| file | models |
|---|---|
| `rldp_http.dfy` | cutting response bodies into parts; the books about pending payloads |
| `xor_affinity.dfy`, `kademlia.dfy` | the prefix metric; keeping the k closest nodes |
| `dht_registrar.dfy` | the LRU of registered bags, its region index, the sweep |
| `connection_cap.dfy` | the connection counter |
| `subscription.dfy`, `replay_events.dfy` | catch-up and live delivery; replayed messages as events |
| `job_queue.dfy`, `ingestion.dfy` | job ids and enqueue-once in Redis; subscription and queue together |
| `connection_state.dfy`, `proxy_lifecycle.dfy`, `long_poll.dfy` | the transition table; proxy restarts; long polling |
| `request_queue.dfy` | the offline queue and its replay |
| `memory_storage.dfy`, `file_cache.dfy` | the TTL and priority cache; the file cache |
| `like_pattern.dfy`, `path_validation.dfy` | LIKE escaping; path normalisation |
| `text.dfy`, `wrappers.dfy` | splitting, joining, decimals; Option and Result |

## Where the code gives less than it promises

The lemmas named give the failing family or a failing run, and the exact condition where there is one.

- A request id that is reused while its payload is stored leaks a slot and its bytes for good, up to 499 slots
  (`RldpHttp.IdleCountersMatchMapIffIdsWereFresh`, `RldpHttp.OverwrittenSlotsAreLostForGood`,
  `RldpHttp.ReusedIdsLeakSlots`).
- A peer that drops before its disconnect handler is installed keeps its place; enough of them shut the server
  (`ConnectionCap.LostPeersShutTheServer`, `ConnectionCap.OneLostPeerExample`).
- `Register` and `Deregister` change the LRU and the index in separate critical sections. A call that crosses a
  pending index update for the same bag can leave the index wrong at rest, until a later call concerns the bag
  (`DhtRegistrar.CrossingCanBreakTheMirror`, `DhtRegistrar.CrossingExample`, `DhtRegistrar.DisagreementLasts`,
  `DhtRegistrar.CallRepairsItsBags`).
- The comment in `runSubscription` says that no blocks are missed between catch-up and live events. A transaction
  is missed exactly when one of the steps of `Subscription.Loses` took it away (`Subscription.MissedIff`): a
  connection cut inside a block loses the rest of that block once its kept part has been received
  (`Subscription.CutLosesIff`), a node that answers with a height below that of the subscription leaves the blocks
  between out (`Subscription.SkippedEventIsLostForGood`, `Subscription.LaggingNodeExample`), and a start height that
  is not positive skips what lies at or below the first useful connection
  (`Subscription.ZeroStartDeliversFromFirstConnection`). Replay never brings it back; only a later connection at a
  node that has not reached its height does (`Subscription.MissedForGood`, `Subscription.ReconnectionRegainsIff`).
- The comment on `AddJob` speaks of atomic dedup. An event whose later script fails, or whose pipeline is lost,
  strands the ids it had taken: they are duplicates ever after (`JobQueue.FailureStrandsTakenIds`,
  `JobQueue.StrandedForGood`, `JobQueue.NothingStrandedIff`, `JobQueue.StrandedExample`).
- Loading and saving the offline queue with an `await` between loses items when updates overlap
  (`RequestQueue.OverlapCanLoseItem`), and can send an item again (`RequestQueue.OverlapCanSendAgain`).
- A long-poll client that goes offline and online again while disconnected can be left with nothing scheduled, until
  it is asked to connect or the network interface changes (`LongPoll.PauseAndResumeStallIff`,
  `LongPoll.StalledUntilRevived`, `LongPoll.StallExample`). A poll interval that the server dictates is not clamped
  (`LongPoll.IntervalStaysWithinIff`, `LongPoll.DictatedIntervalExample`).
- The periodic health check is forgotten exactly when the last caller that awaited a restart finds the proxy not
  connected; it can then be connected with no health check (`ProxyLifecycle.ForgottenIff`,
  `ProxyLifecycle.TimerIsKeptIff`, `ProxyLifecycle.ExhaustedRestartForgetsTimer`).
- A relative directory that normalises to nothing accepts every absolute path
  (`PathValidation.AcceptedIffSegmentPrefix`, `PathValidation.AbsoluteAcceptedUnderDot`).
- An eviction whose total has gone stale evicts a fresh file that fits (`FileCache.FreshFileIsEvictedIff`,
  `FileCache.FreshFileStaysUnlessShrunk`, `FileCache.StaleTotalEvictsFreshFile`), and one whose candidates have
  gone stale evicts a file just touched (`FileCache.NothingSavesTheNextCandidate`).
- The job id leaves out the event type, so a creation and an update of one object in one transaction are one job
  (`JobQueue.JobIdsAgreeIff`).

## Assumptions

- A response body is short enough that its size next to a full byte budget fits an int64 (`RldpHttp.Body`).
- Every transaction that the subscription query matches has a SetTag message, so replay emits at least what live
  delivery does; the height fetched for catch-up is not above the tip; live events of one connection come in block
  order.
- The live event of a transaction and its replay give the same job ids (`Ingestion.Delivers`).
- Rows of the file cache are stamped in the order of the calls, where a result says which file is fresh.
- The server of a long-poll client answers with the log after the request's cursor, and message handlers do not
  throw.
- The ADNL library does not call a disconnect handler that is installed after the disconnect.
- The LRU evicts its least recent bag and calls the callback, also on removal, after releasing its lock.
- LIKE follows section 8.5 of SQL-92, up to a folding of single characters.

## Model

| member | source | states |
|---|---|---|
| RldpHttp.CountersAccountForEverything | backend/services/ion-connect-storage/internal/adnl/rldp_http.go:102-185 | in every interleaving of request handlers, part handlers and the reaper, both counters equal stored entries + slots held by goroutines (reserved and not stored, removed and not released) + entries overwritten under a reused id, and stay between 0 and their limits |
| RldpHttp.IdleCountersMatchMapIffIdsWereFresh | backend/services/ion-connect-storage/internal/adnl/rldp_http.go:100-110 | with nothing in progress the slot counter exceeds the map size by exactly the number of stores that hit an id still in the map; each of the two counters equals the map size or byte sum if and only if there was no such store |
| RldpHttp.OverwrittenSlotsAreLostForGood | backend/services/ion-connect-storage/internal/adnl/rldp_http.go:103-110 | at most 499 stores ever overwrite; what they took in slots and bytes is missing in every continuation, and a request is refused exactly when the rest is used up |
| RldpHttp.ReusedIdsLeakSlots | backend/services/ion-connect-storage/internal/adnl/rldp_http.go:103-110 | for every k up to 499 a run that reuses one id ends with nothing stored, nothing in progress and k slots and k bytes counted |
| RldpHttp.DownloadUndoesRequest | backend/services/ion-connect-storage/internal/adnl/rldp_http.go:85-159 | request then timely download of all parts delivers the body and restores the books exactly; so does a request whose answer could not be sent |
| RldpHttp.DownloadFetchesAll | backend/services/ion-connect-storage/internal/adnl/rldp_http.go:126-159 | the part handler, asked from any sequence number on, serves what the cutting promises and deletes the payload with the last part |
| RldpHttp.DeleteUndoesStore | backend/services/ion-connect-storage/internal/adnl/rldp_http.go:103-107 | storing a body under a fresh id and deleting it again leaves the books as they were |
| RldpHttp.PayloadIsServedWhileFresh | backend/services/ion-connect-storage/internal/adnl/rldp_http.go:126-159 | a part request gets its part while the payload is at most 30 seconds old, and an empty last part afterwards or when nothing is there; slot and bytes are freed by a late request and by the last part sent, and by no other |
| RldpHttp.RequestHandlerRuns | backend/services/ion-connect-storage/internal/adnl/rldp_http.go:85-124 | the request handler run without interruption is a run of the state machine |
| RldpHttp.PartHandlerRuns | backend/services/ion-connect-storage/internal/adnl/rldp_http.go:126-159 | so is the handler of a part request |
| RldpHttp.DeletingBeginsIff | backend/services/ion-connect-storage/internal/adnl/rldp_http.go:116-204 | exactly when a goroutine sets out to delete an entry: a late part request, a reaper that meets one older than 30 seconds at its tick, an answer with payload that failed, a last part that was sent |
| RldpHttp.LatePayloadsAreDeleted | backend/services/ion-connect-storage/internal/adnl/rldp_http.go:126-204 | and the first two always do; a request for a part of nothing does nothing, and only the clock moves time |
| RldpHttp.SendingBeginsIff | backend/services/ion-connect-storage/internal/adnl/rldp_http.go:126-159 | a part is sent exactly of a payload that is there and fresh, as the last one exactly if nothing of the body lies beyond it |
| RldpHttp.StepKeepsAccounts | backend/services/ion-connect-storage/internal/adnl/rldp_http.go:85-204 | every single critical section or map operation keeps the accounts and the limits |
| RldpHttp.Bridge.TryReservePayloadSlot | backend/services/ion-connect-storage/internal/adnl/rldp_http.go:163-175 | reserves exactly when a slot and the bytes (in 64-bit arithmetic) are free, both counters together |
| RldpHttp.Bridge.DeletePayload | backend/services/ion-connect-storage/internal/adnl/rldp_http.go:178-185 | gives back one slot and the payload's bytes only if the entry was there |
| RldpHttp.Bridge.HandleHTTPRequest | backend/services/ion-connect-storage/internal/adnl/rldp_http.go:85-124 | a handler run without interruption; `noPayload` exactly for an empty body or a refused reservation |
| RldpHttp.Bridge.HandlePayloadPart | backend/services/ion-connect-storage/internal/adnl/rldp_http.go:126-159 | a missing or stale payload gives an empty last part and deletes the stale one; a last part that was sent deletes the payload |
| RldpHttp.Bridge.ReapStalePayloads | backend/services/ion-connect-storage/internal/adnl/rldp_http.go:187-204 | one tick removes exactly the stale payloads, and the counters give up exactly what these took, whatever they had counted beyond the map |
| RldpHttp.BodyIsReassembled | backend/services/ion-connect-storage/internal/adnl/rldp_http.go:272-289 | for every body and requested chunk size, parts 0, 1, … up to the last concatenate to the body, in exactly ceil(len/size) parts, one for an empty body |
| RldpHttp.PartIsStretch | backend/services/ion-connect-storage/internal/adnl/rldp_http.go:272-289 | for every integer sequence number, offset and end computed in 64 bits: within the body the part is the stretch at its true offset and last exactly when it reaches the end, elsewhere it is empty and last |
| RldpHttp.PartIsAsLongAsAsked | backend/services/ion-connect-storage/internal/adnl/rldp_http.go:272-289 | no part is longer than asked for or than a megabyte, and every part but the last has exactly that length |
| RldpHttp.SequenceNumbersSuffice | backend/services/ion-connect-storage/internal/adnl/rldp_http.go:152 | the 32-bit sequence number of a part request reaches every part of any body the byte limit admits |
| Kademlia.MergeInBatches | backend/services/ion-connect-storage/internal/adnl/kademlia.go:38-66 | two merges equal one merge of both batches, as sequences, when existing affinities are right for the target |
| Kademlia.WalkKeepsTopKOfAllSeen | backend/services/ion-connect-storage/internal/adnl/kademlia.go:38-66 | after any run of merges the list is the single merge of every node seen |
| Kademlia.MergedIsTopK | backend/services/ion-connect-storage/internal/adnl/kademlia.go:38-66 | a merge keeps the id-distinct top k, by affinity and then first seen, and everything left out ranks behind everything kept |
| Kademlia.SortRanks | backend/services/ion-connect-storage/internal/adnl/kademlia.go:57-59 | the stable sort orders by descending affinity, ties in first-seen order |
| Kademlia.WalkKeepsTheNearest | backend/services/ion-connect-storage/internal/adnl/kademlia.go:38-66 | nothing the walk left out has higher affinity than what it kept, and where affinities differ the kept node is strictly nearer in XOR distance |
| Kademlia.BestAffinityIsMaximum | backend/services/ion-connect-storage/internal/adnl/kademlia.go:79-84 | the best affinity of a merged list is the maximum over all nodes seen |
| Kademlia.WrongAffinityBreaksBatches | backend/services/ion-connect-storage/internal/adnl/kademlia.go:42-48 | the condition on existing affinities is needed: an input with a stale affinity on which two merges differ from one |
| Kademlia.MergeClosest | backend/services/ion-connect-storage/internal/adnl/kademlia.go:38-66 | the loops and the stable sort compute the specified merge |
| XorAffinity.AffinityIsSharedPrefix | backend/services/ion-connect-storage/internal/adnl/kademlia.go:26-36 | for keys of any length the affinity is the number of leading equal bits of the compared bytes |
| XorAffinity.ComputeXorAffinity | backend/services/ion-connect-storage/internal/adnl/kademlia.go:26-36 | the loop computes it |
| XorAffinity.AffinitySymmetric | backend/services/ion-connect-storage/internal/adnl/kademlia.go:26-36 | affinity is symmetric |
| XorAffinity.AffinityUltrametric | backend/services/ion-connect-storage/internal/adnl/kademlia.go:26-36 | affinity(x,z) is at least the smaller of affinity(x,y) and affinity(y,z) |
| XorAffinity.FullAffinityIffEqual | backend/services/ion-connect-storage/internal/adnl/kademlia.go:26-36 | 256 leading equal bits exactly for equal keys |
| XorAffinity.AffinityMeasuresDistance | backend/services/ion-connect-storage/internal/adnl/kademlia.go:24-26 | 256 less the affinity is the bit length of the XOR distance |
| XorAffinity.HigherAffinityIsNearer | backend/services/ion-connect-storage/internal/adnl/kademlia.go:24-26 | strictly higher affinity means strictly smaller XOR distance as a 256-bit number |
| ConnectionCap.CapHolds | backend/services/ion-connect-storage/internal/adnl/connection_handler.go:36-51 | in every interleaving the counter is admitted + in check + rejections not undone + peers lost before their handler was set, and admitted connections never exceed the cap although the counter may |
| ConnectionCap.ConnectionMoves | backend/services/ion-connect-storage/internal/adnl/connection_handler.go:36-51 | each connection moves one step at a time by its own goroutine, and the counter falls with an undoing and a leaving only |
| ConnectionCap.PassingPeerLeavesNoTrace | backend/services/ion-connect-storage/internal/adnl/connection_handler.go:36-51 | a peer that comes at the cap is turned away and undone, one below the cap is admitted and gives its place back when it leaves |
| ConnectionCap.RejectedIff | backend/services/ion-connect-storage/internal/adnl/connection_handler.go:41-46 | a peer is turned away exactly when those four groups together fill the cap at its increment |
| ConnectionCap.LostPeersShutTheServer | backend/services/ion-connect-storage/internal/adnl/connection_handler.go:41-51 | once as many peers as the cap have dropped before their disconnect handler was installed, in every continuation nobody is admitted and every check turns its peer away |
| ConnectionCap.OneLostPeerExample | backend/services/ion-connect-storage/internal/adnl/connection_handler.go:41-51 | a run with cap 1: one peer that drops early leaves nobody to be admitted after it |
| ConnectionCap.RejectedWithNobodyAdmitted | backend/services/ion-connect-storage/internal/adnl/connection_handler.go:41-51 | a run with cap 1 in which a peer is turned away though nobody is admitted |
| ConnectionCap.ConnectionServer.HandleNewConnection | backend/services/ion-connect-storage/internal/adnl/connection_handler.go:36-46 | an uninterrupted call admits exactly when ready and below the cap, and a rejection leaves the counter unchanged |
| DhtRegistrar.IndexMirrorsCache | backend/services/ion-connect-storage/internal/adnl/dht_registrar.go:58-136 | in every interleaving of Register and Deregister the LRU keeps its limit, no region map is empty and no bag is under a foreign region; if no call crossed a pending index update of the opposite kind for the same bag, then at rest a bag is in the LRU exactly when it is in the index under its region |
| DhtRegistrar.CrossingCanBreakTheMirror | backend/services/ion-connect-storage/internal/adnl/dht_registrar.go:84-136 | the condition is exact: whenever a call does cross such an update, the calls can all end with the index wrong about a bag |
| DhtRegistrar.CrossingExample | backend/services/ion-connect-storage/internal/adnl/dht_registrar.go:84-136 | a run: a registration whose index update comes after the deregistration of the same bag leaves it indexed and not registered |
| DhtRegistrar.DisagreementLasts | backend/services/ion-connect-storage/internal/adnl/dht_registrar.go:84-136 | such a disagreement lasts in every continuation until a call registers, deregisters or evicts the bag |
| DhtRegistrar.CallRepairsItsBags | backend/services/ion-connect-storage/internal/adnl/dht_registrar.go:84-136 | a call run to its end leaves index and LRU in agreement about every bag it registers, deregisters or evicts |
| DhtRegistrar.EveryRoundVisitsOnce | backend/services/ion-connect-storage/internal/adnl/dht_registrar.go:153-175 | from any region, any 256 ticks visit a bag that stays registered exactly once, whatever is registered, evicted and deregistered between them |
| DhtRegistrar.VisitsWithinOneRound | backend/services/ion-connect-storage/internal/adnl/dht_registrar.go:164-173 | within one round a bag is visited exactly when the sweep has come to its region |
| DhtRegistrar.SweepSeesTheCalls | backend/services/ion-connect-storage/internal/adnl/dht_registrar.go:164-175 | between ticks the sweep sees what the calls leave registered, and a tick moves on by one region of 256 |
| DhtRegistrar.AddedFacts | backend/services/ion-connect-storage/internal/adnl/dht_registrar.go:84-86 | adding moves or inserts the bag, evicts at most the least recent one, never the added one, and keeps the limit |
| DhtRegistrar.RecentIsByRegistration | backend/services/ion-connect-storage/internal/adnl/dht_registrar.go:84-110 | in every interleaving the LRU holds its bags in the order of their last registration |
| DhtRegistrar.VictimIsLeastRecent | backend/services/ion-connect-storage/internal/adnl/dht_registrar.go:84-86 | a registration evicts exactly when the bag is new and the LRU full, and then the one bag whose last registration is the longest ago |
| DhtRegistrar.UpdatesOfACall | backend/services/ion-connect-storage/internal/adnl/dht_registrar.go:84-110 | the index updates of a call, the eviction callback first |
| DhtRegistrar.PendingCanComeLast | backend/services/ion-connect-storage/internal/adnl/dht_registrar.go:116-136 | any pending index update can be scheduled last for its bag |
| DhtRegistrar.Registrar.Register | backend/services/ion-connect-storage/internal/adnl/dht_registrar.go:84-86 | keeps index and LRU in agreement, evictions included |
| DhtRegistrar.Registrar.Deregister | backend/services/ion-connect-storage/internal/adnl/dht_registrar.go:106-110 | keeps index and LRU in agreement |
| DhtRegistrar.Registrar.AddToRegionIndex | backend/services/ion-connect-storage/internal/adnl/dht_registrar.go:116-124 | adds the bag to its region, creating the region when absent |
| DhtRegistrar.Registrar.RemoveFromRegionIndex | backend/services/ion-connect-storage/internal/adnl/dht_registrar.go:126-136 | removes the bag and the region with its last bag |
| DhtRegistrar.Registrar.BagsInRegion | backend/services/ion-connect-storage/internal/adnl/dht_registrar.go:138-151 | each registered bag of the region once, in any order |
| DhtRegistrar.Registrar.SweepTick | backend/services/ion-connect-storage/internal/adnl/dht_registrar.go:164-188 | a tick visits exactly the registered bags of the current region and moves to the next |
| Subscription.CutsBetweenBlocksLeaveNoGap | backend/packages/greenfield-client/subscriber.go:41-182 | from a positive start, with drops only between blocks, no lagging node and parsing live events: every matching transaction above the start and up to `lastHeight` is emitted, being sent, or waiting in the feed as part of the block being received |
| Subscription.IdleClientHasEmittedAll | backend/packages/greenfield-client/subscriber.go:41-182 | once the client has received all there is, everything matching above the start has been emitted |
| Subscription.NoGapInAnyRun | backend/packages/greenfield-client/subscriber.go:41-182 | without the condition on drops, the same but for events the environment took away, which are collected in `lost` |
| Subscription.LastHeightNeverDecreases | backend/packages/greenfield-client/subscriber.go:115-176 | `lastHeight` never decreases, in any run from any start |
| Subscription.HeightIsRaisedBeforeSending | backend/packages/greenfield-client/subscriber.go:166-173 | in any run, while an event is being sent `lastHeight` is at or above its height |
| Subscription.StepKeepsLastHeight | backend/packages/greenfield-client/subscriber.go:115-140 | a failed catch-up or height fetch moves nothing and loses nothing |
| Subscription.RunEmitsOnlyTheChain | backend/packages/greenfield-client/subscriber.go:41-182 | failed catch-ups and reconnects add nothing but repeats of chain transactions |
| Subscription.MissedIff | backend/packages/greenfield-client/subscriber.go:41-182 | the exact condition for a gap, in any run from any start: a matching transaction above the start and at or below `lastHeight` is neither emitted nor on its way if and only if some step lost it and the client has not connected since at a node that had not reached it |
| Subscription.MissedAfterStepIff | backend/packages/greenfield-client/subscriber.go:115-182 | which steps lose a transaction: receiving a live event at or beyond it when it is not in the feed, receiving it unparsed below `lastHeight`, or the end of a connection in whose feed it waited below `lastHeight` |
| Subscription.MissedForGood | backend/packages/greenfield-client/subscriber.go:115-140 | what is once missed at or below `lastHeight` is not emitted in any continuation whose connections are all subscribed at nodes that have reached its height |
| Subscription.ReconnectionRegainsIff | backend/packages/greenfield-client/subscriber.go:76-140 | and the other half: leaving and connecting at a node of height `at`, which answers with that height, emits a missed transaction that parses if and only if `at` is below it |
| Subscription.CutInsideBlockLosesForGood | backend/packages/greenfield-client/subscriber.go:142-182 | any cut that takes away an event at or below `lastHeight`, so one of the block being received, loses it for every continuation that connects at no node below it |
| Subscription.CutLosesIff | backend/packages/greenfield-client/subscriber.go:142-182 | wherever the server cuts: once what was kept has been received and sent, an event cut off is missed if and only if it lies at or below `lastHeight` or shares its block with a kept event that parses; the missed one stays so under the same condition on later connections |
| Subscription.CutInsideBlockExample | backend/packages/greenfield-client/subscriber.go:142-182 | a run from start 1 in which a cut loses one of two transactions of block 2, unless the client connects below height 2; a connection at height 1 does emit it |
| Subscription.SkippedEventIsLostForGood | backend/packages/greenfield-client/subscriber.go:120-182 | an event that is neither emitted nor in the feed when a live event at or beyond its height is received, because it was skipped, cut off or did not parse, is lost for every continuation that connects at no node below it |
| Subscription.LaggingNodeExample | backend/packages/greenfield-client/subscriber.go:125-140 | a run in which a node answers with a lower height than that of the subscription loses a transaction, unless the client connects below it; a connection at height 1 does emit it |
| Subscription.ZeroStartDeliversFromFirstConnection | backend/packages/greenfield-client/subscriber.go:120-123 | from a start that is not positive, under the same conditions, nothing is missing above the height at which the connection of the first event was subscribed, and everything at or below it is missed from that event on and never emitted unless the client connects at a node below it |
| Subscription.ZeroStartExample | backend/packages/greenfield-client/subscriber.go:120-123 | a run from start 0 that passes over a transaction mined while the client was disconnected, unless the client connects at height 0, which does emit it |
| Subscription.TxsMeaning | backend/packages/greenfield-client/catchup.go:61-86 | the transactions replay or live delivery is to bring are exactly those of the chain that each wants |
| Subscription.ReplayScheduleRuns | backend/packages/greenfield-client/catchup.go:23-47 | the catch-up loop is a run of replay steps, and `lastHeight` moves only if every block came |
| Subscription.DrainRuns | backend/packages/greenfield-client/subscriber.go:142-182 | the loop over live events is a run of receive and send steps |
| Subscription.CatchUpRuns | backend/packages/greenfield-client/subscriber.go:115-140 | catch-up, with any answers from the node, is a run of the state machine from the subscribed state: the same height and output, live at the end exactly if it succeeds |
| Subscription.CatchUpBringsEveryBlock | backend/packages/greenfield-client/subscriber.go:130-139 | a catch-up below the latest height succeeds exactly if every block above the old height up to the latest could be had, and its output is then all their wanted transactions in chain order |
| Subscription.SessionRuns | backend/packages/greenfield-client/subscriber.go:96-112 | a connection is a run of the state machine: catch-up and then the events in the feed |
| Subscription.SessionOnlyAdds | backend/packages/greenfield-client/subscriber.go:76-113 | one connection, however it goes, takes back neither height nor output |
| Subscription.Subscriber.CatchUp | backend/packages/greenfield-client/catchup.go:23-47 | emits the blocks in order up to the first that cannot be fetched |
| Subscription.Subscriber.CatchUpFromLastHeight | backend/packages/greenfield-client/subscriber.go:115-140 | replays the blocks above the stored height and moves it only on success |
| Subscription.Subscriber.ProcessEvents | backend/packages/greenfield-client/subscriber.go:142-182 | skips what does not parse, emits the rest in order and ends at the highest height; that the height is raised before the send is `HeightIsRaisedBeforeSending` |
| Subscription.Subscriber.RunSubscription | backend/packages/greenfield-client/subscriber.go:76-113 | catch-up, then live events, on one connection |
| ReplayEvents.JoinOfParsedChecksums | backend/packages/greenfield-client/parser.go:200-205 | joining the parsed checksums gives the text back, for every text |
| ReplayEvents.ParseOfJoinedChecksums | backend/packages/greenfield-client/catchup.go:154-156 | parsing a join gives the list back if and only if no checksum has a comma and the list is not the single empty string |
| ReplayEvents.CreateObjectRoundTrip | backend/packages/greenfield-client/parser.go:51-94 | a replayed creation whose numbers are empty or parse, canonical or not, decodes to the fields of its message, if and only if no checksum has a comma and the list is not the single empty string |
| ReplayEvents.UpdateObjectContentRoundTrip | backend/packages/greenfield-client/parser.go:97-133 | the same for a replayed update |
| ReplayEvents.CanonicalNumbersParse | backend/packages/greenfield-client/parser.go:184-198 | a number in canonical decimal form parses to itself exactly if it is in range |
| ReplayEvents.CreationDecodesToItsAttributes | backend/packages/greenfield-client/parser.go:51-94 | a creation event of any origin decodes to its attributes, absent ones read as empty or zero, or to an error that names an attribute really at fault |
| ReplayEvents.UpdateDecodesToItsAttributes | backend/packages/greenfield-client/parser.go:97-133 | the same for an update event |
| ReplayEvents.EventTypes | backend/packages/greenfield-client/catchup.go:116-152 | which messages give an event, under which type, and what a tag message carries |
| ReplayEvents.ReplayedEventDecodesIffNumbersParse | backend/packages/greenfield-client/parser.go:51-133 | a replayed creation or update decodes if and only if its numbers are empty or parse |
| ReplayEvents.ExtractEventsFromMessages | backend/packages/greenfield-client/catchup.go:96-113 | the recognised messages in order, or an error for one that is not JSON |
| ReplayEvents.BuildTxEventsFromBlock | backend/packages/greenfield-client/catchup.go:61-86 | events for the transactions with a recognised message, or an error when a raw transaction is missing or a message is not JSON |
| ReplayEvents.BlockEventsFollowRefs | backend/packages/greenfield-client/catchup.go:61-86 | these are exactly the transactions the subscription model replays, in order, each with its own hash and messages |
| JobQueue.EnqueuedInFirstDeliveryOrder | backend/services/greenfield-ingester/internal/ingester/ingester.go:98-191 | if no Redis call fails, the wait list is exactly the distinct delivered job ids in first-delivery order |
| JobQueue.EnqueuedAtMostOnce | backend/services/greenfield-ingester/internal/bullmq/queue.go:35-94 | over any deliveries, repeats, reorderings and failing calls, no id is pushed twice |
| JobQueue.JobIdsAgreeIff | backend/services/greenfield-ingester/internal/ingester/ingester.go:198-208 | two events share an id exactly when height, colon-free hash and colon-sanitised bucket and object agree |
| JobQueue.SanitizedAgreeIff | backend/services/greenfield-ingester/internal/ingester/ingester.go:206-208 | two names sanitise alike exactly when they differ only in colons against underscores |
| JobQueue.JobOfEvent | backend/services/greenfield-ingester/internal/ingester/ingester.go:145-190 | which events give a job, by their attributes, and which: creations and updates that are named and whose numbers parse, the type deciding the job name |
| JobQueue.ReplayedJobs | backend/services/greenfield-ingester/internal/ingester/ingester.go:145-190 | the jobs of a replayed transaction are, in order, those of its creation and update messages whose numbers are empty or parse |
| JobQueue.ReplayedJobIds | backend/services/greenfield-ingester/internal/ingester/ingester.go:98-112 | and their ids are made of the height, the hash and the bucket and object of the message |
| JobQueue.StrandedForGood | backend/services/greenfield-ingester/internal/bullmq/queue.go:35-94 | an id taken and not pushed is never pushed by later deliveries |
| JobQueue.FailureStrandsTakenIds | backend/services/greenfield-ingester/internal/ingester/ingester.go:109-135 | a failing script or lost pipeline strands every id the event had newly taken |
| JobQueue.StrandedExample | backend/services/greenfield-ingester/internal/ingester/ingester.go:109-135 | a creation whose pipeline is lost: its id is taken and in no continuation queued |
| JobQueue.NothingStrandedIff | backend/services/greenfield-ingester/internal/ingester/ingester.go:98-143 | a delivery of new ids leaves none stranded if and only if every script was answered and the pipeline was carried out |
| JobQueue.FirstFailureStops | backend/services/greenfield-ingester/internal/ingester/ingester.go:109-135 | the first script that fails leaves the ids before it taken, its own too if only the reply was lost, none after it, and nothing queued |
| JobQueue.DeliveryOutcome | backend/services/greenfield-ingester/internal/ingester/ingester.go:98-143 | a delivery succeeds exactly if it calls for no job or every call was answered; the stored height becomes its height exactly when its pipeline with at least one job is carried out |
| JobQueue.ProcessKeepsOnceEach | backend/services/greenfield-ingester/internal/ingester/ingester.go:98-143 | each delivery only adds ids, each at most once, and pushes only ids not taken before |
| JobQueue.Ingester.CollectJobs | backend/services/greenfield-ingester/internal/ingester/ingester.go:145-191 | a job for each creation and update that decodes, in order |
| JobQueue.Ingester.AddJob | backend/services/greenfield-ingester/internal/bullmq/queue.go:35-94 | takes the id and adds the push only when the id was new |
| JobQueue.Ingester.ProcessTxEvent | backend/services/greenfield-ingester/internal/ingester/ingester.go:98-143 | scripts at once, pushes and the height in one pipeline at the end |
| Ingestion.EveryMatchingTransactionIsEnqueuedOnce | backend/services/greenfield-ingester/internal/ingester/ingester.go:47-143 | subscription and queue together, live and replayed events of a transaction giving the same job ids: at rest every job of every matching transaction above the start is on the wait list exactly once, and every job there belongs to a transaction of the chain |
| Ingestion.DeliveredIds | backend/services/greenfield-ingester/internal/ingester/ingester.go:47-89 | the delivered job ids are exactly those of the emitted transactions |
| LikePattern.PatternMeansContains | frontend/packages/user-search/src/search-cache.ts:30-43 | for every query and text the pattern matches exactly when the text contains the query, for any case folding |
| LikePattern.EscapingIsNeeded | frontend/packages/user-search/src/search-cache.ts:30-43 | without the escape a search for `_` would match every text with a character in it, and one for `%` every text |
| LikePattern.ThreeReplacementsAreOneEscape | frontend/packages/user-search/src/search-cache.ts:30-32 | the three successive replacements equal one character-by-character escape |
| LikePattern.EscapedTextIsLiteral | frontend/packages/user-search/src/search-cache.ts:30-43 | an escaped query at the front of any pattern matches exactly itself |
| ProxyLifecycle.RestartsAreLegalSingleAndBounded | frontend/packages/ion-connect-proxy/src/proxy-lifecycle.ts:8-63 | under any interleaving of network, online, foreground, health-timer and transport events no transition is illegal, restarts never overlap, none makes more than `maxRestartAttempts` starts, and outside a restart the status is connected or disconnected |
| ProxyLifecycle.StatusFollowsTheTable | frontend/packages/network/src/connection-state.ts:29-40 | every change of the status in any run is one that the transition table allows |
| ProxyLifecycle.RecordsAreTrue | frontend/packages/ion-connect-proxy/src/proxy-lifecycle.ts:8-29 | an illegal transition and an overlapping restart are recorded whenever they happen, so that their absence in every run says something |
| ProxyLifecycle.RestartEnds | frontend/packages/ion-connect-proxy/src/proxy-lifecycle.ts:24-57 | a measure falls with every own step and no other event changes it |
| ProxyLifecycle.RestartTakesBoundedSteps | frontend/packages/ion-connect-proxy/src/proxy-lifecycle.ts:24-57 | in any run a restart is over after at most 2 × `maxRestartAttempts` + 1 answers from the proxy and the clock, or 2 when no attempt is allowed |
| ProxyLifecycle.LongestRestart | frontend/packages/ion-connect-proxy/src/proxy-lifecycle.ts:39-57 | and it can take that many |
| ProxyLifecycle.RestartMoves | frontend/packages/ion-connect-proxy/src/proxy-lifecycle.ts:24-63 | in every reachable state, where each answer takes a restart in progress: stop, attempts 1 to the maximum with a pause between two, connected at the first success, disconnected when none is left; no other event moves it |
| ProxyLifecycle.RestartBeginsIff | frontend/packages/ion-connect-proxy/src/proxy-event-subscriptions.ts:22-63 | in every reachable state outside a restart, exactly which event begins one, by status, check in progress and answer; nothing else changes the status but going offline while connected |
| ProxyLifecycle.RestartOutcome | frontend/packages/ion-connect-proxy/src/proxy-lifecycle.ts:39-57 | in any run a restart ends connected after a successful start, or disconnected after all its attempts |
| ProxyLifecycle.ForgottenIff | frontend/packages/ion-connect-proxy/src/create-proxy-manager.ts:114-139 | exactly which steps forget the health timer (the last caller that awaited a restart finds the proxy not connected) and exactly which bring it back |
| ProxyLifecycle.ChecksCountIff | frontend/packages/ion-connect-proxy/src/create-proxy-manager.ts:102-123 | exactly which events begin and end a foreground or periodic check, and when the app counts as backgrounded |
| ProxyLifecycle.TimerChangesIff | frontend/packages/ion-connect-proxy/src/create-proxy-manager.ts:102-139 | in every reachable state, exactly what turns the health timer off and on, and which callers wait for a restart or are ready to resume |
| ProxyLifecycle.TimerIsKeptIff | frontend/packages/ion-connect-proxy/src/create-proxy-manager.ts:102-139 | in any run the timer is on or going to be looked at throughout, if and only if no such step happens |
| ProxyLifecycle.ForgottenTimerStaysOff | frontend/packages/ion-connect-proxy/src/create-proxy-manager.ts:102-139 | a timer that nothing is left to arm stays off until the next transport failure |
| ProxyLifecycle.ExhaustedRestartForgetsTimer | frontend/packages/ion-connect-proxy/src/create-proxy-manager.ts:125-139 | a run that ends connected with the health timer off until another transport failure |
| ProxyLifecycle.ProxyManager.StartManager | frontend/packages/ion-connect-proxy/src/create-proxy-manager.ts:58-72 | a successful start ends connected with the timer on, a failed one disconnected |
| ProxyLifecycle.ProxyManager.RestartProxy | frontend/packages/ion-connect-proxy/src/proxy-lifecycle.ts:8-29 | joins a running restart, otherwise begins one up to its first await |
| ProxyLifecycle.ProxyManager.RetryProxyStart | frontend/packages/ion-connect-proxy/src/proxy-lifecycle.ts:39-57 | the loop from one attempt to the next await |
| ProxyLifecycle.ProxyManager.OnProxyStart | frontend/packages/ion-connect-proxy/src/proxy-lifecycle.ts:42-63 | what follows a start call that returned or failed |
| ProxyLifecycle.ProxyManager.OnNetworkInterfaceChange | frontend/packages/ion-connect-proxy/src/proxy-event-subscriptions.ts:22-28 | restarts only when connected |
| ProxyLifecycle.ProxyManager.OnOnlineStateChange | frontend/packages/ion-connect-proxy/src/proxy-event-subscriptions.ts:30-41 | online restarts a disconnected proxy, offline disconnects a connected one |
| ProxyLifecycle.ProxyManager.OnAppStateChange | frontend/packages/ion-connect-proxy/src/proxy-event-subscriptions.ts:43-55 | coming to the foreground from the background starts a health check unless a restart runs |
| ProxyLifecycle.ProxyManager.OnForegroundCheck | frontend/packages/ion-connect-proxy/src/proxy-event-subscriptions.ts:57-63 | an unhealthy answer restarts |
| ProxyLifecycle.ProxyManager.OnPeriodicCheck | frontend/packages/ion-connect-proxy/src/create-proxy-manager.ts:114-123 | an unhealthy answer outside a restart stops the timer and restarts |
| ProxyLifecycle.ProxyManager.OnTransportFailure | frontend/packages/ion-connect-proxy/src/create-proxy-manager.ts:125-139 | a failure while connected and outside a restart stops the timer and restarts |
| ConnectionState.ConnectionStateMachine.Transition | frontend/packages/network/src/connection-state.ts:29-40 | moves and announces exactly the transitions of the table, otherwise changes nothing |
| LongPoll.DeliveredIsLogPrefix | frontend/packages/network/src/long-poll-client.ts:91-163 | in any run without disconnect at most one poll is in flight, it carries the last successful cursor, no transition is illegal, and the delivered messages are exactly the log up to the cursor |
| LongPoll.LogIsWhatArrived | frontend/packages/network/src/long-poll-client.ts:117-127 | the log is what arrived at the server, whatever the client does |
| LongPoll.PollBeginsIff | frontend/packages/network/src/long-poll-client.ts:91-117 | in every reachable state a request is sent exactly when a pending timer fires and none is in flight, carrying the cursor, and is over exactly when it is answered or fails |
| LongPoll.StateAfter | frontend/packages/network/src/long-poll-client.ts:72-163 | in every reachable state, what each event does to the connection state and the error count |
| LongPoll.StateFollowsTheTable | frontend/packages/network/src/connection-state.ts:29-40 | a transition that the table does not allow is recorded as illegal, and in any run the state changes only as it allows |
| LongPoll.ScheduledIff | frontend/packages/network/src/long-poll-client.ts:72-203 | in every reachable state, exactly which events schedule a poll |
| LongPoll.ClearedIff | frontend/packages/network/src/long-poll-client.ts:188-203 | and exactly which timers an event takes away |
| LongPoll.OnlyPauseStalls | frontend/packages/network/src/long-poll-client.ts:188-191 | no step but a pause leaves a client with nothing scheduled and nothing in flight |
| LongPoll.NeverStallsWithoutPause | frontend/packages/network/src/long-poll-client.ts:91-163 | in any run without a pause, a client with a poll scheduled or in flight always has one |
| LongPoll.PauseAndResumeStallIff | frontend/packages/network/src/long-poll-client.ts:188-197 | going offline and online again stalls the client if and only if no request is in flight, the state is disconnected or idle, and no timer but the one last scheduled is pending |
| LongPoll.StalledUntilRevived | frontend/packages/network/src/long-poll-client.ts:72-78 | a client stalled while disconnected stays so exactly until it is asked to connect or the network interface changes |
| LongPoll.StallExample | frontend/packages/network/src/long-poll-client.ts:154-197 | a run in which a failed first poll, offline and online again stall the client until one of these two |
| LongPoll.IntervalStaysWithinIff | frontend/packages/network/src/long-poll-client.ts:129-174 | in any run the interval follows the replies, and it stays within its bounds throughout if and only if every interval the server dictates does |
| LongPoll.IntervalAfterPoll | frontend/packages/network/src/long-poll-client.ts:165-174 | the interval after each response: dictated, shortest after data, else one increment more up to the maximum |
| LongPoll.DictatedIntervalExample | frontend/packages/network/src/long-poll-client.ts:129-174 | a first response sets the interval to whatever the server dictates |
| LongPoll.IdleResponsesBackOff | frontend/packages/network/src/long-poll-client.ts:165-174 | from any interval, idle responses raise it by the increment each up to the maximum |
| LongPoll.LongPollClient.StartPolling | frontend/packages/network/src/long-poll-client.ts:72-78 | connects only from idle or disconnected |
| LongPoll.LongPollClient.OnTimer | frontend/packages/network/src/long-poll-client.ts:91-108 | a timer starts a poll unless one runs |
| LongPoll.LongPollClient.OnResponse | frontend/packages/network/src/long-poll-client.ts:129-152 | state, cursor, delivery, interval and the next timer |
| LongPoll.LongPollClient.OnError | frontend/packages/network/src/long-poll-client.ts:154-163 | state, error count and the retry timer |
| LongPoll.LongPollClient.PausePolling | frontend/packages/network/src/long-poll-client.ts:188-191 | clears the last timer |
| LongPoll.LongPollClient.ResumePolling | frontend/packages/network/src/long-poll-client.ts:193-197 | schedules a poll unless idle or disconnected |
| LongPoll.LongPollClient.TriggerImmediateRepoll | frontend/packages/network/src/long-poll-client.ts:199-203 | reschedules unless a poll runs |
| RequestQueue.QueueConservesItems | frontend/packages/network/src/request-queue.ts:62-180 | with storage updates one at a time, the queue is exactly the saved items less those displaced and removed, in order, within `maxSize`, and nothing is removed but after success or expiry |
| RequestQueue.OverlapCanLoseItem | frontend/packages/network/src/request-queue.ts:62-73 | the condition is exact: whenever a load overlaps another update, two saves can lose a saved item |
| RequestQueue.OverlapLosesItem | frontend/packages/network/src/request-queue.ts:173-180 | a run from the empty queue in which a replay's removal erases an item enqueued meanwhile |
| RequestQueue.NoItemIsSentTwice | frontend/packages/network/src/request-queue.ts:99-167 | with storage updates one at a time, over any number of replays, no item is sent successfully twice |
| RequestQueue.StaleSaveBringsBack | frontend/packages/network/src/request-queue.ts:62-73 | when a removal and an enqueue have loaded the same list and the enqueue saves last, the removed item is queued again if and only if that save does not displace it |
| RequestQueue.OverlapCanSendAgain | frontend/packages/network/src/request-queue.ts:62-180 | whenever the removal of a sent item overlaps an enqueue that does not displace it, the run can go on so that the item is sent again |
| RequestQueue.OverlapSendsTwice | frontend/packages/network/src/request-queue.ts:62-180 | a run from the empty queue in which one item is sent twice |
| RequestQueue.DisplacesOldestOnlyWhenFull | frontend/packages/network/src/request-queue.ts:69-71 | in any such run an enqueue drops the oldest item, and only when full |
| RequestQueue.ReplayStopsAtNetworkFailure | frontend/packages/network/src/request-queue.ts:99-167 | a replay stops at the first unexpired item that meets a network failure; succeeded + failed + expired counts exactly the items before it, and of those exactly the sent and expired leave the queue |
| RequestQueue.ReplayCountsEachOutcome | frontend/packages/network/src/request-queue.ts:99-167 | `succeeded` counts exactly the items sent, `failed` those rejected, `expired` those past their time to live, up to the first network failure |
| RequestQueue.ReplayCountsAndLeavesTheRest | frontend/packages/network/src/request-queue.ts:99-167 | at every moment of a replay among enqueues the counts add up and items not yet processed are queued unless displaced |
| RequestQueue.ItemStepsMatch | frontend/packages/network/src/request-queue.ts:120-146 | the steps of one item run together do what the replay specification says |
| RequestQueue.Queue.EnqueueRequest | frontend/packages/network/src/request-queue.ts:62-73 | drops the oldest item when full and appends the new one under a fresh id |
| RequestQueue.Queue.RemoveItem | frontend/packages/network/src/request-queue.ts:173-180 | filters out the item's id, order kept |
| RequestQueue.Queue.ExecuteReplay | frontend/packages/network/src/request-queue.ts:99-167 | the replay loop computes the replay specification |
| MemoryStorage.CacheRefinesMap | frontend/packages/storage/src/memory-storage.ts:20-130 | under a clock that does not go back the size never exceeds `maxSize` and `get` returns exactly the latest value that is not expired, removed or evicted; each item has the priority and expiry of its last set and the time of its last set or successful get, and the items stand in the order they were set |
| MemoryStorage.SetEvictsTheLeastWorth | frontend/packages/storage/src/memory-storage.ts:20-40 | in any run a set evicts another live item only when the key is new and every slot is live, and then the one key worth less than all others: lower priority, longer unused, set earlier |
| MemoryStorage.SizeCountsKnownKeys | frontend/packages/storage/src/memory-storage.ts:126-129 | in any run the reported size is the number of keys neither expired, removed nor evicted |
| MemoryStorage.ReadChanges | frontend/packages/storage/src/memory-storage.ts:72-112 | a successful get renews the access time of its own item and changes nothing else, a test changes nothing, and either drops exactly the expired item of its key |
| MemoryStorage.ExpiredItemGoes | frontend/packages/storage/src/memory-storage.ts:46-112 | an expired item does not outlast an operation that meets it |
| MemoryStorage.SetDropsOnlyTheLeastValuable | frontend/packages/storage/src/memory-storage.ts:91-102 | a set drops another live item only when the key is new and every slot is live, only one, and the least in priority, last access, insertion order |
| MemoryStorage.ApplyKeepsValid | frontend/packages/storage/src/memory-storage.ts:72-112 | every operation keeps keys distinct and the size bound |
| MemoryStorage.Storage.FindEvictionKey | frontend/packages/storage/src/memory-storage.ts:20-40 | the running minimum finds the first least item |
| MemoryStorage.Storage.EvictExpired | frontend/packages/storage/src/memory-storage.ts:46-52 | removes exactly the expired items |
| MemoryStorage.Storage.Set | frontend/packages/storage/src/memory-storage.ts:91-102 | the three ways of a set |
| MemoryStorage.Storage.Get | frontend/packages/storage/src/memory-storage.ts:72-81 | returns an unexpired value and touches it, deletes an expired one |
| MemoryStorage.Storage.Has | frontend/packages/storage/src/memory-storage.ts:104-112 | the same without touching |
| PathValidation.AcceptedIffSegmentPrefix | frontend/packages/file-storage/src/validate-path-within-directory.ts:1-20 | exactly which paths are accepted, for all inputs, including directories that normalise to nothing |
| PathValidation.AbsoluteAcceptedUnderDot | frontend/packages/file-storage/src/validate-path-within-directory.ts:1-20 | under the directory `.` every absolute path is accepted, and no relative one but those that normalise to nothing |
| PathValidation.AbsolutePathAcceptedIffInside | frontend/packages/file-storage/src/validate-path-within-directory.ts:1-20 | for absolute inputs: accepted exactly when the directory's normalised segments are a prefix of the path's |
| PathValidation.NormalizeIdempotent | frontend/packages/file-storage/src/validate-path-within-directory.ts:9-16 | normalising is idempotent |
| PathValidation.NormalSegmentsAreNormal | frontend/packages/file-storage/src/validate-path-within-directory.ts:9-16 | no empty, `.` or `..` segment is left |
| PathValidation.NormalizeComposes | frontend/packages/file-storage/src/validate-path-within-directory.ts:9-16 | a path below a directory resolves from where the directory resolved to |
| PathValidation.OneMoreSegment | frontend/packages/file-storage/src/validate-path-within-directory.ts:9-16 | one more segment goes a level down, `..` a level up unless at the top, an empty one or `.` stays |
| PathValidation.FirstSegment | frontend/packages/file-storage/src/validate-path-within-directory.ts:9-16 | a single segment leads to itself if it is a proper name and nowhere otherwise |
| PathValidation.EscapeIsRefused | frontend/packages/file-storage/src/validate-path-within-directory.ts:1-16 | up and out of the directory into another name is refused, down and up again is accepted |
| PathValidation.EscapeExample | frontend/packages/file-storage/src/validate-path-within-directory.ts:1-16 | `/cache/../etc` is refused under `/cache` |
| PathValidation.NormalizePath | frontend/packages/file-storage/src/validate-path-within-directory.ts:9-16 | the push and pop loop computes the normal path |
| PathValidation.ValidatePathWithinDirectory | frontend/packages/file-storage/src/validate-path-within-directory.ts:1-7 | the comparison of the source |
| FileCache.EvictionIsShortestLruPrefix | frontend/packages/file-storage/src/cache-manager.ts:46-58 | eviction removes the shortest least-recently-used prefix that brings the total within the limit, or twenty files; nothing kept was used before anything removed |
| FileCache.FreshFileSurvives | frontend/packages/file-storage/src/cache-manager.ts:34-58 | a file used strictly after all others survives an eviction that runs alone whenever it fits by itself |
| FileCache.FreshFileIsEvictedIff | frontend/packages/file-storage/src/cache-manager.ts:46-58 | among any other calls: when the turn of such a file comes, its row being as read, it is the only row left and within the limit, and it is evicted if and only if the running total nevertheless exceeds the limit |
| FileCache.FreshFileStaysUnlessShrunk | frontend/packages/file-storage/src/cache-manager.ts:46-58 | and it stays unless, between the reading of the total and that turn, a step other than the eviction's own turns made the rows of some file smaller |
| FileCache.ShrinksOnlyBy | frontend/packages/file-storage/src/cache-manager.ts:46-73 | only another eviction's turn, a removal, or a registration over a larger file does that |
| FileCache.NothingSavesTheNextCandidate | frontend/packages/file-storage/src/cache-manager.ts:51-57 | once the turn of a file is next and the total exceeds the limit it goes, whatever touches or registers it in between |
| FileCache.RunningTotalNeverTooSmall | frontend/packages/file-storage/src/cache-manager.ts:46-58 | with evictions, registrations, touches and removals interleaved, a running total plus the bytes registered since it was read covers the rows |
| FileCache.EndedEvictionLeavesWithinLimit | frontend/packages/file-storage/src/cache-manager.ts:46-58 | however the calls interleave, an eviction that read its total after the last registration leaves the table within the limit when it ends, unless it used up twenty candidates |
| FileCache.EvictionRunsAlone | frontend/packages/file-storage/src/cache-manager.ts:46-58 | an eviction whose steps nothing interrupts does what the method of the object does |
| FileCache.OtherCalls | frontend/packages/file-storage/src/cache-repository.ts:16-34 | what registering, touching and deleting a row do to that row and to the others |
| FileCache.StaleTotalEvictsFreshFile | frontend/packages/file-storage/src/cache-manager.ts:46-58 | a run of two evictions in which a total read too early evicts a fresh file that fits |
| FileCache.OneMoreRemoved | frontend/packages/file-storage/src/cache-manager.ts:51-57 | the running total is the sum of the remaining rows after every removal |
| FileCache.CacheManager.EvictIfNeeded | frontend/packages/file-storage/src/cache-manager.ts:46-58 | does nothing without a limit or within it, otherwise evicts as specified, rows and files together |
| FileCache.CacheManager.EvictWhileOver | frontend/packages/file-storage/src/cache-manager.ts:51-57 | the eviction loop |
| FileCache.CacheManager.GetEvictionCandidates | frontend/packages/file-storage/src/cache-repository.ts:41-43 | the rows least recently accessed, ascending, ties in any order |
| FileCache.CacheManager.GetTotalSize | frontend/packages/file-storage/src/cache-repository.ts:36-39 | the sum of the sizes |
| FileCache.CacheManager.GetCachedPath | frontend/packages/file-storage/src/cache-manager.ts:22-32 | the path of a file that is there, touched; a row without its file goes |
| FileCache.CacheManager.RegisterFile | frontend/packages/file-storage/src/cache-manager.ts:34-44 | inserts or replaces the row |
| FileCache.CacheManager.RemoveFile | frontend/packages/file-storage/src/cache-manager.ts:60-73 | removes file and row if the row is there |

## Left out

- Subscription.NoGapInAnyRun: events that the environment took away are excepted, because the code does lose them; `Subscription.MissedIff` says exactly which, and `Subscription.CutsBetweenBlocksLeaveNoGap` has no such exception under its condition on drops.
- Subscription.CutsBetweenBlocksLeaveNoGap: the rest of the block being received may still wait in the feed, because `lastHeight` moves with the first event of a block.
- FileCache.EndedEvictionLeavesWithinLimit: excepts an eviction that used up its twenty candidates, because the code stops there.
- FileCache.FreshFileIsEvictedIff: supposes that the row is as the query read it; `FileCache.NothingSavesTheNextCandidate` shows what happens otherwise.
- RldpHttp.Bridge.ReapStalePayloads: one tick without interruption; the interleaved reaper is the action `ReaperFinds` of the state machine.
- Networks, websockets, Redis, SQLite, the file system and native modules: answers are parameters, and contents are maps, lists and logs.
- JSON, TL encoding and hashing, `overlayRegion` included: uninterpreted.
- Parsing of live websocket events (`ParseTxResponse`, `parseEventData`): an event parses or it does not. Silent reconnects inside the websocket library are not modelled.
- `ExtractSetTagEvent` and `ParseObjectGRN`: the ingester's jobs do not come from them.
- Gateway rotation, backoff times, jitter, deadlines and log lines.
- Restarting the ingester from the stored height key in the middle of a block.
- `stop`, `dispose` and `disconnect` racing with work in progress; handlers that throw or call back in; storage calls that fail.
- `clear` of the offline queue, the stripping of sensitive headers and the delay between replayed items.
- The time to live, ordering and limit of the cached user query.
- `walkToClosest`, `batchStore`, overlay handlers, cluster code, the TON storage manager and everything that is user interface.
