/** From the chain to the job queue: gap-free subscription and enqueue-once together. */
module Ingestion {
  import opened Wrappers
  import opened Subscription
  import JobQueue

  /** The deliveries are the client's output, in order; `idsOf` gives the job ids of a transaction,
      whether it came live or by replay. */
  ghost predicate Delivers(out: seq<Ref>, idsOf: Ref -> seq<JobQueue.JobId>, deliveries: seq<JobQueue.Delivery>) {
    |deliveries| == |out| && forall i :: 0 <= i < |out| ==> JobQueue.JobIds(deliveries[i].tx) == idsOf(out[i])
  }

  lemma {:induction false} DeliveredIds(out: seq<Ref>, idsOf: Ref -> seq<JobQueue.JobId>, deliveries: seq<JobQueue.Delivery>)
    requires Delivers(out, idsOf, deliveries)
    ensures forall r, id :: r in out && id in idsOf(r) ==> id in JobQueue.Delivered(deliveries)
    ensures forall id :: id in JobQueue.Delivered(deliveries) ==> exists r :: r in out && id in idsOf(r)
  {
    if out != [] {
      var last := |out| - 1;
      DeliveredIds(out[..last], idsOf, deliveries[..last]);
      assert out == out[..last] + [out[last]];
      forall id | id in JobQueue.Delivered(deliveries)
        ensures exists r :: r in out && id in idsOf(r)
      {
        if id in JobQueue.Delivered(deliveries[..last]) {
          var r :| r in out[..last] && id in idsOf(r);
          assert r in out;
        } else {
          assert out[last] in out;
        }
      }
    }
  }

  /** However often the connection drops between blocks and catch-up fails or repeats, as long as no
      lagging node answers for the height and live events parse: once the client is idle, every job
      of every matching transaction above the start is on the wait list exactly once, and every job
      there belongs to a transaction of the chain. */
  lemma {:induction false} EveryMatchingTransactionIsEnqueuedOnce(
    chain: seq<Block>, start: int, schedule: seq<Action>, s: Client, idsOf: Ref -> seq<JobQueue.JobId>,
    deliveries: seq<JobQueue.Delivery>, wait: seq<JobQueue.JobId>)
    requires start > 0 && Gentle(Start(chain, start), schedule) && s == Run(Start(chain, start), schedule)
    requires s.phase == Live(None) && s.open && s.feed == [] && Delivers(s.out, idsOf, deliveries)
    requires forall i :: 0 <= i < |deliveries| ==> JobQueue.Unfailing(deliveries[i])
    requires wait == JobQueue.Run(JobQueue.EMPTY, deliveries).wait
    ensures JobQueue.NoRepeats(wait)
    ensures forall r, id :: r in Txs(s.chain, true) && r.height > start && id in idsOf(r) ==> id in wait
    ensures forall id :: id in wait ==> exists r :: r in Txs(s.chain, false) && id in idsOf(r)
  {
    JobQueue.EnqueuedAtMostOnce(deliveries);
    JobQueue.EnqueuedInFirstDeliveryOrder(deliveries);
    JobQueue.FirstSeenMembers(JobQueue.Delivered(deliveries));
    DeliveredIds(s.out, idsOf, deliveries);
    forall r, id | r in Txs(s.chain, true) && r.height > start && id in idsOf(r)
      ensures id in wait
    {
      IdleClientHasEmittedAll(chain, start, schedule, r);
    }
    RunEmitsOnlyTheChain(Start(chain, start), schedule);
    forall id | id in wait
      ensures exists r :: r in Txs(s.chain, false) && id in idsOf(r)
    {
      var r :| r in s.out && id in idsOf(r);
      assert r in Txs(s.chain, false);
    }
  }
}
