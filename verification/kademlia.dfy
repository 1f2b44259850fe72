/** Keeping the k nodes closest to a key while a Kademlia walk discovers nodes in batches
    (`mergeClosest` and `bestAffinity` in kademlia.go). */
module Kademlia {
  import opened XorAffinity

  type NodeId = seq<bv8>

  /** `peer` stands for the network handle of the node. */
  datatype FoundNode = FoundNode(peer: nat, id: NodeId, affinity: nat)

  // ---- what a merge computes ----

  ghost predicate HasId(nodes: seq<FoundNode>, id: NodeId) {
    exists i :: 0 <= i < |nodes| && nodes[i].id == id
  }

  ghost predicate DistinctIds(nodes: seq<FoundNode>) {
    forall i, j :: 0 <= i < j < |nodes| ==> nodes[i].id != nodes[j].id
  }

  /** The first node of every id. */
  ghost function Distinct(nodes: seq<FoundNode>): seq<FoundNode> {
    if nodes == [] then []
    else
      var (front, last) := (Distinct(nodes[..|nodes| - 1]), nodes[|nodes| - 1]);
      if HasId(front, last.id) then front else front + [last]
  }

  function Rescored(nodes: seq<FoundNode>, target: NodeId): (scored: seq<FoundNode>)
    ensures |scored| == |nodes|
  {
    seq(|nodes|, i requires 0 <= i < |nodes| => nodes[i].(affinity := Affinity(nodes[i].id, target)))
  }

  ghost predicate Scored(nodes: seq<FoundNode>, target: NodeId) {
    forall i :: 0 <= i < |nodes| ==> nodes[i].affinity == Affinity(nodes[i].id, target)
  }

  /** Puts a node behind every node that is at least as close. */
  function Insert(nodes: seq<FoundNode>, x: FoundNode): (r: seq<FoundNode>)
    ensures |r| == |nodes| + 1
  {
    if nodes == [] then [x]
    else
      var last := nodes[|nodes| - 1];
      if last.affinity >= x.affinity then nodes + [x] else Insert(nodes[..|nodes| - 1], x) + [last]
  }

  /** `slices.SortStableFunc` by descending affinity. */
  function StableSort(nodes: seq<FoundNode>): (r: seq<FoundNode>)
    ensures |r| == |nodes|
  {
    if nodes == [] then [] else Insert(StableSort(nodes[..|nodes| - 1]), nodes[|nodes| - 1])
  }

  function Top(nodes: seq<FoundNode>, k: nat): (r: seq<FoundNode>)
    ensures r <= nodes && |r| <= k && (|r| == |nodes| || |r| == k)
  {
    if |nodes| > k then nodes[..k] else nodes
  }

  ghost function Merged(existing: seq<FoundNode>, incoming: seq<FoundNode>, target: NodeId, k: nat): seq<FoundNode> {
    Top(StableSort(Distinct(existing + Rescored(incoming, target))), k)
  }

  /** The loops of the source. */
  method MergeClosest(existing: seq<FoundNode>, incoming: seq<FoundNode>, target: NodeId, k: nat)
    returns (all: seq<FoundNode>)
    ensures all == Merged(existing, incoming, target, k)
  {
    var seen: set<NodeId> := {};
    ghost var scored := Rescored(incoming, target);
    all := [];
    for i := 0 to |existing|
      invariant all == Distinct(existing[..i])
      invariant seen == IdSet(all)
    {
      var n := existing[i];
      assert existing[..i + 1] == existing[..i] + [n];
      IdSetAppend(all, n);
      if n.id !in seen {
        seen := seen + {n.id};
        all := all + [n];
      }
    }
    assert existing[..|existing|] == existing + scored[..0];
    for i := 0 to |incoming|
      invariant all == Distinct(existing + scored[..i])
      invariant seen == IdSet(all)
    {
      var n := incoming[i];
      assert existing + scored[..i + 1] == existing + scored[..i] + [scored[i]];
      IdSetAppend(all, scored[i]);
      if n.id !in seen {
        seen := seen + {n.id};
        var affinity := ComputeXorAffinity(n.id, target);
        n := n.(affinity := affinity);
        all := all + [n];
      }
    }
    assert scored[..|incoming|] == scored;
    all := StableSort(all);
    if |all| > k {
      all := all[..k];
    }
  }

  ghost function IdSet(nodes: seq<FoundNode>): set<NodeId> {
    set n | n in nodes :: n.id
  }

  lemma IdSetAppend(nodes: seq<FoundNode>, x: FoundNode)
    ensures IdSet(nodes + [x]) == IdSet(nodes) + {x.id}
    ensures x.id in IdSet(nodes) <==> HasId(nodes, x.id)
  {
    assert forall n :: n in nodes + [x] <==> n in nodes || n == x;
  }

  lemma HasIdAppend(nodes: seq<FoundNode>, x: FoundNode)
    ensures forall id :: HasId(nodes + [x], id) <==> HasId(nodes, id) || id == x.id
  {
    forall id
      ensures HasId(nodes + [x], id) <==> HasId(nodes, id) || id == x.id
    {
      if HasId(nodes, id) {
        var i :| 0 <= i < |nodes| && nodes[i].id == id;
        assert (nodes + [x])[i].id == id;
      }
      assert (nodes + [x])[|nodes|] == x;
    }
  }

  // ---- insertion and sorting ----

  ghost predicate Descending(nodes: seq<FoundNode>) {
    forall i, j :: 0 <= i < j < |nodes| ==> nodes[i].affinity >= nodes[j].affinity
  }

  lemma {:induction false} InsertionPoint(nodes: seq<FoundNode>, x: FoundNode) returns (p: nat)
    requires Descending(nodes)
    ensures p <= |nodes|
    ensures Insert(nodes, x) == nodes[..p] + [x] + nodes[p..]
    ensures forall i :: 0 <= i < p ==> nodes[i].affinity >= x.affinity
    ensures forall i :: p <= i < |nodes| ==> nodes[i].affinity < x.affinity
  {
    if nodes == [] || nodes[|nodes| - 1].affinity >= x.affinity {
      p := |nodes|;
      assert nodes == nodes[..p] && nodes[p..] == [];
    } else {
      var front := nodes[..|nodes| - 1];
      p := InsertionPoint(front, x);
      assert nodes[..p] == front[..p];
      assert nodes[p..] == front[p..] + [nodes[|nodes| - 1]];
    }
  }

  lemma InsertDescends(nodes: seq<FoundNode>, x: FoundNode)
    requires Descending(nodes)
    ensures Descending(Insert(nodes, x))
  {
    var p := InsertionPoint(nodes, x);
  }

  lemma {:induction false} SortDescends(nodes: seq<FoundNode>)
    ensures Descending(StableSort(nodes))
  {
    if nodes != [] {
      SortDescends(nodes[..|nodes| - 1]);
      InsertDescends(StableSort(nodes[..|nodes| - 1]), nodes[|nodes| - 1]);
    }
  }

  lemma {:induction false} InsertPermutes(nodes: seq<FoundNode>, x: FoundNode)
    ensures multiset(Insert(nodes, x)) == multiset(nodes) + multiset{x}
  {
    if nodes != [] && nodes[|nodes| - 1].affinity < x.affinity {
      InsertPermutes(nodes[..|nodes| - 1], x);
      assert nodes == nodes[..|nodes| - 1] + [nodes[|nodes| - 1]];
    }
  }

  lemma {:induction false} SortPermutes(nodes: seq<FoundNode>)
    ensures multiset(StableSort(nodes)) == multiset(nodes)
  {
    if nodes != [] {
      var (front, last) := (nodes[..|nodes| - 1], nodes[|nodes| - 1]);
      assert nodes == front + [last];
      SortPermutes(front);
      InsertPermutes(StableSort(front), last);
    }
  }

  lemma SortKeepsMembers(nodes: seq<FoundNode>)
    ensures forall n :: n in StableSort(nodes) <==> n in nodes
    ensures forall id :: HasId(StableSort(nodes), id) <==> HasId(nodes, id)
  {
    SortPermutes(nodes);
    forall n
      ensures n in StableSort(nodes) <==> n in nodes
    {
      assert n in multiset(StableSort(nodes)) <==> n in multiset(nodes);
    }
    forall id
      ensures HasId(StableSort(nodes), id) <==> HasId(nodes, id)
    {
      if HasId(nodes, id) {
        var i :| 0 <= i < |nodes| && nodes[i].id == id;
        assert nodes[i] in StableSort(nodes);
      }
      if HasId(StableSort(nodes), id) {
        var i :| 0 <= i < |nodes| && StableSort(nodes)[i].id == id;
        assert StableSort(nodes)[i] in nodes;
      }
    }
  }

  lemma {:induction false} DistinctFacts(nodes: seq<FoundNode>)
    ensures DistinctIds(Distinct(nodes))
    ensures forall id :: HasId(Distinct(nodes), id) <==> HasId(nodes, id)
    ensures forall n :: n in Distinct(nodes) ==> n in nodes
  {
    if nodes != [] {
      var (front, last) := (nodes[..|nodes| - 1], nodes[|nodes| - 1]);
      DistinctFacts(front);
      HasIdAppend(front, last);
      HasIdAppend(Distinct(front), last);
      assert nodes == front + [last];
    }
  }

  // ---- merging one node at a time ----

  /** Offering one more node to a list of at most k. */
  ghost function Offer(best: seq<FoundNode>, x: FoundNode, k: nat): seq<FoundNode> {
    if HasId(best, x.id) then best else Top(Insert(best, x), k)
  }

  ghost function Stream(best: seq<FoundNode>, nodes: seq<FoundNode>, k: nat): seq<FoundNode> {
    if nodes == [] then best
    else Offer(Stream(best, nodes[..|nodes| - 1], k), nodes[|nodes| - 1], k)
  }

  lemma {:induction false} StreamConcat(best: seq<FoundNode>, a: seq<FoundNode>, b: seq<FoundNode>, k: nat)
    ensures Stream(best, a + b, k) == Stream(Stream(best, a, k), b, k)
  {
    if b == [] {
      assert a + b == a;
    } else {
      StreamConcat(best, a, b[..|b| - 1], k);
      assert (a + b)[..|a + b| - 1] == a + b[..|b| - 1];
    }
  }

  /** Cutting to k before an insertion changes nothing that survives the cut after it. */
  lemma {:induction false} TopOfInsert(nodes: seq<FoundNode>, x: FoundNode, k: nat)
    requires Descending(nodes)
    ensures Top(Insert(nodes, x), k) == Top(Insert(Top(nodes, k), x), k)
  {
    if |nodes| > k {
      var (front, last) := (nodes[..|nodes| - 1], nodes[|nodes| - 1]);
      assert Top(nodes, k) == Top(front, k);
      if last.affinity >= x.affinity {
      } else {
        TopOfInsert(front, x, k);
      }
    }
  }

  lemma {:induction false} StreamIsTop(nodes: seq<FoundNode>, target: NodeId, k: nat)
    requires Scored(nodes, target)
    ensures Stream([], nodes, k) == Top(StableSort(Distinct(nodes)), k)
  {
    if nodes != [] {
      var (front, x) := (nodes[..|nodes| - 1], nodes[|nodes| - 1]);
      StreamIsTop(front, target, k);
      var seen := Distinct(front);
      var sorted := StableSort(seen);
      var top := Top(sorted, k);
      SortDescends(seen);
      SortKeepsMembers(seen);
      if HasId(top, x.id) {
        var i :| 0 <= i < |top| && top[i].id == x.id;
        assert sorted[i].id == x.id;
      } else if HasId(seen, x.id) {
        DistinctFacts(front);
        var i :| 0 <= i < |sorted| && sorted[i].id == x.id;
        assert sorted[i] in front;
        assert i >= |top| == k;
      } else {
        TopOfInsert(sorted, x, k);
        assert (seen + [x])[..|seen|] == seen;
      }
    }
  }

  lemma {:induction false} StreamOfSettled(nodes: seq<FoundNode>, k: nat)
    requires Descending(nodes) && DistinctIds(nodes) && |nodes| <= k
    ensures Stream([], nodes, k) == nodes
  {
    if nodes != [] {
      var (front, last) := (nodes[..|nodes| - 1], nodes[|nodes| - 1]);
      StreamOfSettled(front, k);
      assert !HasId(front, last.id);
    }
  }

  // ---- main results ----

  /** The order that a merge promises: closer first, and among equals the one seen first. */
  ghost predicate RankedBy(seen: seq<FoundNode>, x: FoundNode, y: FoundNode) {
    x.affinity > y.affinity
    || (x.affinity == y.affinity
        && forall p, q :: 0 <= p < |seen| && 0 <= q < |seen| && seen[p] == x && seen[q] == y ==> p < q)
  }

  ghost predicate Ranked(seen: seq<FoundNode>, nodes: seq<FoundNode>) {
    forall i, j :: 0 <= i < j < |nodes| ==> RankedBy(seen, nodes[i], nodes[j])
  }

  lemma {:induction false} SortRanks(seen: seq<FoundNode>)
    requires DistinctIds(seen)
    ensures Ranked(seen, StableSort(seen))
  {
    if seen != [] {
      var (front, x) := (seen[..|seen| - 1], seen[|seen| - 1]);
      assert seen == front + [x];
      SortRanks(front);
      SortDescends(front);
      SortKeepsMembers(front);
      InsertRanks(front, x, StableSort(front));
    }
  }

  /** A node that comes last is ranked by being inserted. */
  lemma InsertRanks(front: seq<FoundNode>, x: FoundNode, sorted: seq<FoundNode>)
    requires DistinctIds(front + [x]) && Ranked(front, sorted) && Descending(sorted)
    requires forall n :: n in sorted ==> n in front
    ensures Ranked(front + [x], Insert(sorted, x))
  {
    var p := InsertionPoint(sorted, x);
    var r := sorted[..p] + [x] + sorted[p..];
    forall i, j | 0 <= i < j < |r|
      ensures RankedBy(front + [x], r[i], r[j])
    {
      if i != p && j != p {
        var (i', j') := (if i < p then i else i - 1, if j < p then j else j - 1);
        assert RankedBy(front, sorted[i'], sorted[j']);
        RankedInFront(front, x, r[i], r[j]);
      } else if i == p {
        assert r[j] == sorted[j - 1];
      } else {
        assert r[i] == sorted[i] && sorted[i] in front;
        LastRanksBehind(front, x, r[i]);
      }
    }
  }

  lemma LastRanksBehind(front: seq<FoundNode>, last: FoundNode, x: FoundNode)
    requires DistinctIds(front + [last]) && x in front && x.affinity >= last.affinity
    ensures RankedBy(front + [last], x, last)
  {
    var seen := front + [last];
    forall p, q | 0 <= p < |seen| && 0 <= q < |seen| && seen[p] == x && seen[q] == last
      ensures p < q
    {
      var p' :| 0 <= p' < |front| && front[p'] == x;
      assert seen[p'].id == seen[p].id && seen[|front|].id == seen[q].id;
    }
  }

  lemma RankedInFront(front: seq<FoundNode>, last: FoundNode, x: FoundNode, y: FoundNode)
    requires DistinctIds(front + [last]) && x in front && y in front && RankedBy(front, x, y)
    ensures RankedBy(front + [last], x, y)
  {
    var seen := front + [last];
    if x.affinity == y.affinity {
      forall p, q | 0 <= p < |seen| && 0 <= q < |seen| && seen[p] == x && seen[q] == y
        ensures p < q
      {
        var p' :| 0 <= p' < |front| && front[p'] == x;
        var q' :| 0 <= q' < |front| && front[q'] == y;
        assert seen[p'].id == seen[p].id && seen[q'].id == seen[q].id;
      }
    }
  }

  /** A merge keeps the first k of the distinct nodes in that order: the result is ranked, has as
      many nodes as there are distinct ids, up to k, and whatever is left out ranks behind all of
      it. */
  lemma {:induction false} MergedIsTopK(existing: seq<FoundNode>, incoming: seq<FoundNode>, target: NodeId, k: nat)
    ensures var seen := Distinct(existing + Rescored(incoming, target));
            var kept := Merged(existing, incoming, target, k);
            && DistinctIds(kept) && Ranked(seen, kept)
            && |kept| == (if |seen| <= k then |seen| else k)
            && (forall n :: n in kept ==> n in seen)
            && (forall n, m :: n in seen && n !in kept && m in kept ==> RankedBy(seen, m, n))
  {
    var seen := Distinct(existing + Rescored(incoming, target));
    DistinctFacts(existing + Rescored(incoming, target));
    SortRanks(seen);
    SortKeepsMembers(seen);
    RankedPrefix(seen, StableSort(seen), Merged(existing, incoming, target, k));
  }

  lemma RankedPrefix(seen: seq<FoundNode>, sorted: seq<FoundNode>, kept: seq<FoundNode>)
    requires DistinctIds(seen) && Ranked(seen, sorted) && kept <= sorted
    requires forall n :: n in sorted <==> n in seen
    ensures DistinctIds(kept) && Ranked(seen, kept) && forall n :: n in kept ==> n in seen
    ensures forall n, m :: n in seen && n !in kept && m in kept ==> RankedBy(seen, m, n)
  {
    assert forall n :: n in kept ==> n in sorted;
    forall i, j | 0 <= i < j < |kept|
      ensures kept[i].id != kept[j].id
    {
      assert RankedBy(seen, sorted[i], sorted[j]);
      assert sorted[i] in sorted && sorted[j] in sorted;
      var p :| 0 <= p < |seen| && seen[p] == sorted[i];
      var q :| 0 <= q < |seen| && seen[q] == sorted[j];
      assert p != q;
    }
    forall n, m | n in seen && n !in kept && m in kept
      ensures RankedBy(seen, m, n)
    {
      var i :| 0 <= i < |kept| && kept[i] == m;
      var j :| 0 <= j < |sorted| && sorted[j] == n;
      assert kept[i] == sorted[i] && j >= |kept|;
    }
  }

  lemma {:induction false} MergedIsStream(existing: seq<FoundNode>, incoming: seq<FoundNode>, target: NodeId, k: nat)
    requires Scored(existing, target)
    ensures Merged(existing, incoming, target, k) == Stream([], existing + Rescored(incoming, target), k)
    ensures Scored(Merged(existing, incoming, target, k), target)
    ensures Descending(Merged(existing, incoming, target, k))
    ensures DistinctIds(Merged(existing, incoming, target, k))
  {
    var all := existing + Rescored(incoming, target);
    var seen := Distinct(all);
    StreamIsTop(all, target, k);
    DistinctFacts(all);
    SortDescends(seen);
    SortKeepsMembers(seen);
    MergedIsTopK(existing, incoming, target, k);
    var kept := Merged(existing, incoming, target, k);
    forall i | 0 <= i < |kept|
      ensures kept[i].affinity == Affinity(kept[i].id, target)
    {
      assert kept[i] in all;
    }
  }

  lemma {:induction false} MergeIntoSettled(best: seq<FoundNode>, b: seq<FoundNode>, target: NodeId, k: nat)
    requires Scored(best, target) && Descending(best) && DistinctIds(best) && |best| <= k
    ensures Merged(best, b, target, k) == Stream(best, Rescored(b, target), k)
  {
    MergedIsStream(best, b, target, k);
    StreamConcat([], best, Rescored(b, target), k);
    StreamOfSettled(best, k);
  }

  lemma RescoredConcat(existing: seq<FoundNode>, a: seq<FoundNode>, b: seq<FoundNode>, target: NodeId)
    ensures existing + Rescored(a + b, target) == existing + Rescored(a, target) + Rescored(b, target)
  {
    assert Rescored(a + b, target) == Rescored(a, target) + Rescored(b, target);
  }

  lemma StreamOfBoth(existing: seq<FoundNode>, a: seq<FoundNode>, b: seq<FoundNode>, target: NodeId, k: nat)
    ensures Stream([], existing + Rescored(a + b, target), k)
         == Stream(Stream([], existing + Rescored(a, target), k), Rescored(b, target), k)
  {
    RescoredConcat(existing, a, b, target);
    StreamConcat([], existing + Rescored(a, target), Rescored(b, target), k);
  }

  /** Merging in batches loses nothing: two merges are one merge of both batches, node for node. */
  lemma {:induction false} MergeInBatches(existing: seq<FoundNode>, a: seq<FoundNode>, b: seq<FoundNode>, target: NodeId, k: nat)
    requires Scored(existing, target)
    ensures Merged(Merged(existing, a, target, k), b, target, k) == Merged(existing, a + b, target, k)
  {
    MergedIsStream(existing, a, target, k);
    MergeIntoSettled(Merged(existing, a, target, k), b, target, k);
    MergedIsStream(existing, a + b, target, k);
    StreamOfBoth(existing, a, b, target, k);
  }

  ghost function MergeAll(batches: seq<seq<FoundNode>>, target: NodeId, k: nat): seq<FoundNode> {
    if batches == [] then []
    else Merged(MergeAll(batches[..|batches| - 1], target, k), batches[|batches| - 1], target, k)
  }

  ghost function Flatten(batches: seq<seq<FoundNode>>): seq<FoundNode> {
    if batches == [] then [] else Flatten(batches[..|batches| - 1]) + batches[|batches| - 1]
  }

  /** After any run of merges from an empty list the list is the one merge of every node seen. */
  lemma {:induction false} WalkKeepsTopKOfAllSeen(batches: seq<seq<FoundNode>>, target: NodeId, k: nat)
    ensures MergeAll(batches, target, k) == Merged([], Flatten(batches), target, k)
  {
    if batches == [] {
      assert [] + Rescored([], target) == [];
    } else {
      WalkKeepsTopKOfAllSeen(batches[..|batches| - 1], target, k);
      MergeInBatches([], Flatten(batches[..|batches| - 1]), batches[|batches| - 1], target, k);
    }
  }

  lemma {:induction false} LeftOutIsNoCloser(nodes: seq<FoundNode>, target: NodeId, k: nat, kept: FoundNode, other: FoundNode)
    requires kept in Merged([], nodes, target, k)
    requires other in nodes && !HasId(Merged([], nodes, target, k), other.id)
    ensures Affinity(kept.id, target) >= Affinity(other.id, target)
  {
    var all := [] + Rescored(nodes, target);
    var seen := Distinct(all);
    var best := Merged([], nodes, target, k);
    MergedIsTopK([], nodes, target, k);
    DistinctFacts(all);
    var i :| 0 <= i < |nodes| && nodes[i] == other;
    assert all[i].id == other.id;
    assert HasId(seen, other.id);
    var j :| 0 <= j < |seen| && seen[j].id == other.id;
    assert seen[j] in all && kept in all;
    assert seen[j] !in best;
    assert RankedBy(seen, kept, seen[j]);
  }

  /** What the walk left out is no nearer to the target, as XOR distances go, than anything it kept
      with a different affinity. */
  lemma {:induction false} WalkKeepsTheNearest(batches: seq<seq<FoundNode>>, target: Key, k: nat, kept: FoundNode, other: FoundNode)
    requires kept in MergeAll(batches, target, k)
    requires other in Flatten(batches) && !HasId(MergeAll(batches, target, k), other.id)
    requires |kept.id| == KEY_BYTES && |other.id| == KEY_BYTES
    ensures Affinity(kept.id, target) >= Affinity(other.id, target)
    ensures Affinity(kept.id, target) > Affinity(other.id, target)
        ==> Distance(kept.id, target) < Distance(other.id, target)
  {
    WalkKeepsTopKOfAllSeen(batches, target, k);
    LeftOutIsNoCloser(Flatten(batches), target, k, kept, other);
    if Affinity(kept.id, target) > Affinity(other.id, target) {
      HigherAffinityIsNearer(target, kept.id, other.id);
    }
  }

  function BestAffinity(nodes: seq<FoundNode>): (best: nat) {
    if |nodes| == 0 then 0 else nodes[0].affinity
  }

  /** The value that decides whether a walk goes on is the highest affinity of any node seen. */
  lemma {:induction false} BestAffinityIsMaximum(existing: seq<FoundNode>, incoming: seq<FoundNode>, target: NodeId, k: nat)
    requires Scored(existing, target) && k >= 1
    ensures var all := existing + Rescored(incoming, target);
            var best := BestAffinity(Merged(existing, incoming, target, k));
            && (forall n :: n in all ==> n.affinity <= best)
            && (all != [] ==> exists n :: n in all && n.affinity == best)
  {
    var all := existing + Rescored(incoming, target);
    var seen := Distinct(all);
    var sorted := StableSort(seen);
    DistinctFacts(all);
    SortDescends(seen);
    SortKeepsMembers(seen);
    forall n | n in all
      ensures sorted != [] && n.affinity <= sorted[0].affinity
    {
      var i :| 0 <= i < |all| && all[i] == n;
      assert HasId(sorted, n.id);
      var j :| 0 <= j < |sorted| && sorted[j].id == n.id;
      assert sorted[j] in all;
    }
    if all != [] {
      assert all[0] in all;
      assert sorted[0] in all;
    }
  }

  const TARGET: NodeId := [0 as bv8]
  const NEAR := FoundNode(1, [0 as bv8], 0)
  const FAR := FoundNode(2, [0x10 as bv8], 3)
  const NEAR_SCORED := FoundNode(1, [0 as bv8], 8)

  /** The affinities of the existing nodes must be right for the target: with one that is not, two
      merges and one merge disagree. */
  lemma {:induction false} WrongAffinityBreaksBatches()
    ensures !Scored([FAR, NEAR], TARGET)
    ensures Merged(Merged([FAR, NEAR], [], TARGET, 1), [NEAR], TARGET, 1) == [NEAR_SCORED]
    ensures Merged([FAR, NEAR], [] + [NEAR], TARGET, 1) == [FAR]
  {
    ExampleAffinity();
    ExampleInBatches();
    ExampleAtOnce();
    assert [FAR, NEAR][1] == NEAR;
    assert [] + [NEAR] == [NEAR];
  }

  lemma ExampleAffinity()
    ensures Affinity(NEAR.id, TARGET) == 8 && Rescored([NEAR], TARGET) == [NEAR_SCORED]
  {
    assert NEAR.id[0] ^ TARGET[0] == 0;
    assert AffinityFrom(NEAR.id, TARGET, 1) == 0;
  }

  lemma ExampleOfTwo()
    ensures Distinct([FAR, NEAR]) == [FAR, NEAR] && StableSort([FAR, NEAR]) == [FAR, NEAR]
  {
    assert [FAR, NEAR][..1] == [FAR] && [FAR][..0] == [];
    assert Distinct([FAR]) == [FAR] && StableSort([FAR]) == [FAR];
    assert !HasId([FAR], NEAR.id);
  }

  lemma ExampleInBatches()
    ensures Merged(Merged([FAR, NEAR], [], TARGET, 1), [NEAR], TARGET, 1) == [NEAR_SCORED]
  {
    ExampleAffinity();
    ExampleOfTwo();
    assert Rescored([], TARGET) == [] && [FAR, NEAR] + [] == [FAR, NEAR];
    assert Merged([FAR, NEAR], [], TARGET, 1) == [FAR];
    var merged := [FAR, NEAR_SCORED];
    assert [FAR] + [NEAR_SCORED] == merged && merged[..1] == [FAR] && [FAR][..0] == [];
    assert Distinct([FAR]) == [FAR] && !HasId([FAR], NEAR.id);
    assert Distinct(merged) == merged;
    assert Insert([], NEAR_SCORED) == [NEAR_SCORED];
    assert Insert([FAR], NEAR_SCORED) == [NEAR_SCORED] + [FAR];
    assert StableSort([FAR]) == [FAR];
    assert StableSort(merged) == [NEAR_SCORED, FAR];
  }

  lemma ExampleAtOnce()
    ensures Merged([FAR, NEAR], [NEAR], TARGET, 1) == [FAR]
  {
    ExampleAffinity();
    ExampleOfTwo();
    var three := [FAR, NEAR, NEAR_SCORED];
    assert [FAR, NEAR] + [NEAR_SCORED] == three && three[..2] == [FAR, NEAR];
    assert [FAR, NEAR][1].id == NEAR.id;
    assert HasId([FAR, NEAR], NEAR.id);
    assert Distinct(three) == [FAR, NEAR];
  }
}
