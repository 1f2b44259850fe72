/** Enqueuing chain events as jobs, once each, in Redis (ingester.go and bullmq/queue.go of
    greenfield-ingester): a script marks a job id as taken at once, while the pushes to the wait
    list are collected in a pipeline that runs when the whole event has been looked at. */
module JobQueue {
  import opened Wrappers
  import opened Text
  import opened ReplayEvents

  type JobId = string

  // ---- job ids ----

  function SanitizeJobIdComponent(s: string): string {
    ReplaceAll(s, ':', "_")
  }

  function FormatJobId(height: int, txHash: string, bucket: string, objectName: string): JobId {
    Decimal(height) + ":" + txHash + ":" + SanitizeJobIdComponent(bucket) + ":" + SanitizeJobIdComponent(objectName)
  }

  lemma {:induction false} SanitizedIsColonFree(s: string)
    ensures ':' !in SanitizeJobIdComponent(s)
    ensures |SanitizeJobIdComponent(s)| == |s|
  {
    if s != [] {
      SanitizedIsColonFree(s[1..]);
    }
  }

  lemma FourPartsAssociate(h: string, x: string, b: string, o: string)
    ensures h + ":" + x + ":" + b + ":" + o == h + [':'] + (x + [':'] + (b + [':'] + o))
  {
  }

  lemma {:induction false} SplitFourParts(h: string, x: string, b: string, o: string)
    requires ':' !in h && ':' !in x && ':' !in b && ':' !in o
    ensures Split(h + ":" + x + ":" + b + ":" + o, ':') == [h, x, b, o]
  {
    FourPartsAssociate(h, x, b, o);
    SplitFirst(o, "", ':');
    SplitFirst(b, o, ':');
    SplitFirst(x, b + [':'] + o, ':');
    SplitFirst(h, x + [':'] + (b + [':'] + o), ':');
    assert [h] + ([x] + ([b] + [o])) == [h, x, b, o];
  }

  lemma JobIdIsJoined(height: int, txHash: string, bucket: string, objectName: string)
    requires MIN_INT64 <= height <= MAX_INT64 && ':' !in txHash
    ensures Split(FormatJobId(height, txHash, bucket, objectName), ':')
         == [Decimal(height), txHash, SanitizeJobIdComponent(bucket), SanitizeJobIdComponent(objectName)]
  {
    DecimalRoundTrip(height);
    SanitizedIsColonFree(bucket);
    SanitizedIsColonFree(objectName);
    SplitFourParts(Decimal(height), txHash, SanitizeJobIdComponent(bucket), SanitizeJobIdComponent(objectName));
  }

  /** Two events share an id exactly when height, hash, and colon-sanitised bucket and object
      agree; the event type is not part of it. */
  lemma JobIdsAgreeIff(
    height: int, txHash: string, bucket: string, objectName: string,
    height': int, txHash': string, bucket': string, objectName': string)
    requires MIN_INT64 <= height <= MAX_INT64 && ':' !in txHash
    requires MIN_INT64 <= height' <= MAX_INT64 && ':' !in txHash'
    ensures FormatJobId(height, txHash, bucket, objectName) == FormatJobId(height', txHash', bucket', objectName')
        <==> height == height' && txHash == txHash'
             && SanitizeJobIdComponent(bucket) == SanitizeJobIdComponent(bucket')
             && SanitizeJobIdComponent(objectName) == SanitizeJobIdComponent(objectName')
  {
    JobIdIsJoined(height, txHash, bucket, objectName);
    JobIdIsJoined(height', txHash', bucket', objectName');
    DecimalInjective(height, height');
    var (a, b) := (Split(FormatJobId(height, txHash, bucket, objectName), ':'),
                   Split(FormatJobId(height', txHash', bucket', objectName'), ':'));
    if a == b {
      assert a[0] == b[0] && a[1] == b[1] && a[2] == b[2] && a[3] == b[3];
    }
  }

  /** The names that share an id are those that differ only in colons against underscores. */
  lemma {:induction false} SanitizedAgreeIff(s: string, t: string)
    ensures SanitizeJobIdComponent(s) == SanitizeJobIdComponent(t)
        <==> |s| == |t| && forall i :: 0 <= i < |s| ==> s[i] == t[i] || {s[i], t[i]} == {':', '_'}
  {
    SanitizedIsColonFree(s);
    SanitizedIsColonFree(t);
    if |s| == |t| && s != [] {
      SanitizedAgreeIff(s[1..], t[1..]);
      var (x, y) := (SanitizeJobIdComponent(s), SanitizeJobIdComponent(t));
      assert x == [if s[0] == ':' then '_' else s[0]] + SanitizeJobIdComponent(s[1..]);
      assert y == [if t[0] == ':' then '_' else t[0]] + SanitizeJobIdComponent(t[1..]);
      assert x[1..] == SanitizeJobIdComponent(s[1..]) && y[1..] == SanitizeJobIdComponent(t[1..]);
      if forall i :: 0 <= i < |s| ==> s[i] == t[i] || {s[i], t[i]} == {':', '_'} {
        assert s[0] == t[0] || {s[0], t[0]} == {':', '_'};
        PairOfColonAndUnderscore(s[0], t[0]);
        forall i | 0 <= i < |s| - 1
          ensures s[1..][i] == t[1..][i] || {s[1..][i], t[1..][i]} == {':', '_'}
        {
          assert s[i + 1] == t[i + 1] || {s[i + 1], t[i + 1]} == {':', '_'};
        }
      }
      if x == y {
        assert x[0] == y[0];
        PairOfColonAndUnderscore(s[0], t[0]);
        forall i | 0 <= i < |s|
          ensures s[i] == t[i] || {s[i], t[i]} == {':', '_'}
        {
          if i > 0 {
            assert s[1..][i - 1] == t[1..][i - 1] || {s[1..][i - 1], t[1..][i - 1]} == {':', '_'};
          }
        }
      }
    }
  }

  lemma PairOfColonAndUnderscore(c: char, d: char)
    ensures {c, d} == {':', '_'} <==> (c == ':' && d == '_') || (c == '_' && d == ':')
  {
    if {c, d} == {':', '_'} {
      assert ':' in {c, d} && '_' in {c, d};
    }
  }

  // ---- jobs of an event ----

  datatype Job = Job(name: string, bucket: string, objectName: string)

  function JobOf(tx: TxEvent, event: AbciEvent): Option<Job> {
    if event.typeUrl == EVENT_CREATE_OBJECT then
      match ExtractCreateObjectEvent(tx, event)
      case Success(parsed) => Some(Job("EventCreateObject", parsed.bucketName, parsed.objectName))
      case Failure(_) => None
    else if event.typeUrl == EVENT_UPDATE_OBJECT_CONTENT then
      match ExtractUpdateObjectContentEvent(tx, event)
      case Success(parsed) => Some(Job("EventUpdateObjectContent", parsed.bucketName, parsed.objectName))
      case Failure(_) => None
    else None
  }

  function JobsOf(tx: TxEvent, n: nat): seq<Job>
    requires n <= |tx.events|
  {
    if n == 0 then []
    else
      JobsOf(tx, n - 1) + match JobOf(tx, tx.events[n - 1]) case Some(job) => [job] case None => []
  }

  /** Which events give a job, and which: the type decides its name, the attributes give bucket and
      object. */
  lemma JobOfEvent(tx: TxEvent, event: AbciEvent)
    ensures var a := event.attributes;
            var numbers := (exists n :: ReadsUnsigned(a, "payload_size", n)) && exists n :: ReadsSigned(a, "version", n);
            var named := "bucket_name" in a && "object_name" in a && numbers;
            JobOf(tx, event)
            == if event.typeUrl == "greenfield.storage.EventCreateObject" && named
                  && exists n :: ReadsSigned(a, "create_at", n)
               then Some(Job("EventCreateObject", a["bucket_name"], a["object_name"]))
               else if event.typeUrl == "greenfield.storage.EventUpdateObjectContent" && named
               then Some(Job("EventUpdateObjectContent", a["bucket_name"], a["object_name"]))
               else None
  {
    CreationDecodesToItsAttributes(tx, event);
    UpdateDecodesToItsAttributes(tx, event);
  }

  /** The job that a message calls for: one for each creation and update whose numbers are empty or
      parse. */
  function JobsOfMessage(message: Option<TxMessage>): seq<Job> {
    match message
    case None => []
    case Some(msg) =>
      if UnsignedValue(msg.payloadSize).None? || SignedValue(msg.version).None? then []
      else if msg.typeUrl == "/greenfield.storage.MsgUpdateObjectContent"
      then [Job("EventUpdateObjectContent", msg.bucketName, msg.objectName)]
      else if msg.typeUrl == "/greenfield.storage.MsgCreateObject" && SignedValue(msg.createAt).Some?
      then [Job("EventCreateObject", msg.bucketName, msg.objectName)]
      else []
  }

  function JobsOfMessages(messages: Messages): seq<Job> {
    if messages == [] then []
    else JobsOfMessages(messages[..|messages| - 1]) + JobsOfMessage(messages[|messages| - 1])
  }

  lemma JobOfMessage(tx: TxEvent, msg: TxMessage)
    requires MessageToAbciEvent(msg).Some?
    ensures JobsOfMessage(Some(msg))
         == match JobOf(tx, MessageToAbciEvent(msg).value) case Some(job) => [job] case None => []
  {
    EventTypes(msg);
    if msg.typeUrl == MSG_CREATE_OBJECT {
      CreationDecodesToItsAttributes(tx, MessageToAbciEvent(msg).value);
    } else {
      UpdateDecodesToItsAttributes(tx, MessageToAbciEvent(msg).value);
    }
    if msg.typeUrl == MSG_CREATE_OBJECT || msg.typeUrl == MSG_UPDATE_OBJECT_CONTENT {
      ReplayedEventDecodesIffNumbersParse(tx, msg);
    }
  }

  /** A replayed transaction gives exactly the jobs that its messages call for. */
  lemma {:induction false} ReplayedJobs(tx: TxEvent, messages: Messages)
    requires tx.events == Recognised(messages)
    ensures JobsOf(tx, |tx.events|) == JobsOfMessages(messages)
    decreases |messages|
  {
    if messages != [] {
      var (front, last) := (messages[..|messages| - 1], messages[|messages| - 1]);
      var before := tx.(events := Recognised(front));
      ReplayedJobs(before, front);
      JobsOfPrefix(tx, before, |before.events|);
      if last.Some? {
        LastJob(tx, before, last.value);
      }
    }
  }

  lemma LastJob(tx: TxEvent, before: TxEvent, msg: TxMessage)
    requires tx.events == before.events + match MessageToAbciEvent(msg) case Some(event) => [event] case None => []
    ensures JobsOf(tx, |tx.events|) == JobsOf(tx, |before.events|) + JobsOfMessage(Some(msg))
  {
    if MessageToAbciEvent(msg).Some? {
      JobOfMessage(tx, msg);
    } else {
      EventTypes(msg);
    }
  }

  lemma {:induction false} JobsOfPrefix(tx: TxEvent, before: TxEvent, n: nat)
    requires n <= |before.events| <= |tx.events| && tx.height == before.height && tx.txHash == before.txHash
    requires before.events[..n] == tx.events[..n]
    ensures JobsOf(before, n) == JobsOf(tx, n)
  {
    if n > 0 {
      assert before.events[..n][..n - 1] == before.events[..n - 1] && tx.events[..n][..n - 1] == tx.events[..n - 1];
      assert before.events[n - 1] == before.events[..n][n - 1] == tx.events[n - 1];
      JobsOfPrefix(tx, before, n - 1);
    }
  }

  function IdOf(tx: TxEvent, job: Job): JobId {
    FormatJobId(tx.height, tx.txHash, job.bucket, job.objectName)
  }

  function IdsOf(tx: TxEvent, jobs: seq<Job>): (ids: seq<JobId>)
    ensures |ids| == |jobs|
  {
    seq(|jobs|, i requires 0 <= i < |jobs| => IdOf(tx, jobs[i]))
  }

  function JobIds(tx: TxEvent): seq<JobId> {
    IdsOf(tx, JobsOf(tx, |tx.events|))
  }

  /** So the ids of a replayed transaction are, in order, those of the messages that call for a job. */
  lemma ReplayedJobIds(tx: TxEvent, messages: Messages)
    requires tx.events == Recognised(messages)
    ensures |JobIds(tx)| == |JobsOfMessages(messages)|
    ensures forall i :: 0 <= i < |JobIds(tx)| ==>
              var job := JobsOfMessages(messages)[i];
              JobIds(tx)[i] == FormatJobId(tx.height, tx.txHash, job.bucket, job.objectName)
  {
    ReplayedJobs(tx, messages);
  }

  // ---- Redis ----

  /** The job hashes, the wait list, and the height key. */
  datatype Store = Store(jobs: set<JobId>, wait: seq<JobId>, height: Option<int>)

  /** What becomes of a call: it is carried out and answered, it never arrives, or it is carried out
      and the answer is lost. */
  datatype Fate = Answered | RequestLost | ReplyLost

  /** The calls for the jobs of an event that do not simply succeed, by position. */
  type Mishaps = map<nat, Fate>

  function FateAt(mishaps: Mishaps, i: nat): Fate {
    if i in mishaps then mishaps[i] else Answered
  }

  /** The scripts of one event: the ids newly taken are collected in `pushes` until a call fails. */
  datatype Taking = Taking(store: Store, pushes: seq<JobId>, ok: bool)

  function Take(t: Taking, id: JobId, fate: Fate): Taking {
    if !t.ok then t
    else
      var isNew := id !in t.store.jobs && !fate.RequestLost?;
      Taking(if isNew then t.store.(jobs := t.store.jobs + {id}) else t.store,
             if isNew && fate.Answered? then t.pushes + [id] else t.pushes,
             fate.Answered?)
  }

  function TakeAll(store: Store, ids: seq<JobId>, mishaps: Mishaps): Taking {
    if ids == [] then Taking(store, [], true)
    else
      var last := |ids| - 1;
      Take(TakeAll(store, ids[..last], mishaps), ids[last], FateAt(mishaps, last))
  }

  /** One delivered event with what becomes of its calls to Redis. */
  datatype Delivery = Delivery(tx: TxEvent, mishaps: Mishaps, exec: Fate)

  function Process(store: Store, d: Delivery): (Store, bool) {
    if JobIds(d.tx) == [] then (store, true)
    else
      var taken := TakeAll(store, JobIds(d.tx), d.mishaps);
      if !taken.ok then (taken.store, false)
      else
        (if d.exec.RequestLost? then taken.store
         else taken.store.(wait := taken.store.wait + taken.pushes, height := Some(d.tx.height)),
         d.exec.Answered?)
  }

  class Ingester {
    var jobs: set<JobId>
    var wait: seq<JobId>
    var height: Option<int>

    ghost function State(): Store
      reads this
    {
      Store(jobs, wait, height)
    }

    constructor ()
      ensures State() == Store({}, [], None)
    {
      jobs, wait, height := {}, [], None;
    }

    method CollectJobs(tx: TxEvent) returns (collected: seq<Job>)
      ensures collected == JobsOf(tx, |tx.events|)
    {
      collected := [];
      for i := 0 to |tx.events|
        invariant collected == JobsOf(tx, i)
      {
        var event := tx.events[i];
        if event.typeUrl == EVENT_CREATE_OBJECT {
          var parsed := ExtractCreateObjectEvent(tx, event);
          if parsed.Failure? {
            continue;
          }
          collected := collected + [Job("EventCreateObject", parsed.value.bucketName, parsed.value.objectName)];
        } else if event.typeUrl == EVENT_UPDATE_OBJECT_CONTENT {
          var parsed := ExtractUpdateObjectContentEvent(tx, event);
          if parsed.Failure? {
            continue;
          }
          collected := collected + [Job("EventUpdateObjectContent", parsed.value.bucketName, parsed.value.objectName)];
        }
      }
    }

    /** The dedup script, and the push added to the pipeline if the id was new. */
    method AddJob(id: JobId, pipe: seq<JobId>, fate: Fate) returns (pipe': seq<JobId>, ok: bool)
      modifies this`jobs
      ensures Taking(State(), pipe', ok) == Take(Taking(old(State()), pipe, true), id, fate)
    {
      pipe' := pipe;
      if fate.RequestLost? {
        return pipe, false;
      }
      var duplicate := id in jobs;
      if !duplicate {
        jobs := jobs + {id};
      }
      if fate.ReplyLost? {
        return pipe, false;
      }
      if !duplicate {
        pipe' := pipe + [id];
      }
      return pipe', true;
    }

    /** The loop over the jobs of an event, up to the first call that fails. */
    method AddJobs(tx: TxEvent, collected: seq<Job>, mishaps: Mishaps) returns (pipe: seq<JobId>, ok: bool)
      modifies this`jobs
      ensures Taking(State(), pipe, ok) == TakeAll(old(State()), IdsOf(tx, collected), mishaps)
    {
      ghost var ids := IdsOf(tx, collected);
      pipe, ok := [], true;
      for i := 0 to |collected|
        invariant ok && Taking(State(), pipe, true) == TakeAll(old(State()), ids[..i], mishaps)
      {
        TakeOneMore(old(State()), ids, mishaps, i);
        assert ids[i] == IdOf(tx, collected[i]);
        pipe, ok := AddJob(IdOf(tx, collected[i]), pipe, FateAt(mishaps, i));
        if !ok {
          FailureSticks(old(State()), ids, mishaps, i + 1);
          return;
        }
      }
      assert ids[..|ids|] == ids;
    }

    method ProcessTxEvent(d: Delivery) returns (ok: bool)
      modifies this
      ensures (State(), ok) == Process(old(State()), d)
    {
      var collected := CollectJobs(d.tx);
      if |collected| == 0 {
        return true;
      }
      var pipe;
      pipe, ok := AddJobs(d.tx, collected, d.mishaps);
      if !ok || d.exec.RequestLost? {
        return false;
      }
      wait := wait + pipe;
      height := Some(d.tx.height);
      return d.exec.Answered?;
    }
  }

  lemma TakeOneMore(store: Store, ids: seq<JobId>, mishaps: Mishaps, i: nat)
    requires i < |ids|
    ensures TakeAll(store, ids[..i + 1], mishaps) == Take(TakeAll(store, ids[..i], mishaps), ids[i], FateAt(mishaps, i))
  {
    assert ids[..i + 1][..i] == ids[..i];
  }

  lemma {:induction false} FailureSticks(store: Store, ids: seq<JobId>, mishaps: Mishaps, n: nat)
    requires n <= |ids| && !TakeAll(store, ids[..n], mishaps).ok
    ensures TakeAll(store, ids, mishaps) == TakeAll(store, ids[..n], mishaps)
  {
    if n == |ids| {
      assert ids[..n] == ids;
    } else {
      var last := |ids| - 1;
      assert ids[..last][..n] == ids[..n];
      FailureSticks(store, ids[..last], mishaps, n);
    }
  }

  // ---- any sequence of deliveries ----

  function Run(store: Store, deliveries: seq<Delivery>): Store {
    if deliveries == [] then store
    else Process(Run(store, deliveries[..|deliveries| - 1]), deliveries[|deliveries| - 1]).0
  }

  const EMPTY := Store({}, [], None)

  ghost predicate NoRepeats(ids: seq<JobId>) {
    forall i, j :: 0 <= i < j < |ids| ==> ids[i] != ids[j]
  }

  lemma NoRepeatsConcat(a: seq<JobId>, b: seq<JobId>)
    requires NoRepeats(a) && NoRepeats(b) && forall id :: id in b ==> id !in a
    ensures NoRepeats(a + b)
  {
    forall i, j | 0 <= i < j < |a + b|
      ensures (a + b)[i] != (a + b)[j]
    {
      if i < |a| <= j {
        assert b[j - |a|] in b && a[i] in a;
      }
    }
  }

  /** Every id on the wait list is there once and has its hash. */
  ghost predicate OnceEach(store: Store) {
    NoRepeats(store.wait) && forall id :: id in store.wait ==> id in store.jobs
  }

  ghost predicate TakingOk(before: Store, t: Taking) {
    && t.store.wait == before.wait && t.store.height == before.height && before.jobs <= t.store.jobs
    && NoRepeats(t.pushes)
    && forall id :: id in t.pushes ==> id in t.store.jobs && id !in before.jobs
  }

  lemma {:induction false} TakeAllOk(store: Store, ids: seq<JobId>, mishaps: Mishaps)
    ensures TakingOk(store, TakeAll(store, ids, mishaps))
  {
    if ids != [] {
      TakeAllOk(store, ids[..|ids| - 1], mishaps);
    }
  }

  lemma {:induction false} ProcessKeepsOnceEach(store: Store, d: Delivery)
    requires OnceEach(store)
    ensures OnceEach(Process(store, d).0)
    ensures store.jobs <= Process(store, d).0.jobs && store.wait <= Process(store, d).0.wait
    ensures forall id :: id in Process(store, d).0.wait && id !in store.wait ==> id !in store.jobs
  {
    if JobIds(d.tx) != [] {
      TakeAllOk(store, JobIds(d.tx), d.mishaps);
      NoRepeatsConcat(store.wait, TakeAll(store, JobIds(d.tx), d.mishaps).pushes);
    }
  }

  lemma {:induction false} RunKeepsOnceEach(store: Store, deliveries: seq<Delivery>)
    requires OnceEach(store)
    ensures OnceEach(Run(store, deliveries))
    ensures store.jobs <= Run(store, deliveries).jobs && store.wait <= Run(store, deliveries).wait
    ensures forall id :: id in Run(store, deliveries).wait && id !in store.wait ==> id !in store.jobs
  {
    if deliveries != [] {
      RunKeepsOnceEach(store, deliveries[..|deliveries| - 1]);
      ProcessKeepsOnceEach(Run(store, deliveries[..|deliveries| - 1]), deliveries[|deliveries| - 1]);
    }
  }

  /** Over any deliveries, with repeats, reorderings and failing calls, no job id is pushed to the
      wait list twice. */
  lemma {:induction false} EnqueuedAtMostOnce(deliveries: seq<Delivery>)
    ensures OnceEach(Run(EMPTY, deliveries))
  {
    RunKeepsOnceEach(EMPTY, deliveries);
  }

  /** A taken id that is not on the wait list after its event never gets there: later deliveries of
      the same event see it as a duplicate. */
  lemma {:induction false} StrandedForGood(before: seq<Delivery>, store: Store, after: seq<Delivery>, id: JobId)
    requires store == Run(EMPTY, before) && id in store.jobs && id !in store.wait
    ensures id !in Run(store, after).wait
  {
    EnqueuedAtMostOnce(before);
    RunKeepsOnceEach(store, after);
  }

  // ---- runs without failing calls ----

  predicate Unfailing(d: Delivery) {
    d.mishaps == map[] && d.exec.Answered?
  }

  /** The distinct ids in the order of first delivery. */
  function FirstSeen(ids: seq<JobId>): seq<JobId> {
    if ids == [] then []
    else
      var front := FirstSeen(ids[..|ids| - 1]);
      if ids[|ids| - 1] in front then front else front + [ids[|ids| - 1]]
  }

  function Delivered(deliveries: seq<Delivery>): seq<JobId> {
    if deliveries == [] then []
    else Delivered(deliveries[..|deliveries| - 1]) + JobIds(deliveries[|deliveries| - 1].tx)
  }

  lemma {:induction false} FirstSeenMembers(ids: seq<JobId>)
    ensures NoRepeats(FirstSeen(ids))
    ensures forall id :: id in FirstSeen(ids) <==> id in ids
  {
    if ids != [] {
      FirstSeenMembers(ids[..|ids| - 1]);
      assert ids == ids[..|ids| - 1] + [ids[|ids| - 1]];
    }
  }

  ghost predicate Complete(store: Store, ids: seq<JobId>) {
    store.wait == FirstSeen(ids) && forall id :: id in store.jobs <==> id in ids
  }

  /** The scripts so far have taken, and the pipeline will push, what `seen` calls for. */
  ghost predicate Following(store: Store, seen: seq<JobId>, t: Taking) {
    && t.ok && t.store.wait == store.wait && store.wait + t.pushes == FirstSeen(seen)
    && forall id :: id in t.store.jobs <==> id in seen
  }

  lemma FirstSeenAppend(ids: seq<JobId>, id: JobId)
    ensures FirstSeen(ids + [id]) == if id in ids then FirstSeen(ids) else FirstSeen(ids) + [id]
  {
    assert (ids + [id])[..|ids|] == ids;
    FirstSeenMembers(ids);
  }

  lemma TakeAnswered(store: Store, seen: seq<JobId>, t: Taking, id: JobId)
    requires Following(store, seen, t)
    ensures Following(store, seen + [id], Take(t, id, Answered))
  {
    FirstSeenAppend(seen, id);
    assert store.wait + (t.pushes + [id]) == store.wait + t.pushes + [id];
  }

  lemma NothingTaken(store: Store, seen: seq<JobId>)
    requires Complete(store, seen)
    ensures Following(store, seen, Taking(store, [], true))
  {
    assert store.wait + [] == store.wait;
  }

  lemma {:induction false} TakeAllAnswered(store: Store, seen: seq<JobId>, ids: seq<JobId>)
    requires Complete(store, seen)
    ensures Following(store, seen + ids, TakeAll(store, ids, map[]))
  {
    if ids == [] {
      NothingTaken(store, seen);
      assert seen + ids == seen;
    } else {
      var (front, last) := (ids[..|ids| - 1], ids[|ids| - 1]);
      TakeAllAnswered(store, seen, front);
      TakeAnswered(store, seen + front, TakeAll(store, front, map[]), last);
      assert seen + ids == seen + front + [last];
      assert ids[..|ids|] == ids;
      TakeOneMore(store, ids, map[], |ids| - 1);
    }
  }

  lemma {:induction false} UnfailingProcess(store: Store, seen: seq<JobId>, d: Delivery)
    requires Complete(store, seen) && Unfailing(d)
    ensures Complete(Process(store, d).0, seen + JobIds(d.tx))
  {
    if JobIds(d.tx) == [] {
      assert seen + JobIds(d.tx) == seen;
    } else {
      TakeAllAnswered(store, seen, JobIds(d.tx));
    }
  }

  /** If no call to Redis fails, the wait list is exactly the distinct delivered job ids in the order
      of first delivery. */
  lemma {:induction false} EnqueuedInFirstDeliveryOrder(deliveries: seq<Delivery>)
    requires forall i :: 0 <= i < |deliveries| ==> Unfailing(deliveries[i])
    ensures Complete(Run(EMPTY, deliveries), Delivered(deliveries))
  {
    if deliveries != [] {
      var front := deliveries[..|deliveries| - 1];
      EnqueuedInFirstDeliveryOrder(front);
      UnfailingProcess(Run(EMPTY, front), Delivered(front), deliveries[|deliveries| - 1]);
    }
  }

  // ---- what a failing call costs ----

  /** When the script of some job of an event fails, or the pipeline does not reach Redis, every id
      that the event had newly taken is stranded; nothing is pushed. */
  lemma {:induction false} FailureStrandsTakenIds(store: Store, d: Delivery, id: JobId)
    requires OnceEach(store) && JobIds(d.tx) != []
    requires !TakeAll(store, JobIds(d.tx), d.mishaps).ok || d.exec.RequestLost?
    requires id !in store.jobs && id in Process(store, d).0.jobs
    ensures id !in Process(store, d).0.wait && Process(store, d).0.wait == store.wait
  {
    TakeAllOk(store, JobIds(d.tx), d.mishaps);
  }

  const CREATION := TxEvent(1, "a", [AbciEvent(EVENT_CREATE_OBJECT, map["bucket_name" := "b", "object_name" := "o"])])

  lemma CreationHasOneJob()
    ensures JobIds(CREATION) == [FormatJobId(1, "a", "b", "o")]
  {
    assert "bucket_name"[0] != "object_name"[0];
    assert JobOf(CREATION, CREATION.events[0]) == Some(Job("EventCreateObject", "b", "o"));
    assert JobsOf(CREATION, 1) == JobsOf(CREATION, 0) + [Job("EventCreateObject", "b", "o")];
  }

  /** The creation of one object whose pipeline is lost: its id is taken, and in no continuation
      queued. */
  lemma {:induction false} StrandedExample(store: Store, after: seq<Delivery>)
    requires store == Run(EMPTY, [Delivery(CREATION, map[], RequestLost)])
    ensures store == Store({FormatJobId(1, "a", "b", "o")}, [], None)
    ensures FormatJobId(1, "a", "b", "o") !in Run(store, after).wait
  {
    var d := Delivery(CREATION, map[], RequestLost);
    assert [d][..0] == [];
    var id := FormatJobId(1, "a", "b", "o");
    CreationHasOneJob();
    assert [id][..0] == [];
    assert TakeAll(EMPTY, [id], map[]) == Taking(Store({id}, [], None), [id], true);
    StrandedForGood([d], store, after, id);
  }

  predicate AllAnswered(d: Delivery) {
    forall i :: 0 <= i < |JobIds(d.tx)| ==> FateAt(d.mishaps, i).Answered?
  }

  lemma {:induction false} TakeAllOkIff(store: Store, ids: seq<JobId>, mishaps: Mishaps)
    ensures TakeAll(store, ids, mishaps).ok <==> forall i :: 0 <= i < |ids| ==> FateAt(mishaps, i).Answered?
  {
    if ids != [] {
      TakeAllOkIff(store, ids[..|ids| - 1], mishaps);
    }
  }

  /** What the first call that fails leaves behind: the ids before it are taken, its own too if only the
      reply was lost, none after it, and nothing is queued. */
  lemma {:induction false} FirstFailureStops(store: Store, ids: seq<JobId>, mishaps: Mishaps, k: nat)
    requires k < |ids| && k in mishaps && mishaps[k] != Answered
    requires forall j :: 0 <= j < k && j in mishaps ==> mishaps[j] == Answered
    ensures var t := TakeAll(store, ids, mishaps);
            && !t.ok && t.store.wait == store.wait && t.store.height == store.height
            && forall id :: id in t.store.jobs
                 <==> id in store.jobs || id in ids[..k] || (id == ids[k] && mishaps[k] == ReplyLost)
  {
    AnsweredTakesAll(store, ids[..k], mishaps);
    TakeOneMore(store, ids, mishaps, k);
    FailureSticks(store, ids, mishaps, k + 1);
  }

  lemma {:induction false} AnsweredTakesAll(store: Store, ids: seq<JobId>, mishaps: Mishaps)
    requires forall j :: 0 <= j < |ids| && j in mishaps ==> mishaps[j] == Answered
    ensures var t := TakeAll(store, ids, mishaps);
            && t.ok && t.store.wait == store.wait && t.store.height == store.height
            && forall id :: id in t.store.jobs <==> id in store.jobs || id in ids
  {
    if ids != [] {
      AnsweredTakesAll(store, ids[..|ids| - 1], mishaps);
      assert ids == ids[..|ids| - 1] + [ids[|ids| - 1]];
    }
  }

  /** A delivery succeeds exactly if it calls for no job or every call was answered; and the stored height
      becomes its height exactly when its pipeline, with at least one job, is carried out. */
  lemma DeliveryOutcome(store: Store, d: Delivery)
    ensures Process(store, d).1 <==> JobIds(d.tx) == [] || (AllAnswered(d) && d.exec == Answered)
    ensures Process(store, d).0.height
         == if JobIds(d.tx) != [] && AllAnswered(d) && d.exec != RequestLost then Some(d.tx.height) else store.height
  {
    TakeAllOkIff(store, JobIds(d.tx), d.mishaps);
    TakeAllOk(store, JobIds(d.tx), d.mishaps);
  }

  lemma {:induction false} TakenArePushed(store: Store, ids: seq<JobId>, mishaps: Mishaps)
    requires TakeAll(store, ids, mishaps).ok
    ensures var t := TakeAll(store, ids, mishaps);
            && (forall id :: id in ids ==> id in store.jobs || id in t.pushes)
            && (forall id :: id in t.store.jobs ==> id in store.jobs || id in t.pushes)
  {
    if ids != [] {
      var (front, last) := (ids[..|ids| - 1], ids[|ids| - 1]);
      TakenArePushed(store, front, mishaps);
      assert ids == front + [last];
    }
  }

  /** Exactly when a delivery of new ids leaves none of them stranded: every script was answered and
      the pipeline was carried out, even if its own answer was lost. */
  lemma {:induction false} NothingStrandedIff(store: Store, d: Delivery)
    requires OnceEach(store) && JobIds(d.tx) != []
    requires forall id :: id in JobIds(d.tx) ==> id !in store.jobs
    ensures (forall id :: id in JobIds(d.tx) ==> id in Process(store, d).0.wait)
        <==> AllAnswered(d) && !d.exec.RequestLost?
  {
    var ids := JobIds(d.tx);
    TakeAllOk(store, ids, d.mishaps);
    TakeAllOkIff(store, ids, d.mishaps);
    if TakeAll(store, ids, d.mishaps).ok {
      TakenArePushed(store, ids, d.mishaps);
    }
    assert ids[0] in ids && ids[0] !in store.wait;
  }
}
