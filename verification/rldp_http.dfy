/** The RLDP-HTTP bridge (rldp_http.go): how a response body is cut into payload parts, and the books
    kept about pending payloads, a slot counter and a byte counter under one lock beside a concurrent
    map. Request handlers, part handlers and the reaper run as goroutines; one step of the model is
    one critical section or one atomic map operation. */
module RldpHttp {
  import opened Wrappers

  // ---- parts ----

  const CHUNK_SIZE := 0x10_0000
  const MAX_TOTAL_PAYLOAD_BYTES := 500 * 0x10_0000
  const MAX_INT64 := 0x7fff_ffff_ffff_ffff
  const MAX_INT32 := 0x7fff_ffff

  /** The longest body whose size still fits an int64 next to a full byte budget. */
  const MAX_BODY_LENGTH := MAX_INT64 - MAX_TOTAL_PAYLOAD_BYTES

  type Body = b: seq<bv8> | |b| <= MAX_BODY_LENGTH witness []

  /** Two's-complement wrap-around of a 64-bit result. */
  function Int64(x: int): int {
    (x + 0x8000_0000_0000_0000) % 0x1_0000_0000_0000_0000 - 0x8000_0000_0000_0000
  }

  /** Wrap-around of the sum of two 64-bit numbers. */
  function AddInt64(a: int, b: int): int {
    if a + b > MAX_INT64 then a + b - 0x1_0000_0000_0000_0000
    else if a + b < -0x8000_0000_0000_0000 then a + b + 0x1_0000_0000_0000_0000
    else a + b
  }

  /** It is the one 64-bit number that differs from the sum by a multiple of 2 to the 64. */
  lemma AddInt64IsWrappedSum(a: int, b: int)
    requires -0x8000_0000_0000_0000 <= a <= MAX_INT64 && -0x8000_0000_0000_0000 <= b <= MAX_INT64
    ensures AddInt64(a, b) == Int64(a + b) && -0x8000_0000_0000_0000 <= AddInt64(a, b) <= MAX_INT64
    ensures (a + b - AddInt64(a, b)) % 0x1_0000_0000_0000_0000 == 0
  {
  }

  function PartSize(maxChunkSize: int): (size: int)
    ensures 1 <= size <= CHUNK_SIZE
  {
    if 0 < maxChunkSize < CHUNK_SIZE then maxChunkSize else CHUNK_SIZE
  }

  /** The guard on `seqno` is what keeps the offset product from wrapping around. */
  lemma OffsetDoesNotOverflow(seqno: int, size: int)
    requires 1 <= size <= CHUNK_SIZE
    requires 0 <= seqno <= MAX_INT64 / size
    ensures 0 <= seqno * size <= MAX_INT64
    ensures Int64(seqno * size) == seqno * size
  {
    var q := MAX_INT64 / size;
    assert q * size <= MAX_INT64;
    assert seqno * size <= q * size by {
      assert (q - seqno) * size >= 0;
    }
    assert 0 <= seqno * size;
  }

  /** A part and whether it is the last one. Offset and end are computed in 64 bits as the source
      computes them; the slices below are in bounds for every sequence number. */
  function ExtractChunk(data: Body, seqno: int, maxChunkSize: int): (part: (Body, bool)) {
    var size := PartSize(maxChunkSize);
    if seqno < 0 || seqno > MAX_INT64 / size then ([], true)
    else
      OffsetDoesNotOverflow(seqno, size);
      var offset := Int64(seqno * size);
      if offset >= |data| then ([], true)
      else
        var end := AddInt64(offset, size);
        if end >= |data| then (data[offset..], true) else (data[offset..end], false)
  }

  /** What a client holds after asking for parts `seqno`, `seqno + 1`, ... until the last one, and
      how many parts it asked for. */
  function FetchFrom(data: Body, seqno: nat, maxChunkSize: int): (fetched: (seq<bv8>, nat))
    decreases |data| - seqno
  {
    var (part, isLast) := ExtractChunk(data, seqno, maxChunkSize);
    if isLast then (part, 1)
    else
      PartIsStretch(data, seqno, maxChunkSize);
      SeqnoBelowLength(seqno, PartSize(maxChunkSize), |data|);
      var (rest, parts) := FetchFrom(data, seqno + 1, maxChunkSize);
      (part + rest, parts + 1)
  }

  function CeilDiv(n: nat, d: int): (q: nat)
    requires d >= 1
    ensures d * (q - 1) < n <= d * q
  {
    var q := (n + d - 1) / d;
    assert n + d - 1 == q * d + (n + d - 1) % d;
    q
  }

  function PartCount(length: nat, size: int): (parts: nat)
    requires size >= 1
  {
    if length == 0 then 1 else CeilDiv(length, size)
  }

  lemma {:induction false} FetchRest(data: Body, seqno: nat, maxChunkSize: int)
    requires seqno * PartSize(maxChunkSize) <= |data|
    requires seqno * PartSize(maxChunkSize) < |data| || (seqno == 0 && data == [])
    ensures FetchFrom(data, seqno, maxChunkSize).0 == data[seqno * PartSize(maxChunkSize)..]
    ensures FetchFrom(data, seqno, maxChunkSize).1 == PartCount(|data|, PartSize(maxChunkSize)) - seqno
    decreases |data| - seqno * PartSize(maxChunkSize)
  {
    var size := PartSize(maxChunkSize);
    var offset := seqno * size;
    assert (seqno + 1) * size == offset + size;
    SeqnoInRange(seqno, size, |data|);
    OffsetDoesNotOverflow(seqno, size);
    if data == [] {
      assert data[offset..] == [];
    } else {
      var parts := CeilDiv(|data|, size);
      if offset + size >= |data| {
        LastPart(parts, seqno, size, |data|);
      } else {
        SeqnoBelowLength(seqno, size, |data|);
        FetchRest(data, seqno + 1, maxChunkSize);
        assert data[offset..] == data[offset..offset + size] + data[offset + size..];
      }
    }
  }

  lemma MulMonotone(a: int, b: int, c: int)
    requires a <= b && 0 <= c
    ensures a * c <= b * c
  {
    assert (b - a) * c >= 0;
  }

  lemma SeqnoInRange(seqno: nat, size: int, length: nat)
    requires size >= 1 && seqno * size <= length <= MAX_INT64
    ensures seqno <= MAX_INT64 / size
  {
    var q := MAX_INT64 / size;
    if seqno > q {
      MulMonotone(q + 1, seqno, size);
      assert false;
    }
  }

  lemma SeqnoBelowLength(seqno: nat, size: int, length: nat)
    requires size >= 1 && seqno * size < length
    ensures seqno < length
  {
    MulMonotone(1, size, seqno);
  }

  lemma LastPart(parts: nat, seqno: nat, size: int, length: nat)
    requires size >= 1
    requires size * (parts - 1) < length <= size * parts
    requires seqno * size < length <= seqno * size + size
    ensures parts == seqno + 1
  {
    if parts > seqno + 1 {
      MulMonotone(seqno + 1, parts - 1, size);
      assert false;
    }
    if parts < seqno + 1 {
      MulMonotone(parts, seqno, size);
      assert false;
    }
  }

  lemma PartCountAtMostLength(length: nat, size: int)
    requires size >= 1
    ensures PartCount(length, size) <= length + 1
  {
    if length > 0 {
      MulMonotone(1, size, PartCount(length, size) - 1);
    }
  }

  /** For every body and every requested chunk size, the parts up to the last one put together are
      the body, in exactly as many parts as the size calls for (one for an empty body). */
  lemma BodyIsReassembled(data: Body, maxChunkSize: int)
    ensures FetchFrom(data, 0, maxChunkSize).0 == data
    ensures FetchFrom(data, 0, maxChunkSize).1 == PartCount(|data|, PartSize(maxChunkSize))
  {
    FetchRest(data, 0, maxChunkSize);
    assert data[0 * PartSize(maxChunkSize)..] == data;
  }

  /** The request carries the sequence number in 32 bits, which is enough for every body that the
      byte budget admits, even one byte at a time. */
  lemma SequenceNumbersSuffice(data: Body, maxChunkSize: int)
    requires |data| <= MAX_TOTAL_PAYLOAD_BYTES
    ensures FetchFrom(data, 0, maxChunkSize).1 - 1 <= MAX_INT32
  {
    BodyIsReassembled(data, maxChunkSize);
    PartCountAtMostLength(|data|, PartSize(maxChunkSize));
  }

  /** Beyond the body every sequence number, however large or negative, gets an empty last part;
      within it, a part is the stretch of the body at its offset and is last exactly when it
      reaches the end. */
  lemma PartIsStretch(data: Body, seqno: int, maxChunkSize: int)
    ensures var size := PartSize(maxChunkSize);
            var (part, isLast) := ExtractChunk(data, seqno, maxChunkSize);
            if 0 <= seqno && seqno * size < |data|
            then part <= data[seqno * size..] && |part| <= size && (isLast <==> seqno * size + |part| == |data|)
                 && (!isLast ==> |part| == size)
            else part == [] && isLast
  {
    var size := PartSize(maxChunkSize);
    if 0 <= seqno && seqno * size < |data| {
      SeqnoInRange(seqno, size, |data|);
      OffsetDoesNotOverflow(seqno, size);
    } else if 0 <= seqno <= MAX_INT64 / size {
      OffsetDoesNotOverflow(seqno, size);
    }
  }

  /** A part is never longer than asked for, nor than a megabyte; every part but the last has exactly the
      length asked for, or a megabyte when nothing shorter was asked for. */
  lemma PartIsAsLongAsAsked(data: Body, seqno: int, maxChunkSize: int)
    ensures var (part, isLast) := ExtractChunk(data, seqno, maxChunkSize);
            var asked := if maxChunkSize <= 0 || maxChunkSize > 0x10_0000 then 0x10_0000 else maxChunkSize;
            |part| <= asked && (!isLast ==> |part| == asked)
  {
    PartIsStretch(data, seqno, maxChunkSize);
  }

  // ---- the books ----

  const MAX_PENDING_PAYLOADS := 500
  const PAYLOAD_TTL_MS := 30_000

  type ReqId = string

  datatype Payload = Payload(data: Body, createdAt: int)

  datatype Books = Books(count: int, bytes: int, payloads: map<ReqId, Payload>)

  // ---- critical sections and map operations ----

  predicate Admits(b: Books, size: int) {
    b.count < MAX_PENDING_PAYLOADS && AddInt64(b.bytes, size) <= MAX_TOTAL_PAYLOAD_BYTES
  }

  function Reserve(b: Books, size: int): Books {
    b.(count := b.count + 1, bytes := AddInt64(b.bytes, size))
  }

  function Store(b: Books, id: ReqId, p: Payload): Books {
    b.(payloads := b.payloads[id := p])
  }

  function Remove(b: Books, id: ReqId): Books {
    b.(payloads := b.payloads - {id})
  }

  function Release(b: Books, size: int): Books {
    b.(count := b.count - 1, bytes := b.bytes - size)
  }

  function Delete(b: Books, id: ReqId): Books {
    if id in b.payloads then Release(Remove(b, id), |b.payloads[id].data|) else b
  }

  predicate Stale(p: Payload, now: int) {
    now - p.createdAt > PAYLOAD_TTL_MS
  }

  // ---- sums ----

  ghost function ByteSum(m: map<ReqId, Payload>): (sum: nat)
    decreases |m|
  {
    if m == map[] then 0
    else
      var id :| id in m;
      |m[id].data| + ByteSum(m - {id})
  }

  lemma {:induction false} ByteSumRemove(m: map<ReqId, Payload>, id: ReqId)
    requires id in m
    ensures ByteSum(m) == |m[id].data| + ByteSum(m - {id})
    ensures |m - {id}| == |m| - 1
    decreases |m|
  {
    var other :| other in m && ByteSum(m) == |m[other].data| + ByteSum(m - {other});
    if other != id {
      ByteSumRemove(m - {other}, id);
      ByteSumRemove(m - {id}, other);
      assert m - {other} - {id} == m - {id} - {other};
    }
  }

  lemma ByteSumStore(m: map<ReqId, Payload>, id: ReqId, p: Payload)
    ensures ByteSum(m[id := p]) == |p.data| + ByteSum(m - {id})
    ensures |m[id := p]| == |m - {id}| + 1
  {
    ByteSumRemove(m[id := p], id);
    assert m[id := p] - {id} == m - {id};
  }

  // ---- goroutines ----

  datatype Goroutine =
    | Reserved(id: ReqId, data: Body)         // slot reserved, payload not stored yet
    | Answering(id: ReqId)                    // payload stored, answer being sent
    | SendingPart(id: ReqId, isLast: bool)    // part cut, answer being sent
    | Deleting(id: ReqId)                     // about to remove the map entry
    | Releasing(size: nat)                    // entry removed, counters not yet decremented
    | Done
  {
    function Slots(): nat {
      if Reserved? || Releasing? then 1 else 0
    }

    function Bytes(): nat {
      if Reserved? then |data| else if Releasing? then size else 0
    }
  }

  function HeldSlots(gs: seq<Goroutine>): (sum: nat) {
    if gs == [] then 0 else HeldSlots(gs[..|gs| - 1]) + gs[|gs| - 1].Slots()
  }

  function HeldBytes(gs: seq<Goroutine>): (sum: nat) {
    if gs == [] then 0 else HeldBytes(gs[..|gs| - 1]) + gs[|gs| - 1].Bytes()
  }

  lemma HeldAfterSpawn(gs: seq<Goroutine>, g: Goroutine)
    ensures HeldSlots(gs + [g]) == HeldSlots(gs) + g.Slots()
    ensures HeldBytes(gs + [g]) == HeldBytes(gs) + g.Bytes()
  {
    assert (gs + [g])[..|gs|] == gs;
  }

  lemma {:induction false} HeldAfterUpdate(gs: seq<Goroutine>, i: nat, g: Goroutine)
    requires i < |gs|
    ensures HeldSlots(gs[i := g]) == HeldSlots(gs) - gs[i].Slots() + g.Slots()
    ensures HeldBytes(gs[i := g]) == HeldBytes(gs) - gs[i].Bytes() + g.Bytes()
  {
    var last := |gs| - 1;
    if i == last {
      assert gs[i := g][..last] == gs[..last];
    } else {
      HeldAfterUpdate(gs[..last], i, g);
      assert gs[i := g][..last] == gs[..last][i := g];
    }
  }

  // ---- the system ----

  /** `overwrittenSlots` and `overwrittenBytes` count what was in the map under an id that a later
      request stored again. */
  datatype System = System(
    books: Books, goroutines: seq<Goroutine>, overwrittenSlots: nat, overwrittenBytes: nat, now: int)

  datatype Action =
    | Request(id: ReqId, body: Body)
    | StoreReserved(g: nat)
    | AnswerSent(g: nat, ok: bool)
    | AskPart(id: ReqId, seqno: int, maxChunkSize: int)
    | PartSent(g: nat, ok: bool)
    | ReaperFinds(id: ReqId, tick: int)
    | DeleteEntry(g: nat)
    | ReleaseSlot(g: nat)
    | ClockAdvances(ms: nat)

  const INIT := System(Books(0, 0, map[]), [], 0, 0, 0)

  function Spawn(s: System, g: Goroutine): System {
    s.(goroutines := s.goroutines + [g])
  }

  function Continue(s: System, i: nat, g: Goroutine): System
    requires i < |s.goroutines|
  {
    s.(goroutines := s.goroutines[i := g])
  }

  /** One atomic step of some goroutine or of the clock. An action that is not possible in the
      state leaves it as it is. */
  function Step(s: System, a: Action): System {
    match a
    case Request(id, body) =>
      if |body| > 0 && Admits(s.books, |body|)
      then Spawn(s.(books := Reserve(s.books, |body|)), Reserved(id, body))
      else s
    case AskPart(id, seqno, maxChunkSize) =>
      if id !in s.books.payloads then s
      else if Stale(s.books.payloads[id], s.now) then Spawn(s, Deleting(id))
      else Spawn(s, SendingPart(id, ExtractChunk(s.books.payloads[id].data, seqno, maxChunkSize).1))
    case ReaperFinds(id, tick) =>
      if id in s.books.payloads && tick <= s.now && Stale(s.books.payloads[id], tick)
      then Spawn(s, Deleting(id))
      else s
    case ClockAdvances(ms) => s.(now := s.now + ms)
    case StoreReserved(i) =>
      if i < |s.goroutines| && s.goroutines[i].Reserved? then
        var (id, data) := (s.goroutines[i].id, s.goroutines[i].data);
        var stored := s.(books := Store(s.books, id, Payload(data, s.now)));
        var counted := if id in s.books.payloads
          then stored.(overwrittenSlots := s.overwrittenSlots + 1,
                       overwrittenBytes := s.overwrittenBytes + |s.books.payloads[id].data|)
          else stored;
        Continue(counted, i, Answering(id))
      else s
    case AnswerSent(i, ok) =>
      if i < |s.goroutines| && s.goroutines[i].Answering?
      then Continue(s, i, if ok then Done else Deleting(s.goroutines[i].id))
      else s
    case PartSent(i, ok) =>
      if i < |s.goroutines| && s.goroutines[i].SendingPart?
      then Continue(s, i, if s.goroutines[i].isLast && ok then Deleting(s.goroutines[i].id) else Done)
      else s
    case DeleteEntry(i) =>
      if i < |s.goroutines| && s.goroutines[i].Deleting? then
        var id := s.goroutines[i].id;
        if id in s.books.payloads
        then Continue(s.(books := Remove(s.books, id)), i, Releasing(|s.books.payloads[id].data|))
        else Continue(s, i, Done)
      else s
    case ReleaseSlot(i) =>
      if i < |s.goroutines| && s.goroutines[i].Releasing?
      then Continue(s.(books := Release(s.books, s.goroutines[i].size)), i, Done)
      else s
  }

  function Run(s: System, schedule: seq<Action>): System
    decreases |schedule|
  {
    if schedule == [] then s else Run(Step(s, schedule[0]), schedule[1..])
  }

  /** Every counted slot and byte is accounted for, and both limits hold. */
  ghost predicate Accounted(s: System) {
    && s.books.count == |s.books.payloads| + HeldSlots(s.goroutines) + s.overwrittenSlots
    && s.books.bytes == ByteSum(s.books.payloads) + HeldBytes(s.goroutines) + s.overwrittenBytes
    && 0 <= s.books.count <= MAX_PENDING_PAYLOADS
    && 0 <= s.books.bytes <= MAX_TOTAL_PAYLOAD_BYTES
  }

  lemma StoreKeepsAccounts(s: System, i: nat)
    requires Accounted(s) && i < |s.goroutines| && s.goroutines[i].Reserved?
    ensures Accounted(Step(s, StoreReserved(i)))
  {
    var (id, data) := (s.goroutines[i].id, s.goroutines[i].data);
    HeldAfterUpdate(s.goroutines, i, Answering(id));
    ByteSumStore(s.books.payloads, id, Payload(data, s.now));
    if id in s.books.payloads {
      ByteSumRemove(s.books.payloads, id);
    } else {
      assert s.books.payloads - {id} == s.books.payloads;
    }
  }

  lemma RequestKeepsAccounts(s: System, id: ReqId, body: Body)
    requires Accounted(s)
    ensures Accounted(Step(s, Request(id, body)))
  {
    if |body| > 0 && Admits(s.books, |body|) {
      HeldAfterSpawn(s.goroutines, Reserved(id, body));
    }
  }

  lemma DeleteKeepsAccounts(s: System, i: nat)
    requires Accounted(s) && i < |s.goroutines| && s.goroutines[i].Deleting?
    ensures Accounted(Step(s, DeleteEntry(i)))
  {
    var id := s.goroutines[i].id;
    if id in s.books.payloads {
      ByteSumRemove(s.books.payloads, id);
      HeldAfterUpdate(s.goroutines, i, Releasing(|s.books.payloads[id].data|));
    } else {
      HeldAfterUpdate(s.goroutines, i, Done);
    }
  }

  /** Steps that neither reserve nor store nor delete move no slot and no byte. */
  lemma WeightlessKeepsAccounts(s: System, i: nat, g: Goroutine)
    requires Accounted(s) && g.Slots() == 0
    ensures Accounted(Spawn(s, g))
    ensures i < |s.goroutines| && s.goroutines[i].Slots() == 0 ==> Accounted(Continue(s, i, g))
  {
    HeldAfterSpawn(s.goroutines, g);
    if i < |s.goroutines| {
      HeldAfterUpdate(s.goroutines, i, g);
    }
  }

  /** The steps that begin a goroutine without touching the books. */
  lemma SpawningKeepsAccounts(s: System, a: Action)
    requires Accounted(s) && (a.AskPart? || a.ReaperFinds?)
    ensures Accounted(Step(s, a))
  {
    WeightlessKeepsAccounts(s, 0, Deleting(a.id));
    if a.AskPart? && a.id in s.books.payloads {
      WeightlessKeepsAccounts(s, 0,
        SendingPart(a.id, ExtractChunk(s.books.payloads[a.id].data, a.seqno, a.maxChunkSize).1));
    }
  }

  /** The steps that follow an answer. */
  lemma AnsweringKeepsAccounts(s: System, a: Action)
    requires Accounted(s) && (a.AnswerSent? || a.PartSent?)
    ensures Accounted(Step(s, a))
  {
    WeightlessKeepsAccounts(s, a.g, Done);
    if a.g < |s.goroutines| && (s.goroutines[a.g].Answering? || s.goroutines[a.g].SendingPart?) {
      WeightlessKeepsAccounts(s, a.g, Deleting(s.goroutines[a.g].id));
    }
  }

  lemma ReleaseKeepsAccounts(s: System, i: nat)
    requires Accounted(s)
    ensures Accounted(Step(s, ReleaseSlot(i)))
  {
    if i < |s.goroutines| && s.goroutines[i].Releasing? {
      HeldAfterUpdate(s.goroutines, i, Done);
      ReleasingIsHeld(s.goroutines, i);
    }
  }

  lemma {:induction false} ReleasingIsHeld(gs: seq<Goroutine>, i: nat)
    requires i < |gs|
    ensures gs[i].Slots() <= HeldSlots(gs) && gs[i].Bytes() <= HeldBytes(gs)
  {
    if i < |gs| - 1 {
      ReleasingIsHeld(gs[..|gs| - 1], i);
    }
  }

  lemma StepKeepsAccounts(s: System, a: Action)
    requires Accounted(s)
    ensures Accounted(Step(s, a))
  {
    match a
    case Request(id, body) => RequestKeepsAccounts(s, id, body);
    case StoreReserved(i) =>
      if i < |s.goroutines| && s.goroutines[i].Reserved? {
        StoreKeepsAccounts(s, i);
      }
    case DeleteEntry(i) =>
      if i < |s.goroutines| && s.goroutines[i].Deleting? {
        DeleteKeepsAccounts(s, i);
      }
    case ReleaseSlot(i) => ReleaseKeepsAccounts(s, i);
    case AskPart(_, _, _) => SpawningKeepsAccounts(s, a);
    case ReaperFinds(_, _) => SpawningKeepsAccounts(s, a);
    case AnswerSent(_, _) => AnsweringKeepsAccounts(s, a);
    case PartSent(_, _) => AnsweringKeepsAccounts(s, a);
    case ClockAdvances(_) =>
  }

  lemma {:induction false} RunKeepsAccounts(s: System, schedule: seq<Action>)
    requires Accounted(s)
    ensures Accounted(Run(s, schedule))
    decreases |schedule|
  {
    if schedule != [] {
      StepKeepsAccounts(s, schedule[0]);
      RunKeepsAccounts(Step(s, schedule[0]), schedule[1..]);
    }
  }

  /** In every interleaving of request handlers, part handlers and the reaper both counters are
      the stored entries plus what goroutines hold plus what was overwritten, and stay in range. */
  lemma CountersAccountForEverything(schedule: seq<Action>)
    ensures Accounted(Run(INIT, schedule))
  {
    assert ByteSum(map[]) == 0;
    RunKeepsAccounts(INIT, schedule);
  }

  ghost predicate Quiescent(s: System) {
    forall i :: 0 <= i < |s.goroutines| ==> s.goroutines[i].Done?
  }

  lemma {:induction false} QuiescentHoldsNothing(gs: seq<Goroutine>)
    requires forall i :: 0 <= i < |gs| ==> gs[i].Done?
    ensures HeldSlots(gs) == 0 && HeldBytes(gs) == 0
  {
    if gs != [] {
      QuiescentHoldsNothing(gs[..|gs| - 1]);
    }
  }

  /** Whether a step stores a payload under an id that still has one. */
  predicate Overwrites(s: System, a: Action) {
    a.StoreReserved? && a.g < |s.goroutines| && s.goroutines[a.g].Reserved?
    && s.goroutines[a.g].id in s.books.payloads
  }

  function OverwriteCount(s: System, schedule: seq<Action>): (n: nat)
    decreases |schedule|
  {
    if schedule == [] then 0
    else (if Overwrites(s, schedule[0]) then 1 else 0) + OverwriteCount(Step(s, schedule[0]), schedule[1..])
  }

  lemma {:induction false} OverwritesAreCounted(s: System, schedule: seq<Action>)
    ensures Run(s, schedule).overwrittenSlots == s.overwrittenSlots + OverwriteCount(s, schedule)
    decreases |schedule|
  {
    if schedule != [] {
      OverwritesAreCounted(Step(s, schedule[0]), schedule[1..]);
    }
  }

  /** Payloads that are reserved or stored are not empty. */
  ghost predicate NonEmpty(s: System) {
    && (forall id :: id in s.books.payloads ==> s.books.payloads[id].data != [])
    && (forall i :: 0 <= i < |s.goroutines| && s.goroutines[i].Reserved? ==> s.goroutines[i].data != [])
    && s.overwrittenSlots <= s.overwrittenBytes
    && (s.overwrittenSlots == 0 ==> s.overwrittenBytes == 0)
  }

  lemma StepKeepsNonEmpty(s: System, a: Action)
    requires NonEmpty(s)
    ensures NonEmpty(Step(s, a))
  {
  }

  lemma {:induction false} RunKeepsNonEmpty(s: System, schedule: seq<Action>)
    requires NonEmpty(s)
    ensures NonEmpty(Run(s, schedule))
    decreases |schedule|
  {
    if schedule != [] {
      StepKeepsNonEmpty(s, schedule[0]);
      RunKeepsNonEmpty(Step(s, schedule[0]), schedule[1..]);
    }
  }

  /** When nothing is in progress, the slot counter is off the map's size by exactly the number of
      stores that hit an id still in the map. So each of the two counters is right if and only if
      there was no such store. */
  lemma IdleCountersMatchMapIffIdsWereFresh(schedule: seq<Action>)
    requires Quiescent(Run(INIT, schedule))
    ensures var b := Run(INIT, schedule).books;
            && b.count == |b.payloads| + OverwriteCount(INIT, schedule)
            && (OverwriteCount(INIT, schedule) == 0 <==> b.count == |b.payloads|)
            && (OverwriteCount(INIT, schedule) == 0 <==> b.bytes == ByteSum(b.payloads))
  {
    var s := Run(INIT, schedule);
    CountersAccountForEverything(schedule);
    QuiescentHoldsNothing(s.goroutines);
    OverwritesAreCounted(INIT, schedule);
    RunKeepsNonEmpty(INIT, schedule);
  }

  // ---- what overwriting costs ----

  lemma {:induction false} OverwrittenStays(s: System, schedule: seq<Action>)
    ensures Run(s, schedule).overwrittenSlots >= s.overwrittenSlots
    ensures Run(s, schedule).overwrittenBytes >= s.overwrittenBytes
    decreases |schedule|
  {
    if schedule != [] {
      OverwrittenStays(Step(s, schedule[0]), schedule[1..]);
    }
  }

  /** An overwriting store leaves an entry in the map, so one slot is always left to be lost. */
  lemma {:induction false} OverwritesLeaveRoom(s: System, schedule: seq<Action>)
    requires Accounted(s) && s.overwrittenSlots < MAX_PENDING_PAYLOADS
    ensures Run(s, schedule).overwrittenSlots < MAX_PENDING_PAYLOADS
    decreases |schedule|
  {
    if schedule != [] {
      var t := Step(s, schedule[0]);
      StepKeepsAccounts(s, schedule[0]);
      if Overwrites(s, schedule[0]) {
        var id := s.goroutines[schedule[0].g].id;
        assert id in t.books.payloads;
        assert t.books.payloads.Keys != {};
      }
      OverwritesLeaveRoom(t, schedule[1..]);
    }
  }

  /** What stored payloads and goroutines have. */
  ghost function UsedSlots(s: System): nat {
    |s.books.payloads| + HeldSlots(s.goroutines)
  }

  ghost function UsedBytes(s: System): nat {
    ByteSum(s.books.payloads) + HeldBytes(s.goroutines)
  }

  /** What is free is what neither payloads, nor goroutines, nor losses take. */
  lemma AdmitsWhatIsFree(s: System, body: Body)
    requires Accounted(s)
    ensures UsedSlots(s) <= MAX_PENDING_PAYLOADS - s.overwrittenSlots
    ensures UsedBytes(s) <= MAX_TOTAL_PAYLOAD_BYTES - s.overwrittenBytes
    ensures Admits(s.books, |body|)
        <==> UsedSlots(s) < MAX_PENDING_PAYLOADS - s.overwrittenSlots
             && UsedBytes(s) + |body| <= MAX_TOTAL_PAYLOAD_BYTES - s.overwrittenBytes
  {
  }

  ghost predicate LossesBound(lossy: System, s: System, body: Body) {
    && lossy.overwrittenSlots <= s.overwrittenSlots < MAX_PENDING_PAYLOADS
    && UsedSlots(s) <= MAX_PENDING_PAYLOADS - lossy.overwrittenSlots
    && UsedBytes(s) <= MAX_TOTAL_PAYLOAD_BYTES - lossy.overwrittenBytes
    && (Admits(s.books, |body|)
        <==> UsedSlots(s) < MAX_PENDING_PAYLOADS - s.overwrittenSlots
             && UsedBytes(s) + |body| <= MAX_TOTAL_PAYLOAD_BYTES - s.overwrittenBytes)
  }

  lemma {:induction false} LossesBoundAfter(lossy: System, after: seq<Action>, body: Body)
    requires Accounted(lossy) && lossy.overwrittenSlots < MAX_PENDING_PAYLOADS
    ensures LossesBound(lossy, Run(lossy, after), body)
  {
    OverwrittenStays(lossy, after);
    OverwritesLeaveRoom(lossy, after);
    RunKeepsAccounts(lossy, after);
    AdmitsWhatIsFree(Run(lossy, after), body);
  }

  /** An overwritten slot is never given back. At most 499 stores ever overwrite; after `k` of them,
      in every continuation, stored and held payloads together have at most 500 - k slots, and less
      by what was overwritten in bytes. A request is refused exactly when what is left by that is
      used up. */
  lemma {:induction false} OverwrittenSlotsAreLostForGood(before: seq<Action>, lossy: System, after: seq<Action>, body: Body)
    requires lossy == Run(INIT, before)
    ensures lossy.overwrittenSlots == OverwriteCount(INIT, before)
    ensures LossesBound(lossy, Run(lossy, after), body)
  {
    CountersAccountForEverything(before);
    LossesFromStart(before, lossy);
    LossesBoundAfter(lossy, after, body);
  }

  lemma {:induction false} LossesFromStart(before: seq<Action>, lossy: System)
    requires lossy == Run(INIT, before)
    ensures lossy.overwrittenSlots == OverwriteCount(INIT, before)
    ensures lossy.overwrittenSlots < MAX_PENDING_PAYLOADS
  {
    assert ByteSum(map[]) == 0;
    OverwritesAreCounted(INIT, before);
    OverwritesLeaveRoom(INIT, before);
  }

  // ---- and it can cost all slots but one ----

  const BYTE: Body := [0 as bv8]

  /** A request with a one-byte body, by goroutine `n`. */
  function Serve(id: ReqId, n: nat): seq<Action> {
    [Request(id, BYTE), StoreReserved(n), AnswerSent(n, true)]
  }

  /** Its download, by goroutine `n`. */
  function Fetch(id: ReqId, n: nat): seq<Action> {
    [AskPart(id, 0, 1), PartSent(n, true), DeleteEntry(n), ReleaseSlot(n)]
  }

  function ReuseOnce(id: ReqId, n: nat): seq<Action> {
    Serve(id, n) + Serve(id, n + 1) + Fetch(id, n + 2)
  }

  lemma RunUnfolds(s: System, schedule: seq<Action>)
    requires schedule != []
    ensures Run(s, schedule) == Run(Step(s, schedule[0]), schedule[1..])
  {
  }

  lemma {:induction false} RunConcat(s: System, first: seq<Action>, second: seq<Action>)
    ensures Run(s, first + second) == Run(Run(s, first), second)
    decreases |first|
  {
    if first == [] {
      assert first + second == second;
    } else {
      assert (first + second)[1..] == first[1..] + second;
      RunConcat(Step(s, first[0]), first[1..], second);
    }
  }

  lemma ReplaceLast(gs: seq<Goroutine>, g: Goroutine, h: Goroutine)
    ensures (gs + [g])[|gs| := h] == gs + [h]
  {
  }

  lemma StoredRuns(s: System, front: seq<Goroutine>, id: ReqId)
    requires s.goroutines == front + [Reserved(id, BYTE)]
    ensures Step(s, StoreReserved(|front|))
         == System(Store(s.books, id, Payload(BYTE, s.now)), front + [Answering(id)],
                   s.overwrittenSlots + (if id in s.books.payloads then 1 else 0),
                   s.overwrittenBytes + (if id in s.books.payloads then |s.books.payloads[id].data| else 0), s.now)
  {
    ReplaceLast(front, Reserved(id, BYTE), Answering(id));
  }

  lemma RequestRuns(s: System, id: ReqId)
    requires 0 <= s.books.count < MAX_PENDING_PAYLOADS && 0 <= s.books.bytes < MAX_TOTAL_PAYLOAD_BYTES
    ensures Step(s, Request(id, BYTE))
         == s.(books := Books(s.books.count + 1, s.books.bytes + 1, s.books.payloads),
               goroutines := s.goroutines + [Reserved(id, BYTE)])
  {
  }

  lemma AnsweredRuns(s: System, front: seq<Goroutine>, id: ReqId)
    requires s.goroutines == front + [Answering(id)]
    ensures Step(s, AnswerSent(|front|, true)) == s.(goroutines := front + [Done])
  {
    ReplaceLast(front, Answering(id), Done);
  }

  lemma ServeRuns(s: System, id: ReqId)
    requires 0 <= s.books.count < MAX_PENDING_PAYLOADS && 0 <= s.books.bytes < MAX_TOTAL_PAYLOAD_BYTES
    ensures Run(s, Serve(id, |s.goroutines|))
         == System(Store(Books(s.books.count + 1, s.books.bytes + 1, s.books.payloads), id, Payload(BYTE, s.now)),
                   s.goroutines + [Done],
                   s.overwrittenSlots + (if id in s.books.payloads then 1 else 0),
                   s.overwrittenBytes + (if id in s.books.payloads then |s.books.payloads[id].data| else 0), s.now)
  {
    var n := |s.goroutines|;
    RequestRuns(s, id);
    var s1 := Step(s, Request(id, BYTE));
    StoredRuns(s1, s.goroutines, id);
    var s2 := Step(s1, StoreReserved(n));
    AnsweredRuns(s2, s.goroutines, id);
    RunServe(s, id, n);
  }

  lemma RunServe(s: System, id: ReqId, n: nat)
    ensures Run(s, Serve(id, n)) == Step(Step(Step(s, Request(id, BYTE)), StoreReserved(n)), AnswerSent(n, true))
  {
    var schedule := Serve(id, n);
    RunUnfolds(s, schedule);
    RunUnfolds(Step(s, schedule[0]), schedule[1..]);
    RunUnfolds(Step(Step(s, schedule[0]), schedule[1]), schedule[1..][1..]);
  }

  lemma FetchRuns(s: System, id: ReqId)
    requires id in s.books.payloads && s.books.payloads[id] == Payload(BYTE, s.now)
    ensures Run(s, Fetch(id, |s.goroutines|))
         == s.(books := Books(s.books.count - 1, s.books.bytes - 1, s.books.payloads - {id}),
               goroutines := s.goroutines + [Done])
  {
    var n := |s.goroutines|;
    PartIsStretch(BYTE, 0, 1);
    var s1 := Step(s, AskPart(id, 0, 1));
    assert s1.goroutines == s.goroutines + [SendingPart(id, true)];
    ReplaceLast(s.goroutines, SendingPart(id, true), Deleting(id));
    var s2 := Step(s1, PartSent(n, true));
    ReplaceLast(s.goroutines, Deleting(id), Releasing(1));
    var s3 := Step(s2, DeleteEntry(n));
    ReplaceLast(s.goroutines, Releasing(1), Done);
    RunUnfolds(s, Fetch(id, n));
    RunUnfolds(s1, Fetch(id, n)[1..]);
    RunUnfolds(s2, Fetch(id, n)[1..][1..]);
    RunUnfolds(s3, Fetch(id, n)[1..][1..][1..]);
  }

  /** Two requests under one id and one download leave one slot and one byte counted for nothing. */
  lemma ReuseOnceRuns(s: System, id: ReqId)
    requires s.books.payloads == map[]
    requires 0 <= s.books.count < MAX_PENDING_PAYLOADS - 1 && 0 <= s.books.bytes < MAX_TOTAL_PAYLOAD_BYTES - 1
    ensures Run(s, ReuseOnce(id, |s.goroutines|))
         == System(Books(s.books.count + 1, s.books.bytes + 1, map[]), s.goroutines + [Done, Done, Done],
                   s.overwrittenSlots + 1, s.overwrittenBytes + 1, s.now)
  {
    var n := |s.goroutines|;
    ServeRuns(s, id);
    var s1 := Run(s, Serve(id, n));
    ServeRuns(s1, id);
    var s2 := Run(s1, Serve(id, n + 1));
    FetchRuns(s2, id);
    RunConcat(s, Serve(id, n), Serve(id, n + 1));
    RunConcat(s, Serve(id, n) + Serve(id, n + 1), Fetch(id, n + 2));
    assert map[id := Payload(BYTE, s.now)] - {id} == map[];
    assert s.goroutines + [Done] + [Done] + [Done] == s.goroutines + [Done, Done, Done];
  }

  function Reuses(id: ReqId, k: nat): seq<Action> {
    if k == 0 then [] else Reuses(id, k - 1) + ReuseOnce(id, 3 * (k - 1))
  }

  /** Every loss up to 499 slots does happen: after `k` reuses of one id nothing is stored and nothing
      is in progress, and `k` slots are counted. */
  lemma {:induction false} ReusedIdsLeakSlots(id: ReqId, k: nat)
    requires k < MAX_PENDING_PAYLOADS
    ensures var s := Run(INIT, Reuses(id, k));
            s.books == Books(k, k, map[]) && |s.goroutines| == 3 * k && Quiescent(s) && s.overwrittenSlots == k
    ensures OverwriteCount(INIT, Reuses(id, k)) == k
  {
    OverwritesAreCounted(INIT, Reuses(id, k));
    if k > 0 {
      ReusedIdsLeakSlots(id, k - 1);
      ReuseOnceRuns(Run(INIT, Reuses(id, k - 1)), id);
      RunConcat(INIT, Reuses(id, k - 1), ReuseOnce(id, 3 * (k - 1)));
    }
  }

  // ---- a download with nothing else in progress ----

  /** What a part request is answered, and the books after the answer. */
  function PartReply(b: Books, id: ReqId, seqno: int, maxChunkSize: int, now: int): (Body, bool) {
    if id !in b.payloads || Stale(b.payloads[id], now) then ([], true)
    else ExtractChunk(b.payloads[id].data, seqno, maxChunkSize)
  }

  function AfterPart(b: Books, id: ReqId, seqno: int, maxChunkSize: int, now: int, sent: bool): Books {
    if id !in b.payloads then b
    else if Stale(b.payloads[id], now) then Delete(b, id)
    else if ExtractChunk(b.payloads[id].data, seqno, maxChunkSize).1 && sent then Delete(b, id)
    else b
  }

  function AfterRequest(b: Books, id: ReqId, body: Body, now: int, sent: bool): Books {
    if |body| > 0 && Admits(b, |body|) then
      var stored := Store(Reserve(b, |body|), id, Payload(body, now));
      if sent then stored else Delete(stored, id)
    else b
  }

  /** The payload under `id` is gone and its slot and bytes are free again. */
  predicate Freed(b: Books, after: Books, id: ReqId) {
    id in b.payloads && after == Books(b.count - 1, b.bytes - |b.payloads[id].data|, b.payloads - {id})
  }

  /** A payload is served for 30 seconds from its creation and not longer: a request for a part of it
      afterwards, or of one that is not there, gets an empty last part. It goes when it is asked for too
      late and when its last part has been sent, and at no other request. */
  lemma PayloadIsServedWhileFresh(b: Books, id: ReqId, seqno: int, maxChunkSize: int, now: int, sent: bool)
    ensures var (reply, after) := (PartReply(b, id, seqno, maxChunkSize, now), AfterPart(b, id, seqno, maxChunkSize, now, sent));
            if id in b.payloads && now <= b.payloads[id].createdAt + 30_000
            then reply == ExtractChunk(b.payloads[id].data, seqno, maxChunkSize)
                 && (if reply.1 && sent then Freed(b, after, id) else after == b)
            else reply == ([], true) && (if id in b.payloads then Freed(b, after, id) else after == b)
  {
  }

  /** The request handler, run without interruption, is a run of the state machine. */
  lemma RequestHandlerRuns(s: System, id: ReqId, body: Body, sent: bool)
    ensures var n := |s.goroutines|;
            Run(s, [Request(id, body), StoreReserved(n), AnswerSent(n, sent), DeleteEntry(n), ReleaseSlot(n)]).books
            == AfterRequest(s.books, id, body, s.now, sent)
  {
    var n := |s.goroutines|;
    var s1 := Step(s, Request(id, body));
    var s2 := Step(s1, StoreReserved(n));
    var s3 := Step(s2, AnswerSent(n, sent));
    RunFive(s, Request(id, body), StoreReserved(n), AnswerSent(n, sent), DeleteEntry(n), ReleaseSlot(n));
    DeletionRuns(s3, n);
  }

  /** So is the handler of a part request. */
  lemma PartHandlerRuns(s: System, id: ReqId, seqno: int, maxChunkSize: int, sent: bool)
    ensures var n := |s.goroutines|;
            Run(s, [AskPart(id, seqno, maxChunkSize), PartSent(n, sent), DeleteEntry(n), ReleaseSlot(n)]).books
            == AfterPart(s.books, id, seqno, maxChunkSize, s.now, sent)
  {
    var n := |s.goroutines|;
    var schedule := [AskPart(id, seqno, maxChunkSize), PartSent(n, sent), DeleteEntry(n), ReleaseSlot(n)];
    var s1 := Step(s, schedule[0]);
    var s2 := Step(s1, schedule[1]);
    RunUnfolds(s, schedule);
    RunUnfolds(s1, schedule[1..]);
    RunUnfolds(s2, schedule[1..][1..]);
    RunUnfolds(Step(s2, DeleteEntry(n)), schedule[1..][1..][1..]);
    DeletionRuns(s2, n);
  }

  lemma RunFive(s: System, a: Action, b: Action, c: Action, d: Action, e: Action)
    ensures Run(s, [a, b, c, d, e]) == Step(Step(Step(Step(Step(s, a), b), c), d), e)
  {
    var schedule := [a, b, c, d, e];
    RunUnfolds(s, schedule);
    RunUnfolds(Step(s, a), schedule[1..]);
    RunUnfolds(Step(Step(s, a), b), schedule[1..][1..]);
    RunUnfolds(Step(Step(Step(s, a), b), c), schedule[1..][1..][1..]);
    RunUnfolds(Step(Step(Step(Step(s, a), b), c), d), schedule[1..][1..][1..][1..]);
  }

  /** A goroutine that deletes an entry, run to its end, frees the payload; any other keeps the books. */
  lemma DeletionRuns(s: System, n: nat)
    requires n < |s.goroutines| ==> !s.goroutines[n].Releasing?
    ensures Step(Step(s, DeleteEntry(n)), ReleaseSlot(n)).books
         == if n < |s.goroutines| && s.goroutines[n].Deleting? then Delete(s.books, s.goroutines[n].id) else s.books
  {
  }

  /** When a goroutine turns to deleting an entry, in any state: when it asks for a part of a payload older
      than 30 seconds, when the reaper meets one as of its tick, when an answer with a payload could not be
      sent, and when the last part was sent. */
  lemma DeletingBeginsIff(s: System, a: Action, i: nat, id: ReqId)
    requires i < |Step(s, a).goroutines| && (i < |s.goroutines| ==> !s.goroutines[i].Deleting?)
    ensures Step(s, a).goroutines[i] == Deleting(id)
        <==> match a
             case AskPart(asked, _, _) =>
               i == |s.goroutines| && asked == id && id in s.books.payloads
               && s.now > s.books.payloads[id].createdAt + 30_000
             case ReaperFinds(found, tick) =>
               i == |s.goroutines| && found == id && id in s.books.payloads
               && tick > s.books.payloads[id].createdAt + 30_000
             case AnswerSent(g, ok) => g == i < |s.goroutines| && s.goroutines[i] == Answering(id) && !ok
             case PartSent(g, ok) => g == i < |s.goroutines| && s.goroutines[i] == SendingPart(id, true) && ok
             case _ => false
  {
  }

  /** And it does so: a late part request and a reaper that meets an old entry at its tick each set out to
      delete it; a request for a part of nothing, and a reaper with no such entry, do nothing. Only the
      clock moves time. */
  lemma LatePayloadsAreDeleted(s: System, id: ReqId, seqno: int, maxChunkSize: int, tick: int)
    ensures var late := (now: int) => id in s.books.payloads && now > s.books.payloads[id].createdAt + 30_000;
            && (late(s.now) ==> Step(s, AskPart(id, seqno, maxChunkSize)) == Spawn(s, Deleting(id)))
            && (id !in s.books.payloads ==> Step(s, AskPart(id, seqno, maxChunkSize)) == s)
            && Step(s, ReaperFinds(id, tick)) == if tick <= s.now && late(tick) then Spawn(s, Deleting(id)) else s
    ensures forall a :: Step(s, a).now == s.now + if a.ClockAdvances? then a.ms else 0
  {
  }

  /** A part that is being sent is one of a payload that was there and fresh, and counts as the last
      exactly if nothing of the body lies beyond it. */
  lemma SendingBeginsIff(s: System, id: ReqId, seqno: int, maxChunkSize: int, isLast: bool)
    ensures var t := Step(s, AskPart(id, seqno, maxChunkSize));
            t == Spawn(s, SendingPart(id, isLast))
            <==> id in s.books.payloads && s.now <= s.books.payloads[id].createdAt + 30_000
                 && (isLast <==> seqno < 0 || (seqno + 1) * PartSize(maxChunkSize) >= |s.books.payloads[id].data|)
  {
    if id in s.books.payloads {
      var (data, size) := (s.books.payloads[id].data, PartSize(maxChunkSize));
      PartIsStretch(data, seqno, maxChunkSize);
      NextOffset(seqno, size);
      assert Spawn(s, SendingPart(id, isLast)).goroutines[|s.goroutines|] == SendingPart(id, isLast);
    }
  }

  lemma NextOffset(seqno: int, size: nat)
    ensures (seqno + 1) * size == seqno * size + size
    ensures seqno >= 0 ==> seqno * size >= 0
  {
  }

  /** Asking for all parts from `seqno` on while every answer arrives before the payload expires:
      what is received, and the books at the end. */
  ghost function Download(b: Books, id: ReqId, seqno: nat, maxChunkSize: int, now: int): (result: (seq<bv8>, Books))
    requires id in b.payloads && !Stale(b.payloads[id], now)
    decreases |b.payloads[id].data| - seqno
  {
    var (part, isLast) := PartReply(b, id, seqno, maxChunkSize, now);
    var after := AfterPart(b, id, seqno, maxChunkSize, now, true);
    if isLast then (part, after)
    else
      PartIsStretch(b.payloads[id].data, seqno, maxChunkSize);
      SeqnoBelowLength(seqno, PartSize(maxChunkSize), |b.payloads[id].data|);
      var (rest, last) := Download(after, id, seqno + 1, maxChunkSize, now);
      (part + rest, last)
  }

  lemma {:induction false} DownloadFetchesAll(b: Books, id: ReqId, seqno: nat, maxChunkSize: int, now: int)
    requires id in b.payloads && !Stale(b.payloads[id], now)
    ensures Download(b, id, seqno, maxChunkSize, now)
         == (FetchFrom(b.payloads[id].data, seqno, maxChunkSize).0, Delete(b, id))
    decreases |b.payloads[id].data| - seqno
  {
    var (part, isLast) := PartReply(b, id, seqno, maxChunkSize, now);
    if !isLast {
      PartIsStretch(b.payloads[id].data, seqno, maxChunkSize);
      SeqnoBelowLength(seqno, PartSize(maxChunkSize), |b.payloads[id].data|);
      DownloadFetchesAll(b, id, seqno + 1, maxChunkSize, now);
    }
  }

  lemma DownloadDelivers(b: Books, id: ReqId, maxChunkSize: int, now: int)
    requires id in b.payloads && !Stale(b.payloads[id], now)
    ensures Download(b, id, 0, maxChunkSize, now) == (b.payloads[id].data, Delete(b, id))
  {
    DownloadFetchesAll(b, id, 0, maxChunkSize, now);
    BodyIsReassembled(b.payloads[id].data, maxChunkSize);
  }

  /** Storing a body under a fresh id and deleting it again changes nothing. */
  lemma DeleteUndoesStore(b: Books, id: ReqId, p: Payload)
    requires 0 <= b.bytes <= MAX_TOTAL_PAYLOAD_BYTES && id !in b.payloads
    ensures Delete(Store(Reserve(b, |p.data|), id, p), id) == b
  {
    assert b.payloads[id := p] - {id} == b.payloads;
  }

  /** A request under a fresh id followed by a timely download delivers the body and leaves the
      books exactly as they were before the request; so does an answer that could not be sent. */
  lemma DownloadUndoesRequest(b: Books, id: ReqId, body: Body, maxChunkSize: int, asked: int, now: int)
    requires 0 <= b.bytes <= MAX_TOTAL_PAYLOAD_BYTES && id !in b.payloads
    requires |body| > 0 && Admits(b, |body|) && now - asked <= PAYLOAD_TTL_MS
    ensures Download(AfterRequest(b, id, body, asked, true), id, 0, maxChunkSize, now) == (body, b)
    ensures AfterRequest(b, id, body, asked, false) == b
  {
    DeleteUndoesStore(b, id, Payload(body, asked));
    DownloadDelivers(AfterRequest(b, id, body, asked, true), id, maxChunkSize, now);
  }

  // ---- the bridge object ----

  /** How much the counters count beyond the map. */
  ghost function Surplus(b: Books): (int, int) {
    (b.count - |b.payloads|, b.bytes - ByteSum(b.payloads))
  }

  lemma DeleteKeepsSurplus(b: Books, id: ReqId)
    ensures Surplus(Delete(b, id)) == Surplus(b)
  {
    if id in b.payloads {
      ByteSumRemove(b.payloads, id);
    }
  }

  class Bridge {
    var payloads: map<ReqId, Payload>
    var payloadCount: int
    var totalPayloadBytes: int

    ghost function State(): Books
      reads this
    {
      Books(payloadCount, totalPayloadBytes, payloads)
    }

    constructor ()
      ensures State() == INIT.books
    {
      payloads, payloadCount, totalPayloadBytes := map[], 0, 0;
    }

    method TryReservePayloadSlot(size: int) returns (ok: bool)
      modifies this`payloadCount, this`totalPayloadBytes
      ensures ok == Admits(old(State()), size)
      ensures State() == if ok then Reserve(old(State()), size) else old(State())
    {
      if payloadCount >= MAX_PENDING_PAYLOADS {
        return false;
      }
      if AddInt64(totalPayloadBytes, size) > MAX_TOTAL_PAYLOAD_BYTES {
        return false;
      }
      payloadCount := payloadCount + 1;
      totalPayloadBytes := AddInt64(totalPayloadBytes, size);
      return true;
    }

    method LoadAndDelete(id: ReqId) returns (removed: Option<Payload>)
      modifies this`payloads
      ensures removed == if id in old(payloads) then Some(old(payloads)[id]) else None
      ensures State() == Remove(old(State()), id)
    {
      if id in payloads {
        removed := Some(payloads[id]);
      } else {
        removed := None;
      }
      payloads := payloads - {id};
    }

    method DeletePayload(id: ReqId)
      modifies this
      ensures State() == Delete(old(State()), id)
    {
      var removed := LoadAndDelete(id);
      assert id !in old(payloads) ==> payloads == old(payloads);
      if removed.Some? {
        payloadCount := payloadCount - 1;
        totalPayloadBytes := totalPayloadBytes - |removed.value.data|;
      }
    }

    method HandleHTTPRequest(id: ReqId, body: Body, now: int, sent: bool) returns (noPayload: bool)
      modifies this
      ensures State() == AfterRequest(old(State()), id, body, now, sent)
      ensures noPayload <==> |body| == 0 || !Admits(old(State()), |body|)
    {
      noPayload := true;
      if |body| > 0 {
        var ok := TryReservePayloadSlot(|body|);
        if ok {
          payloads := payloads[id := Payload(body, now)];
          noPayload := false;
        }
      }
      if !sent && !noPayload {
        DeletePayload(id);
      }
    }

    method HandlePayloadPart(id: ReqId, seqno: int, maxChunkSize: int, now: int, sent: bool)
      returns (part: Body, isLast: bool)
      modifies this
      ensures (part, isLast) == PartReply(old(State()), id, seqno, maxChunkSize, now)
      ensures State() == AfterPart(old(State()), id, seqno, maxChunkSize, now, sent)
    {
      if id !in payloads || Stale(payloads[id], now) {
        if id in payloads {
          DeletePayload(id);
        }
        return [], true;
      }
      var cut := ExtractChunk(payloads[id].data, seqno, maxChunkSize);
      part, isLast := cut.0, cut.1;
      if isLast && sent {
        DeletePayload(id);
      }
    }

    /** One tick of the reaper without interruption: exactly the stale payloads go, and both counters
        give up exactly what they took. */
    method ReapStalePayloads(now: int)
      modifies this
      ensures payloads == map id | id in old(payloads) && !Stale(old(payloads)[id], now) :: old(payloads)[id]
      ensures Surplus(State()) == Surplus(old(State()))
    {
      var unvisited := payloads.Keys;
      while unvisited != {}
        invariant Surplus(State()) == Surplus(old(State()))
        invariant unvisited <= payloads.Keys
        invariant payloads == map id | id in old(payloads)
                    && (id in unvisited || !Stale(old(payloads)[id], now)) :: old(payloads)[id]
        decreases |unvisited|
      {
        var id :| id in unvisited;
        unvisited := unvisited - {id};
        if Stale(payloads[id], now) {
          DeleteKeepsSurplus(State(), id);
          DeletePayload(id);
        }
      }
    }
  }
}
