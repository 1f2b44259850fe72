/** The cache of downloaded files (cache-manager.ts over cache-repository.ts): a table of rows keyed
    by file id, and eviction of the least recently used files. */
module FileCache {
  import opened Wrappers

  type FileId = string

  datatype Row = Row(localPath: string, fileSize: nat, createdAt: int, lastAccessedAt: int)

  type Table = map<FileId, Row>

  datatype Candidate = Candidate(id: FileId, row: Row)

  const CANDIDATE_LIMIT := 20

  // ---- sums over the table ----

  ghost function SomeKey(rows: Table): (id: FileId)
    requires rows != map[]
    ensures id in rows
  {
    var id :| id in rows;
    id
  }

  ghost function Total(rows: Table): nat
    decreases |rows|
  {
    if rows == map[] then 0
    else var id := SomeKey(rows); rows[id].fileSize + Total(rows - {id})
  }

  function Size(rows: Table, id: FileId): nat {
    if id in rows then rows[id].fileSize else 0
  }

  lemma {:induction false} TotalWithout(rows: Table, id: FileId)
    ensures Total(rows) == Size(rows, id) + Total(rows - {id})
    decreases |rows|
  {
    if id !in rows {
      assert rows - {id} == rows;
    } else if SomeKey(rows) != id {
      var first := SomeKey(rows);
      TotalWithout(rows - {first}, id);
      TotalWithout(rows - {id}, first);
      assert rows - {first} - {id} == rows - {id} - {first};
    }
  }

  lemma TotalWith(rows: Table, id: FileId, row: Row)
    ensures Total(rows[id := row]) == Total(rows) - Size(rows, id) + row.fileSize
  {
    TotalWithout(rows, id);
    TotalWithout(rows[id := row], id);
    assert rows[id := row] - {id} == rows - {id};
  }

  // ---- the eviction query ----

  function Ids(candidates: seq<Candidate>): set<FileId> {
    set candidate | candidate in candidates :: candidate.id
  }

  ghost predicate DistinctIds(candidates: seq<Candidate>) {
    forall i, j :: 0 <= i < j < |candidates| ==> candidates[i].id != candidates[j].id
  }

  function Paths(candidates: seq<Candidate>): set<string> {
    set candidate | candidate in candidates :: candidate.row.localPath
  }

  function Min(a: nat, b: nat): nat {
    if a <= b then a else b
  }

  ghost predicate Listed(rows: Table, candidates: seq<Candidate>) {
    DistinctIds(candidates) && forall c :: c in candidates ==> c.id in rows && rows[c.id] == c.row
  }

  ghost predicate Ascending(candidates: seq<Candidate>) {
    forall i, j :: 0 <= i < j < |candidates| ==> candidates[i].row.lastAccessedAt <= candidates[j].row.lastAccessedAt
  }

  ghost predicate NoLaterThanRest(rows: Table, candidates: seq<Candidate>) {
    forall c, id :: c in candidates && id in rows && id !in Ids(candidates)
      ==> c.row.lastAccessedAt <= rows[id].lastAccessedAt
  }

  /** An answer to the query for the `limit` rows least recently accessed; ties come in any order. */
  ghost predicate IsLruAnswer(rows: Table, candidates: seq<Candidate>, limit: nat) {
    && |candidates| == Min(limit, |rows|)
    && Listed(rows, candidates) && Ascending(candidates) && NoLaterThanRest(rows, candidates)
  }

  function SizeOf(candidates: seq<Candidate>): nat {
    if candidates == [] then 0 else SizeOf(candidates[..|candidates| - 1]) + candidates[|candidates| - 1].row.fileSize
  }

  lemma {:induction false} TotalWithoutPrefix(rows: Table, candidates: seq<Candidate>, n: nat)
    requires n <= |candidates| && Listed(rows, candidates)
    ensures Total(rows - Ids(candidates[..n])) == Total(rows) - SizeOf(candidates[..n])
  {
    if n == 0 {
      assert rows - Ids(candidates[..0]) == rows;
    } else {
      var last := candidates[n - 1];
      TotalWithoutPrefix(rows, candidates, n - 1);
      PrefixIds(candidates, n);
      assert candidates[..n][..n - 1] == candidates[..n - 1];
      assert last in candidates;
      assert rows - Ids(candidates[..n]) == rows - Ids(candidates[..n - 1]) - {last.id};
      TotalWithout(rows - Ids(candidates[..n - 1]), last.id);
    }
  }

  lemma PrefixIds(candidates: seq<Candidate>, n: nat)
    requires 0 < n <= |candidates| && DistinctIds(candidates)
    ensures Ids(candidates[..n]) == Ids(candidates[..n - 1]) + {candidates[n - 1].id}
    ensures candidates[n - 1].id !in Ids(candidates[..n - 1])
  {
    assert candidates[..n] == candidates[..n - 1] + [candidates[n - 1]];
  }

  lemma NextAscending(rows: Table, candidates: seq<Candidate>, id: FileId)
    requires Ascending(candidates) && NoLaterThanRest(rows, candidates) && id in rows && id !in Ids(candidates)
    ensures Ascending(candidates + [Candidate(id, rows[id])])
  {
    assert forall i :: 0 <= i < |candidates| ==> candidates[i] in candidates;
  }

  lemma NextLeastRecent(rows: Table, candidates: seq<Candidate>, id: FileId)
    requires IsLruAnswer(rows, candidates, |candidates|) && id in rows && id !in Ids(candidates)
    requires |candidates| < |rows|
    requires forall other :: other in rows - Ids(candidates) ==> rows[id].lastAccessedAt <= rows[other].lastAccessedAt
    ensures IsLruAnswer(rows, candidates + [Candidate(id, rows[id])], |candidates| + 1)
    ensures rows - Ids(candidates + [Candidate(id, rows[id])]) == rows - Ids(candidates) - {id}
  {
    NextAscending(rows, candidates, id);
  }

  // ---- what an eviction does when it runs alone ----

  /** The first `n` candidates go: each was removed while the total still exceeded the limit, and the
      loop stopped because it no longer did or because the candidates ran out. */
  ghost predicate Evicts(rows: Table, candidates: seq<Candidate>, n: nat, limit: int) {
    && IsLruAnswer(rows, candidates, CANDIDATE_LIMIT) && n <= |candidates|
    && StaysOver(rows, candidates, n, limit)
    && (n == |candidates| || Total(rows) - SizeOf(candidates[..n]) <= limit)
  }

  function After(rows: Table, candidates: seq<Candidate>, n: nat): Table
    requires n <= |candidates|
  {
    rows - Ids(candidates[..n])
  }

  ghost predicate StaysOver(rows: Table, candidates: seq<Candidate>, n: nat, limit: int)
    requires n <= |candidates|
  {
    forall m :: 0 <= m < n ==> Total(rows) - SizeOf(candidates[..m]) > limit
  }

  lemma {:induction false} OneMoreRemoved(rows: Table, candidates: seq<Candidate>, i: nat, limit: int)
    requires Listed(rows, candidates) && i < |candidates|
    ensures After(rows, candidates, i) - {candidates[i].id} == After(rows, candidates, i + 1)
    ensures Paths(candidates[..i + 1]) == Paths(candidates[..i]) + {candidates[i].row.localPath}
    ensures SizeOf(candidates[..i + 1]) == SizeOf(candidates[..i]) + candidates[i].row.fileSize
    ensures Total(After(rows, candidates, i)) == Total(rows) - SizeOf(candidates[..i])
    ensures Total(After(rows, candidates, i + 1)) == Total(rows) - SizeOf(candidates[..i + 1])
    ensures StaysOver(rows, candidates, i, limit) && Total(After(rows, candidates, i)) > limit
            ==> StaysOver(rows, candidates, i + 1, limit)
  {
    assert candidates[..i + 1] == candidates[..i] + [candidates[i]];
    assert candidates[..i + 1][..i] == candidates[..i];
    PrefixIds(candidates, i + 1);
    TotalWithoutPrefix(rows, candidates, i);
    TotalWithoutPrefix(rows, candidates, i + 1);
  }

  lemma IdsCardinality(candidates: seq<Candidate>)
    requires DistinctIds(candidates)
    ensures |Ids(candidates)| == |candidates|
  {
    if candidates != [] {
      PrefixIds(candidates, |candidates|);
      assert candidates[..|candidates|] == candidates;
      IdsCardinality(candidates[..|candidates| - 1]);
    }
  }

  lemma AllCandidates(rows: Table, candidates: seq<Candidate>)
    requires DistinctIds(candidates) && |candidates| == |rows|
    requires forall c :: c in candidates ==> c.id in rows
    ensures Ids(candidates) == rows.Keys
  {
    IdsCardinality(candidates);
    SubsetOfSameSize(Ids(candidates), rows.Keys);
  }

  lemma {:induction false} SubsetOfSameSize(a: set<FileId>, b: set<FileId>)
    requires a <= b && |a| == |b|
    ensures a == b
  {
    if b != {} && a != {} {
      var x :| x in a;
      SubsetOfSameSize(a - {x}, b - {x});
    }
  }

  /** Eviction removes the shortest least-recently-used prefix that brings the total within the
      limit, or the whole twenty; and nothing that survives was used before anything removed. */
  lemma {:induction false} EvictionIsShortestLruPrefix(rows: Table, candidates: seq<Candidate>, n: nat, limit: nat)
    requires Evicts(rows, candidates, n, limit)
    ensures Total(After(rows, candidates, n)) <= limit || n == CANDIDATE_LIMIT
    ensures forall m :: 0 <= m < n ==> Total(After(rows, candidates, m)) > limit
    ensures forall id, kept :: id in rows && kept in After(rows, candidates, n) && id !in After(rows, candidates, n)
              ==> rows[id].lastAccessedAt <= rows[kept].lastAccessedAt
  {
    TotalWithoutPrefix(rows, candidates, n);
    forall m | 0 <= m < n
      ensures Total(After(rows, candidates, m)) > limit
    {
      TotalWithoutPrefix(rows, candidates, m);
    }
    if n == |candidates| < CANDIDATE_LIMIT {
      AllCandidates(rows, candidates);
      assert candidates[..n] == candidates;
      assert After(rows, candidates, n) == map[];
    }
  }

  /** A file used strictly after all others stays whenever it fits by itself. */
  lemma {:induction false} FreshFileSurvives(rows: Table, candidates: seq<Candidate>, n: nat, limit: nat, id: FileId)
    requires Evicts(rows, candidates, n, limit) && id in rows && rows[id].fileSize <= limit
    requires forall other :: other in rows && other != id ==> rows[other].lastAccessedAt < rows[id].lastAccessedAt
    ensures id in After(rows, candidates, n)
  {
    if id in Ids(candidates[..n]) {
      var k :| 0 <= k < n && candidates[k].id == id;
      assert candidates[k] in candidates;
      OnlyLatestLeft(rows, candidates, k);
      assert false;
    }
  }

  lemma {:induction false} OnlyLatestLeft(rows: Table, candidates: seq<Candidate>, k: nat)
    requires IsLruAnswer(rows, candidates, CANDIDATE_LIMIT) && k < |candidates|
    requires forall id :: id in rows && id != candidates[k].id ==> rows[id].lastAccessedAt < candidates[k].row.lastAccessedAt
    ensures Total(rows) - SizeOf(candidates[..k]) == candidates[k].row.fileSize
  {
    var id := candidates[k].id;
    var rest := rows - Ids(candidates[..k]);
    assert candidates[k] in candidates;
    PrefixIds(candidates, k + 1);
    assert forall other :: other in rest ==> other == id;
    TotalWithout(rest, id);
    assert rest - {id} == map[];
    TotalWithoutPrefix(rows, candidates, k);
  }

  // ---- evictions among other calls ----

  /** An eviction between two awaits: `registeredBefore` is how many bytes had been registered when
      it read the total. */
  datatype Eviction =
    | Called
    | KnowsTotal(total: int, registeredBefore: nat)
    | Looping(candidates: seq<Candidate>, done: nat, total: int, registeredBefore: nat, ended: bool)

  datatype System = System(rows: Table, evictions: seq<Eviction>, registered: nat)

  datatype Action =
    | EvictionCalled
    | ReadsTotal(i: nat)
    | ReadsCandidates(i: nat, answer: seq<Candidate>)
    | Turn(i: nat)
    | Registers(id: FileId, row: Row)
    | Touches(id: FileId, now: int)
    | Deletes(id: FileId)

  ghost function EvictionStep(s: System, i: nat, a: Action, limit: int): System
    requires i < |s.evictions|
  {
    match s.evictions[i]
    case Called =>
      if a.ReadsTotal? then s.(evictions := s.evictions[i := KnowsTotal(Total(s.rows), s.registered)]) else s
    case KnowsTotal(total, before) =>
      if a.Turn? && total <= limit
      then s.(evictions := s.evictions[i := Looping([], 0, total, before, true)])
      else if a.ReadsCandidates? && total > limit && IsLruAnswer(s.rows, a.answer, CANDIDATE_LIMIT)
      then s.(evictions := s.evictions[i := Looping(a.answer, 0, total, before, false)])
      else s
    case Looping(candidates, done, total, before, ended) =>
      if !a.Turn? || ended then s
      else if done >= |candidates| || total <= limit
      then s.(evictions := s.evictions[i := Looping(candidates, done, total, before, true)])
      else
        s.(rows := s.rows - {candidates[done].id},
           evictions := s.evictions[i := Looping(candidates, done + 1, total - candidates[done].row.fileSize, before, false)])
  }

  ghost function Step(s: System, a: Action, limit: int): System {
    match a
    case EvictionCalled => s.(evictions := s.evictions + [Called])
    case ReadsTotal(i) => if i < |s.evictions| then EvictionStep(s, i, a, limit) else s
    case ReadsCandidates(i, _) => if i < |s.evictions| then EvictionStep(s, i, a, limit) else s
    case Turn(i) => if i < |s.evictions| then EvictionStep(s, i, a, limit) else s
    case Registers(id, row) => s.(rows := s.rows[id := row], registered := s.registered + row.fileSize)
    case Touches(id, now) =>
      if id in s.rows then s.(rows := s.rows[id := s.rows[id].(lastAccessedAt := now)]) else s
    case Deletes(id) => s.(rows := s.rows - {id})
  }

  ghost function Run(s: System, schedule: seq<Action>, limit: int): System
    decreases |schedule|
  {
    if schedule == [] then s else Run(Step(s, schedule[0], limit), schedule[1..], limit)
  }

  function Positive(n: int): nat {
    if n > 0 then n else 0
  }

  /** The calls beside the evictions do to the rows what the object's methods do, and nothing to the
      evictions: a row is replaced, gets a new access time and keeps the rest, or goes. */
  lemma OtherCalls(s: System, id: FileId, other: FileId, row: Row, now: int, limit: int)
    requires other != id
    ensures var (registered, touched, deleted) :=
              (Step(s, Registers(id, row), limit), Step(s, Touches(id, now), limit), Step(s, Deletes(id), limit));
            && registered.evictions == touched.evictions == deleted.evictions == s.evictions
            && id in registered.rows && registered.rows[id] == row && id !in deleted.rows
            && (id in touched.rows <==> id in s.rows)
            && (id in s.rows ==>
                  && touched.rows[id].lastAccessedAt == now && touched.rows[id].fileSize == s.rows[id].fileSize
                  && touched.rows[id].localPath == s.rows[id].localPath
                  && touched.rows[id].createdAt == s.rows[id].createdAt)
            && (other in s.rows ==>
                  && other in registered.rows && other in touched.rows && other in deleted.rows
                  && registered.rows[other] == touched.rows[other] == deleted.rows[other] == s.rows[other])
            && (other in registered.rows || other in touched.rows || other in deleted.rows ==> other in s.rows)
  {
  }

  function Turns(i: nat, n: nat): seq<Action> {
    if n == 0 then [] else Turns(i, n - 1) + [Turn(i)]
  }

  lemma {:induction false} RunAppend(s: System, schedule: seq<Action>, a: Action, limit: int)
    ensures Run(s, schedule + [a], limit) == Step(Run(s, schedule, limit), a, limit)
    decreases |schedule|
  {
    if schedule == [] {
      assert [] + [a] == [a];
      assert Run(s, [a], limit) == Run(Step(s, a, limit), [], limit);
    } else {
      assert (schedule + [a])[1..] == schedule[1..] + [a];
      RunAppend(Step(s, schedule[0], limit), schedule[1..], a, limit);
    }
  }

  /** The system after the first `n` turns of an eviction that has read its candidates. */
  ghost function Turned(s: System, i: nat, answer: seq<Candidate>, before: nat, n: nat): System
    requires i < |s.evictions| && n <= |answer|
  {
    s.(rows := After(s.rows, answer, n),
       evictions := s.evictions[i := Looping(answer, n, Total(s.rows) - SizeOf(answer[..n]), before, false)])
  }

  lemma OneTurn(s: System, i: nat, answer: seq<Candidate>, before: nat, n: nat, limit: int)
    requires i < |s.evictions| && n < |answer| && Listed(s.rows, answer)
    requires Total(s.rows) - SizeOf(answer[..n]) > limit
    ensures Step(Turned(s, i, answer, before, n), Turn(i), limit) == Turned(s, i, answer, before, n + 1)
  {
    OneMoreRemoved(s.rows, answer, n, limit);
  }

  lemma {:induction false} TurnsRun(s: System, i: nat, answer: seq<Candidate>, before: nat, n: nat, limit: int)
    requires i < |s.evictions| && n <= |answer| && Listed(s.rows, answer) && StaysOver(s.rows, answer, n, limit)
    ensures Run(Turned(s, i, answer, before, 0), Turns(i, n), limit) == Turned(s, i, answer, before, n)
  {
    if n > 0 {
      TurnsRun(s, i, answer, before, n - 1, limit);
      RunAppend(Turned(s, i, answer, before, 0), Turns(i, n - 1), Turn(i), limit);
      OneTurn(s, i, answer, before, n - 1, limit);
    }
  }

  /** Run alone from its call to its end, an eviction does what the object's method does: nothing within the
      limit, and otherwise it leaves the rows without the shortest prefix that suffices, or without all
      candidates. */
  lemma {:induction false} EvictionRunsAlone(s: System, i: nat, answer: seq<Candidate>, n: nat, limit: int)
    requires i < |s.evictions| && s.evictions[i] == Called
    ensures Total(s.rows) <= limit ==>
              var t := Step(Step(s, ReadsTotal(i), limit), Turn(i), limit);
              t.rows == s.rows && t.evictions[i].Looping? && t.evictions[i].ended
    ensures Total(s.rows) > limit && Evicts(s.rows, answer, n, limit) ==>
              var read := Step(Step(s, ReadsTotal(i), limit), ReadsCandidates(i, answer), limit);
              var t := Run(read, Turns(i, n + 1), limit);
              t.rows == After(s.rows, answer, n)
              && i < |t.evictions| && t.evictions[i].Looping? && t.evictions[i].ended
  {
    if Total(s.rows) > limit && Evicts(s.rows, answer, n, limit) {
      var read := Step(Step(s, ReadsTotal(i), limit), ReadsCandidates(i, answer), limit);
      assert s.rows - Ids(answer[..0]) == s.rows && read == Turned(s, i, answer, s.registered, 0);
      TurnsRun(s, i, answer, s.registered, n, limit);
      RunAppend(read, Turns(i, n), Turn(i), limit);
    }
  }

  /** How much smaller than they were read the rows of these candidates are now. */
  function Shrunk(candidates: seq<Candidate>, rows: Table): nat {
    if candidates == [] then 0
    else Positive(candidates[0].row.fileSize - Size(rows, candidates[0].id)) + Shrunk(candidates[1..], rows)
  }

  lemma {:induction false} ShrunkChange(candidates: seq<Candidate>, rows: Table, after: Table, id: FileId)
    requires DistinctIds(candidates)
    requires forall other :: other != id ==> Size(after, other) == Size(rows, other)
    ensures Shrunk(candidates, after) <= Shrunk(candidates, rows) + Size(rows, id)
    ensures id !in Ids(candidates) ==> Shrunk(candidates, after) == Shrunk(candidates, rows)
    ensures Size(after, id) == Size(rows, id) ==> Shrunk(candidates, after) == Shrunk(candidates, rows)
  {
    if candidates != [] {
      assert forall c :: c in candidates[1..] ==> c in candidates && c.id != candidates[0].id;
      assert candidates[0] in candidates;
      ShrunkChange(candidates[1..], rows, after, id);
    }
  }

  lemma {:induction false} NothingShrunk(candidates: seq<Candidate>, rows: Table)
    requires forall c :: c in candidates ==> c.id in rows && rows[c.id] == c.row
    ensures Shrunk(candidates, rows) == 0
  {
    if candidates != [] {
      assert candidates[0] in candidates;
      NothingShrunk(candidates[1..], rows);
    }
  }

  /** The running total, and the bytes registered since it was read, cover the rows, with room to
      spare for what the candidates still to come have shrunk. */
  ghost predicate Covers(e: Eviction, rows: Table, registered: nat) {
    match e
    case Called => true
    case KnowsTotal(total, before) => before <= registered && Total(rows) <= total + registered - before
    case Looping(candidates, done, total, before, ended) =>
      && before <= registered && done <= |candidates| && DistinctIds(candidates[done..])
      && Total(rows) + Shrunk(candidates[done..], rows) <= total + registered - before
  }

  lemma ChangeKeepsCovers(e: Eviction, rows: Table, after: Table, id: FileId, registered: nat, more: nat)
    requires Covers(e, rows, registered)
    requires forall other :: other != id ==> Size(after, other) == Size(rows, other)
    requires Total(after) == Total(rows) - Size(rows, id) + Size(after, id)
    requires Size(after, id) <= more || (Size(after, id) == Size(rows, id) && more == 0)
    ensures Covers(e, after, registered + more)
  {
    if e.Looping? {
      ShrunkChange(e.candidates[e.done..], rows, after, id);
    }
  }

  /** The eviction's own removal. */
  lemma TurnKeepsCovers(e: Eviction, rows: Table, registered: nat)
    requires e.Looping? && Covers(e, rows, registered) && e.done < |e.candidates|
    ensures var c := e.candidates[e.done];
            Covers(Looping(e.candidates, e.done + 1, e.total - c.row.fileSize, e.registeredBefore, false), rows - {c.id}, registered)
  {
    var c := e.candidates[e.done];
    var left := e.candidates[e.done..];
    assert left[0] == c && left[1..] == e.candidates[e.done + 1..];
    assert c.id !in Ids(left[1..]) by {
      assert forall k :: 0 < k < |left| ==> left[0].id != left[k].id;
    }
    ShrunkChange(left[1..], rows, rows - {c.id}, c.id);
    TotalWithout(rows, c.id);
  }

  ghost predicate Inv(s: System) {
    forall i :: 0 <= i < |s.evictions| ==> Covers(s.evictions[i], s.rows, s.registered)
  }

  lemma OthersKeepCovers(s: System, after: Table, id: FileId, more: nat)
    requires Inv(s)
    requires forall other :: other != id ==> Size(after, other) == Size(s.rows, other)
    requires Total(after) == Total(s.rows) - Size(s.rows, id) + Size(after, id)
    requires Size(after, id) <= more || (Size(after, id) == Size(s.rows, id) && more == 0)
    ensures Inv(s.(rows := after, registered := s.registered + more))
  {
    forall i | 0 <= i < |s.evictions|
      ensures Covers(s.evictions[i], after, s.registered + more)
    {
      ChangeKeepsCovers(s.evictions[i], s.rows, after, id, s.registered, more);
    }
  }

  lemma EvictionStepKeepsInv(s: System, i: nat, a: Action, limit: int)
    requires Inv(s) && i < |s.evictions|
    ensures Inv(EvictionStep(s, i, a, limit))
  {
    var e := s.evictions[i];
    assert Covers(e, s.rows, s.registered);
    if e.KnowsTotal? && a.ReadsCandidates? && IsLruAnswer(s.rows, a.answer, CANDIDATE_LIMIT) {
      NothingShrunk(a.answer, s.rows);
      assert a.answer[0..] == a.answer;
    } else if e.Looping? && a.Turn? && !e.ended && e.done < |e.candidates| && e.total > limit {
      var id := e.candidates[e.done].id;
      TurnKeepsCovers(e, s.rows, s.registered);
      TotalWithout(s.rows, id);
      OthersKeepCovers(s, s.rows - {id}, id, 0);
    }
  }

  lemma StepKeepsInv(s: System, a: Action, limit: int)
    requires Inv(s)
    ensures Inv(Step(s, a, limit))
  {
    match a
    case EvictionCalled =>
    case Registers(id, row) =>
      TotalWith(s.rows, id, row);
      OthersKeepCovers(s, s.rows[id := row], id, row.fileSize);
    case Touches(id, now) =>
      if id in s.rows {
        var row := s.rows[id].(lastAccessedAt := now);
        TotalWith(s.rows, id, row);
        OthersKeepCovers(s, s.rows[id := row], id, 0);
      }
    case Deletes(id) =>
      TotalWithout(s.rows, id);
      OthersKeepCovers(s, s.rows - {id}, id, 0);
    case ReadsTotal(i) => if i < |s.evictions| { EvictionStepKeepsInv(s, i, a, limit); }
    case ReadsCandidates(i, _) => if i < |s.evictions| { EvictionStepKeepsInv(s, i, a, limit); }
    case Turn(i) => if i < |s.evictions| { EvictionStepKeepsInv(s, i, a, limit); }
  }

  lemma {:induction false} RunKeepsInv(s: System, schedule: seq<Action>, limit: int)
    requires Inv(s)
    ensures Inv(Run(s, schedule, limit))
    decreases |schedule|
  {
    if schedule != [] {
      StepKeepsInv(s, schedule[0], limit);
      RunKeepsInv(Step(s, schedule[0], limit), schedule[1..], limit);
    }
  }

  /** However evictions, registrations, touches and removals interleave, a running total is never
      less than the rows' total by more than was registered since it was read. So an eviction that
      read its total after the last registration and stopped within the limit leaves the table
      within the limit, whatever else evicted meanwhile. */
  lemma {:induction false} RunningTotalNeverTooSmall(rows: Table, schedule: seq<Action>, limit: int, i: nat)
    requires i < |Run(System(rows, [], 0), schedule, limit).evictions|
    requires !Run(System(rows, [], 0), schedule, limit).evictions[i].Called?
    ensures var s := Run(System(rows, [], 0), schedule, limit);
            var e := s.evictions[i];
            && Total(s.rows) <= e.total + s.registered - e.registeredBefore
            && (e.total <= limit && e.registeredBefore == s.registered ==> Total(s.rows) <= limit)
  {
    RunKeepsInv(System(rows, [], 0), schedule, limit);
    var s := Run(System(rows, [], 0), schedule, limit);
    assert Covers(s.evictions[i], s.rows, s.registered);
  }

  // ---- evictions that run to their end ----

  /** With nothing registered since the total was read, fewer than twenty candidates are all the rows
      that have a size. */
  ghost predicate CandidatesAreAll(e: Eviction, rows: Table, registered: nat, limit: int) {
    (e.Looping? && |e.candidates| < CANDIDATE_LIMIT && e.registeredBefore == registered && !(e.ended && e.total <= limit))
    ==> e.done <= |e.candidates| && (e.ended ==> e.done == |e.candidates|)
        && forall id :: id in rows && rows[id].fileSize > 0 ==> id in Ids(e.candidates[e.done..])
  }

  ghost predicate AllCandidatesOk(s: System, limit: int) {
    forall i :: 0 <= i < |s.evictions| ==>
      Covers(s.evictions[i], s.rows, s.registered) && CandidatesAreAll(s.evictions[i], s.rows, s.registered, limit)
  }

  lemma ReadingFindsAll(rows: Table, answer: seq<Candidate>)
    requires IsLruAnswer(rows, answer, CANDIDATE_LIMIT) && |answer| < CANDIDATE_LIMIT
    ensures forall id :: id in rows ==> id in Ids(answer[0..])
  {
    AllCandidates(rows, answer);
    assert answer[0..] == answer;
  }

  lemma EvictionStepKeepsAll(s: System, i: nat, a: Action, limit: int)
    requires AllCandidatesOk(s, limit) && i < |s.evictions|
    ensures AllCandidatesOk(EvictionStep(s, i, a, limit), limit)
  {
    EvictionStepKeepsInv(s, i, a, limit);
    var e := s.evictions[i];
    assert CandidatesAreAll(e, s.rows, s.registered, limit);
    if e.KnowsTotal? && a.ReadsCandidates? && IsLruAnswer(s.rows, a.answer, CANDIDATE_LIMIT) {
      if |a.answer| < CANDIDATE_LIMIT {
        ReadingFindsAll(s.rows, a.answer);
      }
    }
  }

  lemma OthersKeepAll(s: System, a: Action, limit: int)
    requires AllCandidatesOk(s, limit) && (a.EvictionCalled? || a.Registers? || a.Touches? || a.Deletes?)
    ensures AllCandidatesOk(Step(s, a, limit), limit)
  {
    StepKeepsInv(s, a, limit);
  }

  lemma {:induction false} RunKeepsAll(s: System, schedule: seq<Action>, limit: int)
    requires AllCandidatesOk(s, limit)
    ensures AllCandidatesOk(Run(s, schedule, limit), limit)
    decreases |schedule|
  {
    if schedule != [] {
      var a := schedule[0];
      if a.EvictionCalled? || a.Registers? || a.Touches? || a.Deletes? {
        OthersKeepAll(s, a, limit);
      } else if a.i < |s.evictions| {
        EvictionStepKeepsAll(s, a.i, a, limit);
      }
      RunKeepsAll(Step(s, a, limit), schedule[1..], limit);
    }
  }

  lemma {:induction false} NothingSized(rows: Table)
    requires forall id :: id in rows ==> rows[id].fileSize == 0
    ensures Total(rows) == 0
    decreases |rows|
  {
    if rows != map[] {
      NothingSized(rows - {SomeKey(rows)});
    }
  }

  /** However the calls interleave, an eviction that read its total after the last registration leaves
      the table within the limit when it ends, unless it used up twenty candidates. */
  lemma {:induction false} EndedEvictionLeavesWithinLimit(rows: Table, schedule: seq<Action>, limit: nat, i: nat)
    requires i < |Run(System(rows, [], 0), schedule, limit).evictions|
    requires var s := Run(System(rows, [], 0), schedule, limit);
             var e := s.evictions[i];
             e.Looping? && e.ended && e.registeredBefore == s.registered
             && (e.total <= limit || |e.candidates| < CANDIDATE_LIMIT)
    ensures Total(Run(System(rows, [], 0), schedule, limit).rows) <= limit
  {
    RunKeepsAll(System(rows, [], 0), schedule, limit);
    var s := Run(System(rows, [], 0), schedule, limit);
    var e := s.evictions[i];
    assert Covers(e, s.rows, s.registered) && CandidatesAreAll(e, s.rows, s.registered, limit);
    if e.total > limit {
      assert e.candidates[e.done..] == [];
      NothingSized(s.rows);
    }
  }

  // ---- when a fresh file survives among other calls ----

  /** How much larger than they were read the rows of these candidates are now. */
  function Grown(candidates: seq<Candidate>, rows: Table): nat {
    if candidates == [] then 0
    else Positive(Size(rows, candidates[0].id) - candidates[0].row.fileSize) + Grown(candidates[1..], rows)
  }

  lemma {:induction false} GrownChange(candidates: seq<Candidate>, rows: Table, after: Table, id: FileId)
    requires DistinctIds(candidates) && Size(after, id) >= Size(rows, id)
    requires forall other :: other != id ==> Size(after, other) == Size(rows, other)
    ensures Grown(candidates, after) <= Grown(candidates, rows) + Size(after, id) - Size(rows, id)
    ensures id !in Ids(candidates) ==> Grown(candidates, after) == Grown(candidates, rows)
  {
    if candidates != [] {
      assert forall c :: c in candidates[1..] ==> c in candidates && c.id != candidates[0].id;
      assert candidates[0] in candidates;
      GrownChange(candidates[1..], rows, after, id);
    }
  }

  lemma {:induction false} GrownWithout(candidates: seq<Candidate>, rows: Table, id: FileId)
    requires id !in Ids(candidates)
    ensures Grown(candidates, rows - {id}) == Grown(candidates, rows)
  {
    if candidates != [] {
      assert candidates[0] in candidates && forall c :: c in candidates[1..] ==> c in candidates;
      GrownWithout(candidates[1..], rows, id);
    }
  }

  lemma {:induction false} NothingGrown(candidates: seq<Candidate>, rows: Table)
    requires forall c :: c in candidates ==> c.id in rows && rows[c.id] == c.row
    ensures Grown(candidates, rows) == 0
  {
    if candidates != [] {
      assert candidates[0] in candidates;
      NothingGrown(candidates[1..], rows);
    }
  }

  ghost predicate NoneShrunk(candidates: seq<Candidate>, rows: Table) {
    forall c :: c in candidates ==> Size(rows, c.id) >= c.row.fileSize
  }

  /** The running total is no larger than the rows' total. */
  ghost predicate Fresh(e: Eviction, rows: Table) {
    match e
    case Called => true
    case KnowsTotal(total, _) => total <= Total(rows)
    case Looping(candidates, done, total, _, _) =>
      && done <= |candidates| && DistinctIds(candidates[done..]) && NoneShrunk(candidates[done..], rows)
      && total + Grown(candidates[done..], rows) <= Total(rows)
  }

  /** A step that is not eviction `i`'s own turn and makes the rows of some file smaller or removes it. */
  ghost predicate Shrinks(s: System, a: Action, i: nat, limit: int) {
    !(a.Turn? && a.i == i) && exists id :: Size(Step(s, a, limit).rows, id) < Size(s.rows, id)
  }

  /** Only another eviction's turn, a removal, or a registration that replaces a larger file does so. */
  lemma ShrinksOnlyBy(s: System, a: Action, i: nat, limit: int)
    requires Shrinks(s, a, i, limit)
    ensures (a.Turn? && a.i != i) || (a.Deletes? && Size(s.rows, a.id) > 0)
         || (a.Registers? && a.row.fileSize < Size(s.rows, a.id))
  {
    var id :| Size(Step(s, a, limit).rows, id) < Size(s.rows, id);
  }

  lemma GrowthKeepsFresh(e: Eviction, rows: Table, after: Table, id: FileId)
    requires Fresh(e, rows) && Size(after, id) >= Size(rows, id)
    requires forall other :: other != id ==> Size(after, other) == Size(rows, other)
    requires Total(after) == Total(rows) - Size(rows, id) + Size(after, id)
    ensures Fresh(e, after)
  {
    if e.Looping? {
      var left := e.candidates[e.done..];
      GrownChange(left, rows, after, id);
      assert forall c :: c in left ==> Size(after, c.id) >= Size(rows, c.id);
    }
  }

  lemma OwnTurnKeepsFresh(e: Eviction, rows: Table)
    requires e.Looping? && Fresh(e, rows) && e.done < |e.candidates|
    ensures var c := e.candidates[e.done];
            Fresh(Looping(e.candidates, e.done + 1, e.total - c.row.fileSize, e.registeredBefore, false), rows - {c.id})
  {
    var left := e.candidates[e.done..];
    assert left[1..] == e.candidates[e.done + 1..];
    GrownWithout(left[1..], rows, left[0].id);
    TotalWithout(rows, left[0].id);
  }

  lemma RowsStepKeepsFresh(s: System, i: nat, a: Action, limit: int)
    requires i < |s.evictions| && Fresh(s.evictions[i], s.rows) && !Shrinks(s, a, i, limit)
    requires a.Registers? || a.Touches? || a.Deletes?
    ensures Fresh(s.evictions[i], Step(s, a, limit).rows)
  {
    var after := Step(s, a, limit).rows;
    assert Size(after, a.id) >= Size(s.rows, a.id);
    if a.Registers? {
      TotalWith(s.rows, a.id, a.row);
    } else if a.Touches? && a.id in s.rows {
      TotalWith(s.rows, a.id, s.rows[a.id].(lastAccessedAt := a.now));
    } else {
      TotalWithout(s.rows, a.id);
    }
    GrowthKeepsFresh(s.evictions[i], s.rows, after, a.id);
  }

  lemma OtherTurnKeepsFresh(s: System, i: nat, j: nat, limit: int)
    requires i < |s.evictions| && j < |s.evictions| && j != i && Fresh(s.evictions[i], s.rows)
    requires !Shrinks(s, Turn(j), i, limit)
    ensures Fresh(s.evictions[i], Step(s, Turn(j), limit).rows)
  {
    var after := Step(s, Turn(j), limit).rows;
    if after != s.rows {
      var id := s.evictions[j].candidates[s.evictions[j].done].id;
      assert Size(after, id) >= Size(s.rows, id);
      TotalWithout(s.rows, id);
      GrowthKeepsFresh(s.evictions[i], s.rows, after, id);
    }
  }

  lemma OwnStepKeepsFresh(s: System, i: nat, a: Action, limit: int)
    requires i < |s.evictions| && Fresh(s.evictions[i], s.rows)
    ensures Fresh(EvictionStep(s, i, a, limit).evictions[i], EvictionStep(s, i, a, limit).rows)
  {
    var e := s.evictions[i];
    if e.KnowsTotal? && a.ReadsCandidates? && IsLruAnswer(s.rows, a.answer, CANDIDATE_LIMIT) {
      NothingGrown(a.answer, s.rows);
      assert a.answer[0..] == a.answer;
    } else if e.Looping? && a.Turn? && !e.ended && e.done < |e.candidates| && e.total > limit {
      OwnTurnKeepsFresh(e, s.rows);
    }
  }

  lemma StepKeepsFresh(s: System, i: nat, a: Action, limit: int)
    requires i < |s.evictions| && Fresh(s.evictions[i], s.rows) && !Shrinks(s, a, i, limit)
    ensures i < |Step(s, a, limit).evictions| && Fresh(Step(s, a, limit).evictions[i], Step(s, a, limit).rows)
  {
    if a.Registers? || a.Touches? || a.Deletes? {
      RowsStepKeepsFresh(s, i, a, limit);
    } else if !a.EvictionCalled? && a.i == i {
      OwnStepKeepsFresh(s, i, a, limit);
    } else if a.Turn? && a.i < |s.evictions| {
      OtherTurnKeepsFresh(s, i, a.i, limit);
    }
  }

  ghost predicate NeverShrinks(s: System, schedule: seq<Action>, i: nat, limit: int)
    decreases |schedule|
  {
    schedule == []
    || (!Shrinks(s, schedule[0], i, limit) && NeverShrinks(Step(s, schedule[0], limit), schedule[1..], i, limit))
  }

  lemma {:induction false} RunKeepsFresh(s: System, schedule: seq<Action>, i: nat, limit: int)
    requires i < |s.evictions| && Fresh(s.evictions[i], s.rows) && NeverShrinks(s, schedule, i, limit)
    ensures var t := Run(s, schedule, limit);
            i < |t.evictions| && Fresh(t.evictions[i], t.rows)
    decreases |schedule|
  {
    if schedule != [] {
      StepKeepsFresh(s, i, schedule[0], limit);
      RunKeepsFresh(Step(s, schedule[0], limit), schedule[1..], i, limit);
    }
  }

  /** Rows are stamped in the order of the calls. */
  predicate StampsInOrder(s: System, a: Action) {
    forall id :: id in s.rows ==>
      (a.Registers? ==> s.rows[id].lastAccessedAt <= a.row.lastAccessedAt)
      && (a.Touches? ==> s.rows[id].lastAccessedAt <= a.now)
  }

  /** A row stays as it is through a run under an ordinary clock. */
  ghost predicate KeepsRow(s: System, schedule: seq<Action>, id: FileId, row: Row, limit: int)
    decreases |schedule|
  {
    id in s.rows && s.rows[id] == row
    && (schedule == []
        || (StampsInOrder(s, schedule[0]) && KeepsRow(Step(s, schedule[0], limit), schedule[1..], id, row, limit)))
  }

  /** Whatever was used before candidate `k` is a candidate whose turn comes earlier. */
  ghost predicate EarlierComeFirst(e: Eviction, rows: Table, answer: seq<Candidate>, k: nat) {
    e.Looping? && e.candidates == answer && (e.done <= k < |answer|)
    && forall other :: other in rows && other != answer[k].id && rows[other].lastAccessedAt < answer[k].row.lastAccessedAt
         ==> other in Ids(answer[e.done..k])
  }

  /** Rows that go, or are stamped no earlier than the candidate, do not disturb that. */
  lemma LaterStampsKeepOrder(e: Eviction, rows: Table, after: Table, answer: seq<Candidate>, k: nat)
    requires EarlierComeFirst(e, rows, answer, k)
    requires forall other :: other in after ==>
               (other in rows && after[other].lastAccessedAt == rows[other].lastAccessedAt)
               || answer[k].row.lastAccessedAt <= after[other].lastAccessedAt
    ensures EarlierComeFirst(e, after, answer, k)
  {
  }

  lemma OwnTurnKeepsOrder(e: Eviction, rows: Table, answer: seq<Candidate>, k: nat, total: int)
    requires EarlierComeFirst(e, rows, answer, k) && e.done < k
    ensures EarlierComeFirst(Looping(answer, e.done + 1, total, e.registeredBefore, false), rows - {answer[e.done].id}, answer, k)
  {
    assert answer[e.done..k] == [answer[e.done]] + answer[e.done + 1..k];
  }

  lemma EarlierStep(s: System, i: nat, a: Action, answer: seq<Candidate>, k: nat, limit: int)
    requires i < |s.evictions| && EarlierComeFirst(s.evictions[i], s.rows, answer, k)
    requires answer[k].id in s.rows && s.rows[answer[k].id] == answer[k].row && StampsInOrder(s, a)
    requires answer[k].id in Step(s, a, limit).rows
    ensures var t := Step(s, a, limit); i < |t.evictions| && EarlierComeFirst(t.evictions[i], t.rows, answer, k)
  {
    var e := s.evictions[i];
    if a.Turn? && a.i == i && !e.ended && e.total > limit {
      OwnTurnKeepsOrder(e, s.rows, answer, k, e.total - answer[e.done].row.fileSize);
    } else {
      LaterStampsKeepOrder(e, s.rows, Step(s, a, limit).rows, answer, k);
    }
  }

  lemma {:induction false} EarlierRun(s: System, i: nat, schedule: seq<Action>, answer: seq<Candidate>, k: nat, limit: int)
    requires i < |s.evictions| && EarlierComeFirst(s.evictions[i], s.rows, answer, k)
    requires KeepsRow(s, schedule, answer[k].id, answer[k].row, limit)
    ensures var t := Run(s, schedule, limit);
            && i < |t.evictions| && EarlierComeFirst(t.evictions[i], t.rows, answer, k)
            && answer[k].id in t.rows && t.rows[answer[k].id] == answer[k].row
    decreases |schedule|
  {
    if schedule != [] {
      EarlierStep(s, i, schedule[0], answer, k, limit);
      EarlierRun(Step(s, schedule[0], limit), i, schedule[1..], answer, k, limit);
    }
  }

  /** Eviction `i` is about to take its turn for a file whose row is as it was read, that was used
      strictly after all others there are, and that fits. */
  ghost predicate FreshFilesTurn(t: System, i: nat, answer: seq<Candidate>, k: nat, limit: int) {
    && k < |answer| && i < |t.evictions| && t.evictions[i].Looping? && !t.evictions[i].ended
    && t.evictions[i].candidates == answer && t.evictions[i].done == k && answer[k].row.fileSize <= limit
    && forall other :: other in t.rows && other != answer[k].id
         ==> t.rows[other].lastAccessedAt < answer[k].row.lastAccessedAt
  }

  /** When the turn of a fresh fitting file comes, in any run, it is the only row left, so the rows are
      within the limit; and it is evicted exactly when the running total nevertheless exceeds it. */
  lemma {:induction false} FreshFileIsEvictedIff(s: System, i: nat, answer: seq<Candidate>, k: nat, schedule: seq<Action>, t: System, limit: int)
    requires i < |s.evictions| && s.evictions[i].KnowsTotal? && s.evictions[i].total > limit
    requires IsLruAnswer(s.rows, answer, CANDIDATE_LIMIT) && k < |answer|
    requires t == Run(Step(s, ReadsCandidates(i, answer), limit), schedule, limit)
    requires KeepsRow(Step(s, ReadsCandidates(i, answer), limit), schedule, answer[k].id, answer[k].row, limit)
    requires FreshFilesTurn(t, i, answer, k, limit)
    ensures t.rows == map[answer[k].id := answer[k].row] && Total(t.rows) <= limit
    ensures answer[k].id !in Step(t, Turn(i), limit).rows <==> t.evictions[i].total > limit
  {
    var e := s.evictions[i];
    var read := Step(s, ReadsCandidates(i, answer), limit);
    EarlierRun(read, i, schedule, answer, k, limit);
    assert answer[k..k] == [];
    assert forall other :: other in t.rows ==> other == answer[k].id;
    TotalWithout(t.rows, answer[k].id);
    assert t.rows - {answer[k].id} == map[];
  }

  /** And without a step that shrinks the rows between the reading of the total and that turn, other
      than the eviction's own turns, the file stays. */
  lemma {:induction false} FreshFileStaysUnlessShrunk(
    s: System, i: nat, before: seq<Action>, known: System, answer: seq<Candidate>, k: nat, after: seq<Action>, t: System,
    limit: int)
    requires i < |s.evictions| && s.evictions[i].Called?
    requires known == Run(Step(s, ReadsTotal(i), limit), before, limit)
    requires i < |known.evictions| && known.evictions[i].KnowsTotal? && known.evictions[i].total > limit
    requires IsLruAnswer(known.rows, answer, CANDIDATE_LIMIT) && k < |answer|
    requires t == Run(Step(known, ReadsCandidates(i, answer), limit), after, limit)
    requires KeepsRow(Step(known, ReadsCandidates(i, answer), limit), after, answer[k].id, answer[k].row, limit)
    requires FreshFilesTurn(t, i, answer, k, limit)
    requires NeverShrinks(Step(s, ReadsTotal(i), limit), before, i, limit)
    requires NeverShrinks(Step(known, ReadsCandidates(i, answer), limit), after, i, limit)
    ensures answer[k].id in Step(t, Turn(i), limit).rows
  {
    var read := Step(known, ReadsCandidates(i, answer), limit);
    RunKeepsFresh(Step(s, ReadsTotal(i), limit), before, i, limit);
    OwnStepKeepsFresh(known, i, ReadsCandidates(i, answer), limit);
    RunKeepsFresh(read, after, i, limit);
    FreshFileIsEvictedIff(known, i, answer, k, after, t, limit);
  }

  lemma {:induction false} OthersLeaveEviction(s: System, schedule: seq<Action>, i: nat, limit: int)
    requires i < |s.evictions| && s.evictions[i].Looping?
    requires forall j :: 0 <= j < |schedule| ==> !(schedule[j].Turn? && schedule[j].i == i)
    ensures i < |Run(s, schedule, limit).evictions| && Run(s, schedule, limit).evictions[i] == s.evictions[i]
    decreases |schedule|
  {
    if schedule != [] {
      OthersLeaveEviction(Step(s, schedule[0], limit), schedule[1..], i, limit);
    }
  }

  /** That the row is as it was read does matter: once the turn of a file is next and the total exceeds
      the limit, the file goes at that turn, whatever touches or registers it in between. */
  lemma NothingSavesTheNextCandidate(s: System, schedule: seq<Action>, i: nat, limit: int)
    requires i < |s.evictions| && s.evictions[i].Looping? && !s.evictions[i].ended
    requires s.evictions[i].done < |s.evictions[i].candidates| && s.evictions[i].total > limit
    requires forall j :: 0 <= j < |schedule| ==> !(schedule[j].Turn? && schedule[j].i == i)
    ensures s.evictions[i].candidates[s.evictions[i].done].id !in Step(Run(s, schedule, limit), Turn(i), limit).rows
  {
    OthersLeaveEviction(s, schedule, i, limit);
  }

  // ---- what a stale total costs ----

  const OLD: Row := Row("old", 30, 1, 1)
  const FRESH: Row := Row("fresh", 70, 2, 2)
  const BOTH: Table := map["a" := OLD, "b" := FRESH]
  const BOTH_CANDIDATES := [Candidate("a", OLD), Candidate("b", FRESH)]
  const LATER_CANDIDATES := [Candidate("b", FRESH)]

  const BOTH_READ := [EvictionCalled, EvictionCalled, ReadsTotal(0), ReadsTotal(1)]
  const FIRST_EVICTS := [ReadsCandidates(0, BOTH_CANDIDATES), Turn(0), Turn(0)]
  const SECOND_EVICTS := [ReadsCandidates(1, LATER_CANDIDATES), Turn(1)]

  /** Two evictions of a table of 100 with limit 80: the second read its total before the first
      removed the old file, and so removes the fresh one too, which alone would fit. */
  lemma {:induction false} StaleTotalEvictsFreshFile()
    ensures Run(Run(Run(System(BOTH, [], 0), BOTH_READ, 80), FIRST_EVICTS, 80), SECOND_EVICTS, 80).rows == map[]
    ensures Run(Run(System(BOTH, [], 0), BOTH_READ, 80), FIRST_EVICTS, 80).rows == map["b" := FRESH]
  {
    ExampleTotals();
    var s := System(BOTH, [], 0);
    ExampleBothRead(s);
    var t := Run(s, BOTH_READ, 80);
    ExampleFirst(t);
    ExampleSecond(Run(t, FIRST_EVICTS, 80));
  }

  lemma ExampleTotals()
    ensures Total(BOTH) == 100
    ensures IsLruAnswer(BOTH, BOTH_CANDIDATES, CANDIDATE_LIMIT)
    ensures IsLruAnswer(map["b" := FRESH], LATER_CANDIDATES, CANDIDATE_LIMIT)
  {
    assert "a"[0] != "b"[0];
    ExampleTotal();
    assert BOTH.Keys == {"a", "b"};
    assert Ids(BOTH_CANDIDATES) == {"a", "b"} by {
      assert BOTH_CANDIDATES[0] in BOTH_CANDIDATES && BOTH_CANDIDATES[1] in BOTH_CANDIDATES;
    }
    assert Ids(LATER_CANDIDATES) == {"b"} by {
      assert LATER_CANDIDATES[0] in LATER_CANDIDATES;
    }
  }

  lemma ExampleTotal()
    ensures Total(BOTH) == 100
  {
    assert "a"[0] != "b"[0];
    TotalWithout(BOTH, "a");
    assert BOTH - {"a"} == map["b" := FRESH];
    TotalWithout(map["b" := FRESH], "b");
    assert map["b" := FRESH] - {"b"} == map[];
  }

  lemma {:induction false} ExampleBothRead(s: System)
    requires s == System(BOTH, [], 0) && Total(BOTH) == 100
    ensures Run(s, BOTH_READ, 80) == s.(evictions := [KnowsTotal(100, 0), KnowsTotal(100, 0)])
  {
    var s1 := Step(s, EvictionCalled, 80);
    var s2 := Step(s1, EvictionCalled, 80);
    assert s2.evictions == [Called, Called];
    var s3 := Step(s2, ReadsTotal(0), 80);
    assert s3.evictions == [KnowsTotal(100, 0), Called];
    RunUnfolds(s, BOTH_READ, 80);
    RunUnfolds(s1, BOTH_READ[1..], 80);
    RunUnfolds(s2, BOTH_READ[1..][1..], 80);
    RunUnfolds(s3, BOTH_READ[1..][1..][1..], 80);
    assert [KnowsTotal(100, 0), Called][1 := KnowsTotal(100, 0)] == [KnowsTotal(100, 0), KnowsTotal(100, 0)];
  }

  lemma {:induction false} ExampleFirst(s: System)
    requires s == System(BOTH, [KnowsTotal(100, 0), KnowsTotal(100, 0)], 0)
    requires IsLruAnswer(BOTH, BOTH_CANDIDATES, CANDIDATE_LIMIT)
    ensures Run(s, FIRST_EVICTS, 80)
         == System(map["b" := FRESH], [Looping(BOTH_CANDIDATES, 1, 70, 0, true), KnowsTotal(100, 0)], 0)
  {
    var s1 := Step(s, ReadsCandidates(0, BOTH_CANDIDATES), 80);
    assert s1.evictions == [Looping(BOTH_CANDIDATES, 0, 100, 0, false), KnowsTotal(100, 0)];
    var s2 := Step(s1, Turn(0), 80);
    assert s2.evictions == [Looping(BOTH_CANDIDATES, 1, 70, 0, false), KnowsTotal(100, 0)];
    assert "a"[0] != "b"[0];
    assert BOTH - {"a"} == map["b" := FRESH];
    RunUnfolds(s, FIRST_EVICTS, 80);
    RunUnfolds(s1, FIRST_EVICTS[1..], 80);
    RunUnfolds(s2, FIRST_EVICTS[1..][1..], 80);
    assert Step(s2, Turn(0), 80).evictions == [Looping(BOTH_CANDIDATES, 1, 70, 0, true), KnowsTotal(100, 0)];
  }

  lemma {:induction false} ExampleSecond(s: System)
    requires s == System(map["b" := FRESH], [Looping(BOTH_CANDIDATES, 1, 70, 0, true), KnowsTotal(100, 0)], 0)
    requires IsLruAnswer(map["b" := FRESH], LATER_CANDIDATES, CANDIDATE_LIMIT)
    ensures Run(s, SECOND_EVICTS, 80).rows == map[]
  {
    var s1 := Step(s, ReadsCandidates(1, LATER_CANDIDATES), 80);
    assert s1.evictions == [Looping(BOTH_CANDIDATES, 1, 70, 0, true), Looping(LATER_CANDIDATES, 0, 100, 0, false)];
    RunUnfolds(s, SECOND_EVICTS, 80);
    RunUnfolds(s1, SECOND_EVICTS[1..], 80);
    assert map["b" := FRESH] - {"b"} == map[];
  }

  lemma RunUnfolds(s: System, schedule: seq<Action>, limit: int)
    requires schedule != []
    ensures Run(s, schedule, limit) == Run(Step(s, schedule[0], limit), schedule[1..], limit)
  {
  }

  // ---- the cache manager object ----

  class CacheManager {
    const maxCacheSizeBytes: Option<int>
    var rows: Table
    var disk: set<string>

    constructor (maxCacheSizeBytes: Option<int>)
      ensures this.maxCacheSizeBytes == maxCacheSizeBytes && rows == map[] && disk == {}
    {
      this.maxCacheSizeBytes := maxCacheSizeBytes;
      rows, disk := map[], {};
    }

    method GetCachedPath(fileId: FileId, now: int) returns (path: Option<string>)
      modifies this`rows
      ensures path == if fileId in old(rows) && old(rows)[fileId].localPath in disk
                      then Some(old(rows)[fileId].localPath) else None
      ensures path.Some? ==> rows == old(rows)[fileId := old(rows)[fileId].(lastAccessedAt := now)]
      ensures path.None? ==> rows == old(rows) - {fileId}
    {
      if fileId !in rows {
        assert rows - {fileId} == rows;
        return None;
      }
      var entry := rows[fileId];
      if entry.localPath !in disk {
        rows := rows - {fileId};
        return None;
      }
      rows := rows[fileId := entry.(lastAccessedAt := now)];
      return Some(entry.localPath);
    }

    method RegisterFile(fileId: FileId, localPath: string, fileSize: nat, now: int)
      modifies this`rows
      ensures rows == old(rows)[fileId := Row(localPath, fileSize, now, now)]
    {
      rows := rows[fileId := Row(localPath, fileSize, now, now)];
    }

    method RemoveFileEntry(fileId: FileId, localPath: string)
      modifies this
      ensures rows == old(rows) - {fileId} && disk == old(disk) - {localPath}
    {
      disk := disk - {localPath};
      rows := rows - {fileId};
    }

    method GetTotalSize() returns (total: nat)
      ensures total == Total(rows)
    {
      total := 0;
      var left := rows;
      while left != map[]
        invariant total + Total(left) == Total(rows)
        decreases |left|
      {
        var id :| id in left;
        TotalWithout(left, id);
        total := total + left[id].fileSize;
        left := left - {id};
      }
    }

    method GetEvictionCandidates(limit: nat) returns (candidates: seq<Candidate>)
      ensures IsLruAnswer(rows, candidates, limit)
    {
      candidates := [];
      var left := rows;
      while |candidates| < limit && left != map[]
        invariant |candidates| <= limit && IsLruAnswer(rows, candidates, |candidates|)
        invariant left == rows - Ids(candidates) && |candidates| + |left| == |rows|
        decreases |left|
      {
        var id := LeastRecent(left);
        NextLeastRecent(rows, candidates, id);
        candidates := candidates + [Candidate(id, left[id])];
        left := left - {id};
      }
    }

    method LeastRecent(left: Table) returns (id: FileId)
      requires left != map[]
      ensures id in left && forall other :: other in left ==> left[id].lastAccessedAt <= left[other].lastAccessedAt
    {
      LeastExists(left);
      id :| id in left && forall other :: other in left ==> left[id].lastAccessedAt <= left[other].lastAccessedAt;
    }

    /** `candidates` is the answer of the query and `n` how many of them went; nothing is queried when
        there is no limit or the total is within it. */
    method EvictIfNeeded() returns (ghost candidates: seq<Candidate>, ghost n: nat)
      modifies this
      ensures n <= |candidates|
      ensures rows == After(old(rows), candidates, n)
      ensures disk == old(disk) - Paths(candidates[..n])
      ensures if maxCacheSizeBytes.None? || maxCacheSizeBytes == Some(0) then n == 0
              else if Total(old(rows)) <= maxCacheSizeBytes.value then n == 0
              else Evicts(old(rows), candidates, n, maxCacheSizeBytes.value)
    {
      candidates, n := [], 0;
      assert rows - Ids([]) == rows;
      if maxCacheSizeBytes.None? || maxCacheSizeBytes == Some(0) {
        return;
      }
      var limit := maxCacheSizeBytes.value;
      var read := GetTotalSize();
      if read <= limit {
        return;
      }
      var answer := GetEvictionCandidates(CANDIDATE_LIMIT);
      candidates := answer;
      n := EvictWhileOver(answer, read, limit);
    }

    /** The loop of the eviction. */
    method EvictWhileOver(answer: seq<Candidate>, total: nat, limit: int) returns (ghost n: nat)
      requires Listed(rows, answer) && total == Total(rows)
      modifies this
      ensures n <= |answer| && StaysOver(old(rows), answer, n, limit)
      ensures n == |answer| || Total(old(rows)) - SizeOf(answer[..n]) <= limit
      ensures rows == After(old(rows), answer, n) && disk == old(disk) - Paths(answer[..n])
    {
      var totalSize: int := total;
      n := 0;
      assert rows - Ids([]) == rows;
      for i := 0 to |answer|
        invariant n == i && rows == After(old(rows), answer, i) && disk == old(disk) - Paths(answer[..i])
        invariant totalSize == Total(old(rows)) - SizeOf(answer[..i]) == Total(rows)
        invariant StaysOver(old(rows), answer, i, limit)
      {
        if totalSize <= limit {
          return;
        }
        OneMoreRemoved(old(rows), answer, i, limit);
        RemoveFileEntry(answer[i].id, answer[i].row.localPath);
        totalSize := totalSize - answer[i].row.fileSize;
        n := i + 1;
      }
    }

    method RemoveFile(fileId: FileId)
      modifies this
      ensures rows == old(rows) - {fileId}
      ensures disk == if fileId in old(rows) then old(disk) - {old(rows)[fileId].localPath} else old(disk)
    {
      if fileId !in rows {
        assert rows - {fileId} == rows;
        return;
      }
      RemoveFileEntry(fileId, rows[fileId].localPath);
    }
  }

  lemma {:induction false} LeastExists(rows: Table)
    requires rows != map[]
    ensures exists id :: id in rows && forall other :: other in rows ==> rows[id].lastAccessedAt <= rows[other].lastAccessedAt
    decreases |rows|
  {
    var first :| first in rows;
    var rest := rows - {first};
    assert forall other :: other in rows ==> other == first || other in rest;
    if rest == map[] {
      assert forall other :: other in rows ==> rows[first].lastAccessedAt <= rows[other].lastAccessedAt;
    } else {
      LeastExists(rest);
      var least :| least in rest && forall other :: other in rest ==> rest[least].lastAccessedAt <= rest[other].lastAccessedAt;
      var id := if rows[first].lastAccessedAt <= rows[least].lastAccessedAt then first else least;
      assert id in rows && forall other :: other in rows ==> rows[id].lastAccessedAt <= rows[other].lastAccessedAt;
    }
  }
}
