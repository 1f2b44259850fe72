/** Keeping file paths inside a directory (validate-path-within-directory.ts): paths are normalised
    as text and compared by prefix. */
module PathValidation {
  import opened Text

  predicate IsAbsolute(path: string) {
    path != [] && path[0] == '/'
  }

  /** What one segment does to the segments so far. */
  function Enter(parts: seq<string>, segment: string): seq<string> {
    if segment == ".." then if parts == [] then [] else parts[..|parts| - 1]
    else if segment != "" && segment != "." then parts + [segment]
    else parts
  }

  function Resolve(parts: seq<string>, segments: seq<string>): seq<string>
    decreases |segments|
  {
    if segments == [] then parts else Resolve(Enter(parts, segments[0]), segments[1..])
  }

  /** The normalised segment list of a path. */
  function NormalSegments(path: string): seq<string> {
    Resolve([], Split(path, '/'))
  }

  function NormalPath(path: string): string {
    (if IsAbsolute(path) then "/" else "") + Join(NormalSegments(path), '/')
  }

  function WithTrailingSlash(dir: string): string {
    if dir != [] && dir[|dir| - 1] == '/' then dir else dir + "/"
  }

  /** Whether `validatePathWithinDirectory` returns without throwing. */
  predicate Accepts(filePath: string, directory: string) {
    var normalized := NormalPath(filePath);
    var dir := WithTrailingSlash(NormalPath(directory));
    dir <= normalized || normalized == dir[..|dir| - 1]
  }

  method NormalizePath(input: string) returns (path: string)
    ensures path == NormalPath(input)
  {
    var parts: seq<string> := [];
    var segments := Split(input, '/');
    for i := 0 to |segments|
      invariant Resolve(parts, segments[i..]) == NormalSegments(input)
    {
      var segment := segments[i];
      assert segments[i..][1..] == segments[i + 1..];
      if segment == ".." {
        if parts != [] {
          parts := parts[..|parts| - 1];
        }
      } else if segment != "" && segment != "." {
        parts := parts + [segment];
      }
    }
    return (if IsAbsolute(input) then "/" else "") + Join(parts, '/');
  }

  method ValidatePathWithinDirectory(filePath: string, allowedDirectory: string) returns (ok: bool)
    ensures ok == Accepts(filePath, allowedDirectory)
  {
    var normalized := NormalizePath(filePath);
    var dir := NormalizePath(allowedDirectory);
    var normalizedDir := WithTrailingSlash(dir);
    return normalizedDir <= normalized || normalized == normalizedDir[..|normalizedDir| - 1];
  }

  // ---- normal segment lists ----

  predicate Normal(segment: string) {
    segment != "" && segment != "." && segment != ".." && '/' !in segment
  }

  ghost predicate AllNormal(segments: seq<string>) {
    forall i :: 0 <= i < |segments| ==> Normal(segments[i])
  }

  lemma {:induction false} ResolveIsNormal(parts: seq<string>, segments: seq<string>)
    requires AllNormal(parts) && AllFree(segments, '/')
    ensures AllNormal(Resolve(parts, segments))
    decreases |segments|
  {
    if segments != [] {
      ResolveIsNormal(Enter(parts, segments[0]), segments[1..]);
    }
  }

  /** Normalising leaves no empty, `.` or `..` segment. */
  lemma NormalSegmentsAreNormal(path: string)
    ensures AllNormal(NormalSegments(path))
  {
    SplitPartsAreFree(path, '/');
    ResolveIsNormal([], Split(path, '/'));
  }

  lemma {:induction false} ResolveNormal(parts: seq<string>, segments: seq<string>)
    requires AllNormal(segments)
    ensures Resolve(parts, segments) == parts + segments
    decreases |segments|
  {
    if segments == [] {
      assert parts + segments == parts;
    } else {
      ResolveNormal(parts + [segments[0]], segments[1..]);
      assert parts + [segments[0]] + segments[1..] == parts + segments;
    }
  }

  lemma {:induction false} ResolveConcat(parts: seq<string>, a: seq<string>, b: seq<string>)
    ensures Resolve(parts, a + b) == Resolve(Resolve(parts, a), b)
    decreases |a|
  {
    if a == [] {
      assert a + b == b;
    } else {
      ResolveConcat(Enter(parts, a[0]), a[1..], b);
      assert (a + b)[1..] == a[1..] + b;
    }
  }

  /** One more character in front of a split text. */
  function Push(c: char, parts: seq<string>): seq<string>
    requires parts != []
  {
    if c == '/' then [[]] + parts else [[c] + parts[0]] + parts[1..]
  }

  lemma PushConcat(c: char, parts: seq<string>, more: seq<string>)
    requires parts != []
    ensures Push(c, parts + more) == Push(c, parts) + more
  {
    assert (parts + more)[1..] == parts[1..] + more;
  }

  lemma {:induction false} SplitConcat(a: string, b: string)
    ensures Split(a + "/" + b, '/') == Split(a, '/') + Split(b, '/')
  {
    if a == [] {
      assert a + "/" + b == ['/'] + b;
    } else {
      SplitConcat(a[1..], b);
      assert a + "/" + b == [a[0]] + (a[1..] + "/" + b);
      assert a == [a[0]] + a[1..];
      PushConcat(a[0], Split(a[1..], '/'), Split(b, '/'));
    }
  }

  lemma {:induction false} JoinConcat(a: seq<string>, b: seq<string>)
    requires a != [] && b != []
    ensures Join(a + b, '/') == Join(a, '/') + "/" + Join(b, '/')
  {
    assert (a + b)[1..] == a[1..] + b;
    if |a| > 1 {
      JoinConcat(a[1..], b);
    }
  }

  /** A joined normal list neither begins nor ends with a slash, and is empty only if the list is. */
  lemma {:induction false} JoinOfNormal(segments: seq<string>)
    requires AllNormal(segments) && segments != []
    ensures var joined := Join(segments, '/');
            joined != [] && joined[0] != '/' && joined[|joined| - 1] != '/'
  {
    assert Normal(segments[0]);
    assert segments[0][0] != '/' && segments[0][|segments[0]| - 1] != '/';
    if |segments| > 1 {
      JoinOfNormal(segments[1..]);
    }
  }

  lemma FirstCharacterTellsKind(path: string)
    ensures NormalSegments(path) != [] || IsAbsolute(path) ==> NormalPath(path) != []
    ensures NormalPath(path) != [] ==> (NormalPath(path)[0] == '/' <==> IsAbsolute(path))
    ensures NormalSegments(path) != [] ==> NormalPath(path)[|NormalPath(path)| - 1] != '/'
  {
    NormalSegmentsAreNormal(path);
    if NormalSegments(path) != [] {
      JoinOfNormal(NormalSegments(path));
    }
  }

  lemma SegmentsOfJoined(segments: seq<string>)
    requires AllNormal(segments)
    ensures NormalSegments(Join(segments, '/')) == segments
    ensures NormalSegments("/" + Join(segments, '/')) == segments
  {
    var joined := Join(segments, '/');
    if segments == [] {
      assert joined == [];
      assert Resolve([], [""]) == [] by {
        assert [""][1..] == [];
      }
    } else {
      SplitOfJoin(segments, '/');
      ResolveNormal([], segments);
      assert [] + segments == segments;
    }
    assert Push('/', Split(joined, '/'))[1..] == Split(joined, '/');
  }

  lemma NormalPathShape(path: string)
    ensures AllNormal(NormalSegments(path))
    ensures IsAbsolute(NormalPath(path)) == IsAbsolute(path)
    ensures NormalSegments(NormalPath(path)) == NormalSegments(path)
  {
    NormalSegmentsAreNormal(path);
    FirstCharacterTellsKind(path);
    SegmentsOfJoined(NormalSegments(path));
    assert "" + Join(NormalSegments(path), '/') == Join(NormalSegments(path), '/');
  }

  /** Normalising is idempotent. */
  lemma NormalizeIdempotent(path: string)
    ensures NormalPath(NormalPath(path)) == NormalPath(path)
  {
    NormalPathShape(path);
  }

  /** A path below a directory resolves from where the directory resolved to. */
  lemma NormalizeComposes(dir: string, rest: string)
    ensures NormalSegments(dir + "/" + rest) == Resolve(NormalSegments(dir), Split(rest, '/'))
  {
    SplitConcat(dir, rest);
    ResolveConcat([], Split(dir, '/'), Split(rest, '/'));
  }

  /** What one more segment does: a proper name goes one level down, `..` one level up unless at the top,
      and the empty segment and `.` stay. With `FirstSegment` this says where every path leads. */
  lemma OneMoreSegment(dir: string, name: string)
    requires '/' !in name
    ensures var (before, after) := (NormalSegments(dir), NormalSegments(dir + "/" + name));
            && (Normal(name) ==> after == before + [name])
            && (name == ".." ==> if before == [] then after == [] else after == before[..|before| - 1])
            && (name == "" || name == "." ==> after == before)
  {
    NormalizeComposes(dir, name);
    SplitFirst(name, [], '/');
    assert [name][1..] == [];
  }

  /** The first segment: a proper name is where it leads, anything else leads nowhere. */
  lemma FirstSegment(name: string)
    requires '/' !in name
    ensures NormalSegments(name) == if Normal(name) then [name] else []
  {
    SplitFirst(name, [], '/');
    assert [name][1..] == [];
    assert Resolve([], [name]) == Enter([], name);
    assert [] + [name] == [name];
  }

  // ---- which paths are accepted ----

  /** Comparing joined texts with a slash behind the first is comparing the lists. */
  lemma JoinedPrefix(a: seq<string>, b: seq<string>)
    requires AllNormal(a) && AllNormal(b) && a != []
    ensures Join(a, '/') + "/" <= Join(b, '/') || Join(a, '/') == Join(b, '/') <==> a <= b
  {
    var (x, y) := (Join(a, '/'), Join(b, '/'));
    SplitOfJoin(a, '/');
    JoinOfNormal(a);
    if b != [] {
      SplitOfJoin(b, '/');
    }
    if x + "/" <= y {
      var rest := y[|x| + 1..];
      assert y == x + "/" + rest;
      SplitConcat(x, rest);
    }
    if a <= b && a != b {
      var c := b[|a|..];
      assert b == a + c;
      JoinConcat(a, c);
    }
  }

  /** The comparison of the source once the directory has a segment. */
  lemma AcceptsBelowSegments(filePath: string, directory: string)
    requires NormalSegments(directory) != []
    ensures Accepts(filePath, directory)
        <==> NormalPath(directory) + "/" <= NormalPath(filePath) || NormalPath(filePath) == NormalPath(directory)
  {
    FirstCharacterTellsKind(directory);
    var normalized := NormalPath(directory);
    assert WithTrailingSlash(normalized) == normalized + "/";
    assert (normalized + "/")[..|normalized|] == normalized;
  }

  lemma AcceptsSameKind(filePath: string, directory: string)
    requires NormalSegments(directory) != [] && IsAbsolute(filePath) == IsAbsolute(directory)
    ensures Accepts(filePath, directory) <==> NormalSegments(directory) <= NormalSegments(filePath)
  {
    AcceptsBelowSegments(filePath, directory);
    NormalSegmentsAreNormal(filePath);
    NormalSegmentsAreNormal(directory);
    JoinedPrefix(NormalSegments(directory), NormalSegments(filePath));
    var (x, y) := (Join(NormalSegments(directory), '/'), Join(NormalSegments(filePath), '/'));
    if IsAbsolute(directory) {
      SlashInFront(x + "/", y);
      SlashInFront(x, y);
      assert NormalPath(directory) + "/" == "/" + (x + "/");
    } else {
      assert NormalPath(directory) == x && NormalPath(filePath) == y;
    }
  }

  lemma RejectsOtherKind(filePath: string, directory: string)
    requires NormalSegments(directory) != [] && IsAbsolute(filePath) != IsAbsolute(directory)
    ensures !Accepts(filePath, directory)
  {
    AcceptsBelowSegments(filePath, directory);
    FirstCharacterTellsKind(filePath);
    FirstCharacterTellsKind(directory);
    assert (NormalPath(directory) + "/")[0] == NormalPath(directory)[0];
  }

  /** Exactly which paths are accepted, for all inputs: when the directory normalises to no segment
      at all, every absolute path and every path without segments; otherwise the paths of the same
      kind, absolute or relative, whose segment list begins with the directory's. */
  lemma AcceptedIffSegmentPrefix(filePath: string, directory: string)
    ensures Accepts(filePath, directory)
        <==> if NormalSegments(directory) == []
             then IsAbsolute(filePath) || NormalSegments(filePath) == []
             else IsAbsolute(filePath) == IsAbsolute(directory)
                  && NormalSegments(directory) <= NormalSegments(filePath)
  {
    if NormalSegments(directory) == [] {
      assert WithTrailingSlash(NormalPath(directory)) == "/";
      FirstCharacterTellsKind(filePath);
    } else if IsAbsolute(filePath) == IsAbsolute(directory) {
      AcceptsSameKind(filePath, directory);
    } else {
      RejectsOtherKind(filePath, directory);
    }
  }

  /** So the current directory accepts every absolute path. */
  lemma AbsoluteAcceptedUnderDot(filePath: string)
    ensures Accepts(filePath, ".") <==> IsAbsolute(filePath) || NormalSegments(filePath) == []
    ensures Accepts("/etc", ".")
  {
    AcceptedIffSegmentPrefix(filePath, ".");
    AcceptedIffSegmentPrefix("/etc", ".");
  }

  /** Going up and out of the directory is refused, for every proper name. */
  lemma EscapeIsRefused(dir: string, name: string)
    requires Normal(name) && NormalSegments(dir) != [] && name != NormalSegments(dir)[|NormalSegments(dir)| - 1]
    ensures !Accepts(dir + "/../" + name, dir)
    ensures Accepts(dir + "/" + name + "/..", dir)
  {
    var up := dir + "/" + "..";
    FirstSegment("");
    OneMoreSegment(dir, "..");
    OneMoreSegment(up, name);
    OneMoreSegment(dir, name);
    OneMoreSegment(dir + "/" + name, "..");
    assert dir + "/../" + name == up + "/" + name && dir + "/" + name + "/.." == dir + "/" + name + "/" + "..";
    assert IsAbsolute(dir + "/../" + name) == IsAbsolute(dir) == IsAbsolute(dir + "/" + name + "/..");
    var before := NormalSegments(dir);
    assert (before[..|before| - 1] + [name])[|before| - 1] == name;
    AcceptedIffSegmentPrefix(dir + "/../" + name, dir);
    AcceptedIffSegmentPrefix(dir + "/" + name + "/..", dir);
  }

  lemma EscapeExample()
    ensures !Accepts("/cache/../etc", "/cache") && Accepts("/cache/etc/..", "/cache")
  {
    FirstSegment("");
    OneMoreSegment("", "cache");
    assert "" + "/" + "cache" == "/cache";
    assert "/cache" + "/../" + "etc" == "/cache/../etc" && "/cache" + "/" + "etc" + "/.." == "/cache/etc/..";
    assert "cache"[0] != "etc"[0];
    EscapeIsRefused("/cache", "etc");
  }

  lemma SlashInFront(x: string, y: string)
    ensures "/" + x <= "/" + y <==> x <= y
    ensures "/" + x == "/" + y <==> x == y
  {
    assert ("/" + x)[1..] == x && ("/" + y)[1..] == y;
    if x <= y {
      assert y == x + y[|x|..];
      assert "/" + y == ("/" + x) + y[|x|..];
    }
    if "/" + x <= "/" + y {
      forall i | 0 <= i < |x|
        ensures x[i] == y[i]
      {
        assert ("/" + x)[i + 1] == ("/" + y)[i + 1];
      }
    }
  }

  /** For absolute paths, a path is accepted exactly when the directory's normalised segment list is
      a prefix of its own. */
  lemma AbsolutePathAcceptedIffInside(filePath: string, directory: string)
    requires IsAbsolute(filePath) && IsAbsolute(directory)
    ensures Accepts(filePath, directory) <==> NormalSegments(directory) <= NormalSegments(filePath)
  {
    AcceptedIffSegmentPrefix(filePath, directory);
  }
}
