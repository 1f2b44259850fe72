/** Searching cached users by substring with SQL LIKE (`escapeLikePattern` and the pattern built in
    `getCachedUsers`, search-cache.ts). */
module LikePattern {
  import opened Text

  const ESCAPE: char := '\\'

  /** How the database compares single characters: LIKE may fold case. */
  type Fold = char -> char

  /** The match rule of section 8.5 of SQL-92 for LIKE with an ESCAPE character. A pattern that ends
      in the middle of an escape matches nothing. */
  predicate LikeMatch(pattern: string, s: string, fold: Fold)
    decreases |pattern|, |s|
  {
    if pattern == [] then s == []
    else if pattern[0] == ESCAPE then
      |pattern| >= 2 && s != [] && fold(pattern[1]) == fold(s[0]) && LikeMatch(pattern[2..], s[1..], fold)
    else if pattern[0] == '%' then
      LikeMatch(pattern[1..], s, fold) || (s != [] && LikeMatch(pattern, s[1..], fold))
    else if pattern[0] == '_' then s != [] && LikeMatch(pattern[1..], s[1..], fold)
    else s != [] && fold(pattern[0]) == fold(s[0]) && LikeMatch(pattern[1..], s[1..], fold)
  }

  /** The three replacements of the source, in its order. */
  function EscapeLikePattern(input: string): string {
    ReplaceAll(ReplaceAll(ReplaceAll(input, '\\', "\\\\"), '%', "\\%"), '_', "\\_")
  }

  function SearchPattern(query: string): string {
    "%" + EscapeLikePattern(query) + "%"
  }

  ghost predicate OccursAt(s: string, query: string, at: nat, fold: Fold) {
    at + |query| <= |s| && forall j :: 0 <= j < |query| ==> fold(s[at + j]) == fold(query[j])
  }

  ghost predicate Contains(s: string, query: string, fold: Fold) {
    exists at: nat :: OccursAt(s, query, at, fold)
  }

  // ---- three replacements are one character-by-character escape ----

  function EscapeChar(c: char): string {
    if c == '\\' || c == '%' || c == '_' then [ESCAPE, c] else [c]
  }

  function EscapeEach(s: string): string {
    if s == [] then [] else EscapeChar(s[0]) + EscapeEach(s[1..])
  }

  lemma ReplaceOne(d: char, c: char, replacement: string)
    ensures ReplaceAll([d], c, replacement) == if d == c then replacement else [d]
  {
    assert [d][1..] == [];
  }

  lemma ReplaceTwo(d: char, e: char, c: char, replacement: string)
    requires d != c
    ensures ReplaceAll([d, e], c, replacement) == [d] + if e == c then replacement else [e]
  {
    assert [d, e][1..] == [e];
    ReplaceOne(e, c, replacement);
  }

  lemma EscapeOne(c: char)
    ensures EscapeLikePattern([c]) == EscapeChar(c)
  {
    ReplaceOne(c, '\\', "\\\\");
    ReplaceOne(c, '%', "\\%");
    ReplaceOne(c, '_', "\\_");
    ReplaceTwo('\\', '\\', '%', "\\%");
    ReplaceTwo('\\', '\\', '_', "\\_");
    ReplaceTwo('\\', '%', '_', "\\_");
  }

  lemma EscapeDistributes(a: string, b: string)
    ensures EscapeLikePattern(a + b) == EscapeLikePattern(a) + EscapeLikePattern(b)
  {
    var (a1, b1) := (ReplaceAll(a, '\\', "\\\\"), ReplaceAll(b, '\\', "\\\\"));
    ReplaceAllDistributes(a, b, '\\', "\\\\");
    ReplaceAllDistributes(a1, b1, '%', "\\%");
    ReplaceAllDistributes(ReplaceAll(a1, '%', "\\%"), ReplaceAll(b1, '%', "\\%"), '_', "\\_");
  }

  /** No replacement touches what an earlier one put in, because backslashes go first. */
  lemma {:induction false} ThreeReplacementsAreOneEscape(s: string)
    ensures EscapeLikePattern(s) == EscapeEach(s)
  {
    if s != [] {
      assert s == [s[0]] + s[1..];
      EscapeDistributes([s[0]], s[1..]);
      EscapeOne(s[0]);
      ThreeReplacementsAreOneEscape(s[1..]);
    }
  }

  // ---- the pattern means "contains" ----

  /** An escaped text at the front of a pattern matches exactly itself. */
  lemma {:induction false} EscapedTextIsLiteral(query: string, rest: string, s: string, fold: Fold)
    ensures LikeMatch(EscapeEach(query) + rest, s, fold)
        <==> OccursAt(s, query, 0, fold) && LikeMatch(rest, s[|query|..], fold)
  {
    var pattern := EscapeEach(query) + rest;
    if query == [] {
      assert pattern == rest && s[0..] == s;
    } else {
      var head := EscapeChar(query[0]);
      assert pattern == head + (EscapeEach(query[1..]) + rest);
      assert pattern[|head|..] == EscapeEach(query[1..]) + rest;
      if s != [] {
        EscapedTextIsLiteral(query[1..], rest, s[1..], fold);
        if OccursAt(s, query, 0, fold) {
          assert s[1..][|query| - 1..] == s[|query|..];
        }
      }
    }
  }

  lemma {:induction false} PercentMatchesAll(s: string, fold: Fold)
    ensures LikeMatch("%", s, fold)
  {
    assert "%"[1..] == [];
    if s != [] {
      PercentMatchesAll(s[1..], fold);
    }
  }

  /** A leading percent sign skips any prefix. */
  lemma {:induction false} PercentSkips(rest: string, s: string, fold: Fold)
    ensures LikeMatch("%" + rest, s, fold) <==> exists at :: 0 <= at <= |s| && LikeMatch(rest, s[at..], fold)
    decreases |s|
  {
    assert ("%" + rest)[1..] == rest;
    assert s[0..] == s;
    if s != [] {
      PercentSkips(rest, s[1..], fold);
      if LikeMatch("%" + rest, s[1..], fold) {
        var at :| 0 <= at <= |s| - 1 && LikeMatch(rest, s[1..][at..], fold);
        assert s[1..][at..] == s[at + 1..];
      }
      if exists at :: 0 < at <= |s| && LikeMatch(rest, s[at..], fold) {
        var at :| 0 < at <= |s| && LikeMatch(rest, s[at..], fold);
        assert s[1..][at - 1..] == s[at..];
      }
    }
  }

  /** For every query and every text, the pattern matches exactly when the text contains the query,
      wildcards and backslashes in the query included, whatever case folding the database does. */
  lemma PatternMeansContains(query: string, s: string, fold: Fold)
    ensures LikeMatch(SearchPattern(query), s, fold) <==> Contains(s, query, fold)
  {
    ThreeReplacementsAreOneEscape(query);
    var rest := EscapeEach(query) + "%";
    assert SearchPattern(query) == "%" + rest;
    PercentSkips(rest, s, fold);
    forall at | 0 <= at <= |s|
      ensures LikeMatch(rest, s[at..], fold) <==> OccursAt(s, query, at, fold)
    {
      EscapedTextIsLiteral(query, "%", s[at..], fold);
      OccursInSuffix(s, query, at, fold);
      if OccursAt(s[at..], query, 0, fold) {
        PercentMatchesAll(s[at..][|query|..], fold);
      }
    }
    if LikeMatch(SearchPattern(query), s, fold) {
      var at :| 0 <= at <= |s| && LikeMatch(rest, s[at..], fold);
      assert OccursAt(s, query, at, fold);
    }
  }

  /** Without the escape the pattern would not mean "contains": an underscore would match any one character
      and a percent sign any text, so each finds every text with a character in it, or every text. */
  lemma EscapingIsNeeded(s: string, fold: Fold)
    ensures LikeMatch("%" + "_%", s, fold) <==> s != []
    ensures LikeMatch("%" + "%%", s, fold)
  {
    PercentSkips("_%", s, fold);
    PercentSkips("%%", s, fold);
    PercentMatchesAll(s, fold);
    assert "_%"[1..] == "%" && "%%"[1..] == "%" && s[0..] == s;
    if s != [] {
      PercentMatchesAll(s[1..], fold);
      assert LikeMatch("_%", s[0..], fold);
    }
    assert LikeMatch("%%", s[0..], fold);
  }

  lemma OccursInSuffix(s: string, query: string, at: nat, fold: Fold)
    requires at <= |s|
    ensures OccursAt(s[at..], query, 0, fold) <==> OccursAt(s, query, at, fold)
  {
    if OccursAt(s[at..], query, 0, fold) {
      forall j | 0 <= j < |query|
        ensures fold(s[at + j]) == fold(query[j])
      {
        assert fold(s[at..][0 + j]) == fold(query[j]);
      }
    }
    if OccursAt(s, query, at, fold) {
      forall j | 0 <= j < |query|
        ensures fold(s[at..][0 + j]) == fold(query[j])
      {
        assert fold(s[at + j]) == fold(query[j]);
      }
    }
  }
}
