/** Patterns with asterisks (splitPattern, stringMatchesPattern) against a declarative match. */
module Glob {

  const STAR := "*"

  // ----- what a pattern means -----

  /** An asterisk stands for any text, every other character for itself. */
  predicate Matches(pattern: string, s: string)
    decreases |pattern|
  {
    if pattern == "" then s == ""
    else if pattern[0] == '*' then exists k | 0 <= k <= |s| :: Matches(pattern[1..], s[k..])
    else s != "" && s[0] == pattern[0] && Matches(pattern[1..], s[1..])
  }

  // ----- splitting -----

  /** Appends parts to parts: neighbouring asterisks become one, neighbouring texts are joined. */
  function Join(a: seq<string>, b: seq<string>): seq<string> {
    if a == [] then b
    else if b == [] then a
    else
      var x, y := a[|a| - 1], b[0];
      if x == STAR && y == STAR then a + b[1..]
      else if x != STAR && y != STAR then a[..|a| - 1] + [x + y] + b[1..]
      else a + b
  }

  function Split(pattern: string): seq<string> {
    if pattern == "" then [] else Join([[pattern[0]]], Split(pattern[1..]))
  }

  /** Texts are not empty, and texts and asterisks alternate. */
  predicate Alternating(parts: seq<string>) {
    && (forall i | 0 <= i < |parts| :: parts[i] != "")
    && forall i | 0 <= i < |parts| - 1 :: (parts[i] == STAR) != (parts[i + 1] == STAR)
  }

  lemma JoinText(a: seq<string>, z: string, b: seq<string>)
    requires a != [] && b != [] && z != STAR && z != "" && a[|a| - 1] != "" && b[0] != ""
    ensures Join(Join(a, [z]), b) == Join(a, Join([z], b))
  {
    if a[|a| - 1] != STAR {
      TextText(a, z, b);
    } else {
      StarText(a, z, b);
    }
  }

  lemma TextText(a: seq<string>, z: string, b: seq<string>)
    requires a != [] && b != [] && z != STAR && z != "" && a[|a| - 1] != "" && b[0] != "" && a[|a| - 1] != STAR
    ensures Join(Join(a, [z]), b) == Join(a, Join([z], b))
  {
    var x, y, front := a[|a| - 1], b[0], a[..|a| - 1];
    var xz := x + z;
    assert |xz| > 1 && xz != STAR;
    assert Join(a, [z]) == front + [xz];
    if y != STAR {
      var zy := z + y;
      assert |zy| > 1 && zy != STAR;
      assert xz + y == x + zy;
      assert Join([z], b) == [zy] + b[1..];
      assert Join(front + [xz], b) == front + [xz + y] + b[1..];
      assert Join(a, [zy] + b[1..]) == front + [x + zy] + b[1..];
    } else {
      assert Join([z], b) == [z] + b;
      assert Join(front + [xz], b) == front + [xz] + b;
      assert Join(a, [z] + b) == front + [xz] + b;
    }
  }

  lemma StarText(a: seq<string>, z: string, b: seq<string>)
    requires a != [] && b != [] && z != STAR && z != "" && b[0] != "" && a[|a| - 1] == STAR
    ensures Join(Join(a, [z]), b) == Join(a, Join([z], b))
  {
    assert Join(a, [z]) == a + [z];
    if b[0] != STAR {
      StarTextText(a, z, b[0], b[1..], b);
    } else {
      assert Join([z], b) == [z] + b;
      assert a + [z] + b == a + ([z] + b);
    }
  }

  lemma StarTextText(a: seq<string>, z: string, y: string, rest: seq<string>, b: seq<string>)
    requires a != [] && z != STAR && z != "" && y != "" && y != STAR && a[|a| - 1] == STAR && b == [y] + rest
    ensures Join(a + [z], b) == Join(a, Join([z], b))
  {
    assert |z + y| > 1 && b[1..] == rest;
    assert Join([z], b) == [z + y] + rest by { assert [z][..0] + [z + y] == [z + y]; }
    assert (a + [z])[..|a|] == a;
    assert Join(a + [z], b) == a + [z + y] + rest;
    assert a + ([z + y] + rest) == a + [z + y] + rest;
  }

  lemma JoinStar(a: seq<string>, b: seq<string>)
    requires a != [] && b != []
    ensures Join(Join(a, [STAR]), b) == Join(a, Join([STAR], b))
  {
    if a[|a| - 1] == STAR {
      assert Join(a, [STAR]) == a by { assert [STAR][1..] == []; }
      if b[0] == STAR {
        assert Join([STAR], b) == b;
      } else {
        assert Join([STAR], b) == [STAR] + b;
        assert ([STAR] + b)[0] == STAR && ([STAR] + b)[1..] == b;
      }
    } else {
      TextStar(a, b);
    }
  }

  lemma TextStar(a: seq<string>, b: seq<string>)
    requires a != [] && b != [] && a[|a| - 1] != STAR
    ensures Join(Join(a, [STAR]), b) == Join(a, Join([STAR], b))
  {
    assert Join(a, [STAR]) == a + [STAR];
    assert (a + [STAR])[|a|] == STAR;
    if b[0] == STAR {
      assert Join([STAR], b) == b;
      assert a + [STAR] + b[1..] == a + b;
    } else {
      assert Join([STAR], b) == [STAR] + b;
      assert a + [STAR] + b == a + ([STAR] + b);
    }
  }

  lemma JoinOne(a: seq<string>, c: char, b: seq<string>)
    requires Alternating(a) && Alternating(b)
    ensures Join(Join(a, [[c]]), b) == Join(a, Join([[c]], b))
  {
    if a != [] && b != [] {
      if c == '*' {
        assert [c] == STAR;
        JoinStar(a, b);
      } else {
        JoinText(a, [c], b);
      }
    }
  }

  lemma JoinAlternates(a: seq<string>, c: char)
    requires Alternating(a)
    ensures Alternating(Join(a, [[c]]))
  {
  }

  lemma {:induction false} SplitAlternates(pattern: string)
    ensures Alternating(Split(pattern))
  {
    if pattern != "" {
      SplitAlternates(pattern[1..]);
      var b := Split(pattern[1..]);
      var r := Split(pattern);
      assert pattern[0] == '*' <==> [pattern[0]] == STAR;
      if b != [] && pattern[0] != '*' && b[0] != STAR {
        assert r == [[pattern[0]] + b[0]] + b[1..];
        assert |r[0]| > 1;
      }
    }
  }

  /** The body of the loop in splitPattern. */
  function AppendChar(parts: seq<string>, lastChar: char, c: char): seq<string> {
    if c == '*' then if lastChar != '*' then parts + [STAR] else parts
    else if parts != [] && lastChar != '*' then parts[|parts| - 1 := parts[|parts| - 1] + [c]]
    else parts + [[c]]
  }

  lemma AppendIsJoin(a: seq<string>, lastChar: char, c: char)
    requires Alternating(a) && (lastChar == '*') == (a != [] && a[|a| - 1] == STAR)
    ensures Join(a, [[c]]) == AppendChar(a, lastChar, c)
    ensures var r := AppendChar(a, lastChar, c); r != [] && (c == '*' <==> r[|r| - 1] == STAR)
  {
    if a != [] {
      assert [[c]][1..] == [] && a + [] == a;
      assert a[..|a| - 1] + [a[|a| - 1] + [c]] + [] == a[|a| - 1 := a[|a| - 1] + [c]];
      assert |a[|a| - 1] + [c]| > 1;
    }
  }

  lemma SplitStep(parts: seq<string>, pattern: string, i: nat)
    requires i < |pattern| && Alternating(parts) && Join(parts, Split(pattern[i..])) == Split(pattern)
    ensures Alternating(Join(parts, [[pattern[i]]]))
    ensures Join(Join(parts, [[pattern[i]]]), Split(pattern[i + 1..])) == Split(pattern)
  {
    SplitAlternates(pattern[i + 1..]);
    JoinAlternates(parts, pattern[i]);
    JoinOne(parts, pattern[i], Split(pattern[i + 1..]));
    assert pattern[i..][1..] == pattern[i + 1..];
  }

  /** splitPattern: appends to the parts in place, character by character. */
  method SplitPattern(pattern: string) returns (parts: seq<string>)
    ensures parts == Split(pattern) && Alternating(parts)
  {
    parts := [];
    var lastChar := '\0';
    var i := 0;
    while i < |pattern|
      invariant 0 <= i <= |pattern|
      invariant Alternating(parts)
      invariant (lastChar == '*') == (parts != [] && parts[|parts| - 1] == STAR)
      invariant Join(parts, Split(pattern[i..])) == Split(pattern)
    {
      SplitStep(parts, pattern, i);
      AppendIsJoin(parts, lastChar, pattern[i]);
      parts, lastChar := AppendChar(parts, lastChar, pattern[i]), pattern[i];
      i := i + 1;
    }
    SplitAlternates(pattern);
  }

  // ----- matching -----

  /** strings.Index: the first occurrence, or -1. */
  function Index(s: string, part: string): int {
    if |s| < |part| then -1
    else if part <= s then 0
    else var i := Index(s[1..], part); if i < 0 then -1 else i + 1
  }

  predicate OccursAt(s: string, part: string, j: int) {
    0 <= j && j + |part| <= |s| && part == s[j..j + |part|]
  }

  lemma {:induction false} IndexFirst(s: string, part: string)
    ensures Index(s, part) >= 0 ==> OccursAt(s, part, Index(s, part))
    ensures forall j | OccursAt(s, part, j) :: 0 <= Index(s, part) <= j
  {
    if |s| >= |part| && !(part <= s) {
      IndexFirst(s[1..], part);
      forall j | OccursAt(s, part, j) ensures 0 <= Index(s, part) <= j {
        assert s[0..|part|] == s[..|part|];
        if j > 0 {
          assert s[1..][j - 1..j - 1 + |part|] == s[j..j + |part|];
          assert OccursAt(s[1..], part, j - 1);
        }
      }
      var i := Index(s[1..], part);
      if i >= 0 {
        assert s[1..][i..i + |part|] == s[i + 1..i + 1 + |part|];
      }
    }
  }

  /** stringMatchesPattern */
  predicate PartsMatch(parts: seq<string>, s: string)
    requires Alternating(parts)
    decreases |parts|, 0
  {
    if parts == [] then s == ""
    else if parts[0] != STAR then Index(s, parts[0]) == 0 && PartsMatch(parts[1..], s[|parts[0]|..])
    else |parts| == 1 || Scan(parts[1], parts[2..], s)
  }

  /** The loop behind an asterisk: behind every occurrence of `part` that the scan meets. */
  predicate Scan(part: string, rest: seq<string>, s: string)
    requires part != "" && Alternating(rest)
    decreases |rest| + 1, 1, |s|
  {
    IndexFirst(s, part);
    var i := Index(s, part);
    i >= 0 && (PartsMatch(rest, s[i + |part|..]) || Scan(part, rest, s[i + |part|..]))
  }

  method StringMatchesPattern(parts: seq<string>, testString: string) returns (r: bool)
    requires Alternating(parts)
    ensures r == PartsMatch(parts, testString)
    decreases |parts|
  {
    if |parts| == 0 {
      return |testString| == 0;
    }
    var part := parts[0];
    if part != STAR {
      var index := Index(testString, part);
      if index == 0 {
        r := StringMatchesPattern(parts[1..], testString[|part|..]);
        return;
      }
    } else {
      if |parts| == 1 {
        return true;
      }
      var newTestString := testString;
      part := parts[1];
      while true
        invariant PartsMatch(parts, testString) == Scan(part, parts[2..], newTestString)
        decreases |newTestString|
      {
        IndexFirst(newTestString, part);
        var index := Index(newTestString, part);
        if index == -1 {
          break;
        }
        newTestString := newTestString[index + |part|..];
        var result := StringMatchesPattern(parts[2..], newTestString);
        if result {
          return true;
        }
      }
    }
    return false;
  }

  // ----- the parts mean what the pattern means -----

  predicate MatchesParts(parts: seq<string>, s: string)
    decreases |parts|
  {
    if parts == [] then s == ""
    else if parts[0] == STAR then exists k | 0 <= k <= |s| :: MatchesParts(parts[1..], s[k..])
    else parts[0] <= s && MatchesParts(parts[1..], s[|parts[0]|..])
  }

  lemma StarAny(rest: seq<string>, s: string, k: nat)
    requires k <= |s| && MatchesParts(rest, s[k..])
    ensures MatchesParts([STAR] + rest, s)
  {
    assert ([STAR] + rest)[1..] == rest;
  }

  /** An asterisk in front takes in any more text. */
  lemma StarGrows(parts: seq<string>, s: string, k: nat)
    requires parts != [] && parts[0] == STAR && k <= |s| && MatchesParts(parts, s[k..])
    ensures MatchesParts(parts, s)
  {
    var j :| 0 <= j <= |s[k..]| && MatchesParts(parts[1..], s[k..][j..]);
    assert s[k..][j..] == s[k + j..];
  }

  lemma JoinedText(c: char, b: seq<string>, s: string)
    requires c != '*' && Alternating(b)
    ensures MatchesParts(Join([[c]], b), s) <==> s != "" && s[0] == c && MatchesParts(b, s[1..])
  {
    var r := Join([[c]], b);
    if b != [] && b[0] != STAR {
      assert [[c]][..0] == [];
      assert r == [[c] + b[0]] + b[1..] && r[1..] == b[1..];
      assert |r[0]| > 1;
      if s != "" && s[0] == c {
        assert [c] + b[0] <= s <==> b[0] <= s[1..] by {
          assert s == [c] + s[1..];
          if b[0] <= s[1..] { assert ([c] + s[1..])[..|b[0]| + 1] == [c] + b[0]; }
          if [c] + b[0] <= s { assert s[1..][..|b[0]|] == b[0]; }
        }
        if b[0] <= s[1..] {
          assert s[1..][|b[0]|..] == s[|b[0]| + 1..];
        }
      }
    } else {
      assert r == [[c]] + b && r[1..] == b;
      assert [c] <= s <==> s != "" && s[0] == c;
    }
  }

  lemma JoinedStar(b: seq<string>, s: string)
    ensures MatchesParts(Join([STAR], b), s) <==> exists k :: 0 <= k <= |s| && MatchesParts(b, s[k..])
  {
    var r := Join([STAR], b);
    if b != [] && b[0] == STAR {
      assert r == b by { assert [STAR] + b[1..] == b; }
      if MatchesParts(b, s) {
        assert MatchesParts(b, s[0..]) by { assert s[0..] == s; }
      }
      if k :| 0 <= k <= |s| && MatchesParts(b, s[k..]) {
        StarGrows(b, s, k);
      }
    } else {
      assert r == [STAR] + b && r[1..] == b;
    }
  }

  lemma {:induction false} SplitMeans(pattern: string, s: string)
    ensures Matches(pattern, s) <==> MatchesParts(Split(pattern), s)
    decreases |pattern|
  {
    if pattern != "" {
      var c, rest := pattern[0], pattern[1..];
      SplitAlternates(rest);
      if c == '*' {
        JoinedStar(Split(rest), s);
        forall k | 0 <= k <= |s| ensures Matches(rest, s[k..]) <==> MatchesParts(Split(rest), s[k..]) {
          SplitMeans(rest, s[k..]);
        }
      } else {
        JoinedText(c, Split(rest), s);
        if s != "" {
          SplitMeans(rest, s[1..]);
        }
      }
    }
  }

  // ----- the fast scan against the meaning -----

  lemma {:induction false} PartsSound(parts: seq<string>, s: string)
    requires Alternating(parts) && PartsMatch(parts, s)
    ensures MatchesParts(parts, s)
    decreases |parts|, 0
  {
    if parts == [] {
    } else if parts[0] != STAR {
      IndexFirst(s, parts[0]);
      PartsSound(parts[1..], s[|parts[0]|..]);
    } else if |parts| == 1 {
      assert s[|s|..] == "" && parts[1..] == [];
      assert MatchesParts(parts[1..], s[|s|..]);
    } else {
      ScanSound(parts[1], parts[2..], s);
      assert [STAR] + ([parts[1]] + parts[2..]) == parts;
    }
  }

  lemma FoundAt(part: string, rest: seq<string>, s: string, i: nat, u: string)
    requires part != "" && part != STAR && i + |part| <= |s| && s[i..i + |part|] == part
    requires u == s[i + |part|..] && MatchesParts(rest, u)
    ensures MatchesParts([STAR] + ([part] + rest), s)
  {
    assert s[i..][|part|..] == u && s[i..][..|part|] == part;
    assert ([part] + rest)[1..] == rest;
    StarAny([part] + rest, s, i);
  }

  lemma {:induction false} ScanSound(part: string, rest: seq<string>, s: string)
    requires part != "" && part != STAR && Alternating(rest) && Scan(part, rest, s)
    ensures MatchesParts([STAR] + ([part] + rest), s)
    decreases |rest| + 1, 1, |s|
  {
    IndexFirst(s, part);
    var i := Index(s, part);
    var u := s[i + |part|..];
    if PartsMatch(rest, u) {
      PartsSound(rest, u);
      FoundAt(part, rest, s, i, u);
    } else {
      ScanSound(part, rest, u);
      StarGrows([STAR] + ([part] + rest), s, i + |part|);
    }
  }

  /** A proper, non-empty text that the part both starts and ends with. */
  predicate HasBorder(part: string) {
    exists b | 0 < b < |part| :: part[..b] == part[|part| - b..]
  }

  predicate Final(parts: seq<string>) {
    (forall i | 0 <= i < |parts| :: parts[i] != STAR)
    || (parts != [] && (parts[|parts| - 1] == STAR || !HasBorder(parts[|parts| - 1])))
  }

  lemma OverlapBorders(s: string, part: string, i: int, e: int)
    requires OccursAt(s, part, i) && OccursAt(s, part, e) && i < e < i + |part|
    ensures HasBorder(part)
  {
    var b := i + |part| - e;
    assert part[|part| - b..] == s[e..i + |part|];
    assert part[..b] == s[e..e + b];
  }

  /** The scan for the last part finds it at the end of the text. */
  lemma {:induction false} ScanFindsEnd(part: string, s: string)
    requires part != "" && !HasBorder(part) && OccursAt(s, part, |s| - |part|)
    ensures Scan(part, [], s)
    decreases |s|
  {
    IndexFirst(s, part);
    var i, e := Index(s, part), |s| - |part|;
    if i < e {
      if i + |part| > e {
        OverlapBorders(s, part, i, e);
      }
      var u := s[i + |part|..];
      assert u[|u| - |part|..] == s[e..];
      ScanFindsEnd(part, u);
    } else {
      assert s[i + |part|..] == "";
    }
  }

  lemma FinalTail(parts: seq<string>, i: nat)
    requires Alternating(parts) && Final(parts) && i < |parts|
    ensures Alternating(parts[i..]) && Final(parts[i..])
  {
    assert parts[i..][|parts[i..]| - 1] == parts[|parts| - 1];
  }

  /** Where the text behind an asterisk is matched, its first occurrence will do. */
  lemma FirstOccurrence(part: string, rest: seq<string>, s: string, k: nat)
    requires rest != [] && rest[0] == STAR
    requires OccursAt(s, part, k) && MatchesParts(rest, s[k + |part|..])
    ensures OccursAt(s, part, Index(s, part)) && MatchesParts(rest, s[Index(s, part) + |part|..])
  {
    IndexFirst(s, part);
    var i := Index(s, part);
    assert s[i + |part|..][k - i..] == s[k + |part|..];
    StarGrows(rest, s[i + |part|..], k - i);
  }

  lemma StarThenText(parts: seq<string>, s: string) returns (k: nat)
    requires Alternating(parts) && |parts| > 1 && parts[0] == STAR && MatchesParts(parts, s)
    ensures OccursAt(s, parts[1], k) && MatchesParts(parts[2..], s[k + |parts[1]|..])
  {
    k :| 0 <= k <= |s| && MatchesParts(parts[1..], s[k..]);
    assert parts[1..][0] == parts[1] && parts[1..][1..] == parts[2..];
    assert s[k..][|parts[1]|..] == s[k + |parts[1]|..];
  }

  lemma {:induction false} PartsComplete(parts: seq<string>, s: string)
    requires Alternating(parts) && Final(parts) && MatchesParts(parts, s)
    ensures PartsMatch(parts, s)
    decreases |parts|
  {
    if parts == [] {
    } else if parts[0] != STAR {
      IndexFirst(s, parts[0]);
      assert OccursAt(s, parts[0], 0);
      if |parts| > 1 {
        FinalTail(parts, 1);
      }
      PartsComplete(parts[1..], s[|parts[0]|..]);
    } else if |parts| > 1 {
      var k := StarThenText(parts, s);
      if |parts| == 2 {
        ScanFindsEnd(parts[1], s);
      } else {
        FirstOccurrence(parts[1], parts[2..], s, k);
        FinalTail(parts, 2);
        PartsComplete(parts[2..], s[Index(s, parts[1]) + |parts[1]|..]);
      }
    }
  }

  predicate Matcher(pattern: string, s: string) {
    SplitAlternates(pattern);
    PartsMatch(Split(pattern), s)
  }

  /** A match the scan reports is one. */
  lemma MatcherSound(pattern: string, s: string)
    requires Matcher(pattern, s)
    ensures Matches(pattern, s)
  {
    SplitAlternates(pattern);
    PartsSound(Split(pattern), s);
    SplitMeans(pattern, s);
  }

  /** The scan reports every match if the pattern has no asterisk, ends in one, or ends in a
      text without a border. */
  lemma MatcherComplete(pattern: string, s: string)
    requires Final(Split(pattern)) && Matches(pattern, s)
    ensures Matcher(pattern, s)
  {
    SplitAlternates(pattern);
    SplitMeans(pattern, s);
    PartsComplete(Split(pattern), s);
  }
}
