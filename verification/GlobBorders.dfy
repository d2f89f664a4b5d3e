/** Exactly when the scan is right about every text, for patterns that end in a text behind an
    asterisk: the scan takes first occurrences, and a text with a border can overlap itself. */
module GlobBorders {
  import opened Glob

  // ----- a text that the scan misses -----

  /** A text with a border, shifted by what is in front of the border: the scan finds it at the
      start and then not again. */
  lemma ShiftedCopy(x: string, y: string, part: string, s: string)
    requires part == x + y && y <= part && s == x + part && x != "" && y != ""
    ensures OccursAt(s, part, |s| - |part|) && !Scan(part, [], s)
  {
    assert part == y + part[|y|..];
    assert s == x + (y + part[|y|..]) == part + part[|y|..];
    assert Index(s, part) == 0;
    assert Index(s[|part|..], part) == -1;
  }

  lemma BorderShifts(part: string) returns (x: string)
    requires HasBorder(part)
    ensures 0 < |x| < |part| && x <= part && !Scan(part, [], x + part)
  {
    var b :| 0 < b < |part| && part[..b] == part[|part| - b..];
    x := part[..|part| - b];
    var y := part[|part| - b..];
    assert part == x + y;
    ShiftedCopy(x, y, part, x + part);
  }

  // ----- texts and asterisks in front of the last asterisk -----

  /** The shortest text that matches. */
  function Shortest(parts: seq<string>): string {
    if parts == [] then "" else (if parts[0] == STAR then "" else parts[0]) + Shortest(parts[1..])
  }

  lemma {:induction false} ShortestMatches(parts: seq<string>)
    ensures MatchesParts(parts, Shortest(parts))
  {
    if parts != [] {
      ShortestMatches(parts[1..]);
      var w := Shortest(parts);
      if parts[0] == STAR {
        assert w == Shortest(parts[1..]);
        assert w[0..] == w;
      } else {
        assert w[|parts[0]|..] == Shortest(parts[1..]);
      }
    }
  }

  lemma {:induction false} NoShorter(parts: seq<string>, s: string)
    requires MatchesParts(parts, s)
    ensures |s| >= |Shortest(parts)|
    ensures (forall i | 0 <= i < |parts| :: parts[i] != STAR) ==> |s| == |Shortest(parts)|
  {
    if parts != [] {
      if parts[0] == STAR {
        var k :| 0 <= k <= |s| && MatchesParts(parts[1..], s[k..]);
        NoShorter(parts[1..], s[k..]);
      } else {
        NoShorter(parts[1..], s[|parts[0]|..]);
      }
    }
  }

  lemma {:induction false} MatchesThen(a: seq<string>, b: seq<string>, s: string, t: string)
    requires MatchesParts(a, s) && MatchesParts(b, t)
    ensures MatchesParts(a + b, s + t)
  {
    if a == [] {
      assert a + b == b && s + t == t;
    } else {
      assert (a + b)[1..] == a[1..] + b;
      if a[0] == STAR {
        var k :| 0 <= k <= |s| && MatchesParts(a[1..], s[k..]);
        MatchesThen(a[1..], b, s[k..], t);
        assert (s + t)[k..] == s[k..] + t;
      } else {
        var n := |a[0]|;
        MatchesThen(a[1..], b, s[n..], t);
        assert (s + t)[n..] == s[n..] + t && (s + t)[..n] == s[..n];
      }
    }
  }

  /** The last part, if it is a text, is at the end. */
  lemma {:induction false} LastAtEnd(parts: seq<string>, s: string)
    requires parts != [] && parts[|parts| - 1] != STAR && MatchesParts(parts, s)
    ensures var t := parts[|parts| - 1]; |t| <= |s| && s[|s| - |t|..] == t
  {
    var t := parts[|parts| - 1];
    if |parts| == 1 {
      assert s[|t|..] == "";
    } else if parts[0] == STAR {
      var k :| 0 <= k <= |s| && MatchesParts(parts[1..], s[k..]);
      LastAtEnd(parts[1..], s[k..]);
      Behind(s, k, |s| - k - |t|);
    } else {
      var n := |parts[0]|;
      LastAtEnd(parts[1..], s[n..]);
      Behind(s, n, |s| - n - |t|);
    }
  }

  // ----- what a reported match is made of -----

  /** The parts in front match up to `e`, and the scan for the last text succeeds from there. */
  predicate StartsAt(front: seq<string>, tail: string, s: string, e: nat)
    requires tail != ""
  { e <= |s| && MatchesParts(front, s[..e]) && Scan(tail, [], s[e..]) }

  /** The scan for the last text starts where the parts in front have matched. */
  lemma {:induction false} ScanStarts(front: seq<string>, tail: string, s: string, parts: seq<string>) returns (e: nat)
    requires tail != "" && (front == [] || front[|front| - 1] != STAR) && parts == front + [STAR, tail]
    requires Alternating(parts) && PartsMatch(parts, s) == true
    ensures StartsAt(front, tail, s, e) == true
    decreases |front|, 0, |s|
  {
    if front == [] {
      e := 0;
      NothingInFront(tail, s, parts);
    } else if front[0] != STAR {
      TextInFront(front, s, parts);
      var d := ScanStarts(front[1..], tail, s[|front[0]|..], parts[1..]);
      e := |front[0]| + d;
      TextStarts(front, tail, s, d);
    } else {
      StarInFront(front, tail, s, parts);
      e := LoopStarts(front[1], front[2..], tail, s, parts[2..], front);
    }
  }

  lemma NothingInFront(tail: string, s: string, parts: seq<string>)
    requires tail != "" && parts == [STAR, tail] && Alternating(parts) && PartsMatch(parts, s) == true
    ensures StartsAt([], tail, s, 0) == true
  {
    assert parts[2..] == [] && s[0..] == s;
  }

  lemma TextInFront(front: seq<string>, s: string, parts: seq<string>)
    requires front != [] && front[0] != STAR && front <= parts && Alternating(parts) && PartsMatch(parts, s) == true
    ensures front[0] <= s && PartsMatch(parts[1..], s[|front[0]|..]) == true
  {
    IndexFirst(s, front[0]);
  }

  lemma TextStarts(front: seq<string>, tail: string, s: string, d: nat)
    requires tail != "" && front != [] && front[0] != STAR && front[0] <= s
    requires StartsAt(front[1..], tail, s[|front[0]|..], d) == true
    ensures StartsAt(front, tail, s, |front[0]| + d) == true
  {
    var n := |front[0]|;
    Behind(s, n, d);
    assert s[..n + d][n..] == s[n..][..d] && s[..n + d][..n] == s[..n];
  }

  lemma StarInFront(front: seq<string>, tail: string, s: string, parts: seq<string>)
    requires front != [] && front[0] == STAR && front[|front| - 1] != STAR && parts == front + [STAR, tail]
    requires Alternating(parts) && PartsMatch(parts, s) == true
    ensures |front| > 1 && front[1] != STAR && front == [STAR] + ([front[1]] + front[2..])
    ensures parts[2..] == front[2..] + [STAR, tail] && Scan(front[1], parts[2..], s) == true
  {
  }

  lemma {:induction false} LoopStarts(part: string, front: seq<string>, tail: string, s: string,
        rest: seq<string>, whole: seq<string>)
    returns (e: nat)
    requires part != "" && part != STAR && tail != "" && (front == [] || front[|front| - 1] != STAR)
    requires rest == front + [STAR, tail] && whole == [STAR] + ([part] + front)
    requires Alternating(rest) && Scan(part, rest, s) == true
    ensures StartsAt(whole, tail, s, e) == true
    decreases |front|, 1, |s|
  {
    var i, u, hit := ScanCases(part, rest, s);
    if hit {
      var d := ScanStarts(front, tail, u, rest);
      e := i + |part| + d;
      HitStarts(part, front, tail, s, i, d, whole);
    } else {
      var d := LoopStarts(part, front, tail, u, rest, whole);
      e := i + |part| + d;
      MissStarts(whole, tail, s, i + |part|, d);
    }
  }

  lemma HitStarts(part: string, front: seq<string>, tail: string, s: string, i: nat, d: nat, whole: seq<string>)
    requires OccursAt(s, part, i) && part != STAR && tail != "" && whole == [STAR] + ([part] + front)
    requires StartsAt(front, tail, s[i + |part|..], d) == true
    ensures StartsAt(whole, tail, s, i + |part| + d) == true
  {
    HitMatches(part, front, s, i, d);
    Behind(s, i + |part|, d);
  }

  lemma MissStarts(whole: seq<string>, tail: string, s: string, n: nat, d: nat)
    requires n <= |s| && tail != "" && whole != [] && whole[0] == STAR && StartsAt(whole, tail, s[n..], d) == true
    ensures StartsAt(whole, tail, s, n + d) == true
  {
    MissMatches(whole, s, n, d);
    Behind(s, n, d);
  }

  lemma Behind(s: string, n: nat, d: nat)
    requires n + d <= |s|
    ensures s[n..][d..] == s[n + d..]
  {
  }

  /** The loop goes on behind the first occurrence, which is a hit or not. */
  lemma ScanCases(part: string, rest: seq<string>, s: string) returns (i: nat, u: string, hit: bool)
    requires part != "" && Alternating(rest) && Scan(part, rest, s) == true
    ensures OccursAt(s, part, i) && u == s[i + |part|..]
    ensures if hit then PartsMatch(rest, u) == true else Scan(part, rest, u) == true
  {
    IndexFirst(s, part);
    i := Index(s, part);
    u := s[i + |part|..];
    hit := PartsMatch(rest, u);
  }

  lemma FirstOne(s: string, part: string, e: nat) returns (i: nat)
    requires OccursAt(s, part, e)
    ensures i == Index(s, part) <= e && OccursAt(s, part, i)
  {
    IndexFirst(s, part);
    i := Index(s, part);
  }

  lemma ScanHit(part: string, rest: seq<string>, s: string, i: nat)
    requires part != "" && Alternating(rest) && i == Index(s, part) && OccursAt(s, part, i)
    requires PartsMatch(rest, s[i + |part|..]) == true
    ensures Scan(part, rest, s) == true
  {
  }

  lemma ScanMiss(part: string, rest: seq<string>, s: string, i: nat, u: string)
    requires part != "" && Alternating(rest) && i == Index(s, part) && OccursAt(s, part, i)
    requires u == s[i + |part|..] && Scan(part, rest, u) == true
    ensures Scan(part, rest, s) == true
  {
  }

  lemma HitMatches(part: string, front: seq<string>, s: string, i: nat, d: nat)
    requires OccursAt(s, part, i) && part != STAR && i + |part| + d <= |s| && MatchesParts(front, s[i + |part|..][..d]) == true
    ensures MatchesParts([STAR] + ([part] + front), s[..i + |part| + d]) == true
  {
    var v := s[..i + |part| + d];
    assert v[i..][|part|..] == s[i + |part|..][..d] && v[i..][..|part|] == part;
    assert ([part] + front)[1..] == front;
    StarAny([part] + front, v, i);
  }

  lemma MissMatches(parts: seq<string>, s: string, n: nat, d: nat)
    requires n + d <= |s| && parts != [] && parts[0] == STAR && MatchesParts(parts, s[n..][..d]) == true
    ensures MatchesParts(parts, s[..n + d]) == true
  {
    assert s[..n + d][n..] == s[n..][..d];
    StarGrows(parts, s[..n + d], n);
  }

  // ----- exactly when the scan is right -----

  /** Where the parts in front can match is fixed: there is no asterisk among them, or the last of
      them holds a character that the last text does not. */
  predicate Fixed(front: seq<string>, tail: string) {
    || (forall i | 0 <= i < |front| :: front[i] != STAR)
    || (front != [] && front[|front| - 1] != STAR && exists c | c in front[|front| - 1] :: c !in tail)
  }

  /** The last place of a character. */
  lemma LastPlace(t: string, c: char) returns (k: nat)
    requires c in t
    ensures k < |t| && t[k] == c && forall j | k < j < |t| :: t[j] != c
  {
    k := |t| - 1;
    while t[k] != c
      invariant k < |t| && forall j | k < j < |t| :: t[j] != c
      invariant exists j :: 0 <= j <= k && t[j] == c
      decreases k
    {
      k := k - 1;
    }
  }

  /** So the parts in front match no more than the shortest text of theirs. */
  lemma FixedEnd(front: seq<string>, tail: string, x: string, e: nat)
    requires Fixed(front, tail) && forall c | c in x :: c in tail
    requires var s := Shortest(front) + (x + tail); e <= |s| && MatchesParts(front, s[..e])
    ensures e == |Shortest(front)|
  {
    var w := Shortest(front);
    var s := w + (x + tail);
    NoShorter(front, s[..e]);
    if !(forall i | 0 <= i < |front| :: front[i] != STAR) {
      var c :| c in front[|front| - 1] && c !in tail;
      ForeignEnd(front, w, x + tail, c, e);
    }
  }

  lemma ForeignEnd(front: seq<string>, w: string, v: string, c: char, e: nat)
    requires front != [] && front[|front| - 1] != STAR && c in front[|front| - 1] && c !in v
    requires w == Shortest(front) && e <= |w + v| && MatchesParts(front, (w + v)[..e])
    ensures e <= |w|
  {
    var t := front[|front| - 1];
    ShortestMatches(front);
    LastAtEnd(front, w);
    LastAtEnd(front, (w + v)[..e]);
    SameEnd(w, v, t, c, e);
  }

  lemma SameEnd(w: string, v: string, t: string, c: char, e: nat)
    requires e <= |w + v| && |t| <= |w| && w[|w| - |t|..] == t && |t| <= e && (w + v)[..e][e - |t|..] == t
    requires c in t && c !in v
    ensures e <= |w|
  {
    var k := LastPlace(t, c);
    assert (w + v)[e - |t| + k] == (w + v)[..e][e - |t|..][k] == c;
    LastPlaceIn(w, v, t, c, k, e - |t| + k);
  }

  lemma LastPlaceIn(w: string, v: string, t: string, c: char, k: nat, p: nat)
    requires |t| <= |w| && w[|w| - |t|..] == t && k < |t| && (forall j | k < j < |t| :: t[j] != c) && c !in v
    requires p < |w + v| && (w + v)[p] == c
    ensures p <= |w| - |t| + k
  {
    forall q | |w| <= q < |w + v| ensures (w + v)[q] != c {
      assert (w + v)[q] == v[q - |w|];
    }
    forall q | |w| - |t| + k < q < |w| ensures (w + v)[q] != c {
      assert (w + v)[q] == w[|w| - |t|..][q - (|w| - |t|)];
    }
  }

  /** With a border there is a text that matches and is not reported. */
  lemma BorderMisses(front: seq<string>, tail: string) returns (s: string)
    requires front == [] || front[|front| - 1] != STAR
    requires tail != "" && tail != STAR && Alternating(front + [STAR, tail]) && Fixed(front, tail) && HasBorder(tail)
    ensures MatchesParts(front + [STAR, tail], s) && !PartsMatch(front + [STAR, tail], s)
  {
    var x := BorderShifts(tail);
    var w := Shortest(front);
    s := w + (x + tail);
    ShortestMatches(front);
    TailMatches(x, tail);
    MatchesThen(front, [STAR, tail], w, x + tail);
    if PartsMatch(front + [STAR, tail], s) {
      ReportedScan(front, tail, x, s);
    }
  }

  lemma ReportedScan(front: seq<string>, tail: string, x: string, s: string)
    requires front == [] || front[|front| - 1] != STAR
    requires tail != "" && tail != STAR && Alternating(front + [STAR, tail]) && Fixed(front, tail) && x <= tail
    requires s == Shortest(front) + (x + tail) && PartsMatch(front + [STAR, tail], s)
    ensures Scan(tail, [], x + tail)
  {
    var e := ScanStarts(front, tail, s, front + [STAR, tail]);
    assert forall c | c in x :: c in tail;
    FixedEnd(front, tail, x, e);
    assert s[e..] == x + tail;
  }

  lemma TailMatches(x: string, tail: string)
    requires tail != STAR
    ensures MatchesParts([STAR, tail], x + tail)
  {
    var s := x + tail;
    assert s[|x|..] == tail && tail[|tail|..] == "" && [tail][1..] == [];
    assert MatchesParts([tail], s[|x|..]);
    StarAny([tail], s, |x|);
    assert [STAR] + [tail] == [STAR, tail];
  }

  predicate EndsInText(parts: seq<string>) { |parts| > 1 && parts[|parts| - 1] != STAR && parts[|parts| - 2] == STAR }

  predicate Right(pattern: string, s: string) { Matcher(pattern, s) <==> Matches(pattern, s) }

  /** For a pattern that ends in a text behind an asterisk and whose parts in front are fixed, the
      scan is right about every string if and only if the last text has no border. */
  lemma BorderExactly(pattern: string)
    requires var parts := Split(pattern); EndsInText(parts) && Fixed(parts[..|parts| - 2], parts[|parts| - 1])
    ensures (forall s :: Right(pattern, s)) <==> !HasBorder(Split(pattern)[|Split(pattern)| - 1])
  {
    var parts := Split(pattern);
    var front, tail := parts[..|parts| - 2], parts[|parts| - 1];
    assert parts == front + [STAR, tail];
    SplitAlternates(pattern);
    if HasBorder(tail) {
      var s := BorderMisses(front, tail);
      SplitMeans(pattern, s);
      assert !Right(pattern, s);
    } else {
      forall s ensures Right(pattern, s) {
        if Matcher(pattern, s) { MatcherSound(pattern, s); }
        if Matches(pattern, s) { MatcherComplete(pattern, s); }
      }
    }
  }

  // ----- patterns with one asterisk -----

  predicate NoStar(t: string) { forall i | 0 <= i < |t| :: t[i] != '*' }

  lemma {:induction false} SplitText(t: string, rest: string)
    requires NoStar(t) && t != "" && (rest == "" || rest[0] == '*')
    ensures Split(t + rest) == [t] + Split(rest) && t != STAR
  {
    var c, more := t[0], t[1..];
    var b := Split(rest);
    assert (t + rest)[1..] == more + rest && [c] != STAR;
    if rest != "" {
      SplitFirst(rest);
    }
    if more == "" {
      assert more + rest == rest && t == [c];
    } else {
      SplitText(more, rest);
      assert [[c]][..0] + [[c] + more] + b == [[c] + more] + b;
      assert t == [c] + more && ([more] + b)[1..] == b;
    }
  }

  lemma SplitFirst(rest: string)
    requires rest != "" && rest[0] == '*'
    ensures Split(rest) != [] && Split(rest)[0] == STAR
  {
    assert [rest[0]] == STAR;
  }

  lemma SplitStar(t: string)
    requires NoStar(t) && t != ""
    ensures Split("*" + t) == [STAR, t]
  {
    assert t + "" == t;
    SplitText(t, "");
    assert ("*" + t)[1..] == t && ['*'] == STAR;
    assert Split(t) == [t];
    assert [STAR] + [t] == [STAR, t];
  }

  /** The parts of a pattern with one asterisk before a last text. */
  lemma OneAsteriskParts(head: string, tail: string)
    requires NoStar(head) && NoStar(tail) && tail != ""
    ensures Split(head + ("*" + tail)) == (if head == "" then [] else [head]) + [STAR, tail]
    ensures head != STAR && tail != STAR
  {
    SplitStar(tail);
    if head == "" {
      assert head + ("*" + tail) == "*" + tail;
    } else {
      SplitText(head, "*" + tail);
    }
  }

  /** For a pattern with one asterisk before a last text, the scan is right about every string if
      and only if that text has no border. */
  lemma OneAsteriskExactly(head: string, tail: string)
    requires NoStar(head) && NoStar(tail) && tail != ""
    ensures (forall s :: Right(head + ("*" + tail), s)) <==> !HasBorder(tail)
  {
    OneAsteriskParts(head, tail);
    var parts := Split(head + ("*" + tail));
    assert parts[..|parts| - 2] == if head == "" then [] else [head];
    BorderExactly(head + ("*" + tail));
  }

  /** `*aa` does not find `aaa`. */
  lemma OverlapMissed()
    ensures Matches("*aa", "aaa") && !Matcher("*aa", "aaa")
  {
    var tail := "aa";
    assert "*aa" == "*" + tail;
    SplitStar(tail);
    SplitAlternates("*aa");
    assert tail[..1] == tail[1..];
    ShiftedCopy("a", "a", tail, "aaa");
    assert [STAR, tail][2..] == [];
    TailMatches("a", tail);
    assert "a" + tail == "aaa";
    SplitMeans("*aa", "aaa");
  }

  // ----- a border does no harm where the parts in front are not fixed -----

  lemma OccursLater(s: string, n: nat, part: string, j: int)
    requires n <= |s|
    ensures j >= 0 ==> (OccursAt(s[n..], part, j) <==> OccursAt(s, part, n + j))
    ensures j < 0 ==> !OccursAt(s[n..], part, j)
  {
    if j >= 0 && n + j + |part| <= |s| {
      assert s[n..][j..j + |part|] == s[n + j..n + j + |part|];
    }
  }

  /** No earlier occurrence overlaps the one at `e`. */
  predicate Alone(s: string, part: string, e: int) { forall j | e - |part| < j < e :: !OccursAt(s, part, j) }

  lemma AloneLater(s: string, n: nat, part: string, e: nat)
    requires n <= |s| && n <= e && Alone(s, part, e) == true
    ensures Alone(s[n..], part, e - n) == true
  {
    forall j | e - n - |part| < j < e - n ensures !OccursAt(s[n..], part, j) {
      OccursLater(s, n, part, j);
    }
  }

  lemma AloneGap(s: string, part: string, i: nat, e: nat)
    requires Alone(s, part, e) == true && OccursAt(s, part, i) && i < e
    ensures i + |part| <= e
  {
  }

  /** Such an occurrence is met by the scan. */
  lemma {:induction false} ScanMeets(part: string, rest: seq<string>, s: string, e: nat)
    requires part != "" && Alternating(rest) && OccursAt(s, part, e) && PartsMatch(rest, s[e + |part|..])
    requires Alone(s, part, e) == true
    ensures Scan(part, rest, s) == true
    decreases |s|
  {
    var i := FirstOne(s, part, e);
    if i == e {
      ScanHit(part, rest, s, i);
    } else {
      var n := i + |part|;
      AloneGap(s, part, i, e);
      AloneLater(s, n, part, e);
      LaterMeets(part, rest, s, n, e);
      ScanMeets(part, rest, s[n..], e - n);
      ScanMiss(part, rest, s, i, s[n..]);
    }
  }

  lemma LaterMeets(part: string, rest: seq<string>, s: string, n: nat, e: nat)
    requires n <= e && OccursAt(s, part, e) && Alternating(rest) && PartsMatch(rest, s[e + |part|..]) == true
    ensures OccursAt(s[n..], part, e - n) && PartsMatch(rest, s[n..][e - n + |part|..]) == true
  {
    OccursLater(s, n, part, e - n);
    Behind(s, n, e - n + |part|);
  }

  /** `*a*aa` is matched completely, although `aa` has a border. */
  lemma SharedLetterComplete(s: string)
    ensures Right("*a*aa", s) && HasBorder("aa")
  {
    assert "aa"[..1] == "aa"[1..];
    if Matcher("*a*aa", s) {
      MatcherSound("*a*aa", s);
    }
    if Matches("*a*aa", s) {
      SharedLetterReported(s);
    }
  }

  lemma SharedLetterReported(s: string)
    requires Matches("*a*aa", s)
    ensures Matcher("*a*aa", s)
  {
    SharedLetterParts();
    SplitMeans("*a*aa", s);
    var i, e := SharedLetterPlaces(s);
    SharedLetterFound(s, i);
  }

  lemma SharedLetterParts()
    ensures Split("*a*aa") == ["*", "a", "*", "aa"] && Alternating(["*", "a", "*", "aa"]) && Alternating(["*", "aa"])
  {
    SplitStar("aa");
    assert "*" + "aa" == "*aa" && "a" + "*aa" == "a*aa";
    SplitText("a", "*aa");
    assert Split("a*aa") == ["a", "*", "aa"];
    assert "*a*aa"[1..] == "a*aa" && ["*a*aa"[0]] == STAR;
    SplitAlternates("*a*aa");
  }

  /** The text ends in `aa` and has an `a` before that. */
  lemma SharedLetterPlaces(s: string) returns (i: nat, e: nat)
    requires MatchesParts(["*", "a", "*", "aa"], s)
    ensures e == |s| - 2 && i < e && s[i] == 'a' && s[e..] == "aa"
  {
    i := LetterPlace("a", ["*", "aa"], ["*", "a", "*", "aa"], s);
    var u := s[i + 1..];
    LastAtEnd(["*", "aa"], u);
    e := |s| - 2;
    Behind(s, i + 1, |u| - 2);
  }

  lemma LetterPlace(part: string, rest: seq<string>, parts: seq<string>, s: string) returns (k: nat)
    requires |part| == 1 && part != STAR && parts == [STAR] + ([part] + rest) && MatchesParts(parts, s)
    ensures k < |s| && s[k] == part[0] && MatchesParts(rest, s[k + 1..]) == true
  {
    assert parts[1..] == [part] + rest && parts[1..][1..] == rest;
    k :| 0 <= k <= |s| && MatchesParts(parts[1..], s[k..]);
    Behind(s, k, 1);
  }

  lemma SharedLetterFound(s: string, i: nat)
    requires |s| > 2 && i < |s| - 2 && s[i] == 'a' && s[|s| - 2..] == "aa"
    ensures Alternating(["*", "a", "*", "aa"]) && PartsMatch(["*", "a", "*", "aa"], s)
  {
    var k := if s[|s| - 3] == 'a' then |s| - 3 else i;
    SharedLetterParts();
    DoubleFound("aa", ["*", "aa"], s, k, s[k + 1..]);
    LetterFound("a", ["*", "aa"], ["*", "a", "*", "aa"], s, k, s[k + 1..]);
  }

  lemma DoubleFound(part: string, parts: seq<string>, s: string, k: nat, u: string)
    requires |part| == 2 && part[0] == part[1] == 'a' && parts == [STAR, part] && Alternating(parts)
    requires |s| > 2 && s[|s| - 2..] == part && k < |s| - 2 && u == s[k + 1..]
    requires k == |s| - 3 || s[|s| - 3] != 'a'
    ensures PartsMatch(parts, u)
  {
    Behind(s, k + 1, |u| - 2);
    NoOverlap(u, part);
    LastFound(part, parts, u);
  }

  lemma NoOverlap(u: string, part: string)
    requires |part| == 2 && part[0] == part[1] == 'a' && |u| >= 2 && u[|u| - 2..] == part
    requires |u| > 2 ==> u[|u| - 3] != 'a'
    ensures OccursAt(u, part, |u| - |part|)
    ensures Alone(u, part, |u| - |part|)
  {
    forall j | |u| - 4 < j < |u| - 2 ensures !OccursAt(u, part, j) {
      OccursFirst(u, part, j);
    }
  }

  lemma OccursFirst(u: string, part: string, j: int)
    requires part != ""
    ensures OccursAt(u, part, j) ==> u[j] == part[0]
  {
    if OccursAt(u, part, j) {
      assert u[j] == u[j..j + |part|][0];
    }
  }

  /** The last text is found at the end if no earlier occurrence overlaps it. */
  lemma LastFound(part: string, parts: seq<string>, u: string)
    requires part != "" && part != STAR && parts == [STAR, part] && Alternating(parts)
    requires OccursAt(u, part, |u| - |part|)
    requires Alone(u, part, |u| - |part|)
    ensures PartsMatch(parts, u)
  {
    EmptyMatches(u[|u| - |part| + |part|..]);
    ScanMeets(part, [], u, |u| - |part|);
    StarScans(parts, u);
    assert parts[2..] == [];
  }

  /** A text of one letter is met wherever it occurs. */
  lemma LetterFound(part: string, rest: seq<string>, parts: seq<string>, s: string, k: nat, u: string)
    requires |part| == 1 && part != STAR && parts == [STAR, part] + rest && Alternating(parts) && Alternating(rest)
    requires k < |s| && s[k] == part[0] && u == s[k + 1..] && PartsMatch(rest, u)
    ensures PartsMatch(parts, s)
  {
    assert s[k..k + 1] == part;
    ScanMeets(part, rest, s, k);
    StarScans(parts, s);
    assert parts[2..] == rest;
  }

  lemma EmptyMatches(s: string)
    requires s == ""
    ensures Alternating([]) && PartsMatch([], s)
  {
  }

  lemma StarScans(parts: seq<string>, s: string)
    requires Alternating(parts) && |parts| > 1 && parts[0] == STAR
    ensures PartsMatch(parts, s) == Scan(parts[1], parts[2..], s)
  {
  }
}
