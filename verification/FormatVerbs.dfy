/** Which verb stands behind a formatter symbol, said without the search for it. */
module FormatVerbs {
  import opened FormatCompiler

  /** `w` is all the letters at the start of `s`. */
  predicate AreLetters(r: Registry, s: string, w: string) {
    && w <= s && (forall i | 0 <= i < |w| :: IsLetter(r, w[i])) && (|w| < |s| ==> !IsLetter(r, s[|w|]))
  }

  predicate NoName(w: string, names: set<string>) { forall j | 0 < j <= |w| :: w[..j] !in names }

  /** The first `k` letters are a name, and no more letters are. */
  predicate LongestName(w: string, names: set<string>, k: nat) {
    0 < k <= |w| && w[..k] in names && forall j | k < j <= |w| :: w[..j] !in names
  }

  /** An argument stands behind the first `k` characters and ends at `end`. */
  predicate Argument(s: string, k: nat, end: nat) {
    k < end < |s| && s[k] == '(' && s[end] == ')' && ')' !in s[k..end]
  }

  predicate Unclosed(s: string, k: nat) { k < |s| && s[k] == '(' && ')' !in s[k..] }

  /** The longest parameterless name, if there is one, and its length. */
  ghost predicate ChoosesPlain(w: string, names: set<string>, f: Found) {
    forall k: nat | LongestName(w, names, k) :: f == Found(Plain(w[..k]), k)
  }

  /** The longest parameterized name of length `p`: with the text between the parentheses if they
      follow, and only then, and if all letters are the name. */
  ghost predicate ChoosesCreated(s: string, w: string, p: nat, f: Found)
    requires p <= |w| <= |s|
  {
    && (p < |w| || p == |s| || s[p] != '(' ==> f == Found(Created(w[..p], ""), p))
    && (forall end: nat | p == |w| && Argument(s, p, end) :: f == Found(Created(w, s[p + 1..end]), end + 1))
    && (p == |w| && Unclosed(s, p) ==> f.NotFound?)
  }

  /** The letters from A to Z and a to z, by code points, and beyond ASCII those that the registry holds. */
  lemma LetterCodes(r: Registry, c: char)
    ensures IsLetter(r, c) <==> 65 <= c as int <= 90 || 97 <= c as int <= 122 || (c as int > 126 && c in r.letters)
  {
  }

  lemma {:induction false} LettersAre(r: Registry, s: string)
    ensures AreLetters(r, s, Letters(r, s))
  {
    if s != "" && IsLetter(r, s[0]) {
      LettersAre(r, s[1..]);
      assert s == [s[0]] + s[1..];
    }
  }

  lemma {:induction false} SameLetters(r: Registry, s: string, w: string)
    requires AreLetters(r, s, w)
    ensures w == Letters(r, s)
    decreases |s|
  {
    if w != "" {
      assert s[0] == w[0] && s[1..] == w[1..] + s[|w|..] && w == [w[0]] + w[1..];
      assert |w| < |s| ==> s[1..][|w| - 1] == s[|w|];
      SameLetters(r, s[1..], w[1..]);
    }
  }

  lemma LongestIs(w: string, names: set<string>, k: nat)
    requires LongestName(w, names, k)
    ensures Longest(w, names) == k
  {
    assert w[..k] in names;
  }

  lemma {:induction false} FirstIndex(s: string, c: char, i: nat)
    requires i < |s| && s[i] == c && c !in s[..i]
    ensures IndexOf(s, c) == i
  {
    if i > 0 {
      assert s[..i][0] == s[0] && s[..i] == [s[0]] + s[1..][..i - 1];
      FirstIndex(s[1..], c, i - 1);
    }
  }

  lemma NoIndex(s: string, c: char)
    requires c !in s
    ensures IndexOf(s, c) == |s|
  {
    assert forall j | 0 <= j < |s| :: s[j] != c;
  }

  lemma ArgumentFound(s: string, k: nat, end: nat)
    requires Argument(s, k, end)
    ensures FindParameter(s[k..]) == Parameter(s[k + 1..end], end - k + 1)
  {
    assert s[k..][..end - k] == s[k..end] && s[k..][1..end - k] == s[k + 1..end];
    FirstIndex(s[k..], ')', end - k);
  }

  lemma UnclosedFound(s: string, k: nat)
    requires Unclosed(s, k)
    ensures FindParameter(s[k..]) == Unmatched
  {
    NoIndex(s[k..], ')');
  }

  /** For every text: the verb at its start is the longest parameterless name among its letters; failing
      that the longest parameterized one, with its argument if that follows all letters; and there is
      none exactly if no prefix of the letters is a name or the argument is not closed. */
  lemma VerbExactly(r: Registry, s: string, w: string)
    requires AreLetters(r, s, w)
    ensures var f := FindVerb(r, s);
      && ChoosesPlain(w, r.plain, f)
      && (NoName(w, r.plain) ==> forall p: nat | LongestName(w, r.parameterized, p) :: ChoosesCreated(s, w, p, f))
      && (NoName(w, r.plain) && NoName(w, r.parameterized) ==> f.NotFound?)
  {
    SameLetters(r, s, w);
    forall k: nat | LongestName(w, r.plain, k) ensures FindVerb(r, s) == Found(Plain(w[..k]), k) {
      LongestIs(w, r.plain, k);
    }
    if NoName(w, r.plain) {
      forall p: nat | LongestName(w, r.parameterized, p) ensures ChoosesCreated(s, w, p, FindVerb(r, s)) {
        LongestIs(w, r.parameterized, p);
        CreatedChosen(r, s, w, p);
      }
    }
  }

  lemma CreatedChosen(r: Registry, s: string, w: string, p: nat)
    requires w == Letters(r, s) && NoName(w, r.plain) && 0 < p <= |w| && p == Longest(w, r.parameterized)
    ensures ChoosesCreated(s, w, p, FindVerb(r, s))
  {
    assert Longest(w, r.plain) == 0;
    if p == |w| {
      assert w[..p] == w;
      assert p < |s| ==> s[p..][0] == s[p];
      forall end: nat | Argument(s, p, end) ensures FindVerb(r, s) == Found(Created(w, s[p + 1..end]), end + 1) {
        ArgumentFound(s, p, end);
      }
      if Unclosed(s, p) {
        UnclosedFound(s, p);
      }
    }
  }
}
