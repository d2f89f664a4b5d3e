/** The classes of characters that lexer and encoder share, by code points, and what the encoder escapes. */
module TomlChars {
  import opened TomlData
  import opened TomlLexer
  import opened TomlEscapes
  import opened TomlLayout

  predicate In(c: char, low: int, high: int) { low <= c as int <= high }

  lemma Classes(c: char)
    ensures IsWhitespace(c) <==> c as int in {9, 32}
    ensures IsNL(c) <==> c as int in {10, 13}
    ensures IsDigit(c) <==> In(c, 48, 57)
    ensures IsHexadecimal(c) <==> In(c, 48, 57) || In(c, 65, 70) || In(c, 97, 102)
    ensures IsBareKeyChar(c) <==> In(c, 48, 57) || In(c, 65, 90) || In(c, 97, 122) || c as int in {45, 95}
  {
  }

  /** White space of Unicode. */
  lemma Spaces(c: char)
    ensures IsSpace(c) <==>
      || In(c, 9, 13) || In(c, 0x2000, 0x200A)
      || c as int in {0x20, 0x85, 0xA0, 0x1680, 0x2028, 0x2029, 0x202F, 0x205F, 0x3000}
  {
    assert c in "\t\n\U{B}\U{C}\r " <==> In(c, 9, 13) || c as int == 32;
  }

  /** The characters that a string may not hold as they are: the encoder writes two for each. */
  predicate IsEscaped(c: char) { c as int in {9, 10, 13, 34, 92} }

  lemma EscapedChar(c: char)
    ensures |EscapeChar(c)| == if IsEscaped(c) then 2 else 1
    ensures !IsEscaped(c) ==> EscapeChar(c) == [c]
  {
  }

  /** In a string the encoder escapes these characters and no others. */
  lemma {:induction false} EscapesExactly(s: string)
    ensures |Escape(s)| >= |s|
    ensures Escape(s) == s <==> forall i | 0 <= i < |s| :: !IsEscaped(s[i])
    ensures |Escape(s)| == |s| <==> forall i | 0 <= i < |s| :: !IsEscaped(s[i])
  {
    if s != "" {
      EscapedChar(s[0]);
      EscapesExactly(s[1..]);
      assert s == [s[0]] + s[1..];
      assert forall i | 0 <= i < |s[1..]| :: s[1..][i] == s[i + 1];
    }
  }

  /** In a key it escapes quotes only. */
  lemma {:induction false} QuotesExactly(k: string)
    ensures |EscapeQuotes(k)| >= |k|
    ensures EscapeQuotes(k) == k <==> forall i | 0 <= i < |k| :: k[i] as int != 34
    ensures |EscapeQuotes(k)| == |k| <==> forall i | 0 <= i < |k| :: k[i] as int != 34
  {
    if k != "" {
      QuotesExactly(k[1..]);
      assert k == [k[0]] + k[1..];
      assert forall i | 0 <= i < |k[1..]| :: k[1..][i] == k[i + 1];
    }
  }

  /** A key is written as it is exactly if all its characters are letters, digits, underscores and dashes. */
  lemma BareExactly(k: string)
    ensures MaybeQuoted(k) == k <==> forall i | 0 <= i < |k| ::
      In(k[i], 48, 57) || In(k[i], 65, 90) || In(k[i], 97, 122) || k[i] as int in {45, 95}
  {
    forall i | 0 <= i < |k| { Classes(k[i]); }
    QuotesExactly(k);
  }

  // ----- types -----

  predicate SameKind(v: Val, w: Val) {
    && (v.Text? <==> w.Text?) && (v.Boolean? <==> w.Boolean?) && (v.Integer? <==> w.Integer?)
    && (v.FloatNum? <==> w.FloatNum?) && (v.Datetime? <==> w.Datetime?) && (v.Arr? <==> w.Arr?)
  }

  /** An array mixes types exactly if two of its elements are of different kinds. */
  lemma MixedExactly(vs: seq<Val>)
    ensures Homogeneous(vs) <==> forall i, j | 0 <= i < |vs| && 0 <= j < |vs| :: SameKind(vs[i], vs[j])
  {
    if Homogeneous(vs) {
      forall i, j | 0 <= i < |vs| && 0 <= j < |vs| ensures SameKind(vs[i], vs[j]) {
        assert TypeOf(vs[i]) == TypeOf(vs[0]) == TypeOf(vs[j]);
      }
    } else {
      var i :| 0 <= i < |vs| && TypeOf(vs[i]) != TypeOf(vs[0]);
      assert !SameKind(vs[i], vs[0]);
    }
  }
}
