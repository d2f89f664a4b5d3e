/** Which character an escape stands for. */
module TomlHex {
  import opened TomlLexer
  import opened TomlEscapes

  function Power(k: nat): nat { if k == 0 then 1 else 16 * Power(k - 1) }

  /** The digit for a number below sixteen. */
  function DigitOf(n: nat): char
    requires n < 16
  { "0123456789abcdef"[n] }

  /** A number in `k` hexadecimal digits. */
  function HexText(n: nat, k: nat): string {
    if k == 0 then "" else HexText(n / 16, k - 1) + [DigitOf(n % 16)]
  }

  function LowerDigit(c: char): char { if 'A' <= c <= 'F' then (c as int + 32) as char else c }

  /** The same text with small letters; digits may stand in either case. */
  function Lower(s: string): string { if s == "" then "" else Lower(s[..|s| - 1]) + [LowerDigit(s[|s| - 1])] }

  lemma DigitExactly(c: char, n: nat)
    requires IsHexadecimal(c) && n < 16
    ensures HexDigit(c) < 16
    ensures HexDigit(c) == n <==> LowerDigit(c) == DigitOf(n)
  {
  }

  lemma {:induction false} HexBound(s: string)
    ensures HexValue(s) < Power(|s|)
  {
    if s != "" {
      HexBound(s[..|s| - 1]);
      assert HexDigit(s[|s| - 1]) < 16;
    }
  }

  /** The value of hexadecimal digits is the number that they are the text of. */
  lemma {:induction false} HexExactly(s: string, n: nat)
    requires AllHex(s) && n < Power(|s|)
    ensures HexValue(s) == n <==> Lower(s) == HexText(n, |s|)
    decreases |s|
  {
    if s != "" {
      var u, c := s[..|s| - 1], s[|s| - 1];
      HexExactly(u, n / 16);
      DigitExactly(c, n % 16);
      HexLast(n, |s|);
      SameEnds(Lower(u), LowerDigit(c), HexText(n / 16, |s| - 1), DigitOf(n % 16));
    }
  }

  lemma HexLast(n: nat, k: nat)
    requires k > 0
    ensures HexText(n, k) == HexText(n / 16, k - 1) + [DigitOf(n % 16)]
  {
  }

  lemma SameEnds(a: string, c: char, b: string, d: char)
    ensures a + [c] == b + [d] <==> a == b && c == d
  {
    if a + [c] == b + [d] {
      assert (a + [c])[..|a|] == a && (b + [d])[..|b|] == b;
      assert (a + [c])[|a|] == c && (b + [d])[|b|] == d;
    }
  }

  predicate IsScalar(n: nat) { n < 0xD800 || 0xE000 <= n < 0x11_0000 }

  /** What an escape with four or eight digits stands for: the character of that number, and U+FFFD
      if there is none. */
  lemma EscapeMeans(e: char, s: string, n: nat)
    requires (e == 'u' && |s| == 4) || (e == 'U' && |s| == 8)
    requires AllHex(s) && Lower(s) == HexText(n, |s|) && n < Power(|s|)
    ensures ReplaceEscapes(['\\', e] + s) == Decoded([if IsScalar(n) then n as char else '\U{FFFD}'])
  {
    HexExactly(s, n);
    var t := ['\\', e] + s;
    assert t[2..|t|] == s && t[|t|..] == "";
    assert UnitLen(t) == |t|;
  }

  /** The escapes of one letter. */
  lemma LetterMeans(c: char, d: char)
    requires (c, d) in {('b', '\U{8}'), ('t', '\U{9}'), ('n', '\U{A}'), ('f', '\U{C}'), ('r', '\U{D}'),
                        ('"', '\U{22}'), ('\\', '\U{5C}')}
    ensures ReplaceEscapes(['\\', c]) == Decoded([d])
  {
    var t := ['\\', c];
    assert t[2..] == "";
  }

  lemma PlainMeans(c: char)
    requires c != '\\'
    ensures ReplaceEscapes([c]) == Decoded([c])
  {
    assert [c][1..] == "" && [c] + "" == [c];
  }

  function Joined(first: string, d: Decoded): Decoded {
    match d case Decoded(t) => Decoded(first + t) case BadEscape => BadEscape
  }

  lemma DecodeFirst(t: string, k: nat, rest: string)
    requires t != "" && k == UnitLen(t) && 0 < k <= |t| && rest == t[k..]
    ensures ReplaceEscapes(t) == Joined([UnitChar(t)], ReplaceEscapes(rest))
  {
  }

  /** Text is decoded from left to right, piece by piece. */
  lemma {:induction false} DecodeJoins(a: string, b: string)
    requires WellEscaped(a)
    ensures ReplaceEscapes(a + b) == Joined(ReplaceEscapes(a).text, ReplaceEscapes(b))
    decreases |a|
  {
    if a == "" {
      assert a + b == b && ReplaceEscapes(a).text == "";
      if ReplaceEscapes(b).Decoded? { assert "" + ReplaceEscapes(b).text == ReplaceEscapes(b).text; }
    } else {
      var k := UnitLen(a);
      UnitJoins(a, b);
      DecodeJoins(a[k..], b);
      assert (a + b)[k..] == a[k..] + b;
      DecodeFirst(a, k, a[k..]);
      DecodeFirst(a + b, k, a[k..] + b);
      JoinedTwice([UnitChar(a)], ReplaceEscapes(a[k..]).text, ReplaceEscapes(b));
    }
  }

  lemma JoinedTwice(a: string, b: string, d: Decoded)
    ensures Joined(a, Joined(b, d)) == Joined(a + b, d)
  {
    if d.Decoded? { assert a + (b + d.text) == (a + b) + d.text; }
  }

  lemma UnitJoins(a: string, b: string)
    requires a != "" && 0 < UnitLen(a) <= |a|
    ensures UnitLen(a + b) == UnitLen(a) && UnitChar(a + b) == UnitChar(a)
  {
    assert |a| >= 6 ==> (a + b)[2..6] == a[2..6];
    assert |a| >= 10 ==> (a + b)[2..10] == a[2..10];
  }
}
