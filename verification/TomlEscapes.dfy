/** Escapes of basic strings: what the encoder writes (writeQuoted), what the lexer lets
    through and what the parser decodes (replaceEscapes). */
module TomlEscapes {
  import opened TomlLexer

  /** Decoding ends in one of the parser's "BUG" branches or in a slice out of range. */
  datatype Decoded = Decoded(text: string) | BadEscape

  predicate AllHex(s: string) { forall i | 0 <= i < |s| :: IsHexadecimal(s[i]) }

  /** Length of the first character or escape of a non-empty text; 0 if it is malformed. */
  function UnitLen(t: string): nat
    requires t != ""
  {
    if t[0] != '\\' then 1
    else if |t| < 2 then 0
    else if IsSimpleEscape(t[1]) then 2
    else if t[1] == 'u' then if |t| >= 6 && AllHex(t[2..6]) then 6 else 0
    else if t[1] == 'U' then if |t| >= 10 && AllHex(t[2..10]) then 10 else 0
    else 0
  }

  /** Every backslash starts a complete escape. */
  predicate WellEscaped(t: string)
    decreases |t|
  {
    t == "" || (0 < UnitLen(t) <= |t| && WellEscaped(t[UnitLen(t)..]))
  }

  /** The same language read from left to right, one character at a time. */
  datatype Scan = Plain | Slash | Hex(left: nat) | Broken

  function ScanNext(s: Scan, c: char): Scan {
    match s
    case Plain => if c == '\\' then Slash else Plain
    case Slash =>
      if IsSimpleEscape(c) then Plain
      else if c == 'u' then Hex(4) else if c == 'U' then Hex(8) else Broken
    case Hex(k) => if !IsHexadecimal(c) then Broken else if k <= 1 then Plain else Hex(k - 1)
    case Broken => Broken
  }

  function ScanOf(t: string): Scan {
    if t == "" then Plain else ScanNext(ScanOf(t[..|t| - 1]), t[|t| - 1])
  }

  lemma ScanExtends(t: string, c: char)
    ensures ScanOf(t + [c]) == ScanNext(ScanOf(t), c)
  {
    assert (t + [c])[..|t|] == t;
  }

  function ScanFrom(s: Scan, t: string): Scan
    decreases |t|
  {
    if t == "" then s else ScanFrom(ScanNext(s, t[0]), t[1..])
  }

  lemma {:induction false} ScanFromLast(s: Scan, t: string, c: char)
    ensures ScanFrom(s, t + [c]) == ScanNext(ScanFrom(s, t), c)
    decreases |t|
  {
    if t == "" {
      assert t + [c] == [c];
    } else {
      ScanFromLast(ScanNext(s, t[0]), t[1..], c);
      assert (t + [c])[1..] == t[1..] + [c];
    }
  }

  lemma {:induction false} ScanFromPlain(t: string)
    ensures ScanOf(t) == ScanFrom(Plain, t)
    decreases |t|
  {
    if t != "" {
      var u := t[..|t| - 1];
      ScanFromPlain(u);
      ScanFromLast(Plain, u, t[|t| - 1]);
      assert u + [t[|t| - 1]] == t;
    }
  }

  /** Reading `k` expected hexadecimal digits. */
  lemma {:induction false} ScanHex(t: string, k: nat)
    requires k > 0
    ensures if |t| >= k && AllHex(t[..k]) then ScanFrom(Hex(k), t) == ScanFrom(Plain, t[k..])
      else ScanFrom(Hex(k), t) != Plain
    decreases k
  {
    if t == "" {
    } else if !IsHexadecimal(t[0]) {
      ScanBroken(t[1..]);
    } else if k == 1 {
    } else {
      ScanHex(t[1..], k - 1);
      if |t| >= k {
        assert t[..k] == [t[0]] + t[1..][..k - 1];
        assert t[1..][k - 1..] == t[k..];
      }
    }
  }

  lemma {:induction false} ScanBroken(t: string)
    ensures ScanFrom(Broken, t) == Broken
    decreases |t|
  {
    if t != "" {
      ScanBroken(t[1..]);
    }
  }

  /** The scan accepts exactly the texts whose every backslash starts a complete escape. */
  lemma {:induction false} ScanIsWellEscaped(t: string)
    ensures ScanFrom(Plain, t) == Plain <==> WellEscaped(t)
    decreases |t|
  {
    if t == "" {
    } else if t[0] != '\\' {
      ScanIsWellEscaped(t[1..]);
    } else if |t| >= 2 {
      var u := t[2..];
      assert t[1..][1..] == u;
      if t[1] == 'u' || t[1] == 'U' {
        var k := if t[1] == 'u' then 4 else 8;
        ScanHex(u, k);
        if |u| >= k {
          assert u[..k] == t[2..k + 2] && u[k..] == t[k + 2..];
          ScanIsWellEscaped(t[k + 2..]);
        }
      } else if IsSimpleEscape(t[1]) {
        ScanIsWellEscaped(u);
      } else {
        ScanBroken(u);
      }
    }
  }

  function HexDigit(c: char): nat {
    if '0' <= c <= '9' then (c as int) - ('0' as int)
    else if 'a' <= c <= 'f' then (c as int) - ('a' as int) + 10
    else if 'A' <= c <= 'F' then (c as int) - ('A' as int) + 10
    else 0
  }

  function HexValue(s: string): nat {
    if s == "" then 0 else 16 * HexValue(s[..|s| - 1]) + HexDigit(s[|s| - 1])
  }

  /** Converting a rune to a string turns every invalid code point into U+FFFD. */
  function RuneChar(n: nat): char {
    if n < 0xD800 || 0xE000 <= n < 0x11_0000 then n as char else '\U{FFFD}'
  }

  function SimpleEscape(c: char): char {
    match c
    case 'b' => '\U{8}'
    case 't' => '\t'
    case 'n' => '\n'
    case 'f' => '\U{C}'
    case 'r' => '\r'
    case _ => c
  }

  function UnitChar(t: string): char
    requires t != "" && UnitLen(t) > 0
  {
    if t[0] != '\\' then t[0]
    else if t[1] == 'u' then RuneChar(HexValue(t[2..6]))
    else if t[1] == 'U' then RuneChar(HexValue(t[2..10]))
    else SimpleEscape(t[1])
  }

  function ReplaceEscapes(t: string): (d: Decoded)
    ensures d.Decoded? <==> WellEscaped(t)
    decreases |t|
  {
    if t == "" then Decoded("")
    else
      var k := UnitLen(t);
      if k == 0 then BadEscape
      else
        var rest := ReplaceEscapes(t[k..]);
        if rest.BadEscape? then BadEscape else Decoded([UnitChar(t)] + rest.text)
  }

  /** How decoding from index `r` on follows from the unit that starts there. */
  lemma DecodeUnit(s: string, r: nat, done: string)
    requires r < |s|
    ensures var k := UnitLen(s[r..]);
      if k == 0 then ReplaceEscapes(s[r..]) == BadEscape
      else
        && r + k <= |s|
        && (ReplaceEscapes(s[r + k..]).BadEscape? ==> ReplaceEscapes(s[r..]).BadEscape?)
        && (ReplaceEscapes(s[r + k..]).Decoded? ==>
              && ReplaceEscapes(s[r..]).Decoded?
              && done + ReplaceEscapes(s[r..]).text
                 == (done + [UnitChar(s[r..])]) + ReplaceEscapes(s[r + k..]).text)
  {
    var k := UnitLen(s[r..]);
    if k > 0 {
      assert s[r..][k..] == s[r + k..];
    }
  }

  /** The program's loop: an index into the text and the characters decoded so far. */
  method ReplaceEscapesLoop(s: string) returns (d: Decoded)
    ensures d == ReplaceEscapes(s)
  {
    var replaced := "";
    var r := 0;
    while r < |s|
      invariant 0 <= r <= |s|
      invariant ReplaceEscapes(s[r..]).BadEscape? ==> ReplaceEscapes(s).BadEscape?
      invariant ReplaceEscapes(s[r..]).Decoded? ==>
        ReplaceEscapes(s) == Decoded(replaced + ReplaceEscapes(s[r..]).text)
    {
      DecodeUnit(s, r, replaced);
      ghost var t := s[r..];
      if s[r] != '\\' {
        replaced := replaced + [s[r]];
        r := r + 1;
      } else if r + 1 >= |s| {
        return BadEscape;
      } else if IsSimpleEscape(s[r + 1]) {
        replaced := replaced + [SimpleEscape(s[r + 1])];
        r := r + 2;
      } else if s[r + 1] == 'u' || s[r + 1] == 'U' {
        var k := if s[r + 1] == 'u' then 6 else 10;
        if r + k > |s| {
          return BadEscape;
        }
        assert s[r + 2..r + k] == t[2..k];
        if !AllHex(s[r + 2..r + k]) {
          return BadEscape;
        }
        replaced := replaced + [RuneChar(HexValue(s[r + 2..r + k]))];
        r := r + k;
      } else {
        return BadEscape;
      }
    }
    assert s[r..] == "";
    d := Decoded(replaced);
  }

  /** quotedReplacer. */
  function EscapeChar(c: char): string {
    match c
    case '\t' => "\\t"
    case '\n' => "\\n"
    case '\r' => "\\r"
    case '"' => "\\\""
    case '\\' => "\\\\"
    case _ => [c]
  }

  function Escape(s: string): string {
    if s == "" then "" else EscapeChar(s[0]) + Escape(s[1..])
  }

  function Quote(s: string): string { "\"" + Escape(s) + "\"" }

  lemma EscapeCharUnit(c: char, u: string)
    ensures UnitLen(EscapeChar(c) + u) == |EscapeChar(c)|
    ensures UnitChar(EscapeChar(c) + u) == c
  {
  }

  /** Decoding inverts the encoder's escaping, for every string. */
  lemma {:induction false} EscapeRoundTrip(s: string)
    ensures ReplaceEscapes(Escape(s)) == Decoded(s)
  {
    if s == "" {
    } else {
      var e := EscapeChar(s[0]);
      var rest := Escape(s[1..]);
      EscapeRoundTrip(s[1..]);
      EscapeCharUnit(s[0], rest);
      assert (e + rest)[|e|..] == rest;
      assert s == [s[0]] + s[1..];
    }
  }
}
