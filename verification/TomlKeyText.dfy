/** The text of one key: Key.maybeQuoted writes bare keys as they are and others between
    quotes, and which of those the lexer and the parser read back. */
module TomlKeyText {
  import opened TomlData
  import opened TomlLexer
  import opened TomlEscapes
  import opened TomlLexerProofs
  import opened TomlValues
  import opened TomlLayout
  import A = TomlArrayText
  import D = TomlDocument

  /** No backslash, which the encoder does not escape, and no end of line, which a string may not
      hold. */
  predicate Quotable(k: string) { forall i | 0 <= i < |k| :: k[i] != '\\' && !IsNL(k[i]) }

  /** A key that is read back. */
  predicate Readable(k: string) { k != "" && Quotable(k) }

  // ----- what the parser makes of it -----

  lemma QuoteUnit(c: char, u: string)
    requires c != '\\'
    ensures UnitLen(QuoteChar(c) + u) == |QuoteChar(c)| && UnitChar(QuoteChar(c) + u) == c
  {
    EscapeCharUnit(c, u);
  }

  lemma UnitUndone(c: char, u: string, rest: string, s: string)
    requires c != '\\' && u == QuoteChar(c) && ReplaceEscapes(rest) == Decoded(s)
    ensures ReplaceEscapes(u + rest) == Decoded([c] + s)
  {
    QuoteUnit(c, rest);
    assert (u + rest)[|u|..] == rest;
  }

  /** The parser's replaceEscapes undoes the quoting of keys without a backslash. */
  lemma {:induction false} QuotesUndone(k: string)
    requires Quotable(k)
    ensures ReplaceEscapes(EscapeQuotes(k)) == Decoded(k)
  {
    if k != "" {
      QuotesUndone(k[1..]);
      UnitUndone(k[0], QuoteChar(k[0]), EscapeQuotes(k[1..]), k[1..]);
      assert k == [k[0]] + k[1..];
    }
  }

  /** A backslash is not escaped: a key with a backslash and a t is read back as one with a tab. */
  lemma BackslashLost()
    ensures ReplaceEscapes(EscapeQuotes("\\t")) == Decoded("\t") && "\\t" != "\t"
  {
    var k := "\\t";
    assert k[1..] == "t" && k[1..][1..] == "";
    assert EscapeQuotes(k) == k;
    assert k[2..] == "" && "\t" + "" == "\t";
    assert ReplaceEscapes("") == Decoded("");
  }

  /** All of a basic string: no quote outside an escape, no end of line, every escape complete. */
  predicate IsBody(t: string)
    decreases |t|
  {
    t == "" || (t[0] != '"' && !IsNL(t[0]) && 0 < UnitLen(t) <= |t| && IsBody(t[UnitLen(t)..]))
  }

  lemma QuotesSplit(k: string)
    requires k != ""
    ensures EscapeQuotes(k)[|QuoteChar(k[0])|..] == EscapeQuotes(k[1..])
  {
  }

  lemma {:induction false} QuotableBody(k: string)
    requires Quotable(k)
    ensures IsBody(EscapeQuotes(k))
  {
    if k != "" {
      QuoteUnit(k[0], EscapeQuotes(k[1..]));
      QuotesSplit(k);
      QuotableBody(k[1..]);
    }
  }

  /** Hexadecimal digits are written as they are. */
  lemma {:induction false} HexCopied(k: string, n: nat)
    requires n <= |EscapeQuotes(k)| && AllHex(EscapeQuotes(k)[..n])
    ensures n <= |k| && EscapeQuotes(k)[n..] == EscapeQuotes(k[n..])
    decreases n
  {
    if n > 0 {
      var e := EscapeQuotes(k);
      assert IsHexadecimal(e[..n][0]);
      QuotesSplit(k);
      assert e[1..][..n - 1] == e[..n][1..];
      HexCopied(k[1..], n - 1);
      assert k[1..][n - 1..] == k[n..] && e[1..][n - 1..] == e[n..];
    }
  }

  /** An escape that starts with a backslash of the key, not before a quote, uses up several of its
      characters. */
  lemma SlashUses(k: string, n: nat)
    requires k != "" && k[0] == '\\' && (|k| > 1 ==> k[1] != '"')
    requires n == UnitLen(EscapeQuotes(k)) && 0 < n <= |EscapeQuotes(k)|
    ensures 1 < n <= |k| && EscapeQuotes(k)[n..] == EscapeQuotes(k[n..])
  {
    var e := EscapeQuotes(k);
    QuotesSplit(k);
    assert |k| > 1;
    QuotesSplit(k[1..]);
    assert e[2..] == e[1..][1..] && k[1..][1..] == k[2..];
    if n > 2 {
      assert e[2..n] == EscapeQuotes(k[2..])[..n - 2];
      HexCopied(k[2..], n - 2);
      assert k[2..][n - 2..] == k[n..] && e[2..][n - 2..] == e[n..];
    }
  }

  /** `b` is what is read of the text of the key: up to a quote, or all of it. */
  predicate ReadOf(b: string, e: string) { b <= e && (|b| < |e| ==> e[|b|] == '"') }

  /** What is behind the first unit of both. */
  lemma ReadOn(b: string, e: string, n: nat)
    requires ReadOf(b, e) && n <= |b|
    ensures ReadOf(b[n..], e[n..])
  {
    assert b == e[..|b|];
    assert b[n..] == e[n..][..|b| - n];
  }

  lemma UnitPrefix(b: string, t: string)
    requires b != "" && b <= t
    ensures 0 < UnitLen(b) <= |b| ==> UnitLen(t) == UnitLen(b)
    ensures t != "" && 0 < UnitLen(t) <= |b| ==> UnitLen(b) == UnitLen(t)
  {
    assert b == t[..|b|];
    assert |b| >= 6 ==> b[2..6] == t[2..6];
    assert |b| >= 10 ==> b[2..10] == t[2..10];
  }

  /** A backslash before a quote turns into an escaped backslash, and the quote closes the string. */
  lemma SlashQuote(k: string, b: string, s: string)
    requires |k| > 1 && k[0] == '\\' && k[1] == '"' && IsBody(b) && b <= EscapeQuotes(k)
    requires ReplaceEscapes(b) == Decoded(s)
    ensures |s| < |k|
  {
    if b != "" {
      QuotesSplit(k);
      var e := EscapeQuotes(k);
      assert e[1..] == EscapeQuotes(k[1..]) && e[1..][0] == '\\' && e[1..][1] == '"';
      assert e[2] == '"' && b == e[..|b|];
      assert b[2..] == e[2..|b|];
    }
  }

  /** What a key means that is read to a closing quote: nothing longer than the key, and something
      shorter if there is a backslash in it. */
  lemma {:induction false} BodyShrinks(k: string, b: string, s: string)
    requires ReadOf(b, EscapeQuotes(k)) && IsBody(b) && ReplaceEscapes(b) == Decoded(s)
    ensures |s| <= |k| && (|s| == |k| ==> Quotable(k))
    decreases |k|
  {
    if k != "" && b != "" {
      var e, c := EscapeQuotes(k), k[0];
      UnitPrefix(b, e);
      var n := UnitLen(b);
      ReadOn(b, e, n);
      if c != '\\' {
        QuoteUnit(c, EscapeQuotes(k[1..]));
        QuotesSplit(k);
        BodyShrinks(k[1..], b[n..], s[1..]);
        assert k == [c] + k[1..] && b[0] == e[0];
      } else if |k| > 1 && k[1] == '"' {
        SlashQuote(k, b, s);
      } else {
        SlashUses(k, n);
        BodyShrinks(k[n..], b[n..], s[1..]);
      }
    }
  }

  /** Exactly the keys without backslash and end of line: the text between the quotes is all of a
      string, and that string is the key. */
  lemma KeyTextExactly(k: string)
    ensures IsBody(EscapeQuotes(k)) && ReplaceEscapes(EscapeQuotes(k)) == Decoded(k) <==> Quotable(k)
  {
    if Quotable(k) {
      QuotableBody(k);
      QuotesUndone(k);
    } else if IsBody(EscapeQuotes(k)) && ReplaceEscapes(EscapeQuotes(k)) == Decoded(k) {
      BodyShrinks(k, EscapeQuotes(k), k);
    }
  }

  // ----- what the lexer makes of it -----

  lemma UnitRead(l: Lex, c: char)
    requires Bounds(l) && l.items == [] && l.state == Str && A.Reads(l, QuoteChar(c)) && c != '\\' && !IsNL(c)
    ensures A.Rounds(l, |QuoteChar(c)|) == A.Further(l, |QuoteChar(c)|)
  {
    if c == '"' {
      A.EscapeRounds(l, '"');
      assert A.Rounds(l, 2) == A.Rounds(A.Round(l), 1) == A.Round(A.Round(l));
    } else {
      A.PlainRound(l, c);
      assert A.Rounds(l, 1) == A.Round(l);
    }
  }

  lemma {:induction false} QuotedRun(l: Lex, e: string, k: string)
    requires Bounds(l) && l.items == [] && l.state == Str && e == EscapeQuotes(k) && Quotable(k) && A.Reads(l, e)
    ensures A.Rounds(l, |e|) == A.Further(l, |e|)
    decreases |k|
  {
    if k != "" {
      var u := QuoteChar(k[0]);
      var rest := EscapeQuotes(k[1..]);
      A.ReadsSplit(l, u, rest);
      UnitRead(l, k[0]);
      var m := A.Further(l, |u|);
      QuotedRun(m, rest, k[1..]);
      A.Then(l, |u|, m, |rest|, A.Further(m, |rest|));
      assert A.Further(m, |rest|) == A.Further(l, |e|);
    }
  }

  lemma QuotedBody(m: Lex, k: string, e: string)
    requires Bounds(m) && m.items == [] && m.state == Str && m.stack != [] && m.start == m.pos
    requires Quotable(k) && e == EscapeQuotes(k) && A.Reads(m, e + "\"")
    ensures A.Rounds(m, |e| + 1) == A.Queued(A.Done(m, |e| + 1), Item(ItemString, e))
  {
    A.ReadsSplit(m, e, "\"");
    QuotedRun(m, e, k);
    var n, q := A.Further(m, |e|), A.Queued(A.Done(m, |e| + 1), Item(ItemString, e));
    A.StringCloses(m, e, n);
    A.Then(m, |e|, n, 1, q);
  }

  lemma QuotedText(k: string, e: string, q: string)
    requires k != "" && e == EscapeQuotes(k) && q == "\"" + e + "\""
    ensures q == "\"" + (e + "\"") && |q| > 1 && q[0] == '"' && q[1] != '"'
  {
    assert q == "\"" + (e + "\"");
    assert e[0] == QuoteChar(k[0])[0] && q[1] == e[0];
  }

  lemma QuoteOpens(l: Lex, k: string, e: string, q: string, m: Lex)
    requires Bounds(l) && l.items == [] && l.state == Value && l.start == l.pos
    requires k != "" && e == EscapeQuotes(k) && q == "\"" + e + "\"" && A.Reads(l, q)
    requires m == l.(start := l.pos + 1, pos := l.pos + 1, state := Str)
    ensures A.Round(l) == m && Bounds(m) && A.Reads(m, e + "\"") && |q| == 1 + (|e| + 1)
  {
    QuotedText(k, e, q);
    A.ReadsChar(l, q, 0);
    A.ReadsChar(l, q, 1);
    A.OpenRound(l);
    A.ReadsSplit(l, "\"", e + "\"");
  }

  /** A quoted key is lexed as one string item, consumed exactly. */
  lemma QuotedRead(l: Lex, k: string, e: string, q: string) returns (i: nat)
    requires Bounds(l) && l.items == [] && l.state == Value && l.start == l.pos && l.stack != []
    requires Readable(k) && e == EscapeQuotes(k) && q == "\"" + e + "\"" && A.Reads(l, q)
    ensures A.Rounds(l, i) == A.Queued(A.Done(l, |q|), Item(ItemString, e))
  {
    var m := l.(start := l.pos + 1, pos := l.pos + 1, state := Str);
    QuoteOpens(l, k, e, q, m);
    QuotedBody(m, k, e);
    A.Once(l, m);
    QuotedDone(l, m, |e| + 1, |q|);
    i := A.Joined(l, 1, m, |e| + 1, A.Queued(A.Done(l, |q|), Item(ItemString, e)));
  }

  lemma QuotedDone(l: Lex, m: Lex, j: nat, n: nat)
    requires l.stack != [] && m == l.(start := l.pos + 1, pos := l.pos + 1, state := Str) && n == 1 + j
    ensures A.Done(m, j) == A.Done(l, n)
  {
  }

  /** The item that the text of a key is lexed as. */
  function KeyItem(k: string): Item { if BareText(k) then Item(ItemText, k) else Item(ItemString, EscapeQuotes(k)) }

  lemma KeyItemNames(k: string)
    requires Readable(k)
    ensures D.KeyString(KeyItem(k)) == Good(Text(k))
  {
    QuotesUndone(k);
  }

  /** A character that the text of a key starts with. */
  predicate StartsKey(c: char) { IsBareKeyChar(c) || IsQuote(c) }

  predicate IsQuote(c: char) { c == '"' || c == '\'' }

  lemma KeyTextStarts(k: string)
    requires k != ""
    ensures MaybeQuoted(k) != "" && StartsKey(MaybeQuoted(k)[0])
    ensures BareText(k) <==> MaybeQuoted(k)[0] != '"'
  {
    if BareText(k) {
      assert IsBareKeyChar(k[0]);
    }
  }
}
