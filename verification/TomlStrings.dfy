/** From the text of a string to its value: strings of all four kinds on a key line. */
module TomlStrings {
  import opened TomlData
  import opened TomlLexer
  import opened TomlEscapes
  import opened TomlLexerProofs
  import opened TomlLoops
  import opened TomlValues
  import opened TomlDocument
  import opened TomlLayout
  import opened TomlKeyText
  import opened TomlText
  import opened TomlKeyLines
  import A = TomlArrayText
  import H = TomlHex
  import T = TomlTables

  // ----- between the quotes -----

  /** The text ahead is `b` and then `close`. */
  predicate Stands(l: Lex, b: string, close: string) { Bounds(l) && b + close <= Rest(l) }

  /** The item of this type holds what is pending and `b`; the lexer is behind the closing quotes. */
  predicate GetsString(l: Live, typ: ItemType, b: string, k: nat)
    requires PhaseOf(l) != Done && l.stack != []
  { Gets(Fetch(l), Item(typ, Current(l) + b), A.Done(l, |b| + k)) }

  lemma PendingOn(l: Lex, m: Lex, b: string, n: nat)
    requires Bounds(l) && n <= |b| && b <= Rest(l) && m == A.Further(l, n)
    ensures Bounds(m) && Current(m) + b[n..] == Current(l) + b
  {
    RestAhead(l);
    CurrentGrows(l, m);
    assert b == Rest(l)[..|b|] && l.input[l.pos..m.pos] == b[..n];
    assert Current(l) + b[..n] + b[n..] == Current(l) + (b[..n] + b[n..]) && b == b[..n] + b[n..];
  }

  /** `n` characters of the string are read. */
  lemma StringGoesOn(l: Live, typ: ItemType, b: string, n: nat, k: nat)
    requires PhaseOf(l) != Done && l.stack != [] && Bounds(l) && n <= |b| && b <= Rest(l)
    requires GoesOn(l, A.Further(l, n)) && GetsString(A.Further(l, n), typ, b[n..], k)
    ensures GetsString(l, typ, b, k) == true
  {
    PendingOn(l, A.Further(l, n), b, n);
  }

  lemma StandsOn(l: Lex, b: string, close: string, n: nat)
    requires Stands(l, b, close) && n <= |b|
    ensures Stands(A.Further(l, n), b[n..], close) == true
    ensures b <= Rest(l) && |b| + |close| <= |Rest(l)|
  {
    RestAhead(l);
    var m := A.Further(l, n);
    assert Rest(m) == Rest(l)[n..] && (b + close)[n..] == b[n..] + close;
    assert b + close == Rest(l)[..|b + close|];
    assert b[n..] + close == Rest(m)[..|b + close| - n];
    assert b == Rest(l)[..|b|];
  }

  /** The character ahead. */
  lemma StandsFirst(l: Lex, b: string, close: string, i: nat)
    requires Stands(l, b, close) && i < |b + close|
    ensures Ahead(l, i) == (b + close)[i] && l.pos + i < |l.input|
  {
    RestAhead(l);
    assert (b + close) == Rest(l)[..|b + close|];
  }

  // ----- basic strings -----

  /** A string closes: what is pending is the item. */
  lemma Closes(l: Live, it: Item, k: nat)
    requires PhaseOf(l) != Done && !Stuck(l) && l.stack != [] && l.items == [] && it.typ != ItemError
    requires it.val == Current(l) && A.Round(l) == A.Queued(A.Done(l, k), it)
    ensures GetsString(l, it.typ, "", k) == true
  {
    var n := A.Queued(A.Done(l, k), it);
    RoundFetched(l, n);
    assert n.items[1..] == [] && Current(l) + "" == Current(l);
  }

  lemma BasicStep(l: Lex, it: Item)
    requires Bounds(l) && l.items == [] && l.state == Str && l.stack != [] && Ahead(l, 0) == '"'
    requires it == Item(ItemString, Current(l))
    ensures A.Round(l) == A.Queued(A.Done(l, 1), it)
  {
    QuoteStep(l);
  }

  lemma BasicCloses(l: Live)
    requires PhaseOf(l) != Done && l.state == Str && l.stack != [] && Ahead(l, 0) == '"'
    ensures GetsString(l, ItemString, "", 1) == true
  {
    var it := Item(ItemString, Current(l));
    BasicStep(l, it);
    Closes(l, it, 1);
  }

  lemma UnitGoesOn(l: Live, b: string, n: nat)
    requires PhaseOf(l) != Done && l.state == Str && b != "" && IsBody(b) && b <= Rest(l) && n == UnitLen(b)
    ensures GoesOn(l, A.Further(l, n)) == true
  {
    RestAhead(l);
    UnitPrefix(b, Rest(l));
    assert b[0] == Rest(l)[0];
    if b[0] == '\\' {
      EscapeFetched(l, Rest(l));
    } else {
      PlainFetched(l, b[0]);
    }
  }

  /** A body up to a quote is the item, whole. */
  lemma {:induction false} BasicFetched(l: Live, b: string)
    requires PhaseOf(l) != Done && l.state == Str && l.stack != [] && IsBody(b) && Stands(l, b, "\"")
    ensures GetsString(l, ItemString, b, 1) == true
    decreases |b|
  {
    if b == "" {
      StandsFirst(l, b, "\"", 0);
      BasicCloses(l);
    } else {
      var n := UnitLen(b);
      StandsOn(l, b, "\"", n);
      UnitGoesOn(l, b, n);
      BasicFetched(A.Further(l, n), b[n..]);
      StringGoesOn(l, ItemString, b, n, 1);
    }
  }

  // ----- raw strings -----

  /** All of a raw string: no quote and no end of line. */
  predicate IsRawBody(b: string) { forall i | 0 <= i < |b| :: b[i] != '\'' && !IsNL(b[i]) }

  lemma RawStep(l: Lex, it: Item)
    requires Bounds(l) && l.items == [] && l.state == RawStr && l.stack != [] && Ahead(l, 0) == '\''
    requires it == Item(ItemRawString, Current(l))
    ensures A.Round(l) == A.Queued(A.Done(l, 1), it)
  {
    assert [] + [it] == [it];
  }

  lemma RawCloses(l: Live)
    requires PhaseOf(l) != Done && l.state == RawStr && l.stack != [] && Ahead(l, 0) == '\''
    ensures GetsString(l, ItemRawString, "", 1) == true
  {
    var it := Item(ItemRawString, Current(l));
    RawStep(l, it);
    Closes(l, it, 1);
  }

  lemma RawGoesOn(l: Live, c: char)
    requires PhaseOf(l) != Done && l.state == RawStr && l.pos < |l.input| && c == Ahead(l, 0)
    requires !IsNL(c) && c != '\''
    ensures GoesOn(l, A.Further(l, 1)) == true
  {
    RoundStays(l, A.Further(l, 1));
  }

  lemma {:induction false} RawFetched(l: Live, b: string)
    requires PhaseOf(l) != Done && l.state == RawStr && l.stack != [] && IsRawBody(b) && Stands(l, b, "'")
    ensures GetsString(l, ItemRawString, b, 1) == true
    decreases |b|
  {
    StandsFirst(l, b, "'", 0);
    if b == "" {
      RawCloses(l);
    } else {
      StandsOn(l, b, "'", 1);
      RawGoesOn(l, b[0]);
      RawFetched(A.Further(l, 1), b[1..]);
      StringGoesOn(l, ItemRawString, b, 1, 1);
    }
  }

  // ----- raw multi-line strings -----

  /** All of a raw multi-line string: the three quotes behind it are the first three in a row. */
  predicate IsRawLines(b: string)
    decreases |b|
  {
    b == "" || (!Three(b + "'''", '\'') && IsRawLines(b[1..]))
  }

  lemma RawLinesStep(l: Lex, it: Item)
    requires Bounds(l) && l.items == [] && l.state == MultilineRawStr && l.stack != [] && l.pos + 3 <= |l.input|
    requires Ahead(l, 0) == '\'' && Ahead(l, 1) == '\'' && Ahead(l, 2) == '\''
    requires it == Item(ItemRawMultilineString, Current(l))
    ensures A.Round(l) == A.Queued(A.Done(l, 3), it)
  {
    assert [] + [it] == [it];
  }

  lemma RawLinesClose(l: Live)
    requires PhaseOf(l) != Done && l.state == MultilineRawStr && l.stack != []
    requires Ahead(l, 0) == '\'' && Ahead(l, 1) == '\'' && Ahead(l, 2) == '\'' && l.pos + 3 <= |l.input|
    ensures GetsString(l, ItemRawMultilineString, "", 3) == true
  {
    var it := Item(ItemRawMultilineString, Current(l));
    RawLinesStep(l, it);
    Closes(l, it, 3);
  }

  lemma RawLinesGoOn(l: Live)
    requires PhaseOf(l) != Done && l.state == MultilineRawStr && l.pos < |l.input|
    requires !(Ahead(l, 0) == '\'' && Ahead(l, 1) == '\'' && Ahead(l, 2) == '\'')
    ensures GoesOn(l, A.Further(l, 1)) == true
  {
    RoundStays(l, A.Further(l, 1));
  }

  /** The first three characters ahead. */
  lemma ThreeAhead(l: Lex, b: string, close: string)
    requires Stands(l, b, close) && |close| == 3
    ensures Ahead(l, 0) == (b + close)[0] && Ahead(l, 1) == (b + close)[1] && Ahead(l, 2) == (b + close)[2]
    ensures l.pos + 3 <= |l.input|
  {
    StandsFirst(l, b, close, 0);
    StandsFirst(l, b, close, 1);
    StandsFirst(l, b, close, 2);
  }

  lemma {:induction false} RawLinesFetched(l: Live, b: string)
    requires PhaseOf(l) != Done && l.state == MultilineRawStr && l.stack != [] && IsRawLines(b) && Stands(l, b, "'''")
    ensures GetsString(l, ItemRawMultilineString, b, 3) == true
    decreases |b|
  {
    ThreeAhead(l, b, "'''");
    if b == "" {
      RawLinesClose(l);
    } else {
      StandsOn(l, b, "'''", 1);
      RawLinesGoOn(l);
      RawLinesFetched(A.Further(l, 1), b[1..]);
      StringGoesOn(l, ItemRawMultilineString, b, 1, 3);
    }
  }

  // ----- multi-line strings -----

  /** Length of the first character or escape of a multi-line string: a backslash at the end of a line goes
      with the end of the line and one more character, whatever it is. */
  function LineUnit(t: string): nat
    requires t != ""
  { if AtLineEscape(t) then 3 else UnitLen(t) }

  predicate AtLineEscape(t: string) { |t| > 1 && t[0] == '\\' && IsNL(t[1]) }

  /** All of a multi-line string: every escape is complete, and the three quotes behind it are the first
      three in a row outside an escape. */
  predicate IsLines(b: string)
    decreases |b|
  {
    b == "" || (!Three(b + "\"\"\"", '"') && 0 < LineUnit(b) <= |b| && IsLines(b[LineUnit(b)..]))
  }

  lemma LinesStep(l: Lex, it: Item)
    requires Bounds(l) && l.items == [] && l.state == MultilineStr && l.stack != [] && l.pos + 3 <= |l.input|
    requires Ahead(l, 0) == '"' && Ahead(l, 1) == '"' && Ahead(l, 2) == '"'
    requires it == Item(ItemMultilineString, Current(l))
    ensures A.Round(l) == A.Queued(A.Done(l, 3), it)
  {
    assert [] + [it] == [it];
  }

  lemma LinesClose(l: Live)
    requires PhaseOf(l) != Done && l.state == MultilineStr && l.stack != []
    requires Ahead(l, 0) == '"' && Ahead(l, 1) == '"' && Ahead(l, 2) == '"' && l.pos + 3 <= |l.input|
    ensures GetsString(l, ItemMultilineString, "", 3) == true
  {
    var it := Item(ItemMultilineString, Current(l));
    LinesStep(l, it);
    Closes(l, it, 3);
  }

  lemma LinesPlain(l: Live, c: char)
    requires PhaseOf(l) != Done && l.state == MultilineStr && l.pos < |l.input| && c == Ahead(l, 0) && c != '\\'
    requires !(Ahead(l, 0) == '"' && Ahead(l, 1) == '"' && Ahead(l, 2) == '"')
    ensures GoesOn(l, A.Further(l, 1)) == true
  {
    RoundStays(l, A.Further(l, 1));
  }

  lemma LinesEscape(l: Live, t: string)
    requires PhaseOf(l) != Done && l.state == MultilineStr && t == Rest(l) && t != "" && t[0] == '\\' && UnitLen(t) > 0
    ensures GoesOn(l, A.Further(l, UnitLen(t))) == true
  {
    OneOff(l);
    RestAhead(l);
    var m := l.(pos := l.pos + 1, state := MultilineStrEscape);
    RoundStays(l, m);
    LinesEscaped(m, l, t);
  }

  lemma LinesEscaped(m: Live, l: Lex, t: string)
    requires m == l.(pos := l.pos + 1, state := MultilineStrEscape) && Bounds(l) && l.state == MultilineStr
    requires PhaseOf(m) != Done && t == Rest(l) && t != "" && t[0] == '\\' && UnitLen(t) > 0 && l.items == []
    ensures GoesOn(m, A.Further(l, UnitLen(t))) == true
  {
    RestAhead(l);
    var c := Ahead(m, 0);
    assert c == Ahead(l, 1) == t[1];
    assert (l.stack + [MultilineStr])[..|l.stack|] == l.stack;
    assert A.Round(m) == StepStrEscape(Push(m, MultilineStr));
    if IsSimpleEscape(c) {
      RoundStays(m, A.Further(l, 2));
    } else {
      var h := l.(pos := l.pos + 2, state := if c == 'u' then ShortUnicodeEscape else LongUnicodeEscape,
                  stack := l.stack + [MultilineStr]);
      RoundStays(m, h);
      HexTaken(h, l, t, c, if c == 'u' then 4 else 8);
    }
  }

  /** A backslash at the end of a line. */
  lemma LinesGlued(l: Live)
    requires PhaseOf(l) != Done && l.state == MultilineStr && l.pos + 3 <= |l.input|
    requires Ahead(l, 0) == '\\' && IsNL(Ahead(l, 1))
    ensures GoesOn(l, A.Further(l, 3)) == true
  {
    var m := l.(pos := l.pos + 1, state := MultilineStrEscape);
    RoundStays(l, m);
    assert Step(m) == A.Further(l, 3);
    RoundStays(m, A.Further(l, 3));
  }

  lemma LineUnitPrefix(b: string, t: string)
    requires b != "" && b <= t && 0 < LineUnit(b) <= |b|
    ensures LineUnit(t) == LineUnit(b) && AtLineEscape(t) == AtLineEscape(b)
  {
    UnitPrefix(b, t);
    assert b == t[..|b|];
  }

  lemma LinesUnit(l: Live, b: string, n: nat)
    requires PhaseOf(l) != Done && l.state == MultilineStr && b != "" && IsLines(b) && n == LineUnit(b)
    requires Stands(l, b, "\"\"\"")
    ensures GoesOn(l, A.Further(l, n)) == true
  {
    ThreeAhead(l, b, "\"\"\"");
    StandsOn(l, b, "\"\"\"", 0);
    RestAhead(l);
    LineUnitPrefix(b, Rest(l));
    if AtLineEscape(b) {
      LinesGlued(l);
    } else if b[0] == '\\' {
      LinesEscape(l, Rest(l));
    } else {
      LinesPlain(l, b[0]);
    }
  }

  lemma {:induction false} LinesFetched(l: Live, b: string)
    requires PhaseOf(l) != Done && l.state == MultilineStr && l.stack != [] && IsLines(b) && Stands(l, b, "\"\"\"")
    ensures GetsString(l, ItemMultilineString, b, 3) == true
    decreases |b|
  {
    if b == "" {
      ThreeAhead(l, b, "\"\"\"");
      LinesClose(l);
    } else {
      var n := LineUnit(b);
      StandsOn(l, b, "\"\"\"", n);
      LinesUnit(l, b, n);
      LinesFetched(A.Further(l, n), b[n..]);
      StringGoesOn(l, ItemMultilineString, b, n, 3);
    }
  }

  // ----- from the value on -----

  /** The lexer stands where a string may start, with the text `e` ahead and no quote behind it. */
  predicate AtText(o: Live, e: string) {
    && PhaseOf(o) != Done && o.items == [] && o.state == Value && o.start == o.pos && o.stack != []
    && Bounds(o) && A.Reads(o, e) && o.pos + |e| < |o.input| && !IsQuote(o.input[o.pos + |e|])
  }

  /** The item is got, and the lexer is behind the text. */
  predicate GotAt(o: Live, it: Item, e: string)
    requires PhaseOf(o) != Done && o.stack != []
  { Gets(Fetch(o), it, A.Done(o, |e|)) }

  /** `o` behind opening quotes of length `k`. */
  function Inside(o: Lex, k: nat, s: StateFn): Lex { o.(start := o.pos + k, pos := o.pos + k, state := s) }

  lemma InsideStands(o: Lex, open: string, b: string, close: string, s: StateFn)
    requires Bounds(o) && A.Reads(o, open + b + close)
    ensures Stands(Inside(o, |open|, s), b, close) == true && Current(Inside(o, |open|, s)) == ""
    ensures forall i | 0 <= i < |open| :: Ahead(o, i) == open[i] && o.pos + i < |o.input|
  {
    assert open + b + close == open + (b + close);
    A.ReadsSplit(o, open, b + close);
    var m := Inside(o, |open|, s);
    RestAhead(m);
    assert b + close == Rest(m)[..|b + close|];
    forall i | 0 <= i < |open| ensures Ahead(o, i) == open[i] { A.ReadsChar(o, open, i); }
  }

  /** What is got inside the quotes is got from the value on. */
  lemma QuotesGot(o: Live, m: Live, typ: ItemType, b: string, k: nat, e: string, s: StateFn)
    requires PhaseOf(o) != Done && PhaseOf(m) != Done && o.stack != [] && m == Inside(o, k, s) && Fetch(o) == Fetch(m)
    requires |e| == k + |b| + k && Current(m) == "" && GetsString(m, typ, b, k)
    ensures GotAt(o, Item(typ, b), e) == true
  {
    assert "" + b == b;
    assert A.Done(m, |b| + k) == A.Done(o, |e|);
  }

  lemma BasicOpens(o: Live, b: string, e: string)
    requires AtText(o, e) && e == "\"" + b + "\"" && IsBody(b)
    ensures GoesOn(o, Inside(o, 1, Str)) == true
  {
    A.ReadsChar(o, e, 0);
    A.ReadsChar(o, e, 1);
    if b == "" {
      assert |e| == 2 && Ahead(o, 2) == o.input[o.pos + |e|];
    } else {
      assert e[1] == b[0];
    }
    A.OpenRound(o);
    RoundFetched(o, Inside(o, 1, Str));
  }

  /** Text between double quotes: one string item. */
  lemma BasicGot(o: Live, b: string, e: string)
    requires AtText(o, e) && e == "\"" + b + "\"" && IsBody(b)
    ensures GotAt(o, Item(ItemString, b), e) == true
  {
    BasicOpens(o, b, e);
    InsideStands(o, "\"", b, "\"", Str);
    BasicFetched(Inside(o, 1, Str), b);
    QuotesGot(o, Inside(o, 1, Str), ItemString, b, 1, e, Str);
  }

  lemma RawOpens(o: Live, b: string, e: string)
    requires AtText(o, e) && e == "'" + b + "'" && IsRawBody(b)
    ensures GoesOn(o, Inside(o, 1, RawStr)) == true
  {
    A.ReadsChar(o, e, 0);
    A.ReadsChar(o, e, 1);
    if b == "" {
      assert |e| == 2 && Ahead(o, 2) == o.input[o.pos + |e|];
    } else {
      assert e[1] == b[0];
    }
    assert A.Round(o) == StepValue(o) == Inside(o, 1, RawStr);
    RoundFetched(o, Inside(o, 1, RawStr));
  }

  /** Text between single quotes: one raw string item. */
  lemma RawGot(o: Live, b: string, e: string)
    requires AtText(o, e) && e == "'" + b + "'" && IsRawBody(b)
    ensures GotAt(o, Item(ItemRawString, b), e) == true
  {
    RawOpens(o, b, e);
    InsideStands(o, "'", b, "'", RawStr);
    RawFetched(Inside(o, 1, RawStr), b);
    QuotesGot(o, Inside(o, 1, RawStr), ItemRawString, b, 1, e, RawStr);
  }

  lemma ThreeOpen(o: Live, q: char, s: StateFn)
    requires PhaseOf(o) != Done && o.state == Value && o.items == [] && Bounds(o) && o.pos + 3 <= |o.input|
    requires (q == '"' && s == MultilineStr) || (q == '\'' && s == MultilineRawStr)
    requires Ahead(o, 0) == q && Ahead(o, 1) == q && Ahead(o, 2) == q
    ensures GoesOn(o, Inside(o, 3, s)) == true
  {
    assert A.Round(o) == StepValue(o) == Inside(o, 3, s);
    RoundFetched(o, Inside(o, 3, s));
  }

  lemma RawLinesGot(o: Live, b: string, e: string)
    requires AtText(o, e) && e == "'''" + b + "'''" && IsRawLines(b)
    ensures GotAt(o, Item(ItemRawMultilineString, b), e) == true
  {
    InsideStands(o, "'''", b, "'''", MultilineRawStr);
    ThreeOpen(o, '\'', MultilineRawStr);
    RawLinesFetched(Inside(o, 3, MultilineRawStr), b);
    QuotesGot(o, Inside(o, 3, MultilineRawStr), ItemRawMultilineString, b, 3, e, MultilineRawStr);
  }

  lemma LinesGot(o: Live, b: string, e: string)
    requires AtText(o, e) && e == "\"\"\"" + b + "\"\"\"" && IsLines(b)
    ensures GotAt(o, Item(ItemMultilineString, b), e) == true
  {
    InsideStands(o, "\"\"\"", b, "\"\"\"", MultilineStr);
    ThreeOpen(o, '"', MultilineStr);
    LinesFetched(Inside(o, 3, MultilineStr), b);
    QuotesGot(o, Inside(o, 3, MultilineStr), ItemMultilineString, b, 3, e, MultilineStr);
  }

  // ----- what the items mean -----

  predicate NoLineEscape(b: string) { forall i | 0 <= i < |b| - 1 :: !(b[i] == '\\' && b[i + 1] == '\n') }

  lemma {:induction false} NothingStripped(b: string)
    requires NoLineEscape(b)
    ensures StripEscapedWhitespace(b) == b
    decreases |b|
  {
    if |b| >= 2 {
      assert !(b[0] == '\\' && b[0 + 1] == '\n');
      var u := b[1..];
      forall i | 0 <= i < |u| - 1 ensures !(u[i] == '\\' && u[i + 1] == '\n') {
        assert u[i] == b[i + 1] && u[i + 1] == b[i + 1 + 1];
      }
      NothingStripped(u);
      assert b == [b[0]] + b[1..];
    }
  }

  lemma {:induction false} Trimmed(w: string, b: string)
    requires (forall i | 0 <= i < |w| :: IsSpace(w[i])) && (b != "" ==> !IsSpace(b[0]))
    ensures TrimLeft(w + b) == b
    decreases |w|
  {
    if w == "" {
      assert w + b == b;
    } else {
      assert (w + b)[1..] == w[1..] + b;
      Trimmed(w[1..], b);
    }
  }

  /** A backslash at the end of a line goes, with the newline and all white space `w` behind it. */
  lemma {:induction false} LineEscapeStripped(a: string, w: string, b: string)
    requires NoLineEscape(a) && (forall i | 0 <= i < |w| :: IsSpace(w[i])) && (b != "" ==> !IsSpace(b[0]))
    ensures StripEscapedWhitespace(a + ("\\\n" + (w + b))) == a + StripEscapedWhitespace(b)
    decreases |a|
  {
    var t := "\\\n" + (w + b);
    var s := a + t;
    if a == "" {
      assert s == t && t[2..] == w + b;
      Trimmed(w, b);
      assert "" + StripEscapedWhitespace(b) == StripEscapedWhitespace(b);
    } else {
      assert s[1] == (if |a| > 1 then a[1] else '\\') && s[1..] == a[1..] + t;
      assert |a| > 1 ==> !(a[0] == '\\' && a[0 + 1] == '\n');
      forall i | 0 <= i < |a[1..]| - 1 ensures !(a[1..][i] == '\\' && a[1..][i + 1] == '\n') {
        assert a[1..][i] == a[i + 1] && a[1..][i + 1] == a[i + 1 + 1];
      }
      LineEscapeStripped(a[1..], w, b);
      assert [a[0]] + (a[1..] + StripEscapedWhitespace(b)) == a + StripEscapedWhitespace(b);
    }
  }

  /** A newline directly behind the opening quotes is not part of the string. */
  function Unbroken(b: string): string { if b != "" && b[0] == '\n' then b[1..] else b }

  /** A string as it is written: between double or single quotes, one or three of them. */
  datatype Form = Basic(b: string) | Raw(b: string) | Lines(b: string) | RawLines(b: string)

  function FormText(f: Form): string {
    match f
    case Basic(b) => "\"" + b + "\""
    case Raw(b) => "'" + b + "'"
    case Lines(b) => "\"\"\"" + b + "\"\"\""
    case RawLines(b) => "'''" + b + "'''"
  }

  /** What it means: in double quotes its decoding, in single quotes itself; in three quotes without a
      newline at the start, and without what line escapes join. */
  predicate FormMeans(f: Form, s: string) {
    match f
    case Basic(b) => IsBody(b) && ReplaceEscapes(b) == Decoded(s)
    case Raw(b) => IsRawBody(b) && s == b
    case Lines(b) => IsLines(b) && ReplaceEscapes(Unbroken(StripEscapedWhitespace(b))) == Decoded(s)
    case RawLines(b) => IsRawLines(b) && s == Unbroken(b)
  }

  function FormItem(f: Form): Item {
    match f
    case Basic(b) => Item(ItemString, b)
    case Raw(b) => Item(ItemRawString, b)
    case Lines(b) => Item(ItemMultilineString, b)
    case RawLines(b) => Item(ItemRawMultilineString, b)
  }

  lemma ItemMeans(f: Form, s: string)
    requires FormMeans(f, s)
    ensures ScalarValue(FormItem(f)) == Good(Text(s)) && IsStringType(FormItem(f).typ)
  {
  }

  /** The text of a string is one item, consumed exactly. */
  lemma FormGot(o: Live, f: Form, s: string)
    requires AtText(o, FormText(f)) && FormMeans(f, s)
    ensures GotAt(o, FormItem(f), FormText(f)) == true
  {
    match f
    case Basic(b) => BasicGot(o, b, FormText(f));
    case Raw(b) => RawGot(o, b, FormText(f));
    case Lines(b) => LinesGot(o, b, FormText(f));
    case RawLines(b) => RawLinesGot(o, b, FormText(f));
  }

  // ----- key lines -----

  /** A line with this text of a value. */
  function LineWith(k: string, e: string): string { MaybeQuoted(k) + (" " + ("= " + e)) }

  /** The lexer is at the start of such a line. */
  predicate AtLine(l: Lex, k: string, e: string) {
    && AtItem(l) && Readable(k) && A.Reads(l, LineWith(k, e))
    && l.pos + |LineWith(k, e)| < |l.input| && l.input[l.pos + |LineWith(k, e)|] == '\n'
  }

  lemma LineLength(k: string, e: string)
    ensures |LineWith(k, e)| == |MaybeQuoted(k)| + 3 + |e|
  {
  }

  /** Where the value starts on the line, behind a key of `i` characters. */
  lemma ValuePlace(l: Lex, m: Lex, q: string, e: string, n: nat)
    requires AtItem(l) && m == BehindKey(l, q) && A.Reads(m, "= " + e) && m.input == l.input
    requires n == |q| + 3 + |e| && l.pos + n < |l.input| && l.input[l.pos + n] == '\n'
    ensures m.state == KeyEnd && m.stack == [TopEnd] && m.items == []
    ensures m.pos + 2 + |e| < |m.input| && m.input[m.pos + 2 + |e|] == '\n'
    ensures A.Done(Past(m, 2, Value), |e|) == Past(l, n, TopEnd)
  {
    assert m.pos + 2 + |e| == l.pos + n;
    assert [TopEnd][..0] == [];
  }

  /** A value whose text is followed by the end of the line. */
  predicate AtValue(o: Live, e: string) {
    PhaseOf(o) == ValueNext && A.Before(o, e) && o.input[o.pos + |e|] == '\n'
  }

  lemma IsAtValue(m: Lex, o: Live, e: string)
    requires o == Past(m, 2, Value) && PhaseOf(o) == ValueNext && A.Before(o, e) == true
    requires m.pos + 2 + |e| < |m.input| && m.input[m.pos + 2 + |e|] == '\n'
    ensures AtValue(o, e) == true
  {
  }

  lemma ValueEntered(m: Live, e: string) returns (o: Live)
    requires AtEquals(m, e) && PhaseOf(m) == ValueNext
    ensures AtValue(o, e) == true && Fetch(m) == Fetch(o) && o == Past(m, 2, Value)
  {
    o := ValueAhead(m, e);
    IsAtValue(m, o, e);
  }

  lemma LineName(l: Live, k: string, q: string, e: string) returns (m: Live)
    requires AtLine(l, k, e) == true && q == MaybeQuoted(k)
    ensures PhaseOf(l) == AtTop && PhaseOf(m) == ValueNext && ReadTopLevel(l) == ReadValue(m, k)
    ensures m == BehindKey(l, q) && A.Reads(m, "= " + e) == true
  {
    m := NameFetched(l, k, q, "= " + e);
  }

  /** The place behind the key. */
  predicate AtEquals(m: Lex, e: string) {
    && m.state == KeyEnd && m.stack == [TopEnd] && Bounds(m) && m.items == [] && A.Reads(m, "= " + e)
    && m.pos + 2 + |e| < |m.input| && m.input[m.pos + 2 + |e|] == '\n'
  }

  lemma EqualsPlace(l: Lex, m: Lex, k: string, q: string, e: string)
    requires AtLine(l, k, e) && q == MaybeQuoted(k) && m == BehindKey(l, q) && A.Reads(m, "= " + e) && Bounds(m)
    ensures AtEquals(m, e) == true && A.Done(Past(m, 2, Value), |e|) == Past(l, |LineWith(k, e)|, TopEnd)
  {
    LineLength(k, e);
    ValuePlace(l, m, q, e, |LineWith(k, e)|);
  }

  /** From the start of the line `l`, where its key is read, to the value at `o`. */
  predicate Leads(l: Live, k: string, e: string, m: Live, o: Live) {
    && PhaseOf(l) == AtTop && PhaseOf(m) == ValueNext && ReadTopLevel(l) == ReadValue(m, k)
    && AtValue(o, e) && Fetch(m) == Fetch(o) && A.Done(o, |e|) == Past(l, |LineWith(k, e)|, TopEnd)
  }

  lemma ValueOf(l: Live, k: string, e: string) returns (m: Live, o: Live)
    requires AtLine(l, k, e) == true
    ensures Leads(l, k, e, m, o) == true
  {
    var q := MaybeQuoted(k);
    m := LineName(l, k, q, e);
    EqualsPlace(l, m, k, q, e);
    o := ValueEntered(m, e);
  }

  /** The line is read as this assignment, up to its end. */
  predicate LineAssigns(l: Live, k: string, e: string, v: Val)
    requires PhaseOf(l) == AtTop
  {
    ReadAs(ReadTopLevel(l), T.Assign(k, v)) && ReadTopLevel(l).lex == Past(l, |LineWith(k, e)|, TopEnd)
  }

  /** The value of the line is read. */
  lemma ItemRead(l: Live, m: Live, o: Live, k: string, it: Item, v: Val, e: string)
    requires Leads(l, k, e, m, o) && GotAt(o, it, e) && IsScalarType(it.typ) && ScalarValue(it) == Good(v)
    ensures LineAssigns(l, k, e, v) == true
  {
    FetchDelivers(m);
  }

  /** Every string on a key line, however it is written, is read as what it means. */
  lemma StringLine(l: Live, k: string, f: Form, s: string)
    requires AtLine(l, k, FormText(f)) && FormMeans(f, s)
    ensures LineAssigns(l, k, FormText(f), Text(s)) == true
  {
    var e := FormText(f);
    var m, o := ValueOf(l, k, e);
    FormGot(o, f, s);
    ItemMeans(f, s);
    ItemRead(l, m, o, k, FormItem(f), Text(s), e);
  }

  lemma UnicodeForm(c: char, d: string, n: nat, b: string)
    requires (c == 'u' && |d| == 4) || (c == 'U' && |d| == 8)
    requires AllHex(d) && H.Lower(d) == H.HexText(n, |d|) && n < H.Power(|d|) && H.IsScalar(n) && b == ['\\', c] + d
    ensures FormMeans(Basic(b), [n as char]) == true
  {
    H.EscapeMeans(c, d, n);
    assert b[2..|b|] == d && b[|b|..] == "" && b[0] == '\\';
    assert UnitLen(b) == |b|;
    assert IsBody(b[UnitLen(b)..]);
  }

  /** A line whose value is one escape of four or eight hexadecimal digits, in either case, is read as
      the character of that number. */
  lemma UnicodeLine(l: Live, k: string, c: char, d: string, n: nat, e: string)
    requires (c == 'u' && |d| == 4) || (c == 'U' && |d| == 8)
    requires AllHex(d) && H.Lower(d) == H.HexText(n, |d|) && n < H.Power(|d|) && H.IsScalar(n)
    requires e == "\"" + (['\\', c] + d) + "\"" && AtLine(l, k, e)
    ensures LineAssigns(l, k, e, Text([n as char])) == true
  {
    var b := ['\\', c] + d;
    UnicodeForm(c, d, n, b);
    assert e == FormText(Basic(b));
    StringLine(l, k, Basic(b), [n as char]);
  }
}
