/** Whole documents of the encoder are read back statement by statement. */
module TomlDocumentText {
  import opened Sequences
  import opened TomlData
  import opened TomlLexer
  import opened TomlLexerProofs
  import opened TomlValues
  import opened TomlDocument
  import opened TomlLayout
  import opened TomlKeyText
  import opened TomlText
  import opened TomlHeaderText
  import opened TomlReplay
  import A = TomlArrayText
  import T = TomlTables

  predicate Blank(c: char) { IsWhitespace(c) || IsNL(c) }

  predicate AllBlank(s: string) { forall i | 0 <= i < |s| :: Blank(s[i]) }

  /** What the lexer has not read yet. */
  predicate Left(l: Lex, text: string) { l.pos <= |l.input| && l.input[l.pos..] == text }

  lemma LeftReads(l: Lex, a: string, b: string)
    requires Left(l, a + b)
    ensures A.Reads(l, a) && l.pos + |a| <= |l.input|
    ensures Left(A.Further(l, |a|), b)
  {
    var i := l.pos + |a|;
    assert l.input[l.pos..i] == l.input[l.pos..][..|a|] == a;
    assert l.input[i..] == l.input[l.pos..][|a|..] == b;
  }

  lemma SameTop(l: Live, m: Live)
    requires PhaseOf(l) == AtTop && PhaseOf(m) == AtTop && Fetch(l) == Fetch(m)
    ensures ReadTopLevel(l) == ReadTopLevel(m)
  {
  }

  lemma SameRest(l: Live, m: Live)
    requires PhaseOf(l) == AtTop && PhaseOf(m) == AtTop && ReadTopLevel(l) == ReadTopLevel(m)
    ensures ReadAll(l) == ReadAll(m)
  {
  }

  // ----- blanks -----

  lemma BlankRound(l: Lex, c: char)
    requires AtItem(l) && A.Reads(l, [c]) && Blank(c)
    ensures A.Round(l) == l.(pos := l.pos + 1, state := Skip(Top))
  {
    A.ReadsChar(l, [c], 0);
  }

  lemma SkipRound(l: Lex)
    requires Bounds(l) && l.items == [] && l.state == Skip(Top)
    ensures A.Round(l) == Past(l, 0, Top)
  {
  }

  /** Going on without an item changes nothing for the parser. */
  lemma Silent(l: Live, n: Lex)
    requires PhaseOf(l) == AtTop && !Stuck(l) && A.Round(l) == n && n.items == []
    ensures Inv(n) && PhaseOf(n) == AtTop && ReadAll(l) == ReadAll(n)
  {
    RoundFetched(l, n);
    SameTop(l, n);
    SameRest(l, n);
  }

  lemma BlankRead(l: Live, c: char, rest: string) returns (n: Live)
    requires AtItem(l) && Left(l, [c] + rest) && Blank(c)
    ensures AtItem(n) && n == Past(l, 1, Top) && Left(n, rest) && ReadAll(l) == ReadAll(n)
  {
    LeftReads(l, [c], rest);
    BlankRound(l, c);
    var m := l.(pos := l.pos + 1, state := Skip(Top));
    Silent(l, m);
    SkipRound(m);
    n := Past(l, 1, Top);
    Silent(m, n);
  }

  lemma {:induction false} BlanksRead(l: Live, s: string, rest: string) returns (n: Live)
    requires AtItem(l) && Left(l, s + rest) && AllBlank(s)
    ensures AtItem(n) && Left(n, rest) && ReadAll(l) == ReadAll(n)
    decreases |s|
  {
    if s == "" {
      assert s + rest == rest;
      n := l;
    } else {
      assert s + rest == [s[0]] + (s[1..] + rest);
      n := BlankRead(l, s[0], s[1..] + rest);
      n := BlanksRead(n, s[1..], rest);
    }
  }

  /** The newline behind a statement. */
  lemma NewlineRound(l: Lex)
    requires Bounds(l) && l.items == [] && l.state == TopEnd && A.Reads(l, "\n")
    ensures A.Round(l) == Past(l, 1, Top)
  {
    A.ReadsChar(l, "\n", 0);
  }

  lemma NewlineRead(l: Live, rest: string) returns (n: Live)
    requires Bounds(l) && l.items == [] && l.state == TopEnd && l.stack == [] && l.start == l.pos
    requires Left(l, "\n" + rest)
    ensures AtItem(n) && Left(n, rest) && ReadAll(l) == ReadAll(n)
  {
    LeftReads(l, "\n", rest);
    NewlineRound(l);
    n := Past(l, 1, Top);
    Silent(l, n);
  }

  // ----- the end -----

  lemma EndRound(l: Lex)
    requires AtItem(l) && l.pos == |l.input|
    ensures A.Round(l) == A.Queued(l.(state := Halt), Item(ItemEOF, ""))
  {
    assert Current(l) == "";
    assert A.Round(l) == StepTop(l);
    assert [] + [Item(ItemEOF, "")] == [Item(ItemEOF, "")];
  }

  lemma EndRead(l: Live)
    requires AtItem(l) && Left(l, "")
    ensures ReadAll(l) == Document([], AtEnd)
  {
    EndTop(l);
  }

  lemma EndTop(l: Live)
    requires AtItem(l) && Left(l, "")
    ensures PhaseOf(l) == AtTop && ReadTopLevel(l) == Stopped(AtEnd)
  {
    EndRound(l);
    RoundFetched(l, A.Round(l));
    FetchDelivers(l);
  }

  // ----- statements -----

  /** A statement whose keys and value have texts that are read back. */
  predicate Printable(s: T.Stmt) {
    match s
    case Header(key, _) => key != [] && ReadableKeys(key)
    case Assign(name, v) => Readable(name) && A.Supported(v)
  }

  predicate AllPrintable(ss: seq<T.Stmt>) { forall i | 0 <= i < |ss| :: Printable(ss[i]) }

  /** A statement as the encoder writes it: no empty names, and a value that is read back. */
  predicate Writable(s: T.Stmt) {
    match s
    case Header(key, _) => key != [] && ValidKey(key)
    case Assign(name, v) => name != "" && A.Supported(v)
  }

  predicate AllWritable(ss: seq<T.Stmt>) { forall i | 0 <= i < |ss| :: Writable(ss[i]) }

  lemma LineWritten(k: string, v: Val)
    ensures StmtText(T.Assign(k, v)) == LineText(MaybeQuoted(k), v)
  {
    Spaced(MaybeQuoted(k), A.EncodeVal(v));
  }

  lemma Spaced(q: string, e: string)
    ensures q + " = " + e == q + (" " + ("= " + e))
  {
    assert " = " == " " + "= ";
  }

  /** A statement and the end of its line. */
  lemma StmtRead(l: Live, s: T.Stmt, rest: string) returns (n: Live)
    requires AtItem(l) && Printable(s) && Left(l, StmtText(s) + ("\n" + rest))
    ensures AtItem(n) && Left(n, rest)
    ensures PhaseOf(n) == AtTop && ReadAll(l) == Document([s] + ReadAll(n).ss, ReadAll(n).ending)
  {
    var text := StmtText(s);
    LeftReads(l, text, "\n" + rest);
    LeftReads(A.Further(l, |text|), "\n", rest);
    A.ReadsChar(A.Further(l, |text|), "\n", 0);
    var m := StmtTaken(l, s, text);
    n := NewlineRead(m, rest);
  }

  lemma StmtTaken(l: Live, s: T.Stmt, text: string) returns (m: Live)
    requires AtItem(l) && Printable(s) && text == StmtText(s) && A.Reads(l, text)
    requires l.pos + |text| < |l.input| && l.input[l.pos + |text|] == '\n'
    ensures ReadTopLevel(l) == Statement(s, m) && m == Past(l, |text|, TopEnd)
  {
    match s
    case Header(key, many) =>
      HeaderWritten(key, many);
      m := HeaderRead(l, key, many, text);
    case Assign(k, v) =>
      LineWritten(k, v);
      m := LineRead(l, k, v, text);
  }

  /** What stands before the statement on its line. */
  function Margin(tab: string, s: T.Stmt, depth: nat, written: bool): string
    requires s.Header? ==> s.key != []
  {
    match s
    case Header(key, many) =>
      (if written && (many || |key| == 1) then "\n" else "") + Repeat(tab, |key| - 1)
    case Assign(_, _) => Repeat(tab, depth)
  }

  lemma {:induction false} RepeatBlank(tab: string, n: nat)
    requires AllBlank(tab)
    ensures AllBlank(Repeat(tab, n))
  {
    if n > 0 {
      RepeatBlank(tab, n - 1);
    }
  }

  lemma LineParts(tab: string, s: T.Stmt, depth: nat, written: bool, rest: string)
    requires AllBlank(tab) && (s.Header? ==> s.key != [])
    ensures AllBlank(Margin(tab, s, depth, written))
    ensures LineOf(tab, s, depth, written) + rest ==
      Margin(tab, s, depth, written) + (StmtText(s) + ("\n" + rest))
  {
    RepeatBlank(tab, match s case Header(key, _) => |key| - 1 case Assign(_, _) => depth);
    var a, b := Margin(tab, s, depth, written), StmtText(s);
    assert LineOf(tab, s, depth, written) == a + b + "\n";
    assert a + b + "\n" + rest == a + (b + ("\n" + rest));
  }

  lemma OneLine(l: Live, tab: string, s: T.Stmt, depth: nat, written: bool, rest: string) returns (n: Live)
    requires AtItem(l) && Printable(s) && AllBlank(tab) && Left(l, LineOf(tab, s, depth, written) + rest)
    ensures AtItem(n) && Left(n, rest)
    ensures PhaseOf(n) == AtTop && ReadAll(l) == Document([s] + ReadAll(n).ss, ReadAll(n).ending)
  {
    LineParts(tab, s, depth, written, rest);
    var m := BlanksRead(l, Margin(tab, s, depth, written), StmtText(s) + ("\n" + rest));
    n := StmtRead(m, s, rest);
  }

  /** The newline that the lexer puts behind its input. */
  lemma LastNewline(l: Live)
    requires AtItem(l) && Left(l, "" + "\n")
    ensures ReadAll(l) == Document([], AtEnd)
  {
    assert "" + "\n" == "\n" + "";
    var n := BlankRead(l, '\n', "");
    EndRead(n);
  }

  lemma FirstAndRest(ss: seq<T.Stmt>)
    requires ss != []
    ensures [ss[0]] + ss[1..] == ss
  {
  }

  /** The text of the statements is read as exactly these statements, up to the end. */
  lemma {:induction false} RenderRead(l: Live, tab: string, ss: seq<T.Stmt>, depth: nat, written: bool)
    requires AtItem(l) && AllPrintable(ss) && AllBlank(tab) && T.Named(ss)
    requires Left(l, Render(tab, ss, depth, written) + "\n")
    ensures ReadAll(l) == Document(ss, AtEnd)
    decreases |ss|
  {
    if ss == [] {
      LastNewline(l);
    } else {
      var line, more := LineOf(tab, ss[0], depth, written), Render(tab, ss[1..], NextDepth(ss[0], depth), true);
      Assoc(line, more, "\n");
      var n := OneLine(l, tab, ss[0], depth, written, more + "\n");
      RenderRead(n, tab, ss[1..], NextDepth(ss[0], depth), true);
      FirstAndRest(ss);
    }
  }
}
