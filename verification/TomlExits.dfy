/** Inputs that reach the two loops of the lexer and the "BUG" exits of values: families of documents
    of one line, and a member of each. */
module TomlExits {
  import opened TomlData
  import opened TomlLexer
  import opened TomlEscapes
  import opened TomlLexerProofs
  import opened TomlLoops
  import opened TomlValues
  import opened TomlDocument
  import opened TomlLayout
  import opened TomlKeyText
  import opened TomlText
  import A = TomlArrayText
  import T = TomlTables

  // ----- a header that starts with a blank -----

  /** Whatever stands behind it, a bracket and a blank are the end of the program's returning. */
  lemma BlankNeverReturns(data: string)
    requires |data| > 1 && data[0] == '[' && IsWhitespace(data[1])
    ensures Inv(Init(data)) && PhaseOf(Init(data)) == AtTop && Parse(Init(data), T.START).NeverReturns?
  {
    StartPhase(data);
    var l: Live := Init(data);
    var n := TableFetched(l);
    HeaderSpins(n);
    FirstStops(l, BySpinning);
  }

  lemma HeaderSpins(n: Live)
    requires PhaseOf(n) == TableName(false) && Stuck(n)
    ensures ReadTable(n, false) == Stopped(BySpinning)
  {
    assert Fetch(n) == Spins;
    assert ReadHeader(n, false, []) == HeaderItem(Fetch(n), false, []);
  }

  /** The end of reading the first line is that of parsing. */
  lemma FirstStops(l: Live, how: Ending)
    requires PhaseOf(l) == AtTop && ReadTopLevel(l) == Stopped(how)
    ensures Parse(l, T.START) == Finish(how, T.START)
  {
  }

  lemma TableFetched(l: Live) returns (n: Live)
    requires AtItem(l) && PhaseOf(l) == AtTop && |l.input| > l.pos + 1
    requires l.input[l.pos] == '[' && IsWhitespace(l.input[l.pos + 1])
    ensures PhaseOf(n) == TableName(false) && Stuck(n) && ReadTopLevel(l) == ReadTable(n, false)
  {
    var m := l.(pos := l.pos + 1, state := TableStart);
    assert A.Round(l) == StepTop(l) == m;
    RoundFetched(l, m);
    NameFollows(m, Past(m, 0, TableNameStart).(stack := [TableEnd]));
    n := TableTaken(l, Past(m, 0, TableNameStart).(stack := [TableEnd]));
  }

  lemma NameFollows(m: Live, o: Lex)
    requires m.state == TableStart && m.stack == [] && m.start + 1 == m.pos && m.pos < |m.input|
    requires m.input[m.start] == '['
    requires IsWhitespace(m.input[m.pos]) && o == Past(m, 0, TableNameStart).(stack := [TableEnd])
    ensures Gets(Fetch(m), Item(ItemTableStart, "["), o) == true
  {
    assert Current(m) == [m.input[m.start]] == "[";
    assert [] + [Item(ItemTableStart, "[")] == [Item(ItemTableStart, "[")] && [] + [TableEnd] == [TableEnd];
    assert A.Round(m) == StepTableStart(m) == A.Queued(o, Item(ItemTableStart, "["));
    RoundFetched(m, A.Round(m));
    assert [Item(ItemTableStart, "[")][1..] == [];
  }

  lemma TableTaken(l: Live, o: Lex) returns (n: Live)
    requires PhaseOf(l) == AtTop && Gets(Fetch(l), Item(ItemTableStart, "["), o)
    ensures n == o && PhaseOf(n) == TableName(false) && ReadTopLevel(l) == ReadTable(n, false)
  {
    FetchDelivers(l);
    n := Fetch(l).lex;
  }

  // ----- a line -----

  /** A document of one line whose text behind the key's blank is `rest`. */
  function LineOf(k: string, rest: string): string { MaybeQuoted(k) + (" " + rest) }

  lemma LineStarts(k: string, rest: string) returns (n: Live)
    requires Readable(k)
    ensures PhaseOf(n) == ValueNext && A.Reads(n, rest + "\n") && Bounds(n) && n.items == []
    ensures var l := Init(LineOf(k, rest)); Inv(l) && PhaseOf(l) == AtTop && ReadTopLevel(l) == ReadValue(n, k)
    ensures n.state == KeyEnd && n.stack == [TopEnd] && n.start == n.pos && n.pos + |rest| + 1 == |n.input|
  {
    var data := LineOf(k, rest);
    StartPhase(data);
    var text := MaybeQuoted(k) + (" " + (rest + "\n"));
    assert data + "\n" == text;
    n := NameFetched(Init(data), k, MaybeQuoted(k), rest + "\n");
  }

  /** For every key and every text that does not close the string: parsing never returns. */
  lemma UnclosedNeverReturns(k: string, x: string, rest: string)
    requires Readable(k) && RunsOff(x + "\n") && rest == "= \"\"\"" + x
    ensures var l := Init(LineOf(k, rest)); Inv(l) && PhaseOf(l) == AtTop && Parse(l, T.START).NeverReturns?
  {
    var n := LineStarts(k, rest);
    UnclosedLoops(n, rest + "\n", x);
    LineSpins(Init(LineOf(k, rest)), n, k);
  }

  lemma LineSpins(l: Live, n: Live, k: string)
    requires PhaseOf(l) == AtTop && PhaseOf(n) == ValueNext && ReadTopLevel(l) == ReadValue(n, k) && Loops(n)
    ensures Parse(l, T.START).NeverReturns?
  {
    ValueSpins(n, k);
    FirstStops(l, BySpinning);
  }

  lemma UnclosedLoops(n: Lex, t: string, x: string)
    requires Bounds(n) && n.state == KeyEnd && A.Reads(n, t) && n.pos + |t| == |n.input|
    requires t == "= \"\"\"" + x + "\n" && RunsOff(x + "\n")
    ensures Loops(n)
  {
    RestAhead(n);
    assert Rest(n) == t;
    assert t[1..][0] == ' ' && t[1..][1..] == "\"\"\"" + (x + "\n");
    var u := t[1..][1..];
    assert u[3..] == x + "\n" && Three(u, '"');
    assert ValueLoops(u) && ValueLoops(t[1..]);
  }

  lemma ValueSpins(n: Live, k: string)
    requires PhaseOf(n) == ValueNext && Loops(n)
    ensures ReadValue(n, k) == Stopped(BySpinning)
  {
    SpinsExactly(n);
  }

  // ----- "BUG" exits -----

  /** Before the value of the line. */
  lemma LineValue(k: string, e: string, rest: string) returns (n: Live, o: Live)
    requires Readable(k) && rest == "= " + e
    ensures PhaseOf(n) == ValueNext && PhaseOf(o) == ValueNext && Fetch(n) == Fetch(o) && A.Before(o, e) == true
    ensures var l := Init(LineOf(k, rest)); Inv(l) && PhaseOf(l) == AtTop && ReadTopLevel(l) == ReadValue(n, k)
  {
    n := LineStarts(k, rest);
    o := LineEntered(n, e, rest);
  }

  lemma LineEntered(n: Live, e: string, rest: string) returns (o: Live)
    requires n.state == KeyEnd && n.stack == [TopEnd] && Bounds(n) && n.items == [] && PhaseOf(n) == ValueNext
    requires rest == "= " + e && A.Reads(n, rest + "\n")
    ensures PhaseOf(o) == ValueNext && Fetch(n) == Fetch(o) && A.Before(o, e) == true
  {
    LineEndsBehind(n, rest);
    assert n.pos + 2 + |e| == n.pos + |rest|;
    o := ValueAhead(n, e);
  }

  lemma LineEndsBehind(n: Lex, rest: string)
    requires Bounds(n) && A.Reads(n, rest + "\n")
    ensures A.Reads(n, rest) && n.pos + |rest| < |n.input| && n.input[n.pos + |rest|] == '\n'
  {
    A.ReadsSplit(n, rest, "\n");
    A.ReadsChar(A.Further(n, |rest|), "\n", 0);
  }

  /** An item whose conversion ends in a "BUG" exit. */
  lemma FaultyDies(l: Live, n: Live, k: string, it: Item, m: Lex, kind: BugKind)
    requires PhaseOf(l) == AtTop && PhaseOf(n) == ValueNext && ReadTopLevel(l) == ReadValue(n, k)
    requires Gets(Fetch(n), it, m) == true && Fails(it, kind) == true
    ensures Parse(l, T.START) == Dies(kind)
  {
    FetchDelivers(n);
    FailsRead(n, k, it, kind);
    FirstStops(l, ByBug(kind));
  }

  lemma FailsRead(n: Live, k: string, it: Item, kind: BugKind)
    requires PhaseOf(n) == ValueNext && Fetch(n).Got? && Fetch(n).item == it && ItemOk(it) && Fails(it, kind)
    ensures ReadValue(n, k) == Stopped(ByBug(kind))
  {
    assert ParseValue(it, Fetch(n).lex, 1) == Bug(kind);
  }

  predicate Fails(it: Item, kind: BugKind) { IsScalarType(it.typ) && ScalarValue(it) == Faulty(kind) }

  lemma DateFails(t: string, it: Item)
    requires !OnCalendar(t) && it == Item(ItemDatetime, t)
    ensures Fails(it, BadDate) == true
  {
  }

  lemma DateFetched(o: Live, t: string)
    requires PhaseOf(o) == ValueNext && A.Before(o, t) == true && DatetimeText(t)
    ensures Gets(Fetch(o), Item(ItemDatetime, t), A.Done(o, |t|)) == true
  {
    var i := A.DateRead(o, t);
    A.FetchedBy(o, i, A.Done(o, |t|), Item(ItemDatetime, t));
  }

  /** For every key and every date in the lexer's format that is not on the calendar: parsing ends
      the process. */
  lemma OffCalendarDies(k: string, t: string, rest: string)
    requires Readable(k) && DatetimeText(t) && !OnCalendar(t) && rest == "= " + t
    ensures var l := Init(LineOf(k, rest)); Inv(l) && PhaseOf(l) == AtTop && Parse(l, T.START) == Dies(BadDate)
  {
    var n, o := LineValue(k, t, rest);
    var it := Item(ItemDatetime, t);
    DateFails(t, it);
    DateFetched(o, t);
    FaultyDies(Init(LineOf(k, rest)), n, k, it, A.Done(o, |t|), BadDate);
  }

  /** A multi-line string of a backslash, a line end and one more character. */
  function EscapedLine(c: char, d: char): string { "\"\"\"" + (['\\', c, d] + "\"\"\"") }

  /** For every key and every character behind it: a backslash before a carriage return in a
      multi-line string ends the process. */
  lemma EscapedReturnDies(k: string, d: char, rest: string)
    requires Readable(k) && d != '\\' && rest == "= " + EscapedLine('\r', d)
    ensures var l := Init(LineOf(k, rest)); Inv(l) && PhaseOf(l) == AtTop && Parse(l, T.START) == Dies(BadMultilineEscape)
  {
    var e := EscapedLine('\r', d);
    var n, o := LineValue(k, e, rest);
    var it := Item(ItemMultilineString, ['\\', '\r', d]);
    var i := EscapedLineRead(o, '\r', d, e, it);
    A.FetchedBy(o, i, A.Done(o, |e|), it);
    ReturnFaulty(d, it);
    FaultyDies(Init(LineOf(k, rest)), n, k, it, A.Done(o, |e|), BadMultilineEscape);
  }

  lemma ReturnFaulty(d: char, it: Item)
    requires it == Item(ItemMultilineString, ['\\', '\r', d]) && d != '\\'
    ensures Fails(it, BadMultilineEscape)
  {
    var s := it.val;
    assert s[1..] == ['\r', d] && s[1..][1..] == [d];
    assert StripEscapedWhitespace([d]) == [d];
    assert StripEscapedWhitespace(['\r', d]) == ['\r'] + [d];
    assert StripEscapedWhitespace(s) == ['\\'] + (['\r'] + [d]) == s;
    assert UnitLen(s) == 0;
  }

  predicate ThreeQuotes(l: Lex) { Ahead(l, 0) == '"' && Ahead(l, 1) == '"' && Ahead(l, 2) == '"' }

  lemma StringOpens(l: Lex)
    requires At(l, Value) && ThreeQuotes(l)
    ensures A.Round(l) == l.(start := l.pos + 3, pos := l.pos + 3, state := MultilineStr)
  {
  }

  lemma LineEscaped(l: Lex)
    requires At(l, MultilineStr) && Ahead(l, 0) == '\\' && IsNL(Ahead(l, 1)) && l.pos + 3 <= |l.input|
    ensures A.Rounds(l, 2) == l.(pos := l.pos + 3)
  {
    var m := l.(pos := l.pos + 1, state := MultilineStrEscape);
    A.Once(l, m);
    assert Ahead(m, 0) == Ahead(l, 1);
    assert A.Round(m) == StepMultilineStrEscape(m);
    A.Once(m, l.(pos := l.pos + 3));
    A.Then(l, 1, m, 1, l.(pos := l.pos + 3));
  }

  lemma StringCloses(l: Lex, it: Item)
    requires At(l, MultilineStr) && ThreeQuotes(l) && l.stack != [] && it == Item(ItemMultilineString, Current(l))
    ensures A.Round(l) == A.Queued(A.Done(l, 3), it)
  {
    assert A.Round(l) == StepMultilineStr(l);
    assert [] + [it] == [it];
  }

  lemma EscapedLineAhead(o: Lex, c: char, d: char, e: string)
    requires e == EscapedLine(c, d) && A.Before(o, e)
    ensures |e| == 9 && o.pos + 9 <= |o.input| && ThreeQuotes(o) && ThreeQuotes(A.Further(o, 6))
    ensures o.input[o.pos + 3..o.pos + 6] == ['\\', c, d]
  {
    forall j | 0 <= j < 9 ensures o.input[o.pos + j] == e[j] { A.ReadsChar(o, e, j); }
    assert e[3..6] == ['\\', c, d] && e[6] == '"' && e[7] == '"' && e[8] == '"';
  }

  lemma EscapedLineRead(o: Lex, c: char, d: char, e: string, it: Item) returns (i: nat)
    requires e == EscapedLine(c, d) && A.Before(o, e) && IsNL(c) && it == Item(ItemMultilineString, ['\\', c, d])
    ensures A.Rounds(o, i) == A.Queued(A.Done(o, |e|), it)
  {
    EscapedLineAhead(o, c, d, e);
    var a := o.(start := o.pos + 3, pos := o.pos + 3, state := MultilineStr);
    var g := a.(pos := o.pos + 6);
    StringOpens(o);
    A.Once(o, a);
    assert Ahead(a, 0) == o.input[o.pos + 3..o.pos + 6][0] && Ahead(a, 1) == o.input[o.pos + 3..o.pos + 6][1];
    LineEscaped(a);
    i := A.Joined(o, 1, a, 2, g);
    StringCloses(g, it);
    A.Once(g, A.Queued(A.Done(o, 9), it));
    i := A.Joined(o, i, g, 1, A.Queued(A.Done(o, 9), it));
  }

  // ----- one input of each kind -----

  lemma BareLine(k: string, rest: string, data: string)
    requires k == "a" && data == k + (" " + rest)
    ensures Readable(k) && LineOf(k, rest) == data
  {
  }

  lemma BlankInput()
    ensures Inv(Init("[ a]")) && PhaseOf(Init("[ a]")) == AtTop && Parse(Init("[ a]"), T.START).NeverReturns?
  {
    BlankNeverReturns("[ a]");
  }

  lemma UnclosedInput(data: string)
    requires data == "a = \"\"\"x"
    ensures Inv(Init(data)) && PhaseOf(Init(data)) == AtTop && Parse(Init(data), T.START).NeverReturns?
  {
    var t, rest := "x" + "\n", "= \"\"\"" + "x";
    assert t[1..] == "\n" && "\n"[1..] == "" && RunsOff("\n");
    BareLine("a", rest, data);
    UnclosedNeverReturns("a", "x", rest);
  }

  lemma FebruaryThirty(t: string)
    requires t == "2000-02-30T00:00:00Z"
    ensures DatetimeText(t) && !OnCalendar(t)
  {
    assert t[..5] == "2000-" && t[5..] == "02-30T00:00:00Z";
    assert TwoDigits(t, 5) == 2 && TwoDigits(t, 8) == 30;
  }

  lemma FebruaryInput(data: string, t: string)
    requires data == "a = " + t && t == "2000-02-30T00:00:00Z"
    ensures Inv(Init(data)) && PhaseOf(Init(data)) == AtTop && Parse(Init(data), T.START) == Dies(BadDate)
  {
    FebruaryThirty(t);
    DateLine("a", t, "= " + t, data);
    OffCalendarDies("a", t, "= " + t);
  }

  lemma DateLine(k: string, t: string, rest: string, data: string)
    requires k == "a" && data == "a = " + t && rest == "= " + t
    ensures Readable(k) && LineOf(k, rest) == data
  {
    assert data == k + (" " + rest);
    BareLine(k, rest, data);
  }

  lemma EscapedReturnInput(data: string)
    requires data == "a = \"\"\"\\\rx\"\"\""
    ensures Inv(Init(data)) && PhaseOf(Init(data)) == AtTop && Parse(Init(data), T.START) == Dies(BadMultilineEscape)
  {
    var rest := "= " + EscapedLine('\r', 'x');
    BareLine("a", rest, data);
    EscapedReturnDies("a", 'x', rest);
  }
}
