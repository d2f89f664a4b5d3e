/** Documents however they are laid out: gaps and comments between the lines, blanks around the separators,
    names and values in every spelling. The lexer and the parser read exactly the statements they mean. */
module TomlLines {
  import opened Sequences
  import opened TomlData
  import opened TomlLexer
  import opened TomlLexerProofs
  import opened TomlValues
  import opened TomlDocument
  import opened TomlLayout
  import opened TomlKeyText
  import opened TomlText
  import opened TomlDocumentText
  import opened TomlStrings
  import opened TomlLayouts
  import A = TomlArrayText
  import H = TomlHeaderText
  import P = TomlReplay
  import T = TomlTables

  // ----- lines -----

  /** A name as it stands, or as a string of one of the four kinds that means it. */
  datatype Name = Bare(k: string) | Spelled(k: string, f: Form)

  function NameText(n: Name): string { match n case Bare(k) => k case Spelled(_, f) => FormText(f) }

  predicate IsName(n: Name) { match n case Bare(k) => BareName(k) case Spelled(k, f) => FormMeans(f, k) }

  /** A name in a header; blanks may follow a quoted one only. */
  datatype Part = Part(name: Name, blanks: string)

  predicate AllWhite(s: string) { forall i | 0 <= i < |s| :: IsWhitespace(s[i]) }

  predicate IsPart(p: Part) { IsName(p.name) && AllWhite(p.blanks) && (p.name.Bare? ==> p.blanks == "") }

  predicate AreParts(ps: seq<Part>) { forall i | 0 <= i < |ps| :: IsPart(ps[i]) }

  function PartsText(ps: seq<Part>, close: string): string
    requires ps != []
  {
    NameText(ps[0].name) + (ps[0].blanks + if |ps| == 1 then close else "." + PartsText(ps[1..], close))
  }

  function PartsKey(ps: seq<Part>): (key: T.Key)
    ensures |key| == |ps|
  {
    if ps == [] then [] else [ps[0].name.k] + PartsKey(ps[1..])
  }

  datatype Line = KeyLine(name: Name, before: string, behind: string, x: Laid) | HeadLine(parts: seq<Part>, many: bool)

  predicate IsLine(n: Line) {
    match n
    case KeyLine(name, before, behind, x) => IsName(name) && AllWhite(before) && AllWhite(behind) && IsLaid(x)
    case HeadLine(parts, _) => parts != [] && AreParts(parts)
  }

  function TextOf(n: Line): string
    requires IsLine(n)
  {
    match n
    case KeyLine(name, before, behind, x) => NameText(name) + (before + ("=" + (behind + LaidText(x))))
    case HeadLine(parts, many) => Opening(many) + PartsText(parts, Closing(many))
  }

  function Means(n: Line): T.Stmt {
    match n
    case KeyLine(name, _, _, x) => T.Assign(name.k, LaidVal(x))
    case HeadLine(parts, many) => T.Header(PartsKey(parts), many)
  }

  /** No array in the line mixes types. */
  predicate Unmixed(n: Line) { n.KeyLine? ==> P.Uniform(LaidVal(n.x)) }

  /** A line with the gap before it and the rest of its line: blanks, and then its end or a comment. */
  datatype Row = Row(lead: Gap, line: Line, blanks: string, close: Bit)

  /** An end of line or a comment; the character zero ends a line too. */
  predicate IsClose(b: Bit) { match b case Space(c) => IsNL(c) || c == EOF case Remark(_, _) => IsBit(b) }

  predicate IsRow(r: Row) { IsGap(r.lead) && IsLine(r.line) && AllWhite(r.blanks) && IsClose(r.close) }

  predicate AreRows(rs: seq<Row>) { forall i | 0 <= i < |rs| :: IsRow(rs[i]) }

  function RowsText(rs: seq<Row>, last: Gap): string
    requires AreRows(rs)
  {
    if rs == [] then GapText(last)
    else GapText(rs[0].lead) + (TextOf(rs[0].line) + (rs[0].blanks + (BitText(rs[0].close) + RowsText(rs[1..], last))))
  }

  /** The statements up to the first array that mixes types. */
  function Meaning(rs: seq<Row>): Document {
    if rs == [] then Document([], AtEnd)
    else if !Unmixed(rs[0].line) then Document([], ByUserError)
    else Document([Means(rs[0].line)] + Meaning(rs[1..]).ss, Meaning(rs[1..]).ending)
  }

  // ----- gaps outside of values -----

  /** At the start of a statement or behind one. */
  predicate OutOfValues(l: Lex) {
    l.items == [] && l.stack == [] && Bounds(l) && ((l.state == Top && l.start == l.pos) || l.state == TopEnd)
  }

  lemma CommentRound(l: Lex, m: Lex)
    requires OutOfValues(l) && A.Reads(l, "#") && m == l.(pos := l.pos + 1, state := CommentStart, stack := [Top])
    ensures A.Round(l) == m && !Stuck(l)
  {
    A.ReadsChar(l, "#", 0);
    assert [] + [Top] == [Top];
    assert A.Round(l) == if l.state == Top then StepTop(l) else StepTopEnd(l);
  }

  /** Behind the mark of a comment. */
  function Commenting(l: Lex): Lex { l.(start := l.pos + 1, pos := l.pos + 1, state := Comment, stack := [Top]) }

  lemma CommentFetched(l: Live)
    requires PhaseOf(l) == AtTop && OutOfValues(l) && A.Reads(l, "#")
    ensures Gets(Fetch(l), Item(ItemCommentStart, ""), Commenting(l)) == true
  {
    var m := l.(pos := l.pos + 1, state := CommentStart, stack := [Top]);
    CommentRound(l, m);
    RoundFetched(l, m);
    RemarkStarts(m);
  }

  lemma MarkFirst(t: string, end: char, rest: string)
    ensures "#" + t + [end] + rest == "#" + (t + ([end] + rest)) && t + ([end] + rest) == (t + [end]) + rest
  {
  }

  lemma CommentSplit(l: Lex, t: string, line: string, end: char, rest: string)
    requires OutOfValues(l) && line == t + [end] && Left(l, "#" + t + [end] + rest)
    ensures A.Reads(l, "#") && A.Reads(A.Further(l, 1), line) && Left(A.Further(l, |t| + 1), [end] + rest)
  {
    MarkFirst(t, end, rest);
    LeftReads(l, "#", t + ([end] + rest));
    LeftReads(A.Further(l, 1), t, [end] + rest);
    LeftReads(A.Further(l, 1), line, rest);
  }

  lemma CommentAhead(l: Lex, t: string, end: char, rest: string)
    requires OutOfValues(l) && Left(l, "#" + t + [end] + rest)
    ensures A.Reads(l, "#") && Stands(Commenting(l), t, [end]) && Current(Commenting(l)) == ""
    ensures A.Done(Commenting(l), |t|) == Past(l, |t| + 1, Top).(stack := [])
    ensures Left(Past(l, |t| + 1, Top), [end] + rest)
  {
    CommentSplit(l, t, t + [end], end, rest);
    StandsFrom(Commenting(l), t, [end]);
    assert [Top][..0] == [];
  }

  /** A comment in a document is no statement. */
  lemma CommentSkipped(l: Live, c: Live, t: string, n: Lex)
    requires PhaseOf(l) == AtTop && Gets(Fetch(l), Item(ItemCommentStart, ""), c) == true
    requires PhaseOf(c) == InComment(AtTop) && Gets(Fetch(c), Item(ItemText, t), n) == true
    ensures Inv(n) && PhaseOf(n) == AtTop && ReadAll(l) == ReadAll(n)
  {
    FetchDelivers(l);
    FetchDelivers(c);
    assert ReadTopLevel(l) == ReadComment(c) == NoStatement(n);
  }

  /** The text of the comment. */
  lemma CommentText(c: Live, t: string, end: char, n: Lex)
    requires PhaseOf(c) != Done && c.state == Comment && c.stack != []
    requires IsRemark(t) && IsNL(end) && Stands(c, t, [end])
    requires Current(c) == "" && n == A.Done(c, |t|)
    ensures Gets(Fetch(c), Item(ItemText, t), n) == true
  {
    RemarkFetched(c, t, end);
    assert "" + t == t;
  }

  lemma CommentRead(l: Live, t: string, end: char, rest: string) returns (n: Live)
    requires PhaseOf(l) == AtTop && OutOfValues(l) && IsRemark(t) && IsNL(end) && Left(l, "#" + t + [end] + rest)
    ensures AtItem(n) && Left(n, [end] + rest) && ReadAll(l) == ReadAll(n)
  {
    CommentAhead(l, t, end, rest);
    CommentFetched(l);
    FetchDelivers(l);
    var c: Live := Commenting(l);
    n := CommentPassed(l, c, t, end, Past(l, |t| + 1, Top).(stack := []));
  }

  lemma CommentPassed(l: Live, c: Live, t: string, end: char, n: Lex) returns (m: Live)
    requires PhaseOf(l) == AtTop && Gets(Fetch(l), Item(ItemCommentStart, ""), c) == true
    requires PhaseOf(c) == InComment(AtTop) && c.state == Comment && c.stack != [] && IsRemark(t) && IsNL(end)
    requires Stands(c, t, [end]) == true && Current(c) == "" && n == A.Done(c, |t|)
    ensures m == n && PhaseOf(m) == AtTop && ReadAll(l) == ReadAll(m)
  {
    CommentText(c, t, end, n);
    CommentSkipped(l, c, t, n);
    m := n;
  }

  lemma CommentLine(l: Live, t: string, end: char, rest: string) returns (n: Live)
    requires PhaseOf(l) == AtTop && OutOfValues(l) && IsRemark(t) && IsNL(end) && Left(l, "#" + t + [end] + rest)
    ensures AtItem(n) && Left(n, rest) && ReadAll(l) == ReadAll(n)
  {
    var m := CommentRead(l, t, end, rest);
    n := BlankRead(m, end, rest);
  }

  lemma BitPassed(l: Live, b: Bit, rest: string) returns (n: Live)
    requires AtItem(l) && IsBit(b) && Left(l, BitText(b) + rest)
    ensures AtItem(n) && Left(n, rest) && ReadAll(l) == ReadAll(n)
  {
    match b
    case Space(c) => n := BlankRead(l, c, rest);
    case Remark(t, end) => n := CommentLine(l, t, end, rest);
  }

  /** A gap between statements means nothing. */
  lemma {:induction false} GapPassed(l: Live, g: Gap, rest: string) returns (n: Live)
    requires AtItem(l) && IsGap(g) && Left(l, GapText(g) + rest)
    ensures AtItem(n) && Left(n, rest) && ReadAll(l) == ReadAll(n)
    decreases |g|
  {
    if g == [] {
      assert GapText(g) + rest == rest;
      n := l;
    } else {
      Assoc(BitText(g[0]), GapText(g[1..]), rest);
      n := BitPassed(l, g[0], GapText(g[1..]) + rest);
      n := GapPassed(n, g[1..], rest);
    }
  }

  // ----- the rest of a line -----

  /** Behind a statement. */
  predicate BehindLine(l: Lex) { OutOfValues(l) && l.state == TopEnd }

  lemma WhiteRound(l: Lex, c: char, rest: string)
    requires BehindLine(l) && Left(l, [c] + rest) && IsWhitespace(c)
    ensures A.Round(l) == A.Further(l, 1) && BehindLine(A.Further(l, 1)) && Left(A.Further(l, 1), rest)
  {
    LeftReads(l, [c], rest);
    A.ReadsChar(l, [c], 0);
  }

  lemma {:induction false} WhitePassed(l: Live, w: string, rest: string) returns (n: Live)
    requires PhaseOf(l) == AtTop && BehindLine(l) && AllWhite(w) && Left(l, w + rest)
    ensures PhaseOf(n) == AtTop && BehindLine(n) && Left(n, rest) && ReadAll(l) == ReadAll(n)
    decreases |w|
  {
    if w == "" {
      assert w + rest == rest;
      n := l;
    } else {
      assert w + rest == [w[0]] + (w[1..] + rest);
      WhiteRound(l, w[0], w[1..] + rest);
      n := A.Further(l, 1);
      Silent(l, n);
      n := WhitePassed(n, w[1..], rest);
    }
  }

  lemma LineCloseRound(l: Lex, c: char, rest: string)
    requires BehindLine(l) && Left(l, [c] + rest) && (IsNL(c) || c == EOF)
    ensures A.Round(l) == Past(l, 1, Top) && AtItem(Past(l, 1, Top)) && Left(Past(l, 1, Top), rest)
  {
    LeftReads(l, [c], rest);
    A.ReadsChar(l, [c], 0);
  }

  lemma ClosePassed(l: Live, b: Bit, rest: string) returns (n: Live)
    requires PhaseOf(l) == AtTop && BehindLine(l) && IsClose(b) && Left(l, BitText(b) + rest)
    ensures AtItem(n) && Left(n, rest) && ReadAll(l) == ReadAll(n)
  {
    match b
    case Space(c) =>
      LineCloseRound(l, c, rest);
      n := Past(l, 1, Top);
      Silent(l, n);
    case Remark(t, end) => n := CommentLine(l, t, end, rest);
  }

  // ----- the name of a key line -----

  /** Before the separator or the value. */
  predicate AtBlanks(l: Lex, s: StateFn) {
    Bounds(l) && l.items == [] && l.state == s && l.stack == [TopEnd] && l.start == l.pos
  }

  lemma WhiteRounds(l: Lex, s: StateFn, c: char)
    requires (s == KeyEnd || s == Value) && AtBlanks(l, s) && A.Reads(l, [c]) && IsWhitespace(c)
    ensures A.Rounds(l, 2) == Past(l, 1, s)
  {
    A.ReadsChar(l, [c], 0);
    var m := l.(pos := l.pos + 1, state := Skip(s));
    assert A.Round(l) == if s == KeyEnd then StepKeyEnd(l) else StepValue(l);
    A.Once(l, m);
    A.Once(m, Past(l, 1, s));
    A.Then(l, 1, m, 1, Past(l, 1, s));
  }

  lemma {:induction false} BlanksSkipped(l: Live, s: StateFn, w: string, rest: string) returns (n: Live)
    requires (s == KeyEnd || s == Value) && PhaseOf(l) == ValueNext && AtBlanks(l, s)
    requires AllWhite(w) && Left(l, w + rest)
    ensures PhaseOf(n) == ValueNext && AtBlanks(n, s) && Left(n, rest) && Fetch(l) == Fetch(n)
    decreases |w|
  {
    if w == "" {
      assert w + rest == rest;
      n := l;
    } else {
      assert w + rest == [w[0]] + (w[1..] + rest);
      LeftReads(l, [w[0]], w[1..] + rest);
      WhiteRounds(l, s, w[0]);
      n := A.FetchRounds(l, 2, Past(l, 1, s));
      n := BlanksSkipped(n, s, w[1..], rest);
    }
  }

  /** The separator and the blanks around it. */
  lemma EqualsPassed(l: Live, before: string, behind: string, e: string) returns (n: Live)
    requires PhaseOf(l) == ValueNext && AtBlanks(l, KeyEnd) && AllWhite(before) && AllWhite(behind)
    requires Left(l, before + ("=" + (behind + e)))
    ensures PhaseOf(n) == ValueNext && AtBlanks(n, Value) && Left(n, e) && Fetch(l) == Fetch(n)
  {
    var m := BlanksSkipped(l, KeyEnd, before, "=" + (behind + e));
    LeftReads(m, "=", behind + e);
    EqualsRounds(m);
    var o := A.FetchRounds(m, 2, Past(m, 1, Value));
    n := BlanksSkipped(o, Value, behind, e);
  }

  /** What stands behind a name: blanks that have not been read, and the separator. */
  predicate Separates(l: Lex, w: string, tail: string) {
    AtBlanks(l, KeyEnd) && AllWhite(w) && Left(l, w + ("=" + tail))
  }

  lemma BareEnds(m: Lex, k: string, w: string, tail: string) returns (o: Lex, v: string)
    requires Bounds(m) && m.items == [] && m.state == BareKey && m.stack == [TopEnd] && BareName(k) && Current(m) == k
    requires AllWhite(w) && Left(m, w + ("=" + tail))
    ensures A.Round(m) == A.Queued(o, Item(ItemText, k)) && Separates(o, v, tail)
  {
    assert [] + [Item(ItemText, k)] == [Item(ItemText, k)];
    if w == "" {
      BareEndsAtEquals(m, k, tail);
      o, v := Past(m, 0, KeyEnd), "";
      assert w + ("=" + tail) == v + ("=" + tail);
    } else {
      assert w + ("=" + tail) == [w[0]] + (w[1..] + ("=" + tail));
      LeftReads(m, [w[0]], w[1..] + ("=" + tail));
      BareEndsAtBlank(m, k, w[0]);
      o, v := Past(m, 1, KeyEnd), w[1..];
    }
  }

  lemma BareEndsAtEquals(m: Lex, k: string, tail: string)
    requires Bounds(m) && m.items == [] && m.state == BareKey && BareName(k) && Current(m) == k
    requires Left(m, "" + ("=" + tail))
    ensures A.Round(m) == A.Queued(Past(m, 0, KeyEnd), Item(ItemText, k))
  {
    assert "" + ("=" + tail) == "=" + tail;
    LeftReads(m, "=", tail);
    A.ReadsChar(m, "=", 0);
    TrimBare(k);
    assert [] + [Item(ItemText, k)] == [Item(ItemText, k)];
  }

  lemma TrimWhite(k: string, c: char)
    requires BareName(k) && IsWhitespace(c)
    ensures TrimSpace(k + [c]) == k
  {
    TrimBare(k);
    assert TrimLeft(k + [c]) == k + [c] && (k + [c])[..|k|] == k;
    assert TrimRight(k + [c]) == TrimRight(k);
  }

  lemma OneMore(m: Lex, k: string, c: char)
    requires Bounds(m) && Current(m) == k && A.Reads(m, [c])
    ensures Bounds(A.Further(m, 1)) && Current(A.Further(m, 1)) == k + [c] && Ahead(m, 0) == c
  {
    A.ReadsChar(m, [c], 0);
    CurrentGrows(m, A.Further(m, 1));
    assert m.input[m.pos..m.pos + 1] == [c];
  }

  lemma BlankPending(m: Lex, k: string, c: char)
    requires Bounds(m) && BareName(k) && Current(m) == k && A.Reads(m, [c]) && IsWhitespace(c)
    ensures Bounds(A.Further(m, 1)) && TrimSpace(Current(A.Further(m, 1))) == k && Ahead(m, 0) == c
  {
    OneMore(m, k, c);
    TrimWhite(k, c);
  }

  lemma BareEndsAtBlank(m: Lex, k: string, c: char)
    requires Bounds(m) && m.items == [] && m.state == BareKey && BareName(k) && Current(m) == k
    requires A.Reads(m, [c]) && IsWhitespace(c)
    ensures A.Round(m) == A.Queued(Past(m, 1, KeyEnd), Item(ItemText, k))
  {
    BlankPending(m, k, c);
    assert A.Round(m) == StepBareKey(m);
    assert [] + [Item(ItemText, k)] == [Item(ItemText, k)];
  }

  /** The name has been read: the value of this name is next. */
  predicate Named(l: Live, k: string, n: Live, w: string, tail: string) {
    && PhaseOf(l) == AtTop && PhaseOf(n) == ValueNext && ReadTopLevel(l) == ReadValue(n, k) && Separates(n, w, tail)
  }

  lemma BareTaken(m: Lex, k: string, w: string, tail: string) returns (q: Lex, v: string)
    requires AtBlanks(m, BareKey) && BareName(k) && AllWhite(w) && Left(m, k + (w + ("=" + tail)))
    ensures A.Rounds(m, |k| + 1) == A.Queued(q, Item(ItemText, k)) && Separates(q, v, tail) == true
  {
    LeftReads(m, k, w + ("=" + tail));
    BareRun(m, k);
    var o := A.Further(m, |k|);
    NamePending(m, o, k);
    q, v := BareEnds(o, k, w, tail);
    A.Once(o, A.Round(o));
    A.Then(m, |k|, o, 1, A.Round(o));
  }

  lemma FirstLeft(l: Lex, k: string, rest: string)
    requires Bounds(l) && k != "" && Left(l, k + rest)
    ensures A.Reads(l, [k[0]]) && Ahead(l, 0) == k[0]
  {
    assert k + rest == [k[0]] + (k[1..] + rest);
    LeftReads(l, [k[0]], k[1..] + rest);
  }

  /** The item of the name is taken. */
  lemma NameKnown(l: Live, m: Live, k: string, n: Live, w: string, tail: string)
    requires PhaseOf(l) == AtTop && PhaseOf(m) == KeyName && PhaseOf(n) == ValueNext
    requires ReadTopLevel(l) == ReadKey(m) == ReadValue(n, k) && Separates(n, w, tail)
    ensures Named(l, k, n, w, tail) == true
  {
  }

  lemma BareNamed(l: Live, k: string, w: string, tail: string) returns (n: Live, v: string)
    requires AtItem(l) && BareName(k) && AllWhite(w) && Left(l, k + (w + ("=" + tail)))
    ensures Named(l, k, n, v, tail) == true
  {
    FirstLeft(l, k, w + ("=" + tail));
    var m := KeyStartFetched(l, k[0]);
    var q;
    q, v := BareTaken(m, k, w, tail);
    n := KeyTaken(m, |k| + 1, k, Item(ItemText, k), q);
    NameKnown(l, m, k, n, v, tail);
  }

  lemma FormOpens(f: Form)
    ensures FormText(f) != "" && IsQuote(FormText(f)[0])
  {
  }

  lemma SpelledAhead(l: Lex, m: Live, e: string, w: string, tail: string)
    requires AtItem(l) && PhaseOf(m) == KeyName && m == l.(state := Value, stack := [TopEnd, KeyEnd])
    requires AllWhite(w) && Left(l, e + (w + ("=" + tail)))
    ensures AtText(m, e) == true && Separates(A.Done(m, |e|), w, tail) == true
  {
    LeftReads(l, e, w + ("=" + tail));
    BehindQuoted(l, m, e);
    assert l.input[l.pos + |e|] == l.input[l.pos + |e|..][0] == (w + ("=" + tail))[0];
  }

  lemma SpelledTaken(m: Live, k: string, it: Item, o: Lex) returns (n: Live)
    requires PhaseOf(m) == KeyName && IsStringType(it.typ) && ScalarValue(it) == Good(Text(k)) && Gets(Fetch(m), it, o)
    ensures PhaseOf(n) == ValueNext && ReadKey(m) == ReadValue(n, k) && n == o
  {
    FetchDelivers(m);
    n := o;
  }

  lemma SpelledNamed(l: Live, k: string, f: Form, e: string, w: string, tail: string) returns (n: Live)
    requires AtItem(l) && FormMeans(f, k) && e == FormText(f) && AllWhite(w) && Left(l, e + (w + ("=" + tail)))
    ensures Named(l, k, n, w, tail) == true
  {
    FormOpens(f);
    FirstLeft(l, e, w + ("=" + tail));
    var m := KeyStartFetched(l, e[0]);
    SpelledAhead(l, m, e, w, tail);
    FormGot(m, f, k);
    ItemMeans(f, k);
    n := SpelledTaken(m, k, FormItem(f), A.Done(m, |e|));
    NameKnown(l, m, k, n, w, tail);
  }

  lemma NamePassed(l: Live, name: Name, w: string, tail: string) returns (n: Live, v: string)
    requires AtItem(l) && IsName(name) && AllWhite(w) && Left(l, NameText(name) + (w + ("=" + tail)))
    ensures Named(l, name.k, n, v, tail) == true
  {
    match name
    case Bare(k) => n, v := BareNamed(l, k, w, tail);
    case Spelled(k, f) =>
      n := SpelledNamed(l, k, f, FormText(f), w, tail);
      v := w;
  }

  // ----- a key line -----

  /** A statement is read, up to `n`; or its value is refused. */
  predicate Gives(l: Live, s: T.Stmt, fine: bool, n: Lex)
    requires PhaseOf(l) == AtTop
  {
    var r := ReadTopLevel(l);
    if fine then r.Statement? && r.s == s && r.lex == n else r == Stopped(ByUserError)
  }

  lemma LaidBefore(o: Lex, e: string, rest: string)
    requires AtBlanks(o, Value) && Left(o, e + rest) && rest != "" && Stops(rest[0])
    ensures AtLaid(o, e) == true && BehindLine(A.Done(o, |e|)) && Left(A.Done(o, |e|), rest)
  {
    LeftReads(o, e, rest);
    assert o.input[o.pos + |e|] == o.input[o.pos + |e|..][0];
    assert [TopEnd][..0] == [];
  }

  lemma ValueGiven(l: Live, m: Live, o: Live, k: string, v: Val, n: Lex)
    requires PhaseOf(l) == AtTop && PhaseOf(m) == ValueNext && PhaseOf(o) == ValueNext
    requires ReadTopLevel(l) == ReadValue(m, k) && Fetch(m) == Fetch(o) && Given(A.ParseElement(o, 0), v, n)
    ensures Gives(l, T.Assign(k, v), P.Uniform(v), n) == true
  {
    FetchDelivers(o);
  }

  lemma KeyLineRead(l: Live, name: Name, before: string, behind: string, x: Laid, rest: string) returns (n: Lex)
    requires AtItem(l) && IsName(name) && AllWhite(before) && AllWhite(behind) && IsLaid(x)
    requires rest != "" && Stops(rest[0])
    requires Left(l, NameText(name) + (before + ("=" + (behind + (LaidText(x) + rest)))))
    ensures BehindLine(n) && Left(n, rest) && PhaseOf(l) == AtTop
    ensures Gives(l, T.Assign(name.k, LaidVal(x)), P.Uniform(LaidVal(x)), n) == true
  {
    var e := LaidText(x);
    var m, w := NamePassed(l, name, before, behind + (e + rest));
    var o := EqualsPassed(m, w, behind, e + rest);
    LaidBefore(o, e, rest);
    n := A.Done(o, |e|);
    LaidRead(x, o, 0);
    ValueGiven(l, m, o, name.k, LaidVal(x), n);
  }

  // ----- a header -----

  /** Behind a name in a header. */
  predicate BehindPart(l: Lex, many: bool) {
    Bounds(l) && l.items == [] && l.state == TableNameEnd && l.stack == [EndState(many)]
  }

  lemma BareItem(l: Live, many: bool, k: string, c: char)
    requires H.AtName(l, many) && PhaseOf(l) == TableName(many) && BareName(k)
    requires A.Reads(l, k + [c]) && (c == '.' || c == ']')
    ensures Gets(Fetch(l), Item(ItemText, k), Past(l, |k|, TableNameEnd)) == true
  {
    var i := NameRead(l, k, c);
    A.FetchedBy(l, i, Past(l, |k|, TableNameEnd), Item(ItemText, k));
  }

  lemma SpelledStarts(l: Live, many: bool, e: string) returns (m: Live)
    requires H.AtName(l, many) && PhaseOf(l) == TableName(many) && e != "" && IsQuote(e[0])
    requires A.Reads(l, e) && l.pos + |e| < |l.input| && !IsQuote(l.input[l.pos + |e|])
    ensures PhaseOf(m) != Done && m == l.(state := Value, stack := [EndState(many), TableNameEnd])
    ensures Fetch(l) == Fetch(m) && AtText(m, e) == true
  {
    A.ReadsChar(l, e, 0);
    m := l.(state := Value, stack := [EndState(many), TableNameEnd]);
    QuoteRound(l, EndState(many));
    RoundFetched(l, m);
  }

  lemma SpelledItem(l: Live, many: bool, k: string, f: Form, e: string)
    requires H.AtName(l, many) && PhaseOf(l) == TableName(many) && FormMeans(f, k) && e == FormText(f)
    requires A.Reads(l, e) && l.pos + |e| < |l.input| && !IsQuote(l.input[l.pos + |e|])
    ensures Gets(Fetch(l), FormItem(f), Past(l, |e|, TableNameEnd)) == true
  {
    FormOpens(f);
    var m := SpelledStarts(l, many, e);
    FormGot(m, f, k);
    BehindQuotedName(l, m, EndState(many), e);
  }

  /** The name is taken. */
  lemma PartTaken(l: Live, many: bool, done: T.Key, k: string, it: Item, m: Lex)
    requires InHeader(l, many, done) && Gets(Fetch(l), it, m) && IsNameType(it.typ) && KeyString(it) == Good(Text(k))
    ensures Inv(m) && InHeader(m, many, done + [k]) && PhaseOf(m) == TableRest(many)
    ensures ReadHeader(l, many, done) == ReadHeader(m, many, done + [k])
  {
    HeaderFetch(l, many, done);
  }

  /** What can follow a name: `.` or `]` behind a bare one, blanks before those behind a quoted one. */
  predicate Follows(w: string, rest: string) { rest != "" && (rest[0] == '.' || rest[0] == ']') && AllWhite(w) }

  lemma PartRead(l: Live, many: bool, done: T.Key, p: Part, rest: string) returns (m: Live)
    requires H.AtName(l, many) && InHeader(l, many, done) && PhaseOf(l) == TableName(many) && IsPart(p)
    requires Follows(p.blanks, rest) && Left(l, NameText(p.name) + (p.blanks + rest))
    ensures BehindPart(m, many) && Left(m, p.blanks + rest) && PhaseOf(m) == TableRest(many)
    ensures InHeader(m, many, done + [p.name.k]) && ReadHeader(l, many, done) == ReadHeader(m, many, done + [p.name.k])
  {
    var e := NameText(p.name);
    PartAhead(l, e, p.blanks, rest);
    match p.name {
      case Bare(k) =>
        BareItem(l, many, k, rest[0]);
        PartTaken(l, many, done, k, Item(ItemText, k), Past(l, |e|, TableNameEnd));
      case Spelled(k, f) =>
        SpelledItem(l, many, k, f, e);
        ItemMeans(f, k);
        PartTaken(l, many, done, k, FormItem(f), Past(l, |e|, TableNameEnd));
    }
    m := Past(l, |e|, TableNameEnd);
  }

  lemma PartAhead(l: Lex, e: string, w: string, rest: string)
    requires Bounds(l) && Follows(w, rest) && Left(l, e + (w + rest))
    ensures A.Reads(l, e) && l.pos + |e| < |l.input| && !IsQuote(l.input[l.pos + |e|])
    ensures Left(Past(l, |e|, TableNameEnd), w + rest) && (w == "" ==> A.Reads(l, e + [rest[0]]))
  {
    LeftReads(l, e, w + rest);
    assert l.input[l.pos + |e|] == l.input[l.pos + |e|..][0] == (w + rest)[0];
    if w == "" {
      assert e + (w + rest) == e + [rest[0]] + rest[1..];
      LeftReads(l, e + [rest[0]], rest[1..]);
    }
  }

  lemma HeaderSilent(l: Live, many: bool, done: T.Key, n: Lex)
    requires BehindPart(l, many) && InHeader(l, many, done) && A.Round(l) == n && n.items == []
    requires Bounds(n) && (n.state == TableNameEnd || n.state == TableNameStart) && n.stack == l.stack
    ensures Inv(n) && InHeader(n, many, done) && ReadHeader(l, many, done) == ReadHeader(n, many, done)
  {
    RoundFetched(l, n);
  }

  lemma PartBlank(l: Lex, many: bool, c: char, rest: string)
    requires BehindPart(l, many) && Left(l, [c] + rest) && IsWhitespace(c)
    ensures A.Round(l) == A.Further(l, 1) && BehindPart(A.Further(l, 1), many) && Left(A.Further(l, 1), rest)
  {
    LeftReads(l, [c], rest);
    A.ReadsChar(l, [c], 0);
  }

  lemma {:induction false} PartBlanks(l: Live, many: bool, done: T.Key, w: string, rest: string) returns (n: Live)
    requires BehindPart(l, many) && InHeader(l, many, done) && AllWhite(w) && Left(l, w + rest)
    ensures BehindPart(n, many) && InHeader(n, many, done) && Left(n, rest)
    ensures ReadHeader(l, many, done) == ReadHeader(n, many, done)
    decreases |w|
  {
    if w == "" {
      assert w + rest == rest;
      n := l;
    } else {
      assert w + rest == [w[0]] + (w[1..] + rest);
      PartBlank(l, many, w[0], w[1..] + rest);
      n := A.Further(l, 1);
      HeaderSilent(l, many, done, n);
      n := PartBlanks(n, many, done, w[1..], rest);
    }
  }

  lemma PartDot(l: Live, many: bool, done: T.Key, rest: string) returns (n: Live)
    requires BehindPart(l, many) && InHeader(l, many, done) && Left(l, "." + rest)
    ensures H.AtName(n, many) && InHeader(n, many, done) && PhaseOf(n) == TableName(many) && Left(n, rest)
    ensures ReadHeader(l, many, done) == ReadHeader(n, many, done)
  {
    LeftReads(l, ".", rest);
    A.ReadsChar(l, ".", 0);
    n := Past(l, 1, TableNameStart);
    HeaderSilent(l, many, done, n);
  }

  /** The item of the closing brackets. */
  lemma BracketEnds(m: Lex, many: bool) returns (it: Item)
    requires Bounds(m) && m.items == [] && m.state == EndState(many) && (many ==> A.Reads(m, "]"))
    ensures it.typ == EndType(many) && A.Round(m) == A.Queued(Past(m, if many then 1 else 0, TopEnd), it)
  {
    if many {
      A.ReadsChar(m, "]", 0);
      it := Item(ItemArrayTableEnd, Current(A.Further(m, 1)));
    } else {
      it := Item(ItemTableEnd, Current(m));
    }
    assert [] + [it] == [it];
  }

  lemma BracketAhead(l: Lex, many: bool, rest: string) returns (m: Lex)
    requires BehindPart(l, many) && Left(l, Closing(many) + rest)
    ensures m == l.(pos := l.pos + 1, state := EndState(many), stack := []) && A.Round(l) == m
    ensures Bounds(m) && (many ==> A.Reads(m, "]")) && Left(Past(m, if many then 1 else 0, TopEnd), rest)
  {
    var more := if many then "]" else "";
    assert Closing(many) + rest == "]" + (more + rest);
    LeftReads(l, "]", more + rest);
    m := l.(pos := l.pos + 1, state := EndState(many), stack := []);
    LeftReads(m, more, rest);
    CloseRound(l, EndState(many));
  }

  lemma EndFetched(m: Live, many: bool, n: Lex) returns (it: Item)
    requires PhaseOf(m) != Done && Bounds(m) && m.items == [] && m.state == EndState(many) && (many ==> A.Reads(m, "]"))
    requires n == Past(m, if many then 1 else 0, TopEnd)
    ensures it.typ == EndType(many) && Gets(Fetch(m), it, n) == true
  {
    it := BracketEnds(m, many);
    RoundFetched(m, A.Queued(n, it));
    assert [it][1..] == [];
  }

  lemma BracketsFetched(l: Live, many: bool, rest: string) returns (it: Item, n: Lex)
    requires BehindPart(l, many) && Left(l, Closing(many) + rest)
    ensures it.typ == EndType(many) && Gets(Fetch(l), it, n) == true && BehindLine(n) && Left(n, rest)
  {
    var m := BracketAhead(l, many, rest);
    RoundFetched(l, m);
    n := Past(m, if many then 1 else 0, TopEnd);
    it := EndFetched(m, many, n);
  }

  predicate HeaderGives(l: Live, many: bool, done: T.Key, key: T.Key, n: Lex)
    requires InHeader(l, many, done)
  {
    var r := ReadHeader(l, many, done);
    r.Ok? && r.value == key && r.lex == n
  }

  lemma EndTaken(l: Live, many: bool, done: T.Key, it: Item, n: Lex)
    requires InHeader(l, many, done) && Gets(Fetch(l), it, n) && EndsHeader(it.typ)
    ensures HeaderGives(l, many, done, done, n) == true
  {
    HeaderFetch(l, many, done);
    assert ReadHeader(l, many, done) == HeaderItem(Fetch(l), many, done);
  }

  lemma PartsClosed(l: Live, many: bool, done: T.Key, rest: string) returns (n: Lex)
    requires BehindPart(l, many) && InHeader(l, many, done) && Left(l, Closing(many) + rest)
    ensures BehindLine(n) && Left(n, rest) && HeaderGives(l, many, done, done, n) == true
  {
    var it;
    it, n := BracketsFetched(l, many, rest);
    EndTaken(l, many, done, it, n);
  }

  /** What stands behind the first name and its blanks. */
  function BehindFirst(ps: seq<Part>, close: string): string
    requires ps != []
  { if |ps| == 1 then close else "." + PartsText(ps[1..], close) }

  lemma FirstPart(ps: seq<Part>, close: string, rest: string)
    requires ps != [] && close != "" && close[0] == ']'
    ensures PartsText(ps, close) + rest == NameText(ps[0].name) + (ps[0].blanks + (BehindFirst(ps, close) + rest))
    ensures BehindFirst(ps, close) != "" && (BehindFirst(ps, close)[0] == '.' || BehindFirst(ps, close)[0] == ']')
  {
    Assoc3(NameText(ps[0].name), ps[0].blanks, BehindFirst(ps, close), rest);
  }

  lemma Assoc3(a: string, b: string, c: string, rest: string)
    ensures (a + (b + c)) + rest == a + (b + (c + rest))
  {
  }

  /** A name and the blanks behind it. */
  lemma PartPassed(l: Live, many: bool, done: T.Key, p: Part, rest: string) returns (m: Live)
    requires H.AtName(l, many) && InHeader(l, many, done) && PhaseOf(l) == TableName(many) && IsPart(p)
    requires rest != "" && (rest[0] == '.' || rest[0] == ']') && Left(l, NameText(p.name) + (p.blanks + rest))
    ensures BehindPart(m, many) && InHeader(m, many, done + [p.name.k]) && Left(m, rest)
    ensures ReadHeader(l, many, done) == ReadHeader(m, many, done + [p.name.k])
  {
    m := PartRead(l, many, done, p, rest);
    m := PartBlanks(m, many, done + [p.name.k], p.blanks, rest);
  }

  lemma FirstKey(done: T.Key, ps: seq<Part>)
    requires ps != []
    ensures done + PartsKey(ps) == done + [ps[0].name.k] + PartsKey(ps[1..])
    ensures |ps| == 1 ==> done + PartsKey(ps) == done + [ps[0].name.k]
  {
    var k, rest: T.Key := ps[0].name.k, PartsKey(ps[1..]);
    Assoc(done, [k], rest);
    if |ps| == 1 {
      NothingBehind(done + [k], rest);
    }
  }

  lemma NothingBehind(key: T.Key, rest: T.Key)
    requires rest == []
    ensures key + rest == key
  {
  }

  /** What the closing of the header, or its other names, give for the whole key. */
  lemma GivesAll(l: Live, many: bool, done: T.Key, m: Live, taken: T.Key, key: T.Key, all: T.Key, n: Lex)
    requires InHeader(l, many, done) && InHeader(m, many, taken)
    requires ReadHeader(l, many, done) == ReadHeader(m, many, taken)
    requires HeaderGives(m, many, taken, key, n) && key == all
    ensures HeaderGives(l, many, done, all, n) == true
  {
  }

  lemma {:induction false} PartsRead(l: Live, many: bool, done: T.Key, ps: seq<Part>, rest: string) returns (n: Lex)
    requires H.AtName(l, many) && InHeader(l, many, done) && PhaseOf(l) == TableName(many)
    requires ps != [] && AreParts(ps) && Left(l, PartsText(ps, Closing(many)) + rest)
    ensures BehindLine(n) && Left(n, rest) && HeaderGives(l, many, done, done + PartsKey(ps), n) == true
    decreases |ps|
  {
    FirstPart(ps, Closing(many), rest);
    FirstKey(done, ps);
    var more := done + [ps[0].name.k];
    var m := PartPassed(l, many, done, ps[0], BehindFirst(ps, Closing(many)) + rest);
    if |ps| == 1 {
      n := PartsClosed(m, many, more, rest);
      GivesAll(l, many, done, m, more, more, done + PartsKey(ps), n);
    } else {
      Assoc(".", PartsText(ps[1..], Closing(many)), rest);
      var o := PartDot(m, many, more, PartsText(ps[1..], Closing(many)) + rest);
      n := PartsRead(o, many, more, ps[1..], rest);
      GivesAll(l, many, done, o, more, more + PartsKey(ps[1..]), done + PartsKey(ps), n);
    }
  }

  lemma PartsOpen(ps: seq<Part>, close: string)
    requires ps != [] && AreParts(ps)
    ensures PartsText(ps, close) != "" && StartsKey(PartsText(ps, close)[0])
  {
    assert IsPart(ps[0]);
    match ps[0].name
    case Bare(k) =>
    case Spelled(_, f) => FormOpens(f);
  }

  lemma HeadLineRead(l: Live, ps: seq<Part>, many: bool, rest: string) returns (n: Lex)
    requires AtItem(l) && ps != [] && AreParts(ps) && Left(l, Opening(many) + (PartsText(ps, Closing(many)) + rest))
    ensures BehindLine(n) && Left(n, rest) && PhaseOf(l) == AtTop
    ensures Gives(l, T.Header(PartsKey(ps), many), true, n) == true
  {
    var names := PartsText(ps, Closing(many));
    PartsOpen(ps, Closing(many));
    assert Opening(many) + (names + rest) == (Opening(many) + names) + rest;
    LeftReads(l, Opening(many) + names, rest);
    LeftReads(l, Opening(many), names + rest);
    var m := H.HeaderOpens(l, many, names);
    n := PartsRead(m, many, [], ps, rest);
    assert [] + PartsKey(ps) == PartsKey(ps);
  }

  // ----- documents -----

  lemma Assoc5(a: string, b: string, c: string, d: string, e: string, rest: string)
    ensures (a + (b + (c + (d + e)))) + rest == a + (b + (c + (d + (e + rest))))
  {
    Assoc3(a, b, c + (d + e), rest);
    Assoc3(c, d, e, rest);
  }

  lemma LineGives(l: Live, x: Line, rest: string) returns (n: Lex)
    requires AtItem(l) && IsLine(x) && rest != "" && Stops(rest[0]) && Left(l, TextOf(x) + rest)
    ensures BehindLine(n) && Left(n, rest) && PhaseOf(l) == AtTop && Gives(l, Means(x), Unmixed(x), n) == true
  {
    match x
    case KeyLine(name, before, behind, v) =>
      Assoc5(NameText(name), before, "=", behind, LaidText(v), rest);
      n := KeyLineRead(l, name, before, behind, v, rest);
    case HeadLine(parts, many) =>
      Assoc(Opening(many), PartsText(parts, Closing(many)), rest);
      n := HeadLineRead(l, parts, many, rest);
  }

  lemma EndStops(w: string, b: Bit, rest: string)
    requires AllWhite(w) && IsClose(b)
    ensures w + (BitText(b) + rest) != "" && Stops((w + (BitText(b) + rest))[0])
  {
  }

  /** What is read from one row on. */
  predicate RowGives(l: Live, s: T.Stmt, fine: bool, n: Live)
    requires PhaseOf(l) == AtTop
  {
    if fine then PhaseOf(n) == AtTop && ReadAll(l) == Document([s] + ReadAll(n).ss, ReadAll(n).ending)
    else ReadAll(l) == Document([], ByUserError)
  }

  lemma RowRead(l: Live, r: Row, rest: string) returns (n: Live)
    requires AtItem(l) && IsRow(r)
    requires Left(l, GapText(r.lead) + (TextOf(r.line) + (r.blanks + (BitText(r.close) + rest))))
    ensures PhaseOf(l) == AtTop && RowGives(l, Means(r.line), Unmixed(r.line), n) == true
    ensures Unmixed(r.line) ==> AtItem(n) && Left(n, rest)
  {
    var end := r.blanks + (BitText(r.close) + rest);
    EndStops(r.blanks, r.close, rest);
    var m := GapPassed(l, r.lead, TextOf(r.line) + end);
    var o := LineGives(m, r.line, end);
    n := m;
    if Unmixed(r.line) {
      n := WhitePassed(o, r.blanks, BitText(r.close) + rest);
      n := ClosePassed(n, r.close, rest);
    }
  }

  /** Every document in every layout: its statements are read, in order, up to the first mixed array. */
  lemma {:induction false} RowsRead(l: Live, rs: seq<Row>, last: Gap)
    requires AtItem(l) && AreRows(rs) && IsGap(last) && Left(l, RowsText(rs, last))
    ensures ReadAll(l) == Meaning(rs)
    decreases |rs|
  {
    if rs == [] {
      assert GapText(last) + "" == GapText(last);
      var n := GapPassed(l, last, "");
      EndRead(n);
    } else {
      assert IsRow(rs[0]);
      var n := RowRead(l, rs[0], RowsText(rs[1..], last));
      if Unmixed(rs[0].line) {
        RowsRead(n, rs[1..], last);
      }
    }
  }

  /** From the text of a document to the tables: layout means nothing, and what the lines mean is replayed. */
  lemma LayoutRead(data: string, rs: seq<Row>, last: Gap, p: T.Parser)
    requires AreRows(rs) && IsGap(last) && data + "\n" == RowsText(rs, last)
    ensures PhaseOf(Init(data)) == AtTop && T.Named(Meaning(rs).ss)
    ensures Parse(Init(data), p) == match T.Replay(p, Meaning(rs).ss)
                                    case Accepted(q) => Finish(Meaning(rs).ending, q)
                                    case Refused => Error
                                    case ContextBug => DiesInContext
  {
    StartPhase(data);
    RowsRead(Init(data), rs, last);
    ParseReplays(Init(data), p);
  }
}
