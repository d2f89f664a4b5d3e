/** Which documents of the encoder are read back: exactly those without a backslash or an end of
    line in a key. */
module TomlReadExactly {
  import opened Sequences
  import opened TomlData
  import opened TomlLexer
  import opened TomlLexerProofs
  import opened TomlValues
  import opened TomlDocument
  import opened TomlLayout
  import opened TomlKeyText
  import opened TomlText
  import opened TomlKeyLines
  import opened TomlHeaderText
  import opened TomlDocumentText
  import A = TomlArrayText
  import T = TomlTables
  import opened TomlReplay
  import R = TomlTextRoundTrip

  // ----- names of a header -----

  lemma {:induction false} NamesQuoteFirst(key: T.Key, close: string)
    requires key != [] && QuoteFirst(close)
    ensures QuoteFirst(NamesText(key, close))
    decreases |key|
  {
    var rest := if |key| == 1 then close else "." + NamesText(key[1..], close);
    if |key| > 1 {
      NamesQuoteFirst(key[1..], close);
      PlainQuoteFirst(".");
      QuoteFirstJoins(".", NamesText(key[1..], close));
    }
    if BareText(key[0]) {
      BareQuotable(key[0]);
      PlainQuoteFirst(key[0]);
      QuoteFirstJoins(key[0], rest);
    }
  }

  /** What is written behind the first name of a header. */
  function BehindFirst(key: T.Key, close: string): string
    requires key != []
  { if |key| == 1 then close else "." + NamesText(key[1..], close) }

  lemma BehindFirstPlain(key: T.Key, close: string)
    requires key != [] && QuoteFirst(close) && close != "" && close[0] != '"'
    ensures var w := BehindFirst(key, close);
      QuoteFirst(w) && w != "" && w[0] != '"' && NamesText(key, close) == MaybeQuoted(key[0]) + w
  {
    if |key| > 1 {
      NamesQuoteFirst(key[1..], close);
      PlainQuoteFirst(".");
      QuoteFirstJoins(".", NamesText(key[1..], close));
    }
  }

  lemma ClosingPlain(many: bool)
    ensures QuoteFirst(Closing(many)) && Closing(many) != "" && Closing(many)[0] != '"'
  {
    PlainQuoteFirst(Closing(many));
  }

  /** The names read so far stay at the front of the key. */
  lemma {:induction false} HeaderExtends(l: Live, many: bool, done: T.Key)
    requires InHeader(l, many, done)
    ensures ReadHeader(l, many, done).Ok? ==> done <= ReadHeader(l, many, done).value
    decreases Measure(l)
  {
    HeaderFetch(l, many, done);
    var f := Fetch(l);
    if f.Got? && !EndsHeader(f.item.typ) {
      KeyStringSafe(f.item);
      if KeyString(f.item).Good? {
        HeaderExtends(f.lex, many, done + [KeyString(f.item).value.s]);
      }
    }
  }

  /** Behind the opening quote of a name in a header. */
  function InNameQuotes(l: Lex, s: StateFn): Lex {
    l.(start := l.pos + 1, pos := l.pos + 1, state := Str, stack := [s, TableNameEnd])
  }

  lemma NameQuotePassed(l: Lex, s: StateFn, k: string, q: string) returns (m: Lex)
    requires Bounds(l) && l.items == [] && l.state == TableNameStart && l.start == l.pos && l.stack == [s]
    requires k != "" && q == "\"" + EscapeQuotes(k) + "\"" && A.Reads(l, q)
    ensures m == l.(state := Value, stack := [s, TableNameEnd])
    ensures A.Round(l) == m && A.Round(m) == InNameQuotes(l, s)
  {
    A.ReadsChar(l, q, 0);
    m := l.(state := Value, stack := [s, TableNameEnd]);
    QuoteRound(l, s);
    QuoteOpens(m, k, EscapeQuotes(k), q, InNameQuotes(l, s));
  }

  lemma NameQuoteEntered(l: Live, many: bool, k: string, q: string)
    requires AtName(l, many) && PhaseOf(l) == TableName(many)
    requires k != "" && q == "\"" + EscapeQuotes(k) + "\"" && A.Reads(l, q)
    ensures GoesOn(l, InNameQuotes(l, EndState(many))) == true
  {
    var m := NameQuotePassed(l, EndState(many), k, q);
    RoundFetched(l, m);
    RoundFetched(m, InNameQuotes(l, EndState(many)));
  }

  lemma HeaderWith(l: Live, many: bool, done: T.Key, k: string, s: string, n: Live)
    requires InHeader(n, many, done + [s]) && s != k
    ensures var r := ReadHeader(n, many, done + [s]); r.Ok? ==> !(done + [k] <= r.value)
  {
    HeaderExtends(n, many, done + [s]);
    assert (done + [s])[|done|] == s && (done + [k])[|done|] == k;
  }

  /** A header whose next name is read as another one. */
  lemma NameMissed(l: Live, many: bool, done: T.Key, k: string)
    requires InHeader(l, many, done)
    requires Fetch(l).Got? ==> Fetch(l).item.typ == ItemString && KeyString(Fetch(l).item) != Good(Text(k))
    ensures var r := ReadHeader(l, many, done); r.Ok? ==> !(done + [k] <= r.value)
  {
    HeaderFetch(l, many, done);
    var f := Fetch(l);
    if f.Got? {
      KeyStringSafe(f.item);
      if KeyString(f.item).Good? {
        HeaderWith(l, many, done, k, KeyString(f.item).value.s, f.lex);
      }
    }
  }

  /** The line ends behind the text. */
  predicate EndsLine(l: Lex, text: string) { l.pos + |text| < |l.input| && l.input[l.pos + |text|] == '\n' }

  /** The first name is not quotable: another one is read. */
  lemma OtherName(l: Live, many: bool, done: T.Key, k: string, w: string, text: string)
    requires AtName(l, many) && InHeader(l, many, done) && PhaseOf(l) == TableName(many)
    requires k != "" && !Quotable(k) && QuoteFirst(w) && w != "" && w[0] != '"'
    requires text == "\"" + EscapeQuotes(k) + "\"" + w && A.Reads(l, text)
    requires EndsLine(l, text)
    ensures var r := ReadHeader(l, many, done); r.Ok? ==> !(done + [k] <= r.value)
  {
    var q, o := "\"" + EscapeQuotes(k) + "\"", InNameQuotes(l, EndState(many));
    A.ReadsSplit(l, q, w);
    NameQuoteEntered(l, many, k, q);
    var more := LineInside(l, o, k, w, text);
    var b := StringFetched(o);
    if Fetch(o).Got? {
      NameDiffers(o, k, w, more, Fetch(o).item, b);
    }
    NameMissed(l, many, done, k);
  }

  /** The key that is read, if any, is another one. */
  predicate Missed(r: Outcome<T.Key>, key: T.Key) { r.Ok? ==> r.value != key }

  lemma EndsOn(l: Lex, m: Lex, a: string, b: string)
    requires m.input == l.input && m.pos == l.pos + |a|
    ensures EndsLine(l, a + b) == EndsLine(m, b)
  {
  }

  lemma NamesSplit(key: T.Key, close: string, q: string, rest: string)
    requires |key| > 1 && q == MaybeQuoted(key[0]) && rest == NamesText(key[1..], close)
    ensures NamesText(key, close) == q + ("." + rest) == q + "." + rest
  {
  }

  lemma KeyLost(done: T.Key, key: T.Key, r: Outcome<T.Key>)
    requires key != [] && (r.Ok? ==> !(done + [key[0]] <= r.value))
    ensures Missed(r, done + key)
  {
    assert done + key == done + [key[0]] + key[1..];
  }

  lemma FirstLost(l: Live, many: bool, done: T.Key, key: T.Key, text: string)
    requires AtName(l, many) && InHeader(l, many, done) && PhaseOf(l) == TableName(many)
    requires key != [] && key[0] != "" && !Quotable(key[0])
    requires text == NamesText(key, Closing(many)) && A.Reads(l, text)
    requires EndsLine(l, text)
    ensures Missed(ReadHeader(l, many, done), done + key) == true
  {
    var k, w := key[0], BehindFirst(key, Closing(many));
    ClosingPlain(many);
    BehindFirstPlain(key, Closing(many));
    if BareText(k) { BareQuotable(k); }
    OtherName(l, many, done, k, w, text);
    KeyLost(done, key, ReadHeader(l, many, done));
  }

  /** What is behind the first name, when that name is read. */
  lemma RestOfNames(l: Live, many: bool, done: T.Key, key: T.Key, text: string) returns (m: Live, rest: string)
    requires AtName(l, many) && InHeader(l, many, done) && PhaseOf(l) == TableName(many)
    requires |key| > 1 && Readable(key[0]) && text == NamesText(key, Closing(many)) && A.Reads(l, text)
    ensures AtName(m, many) && PhaseOf(m) == TableName(many) && InHeader(m, many, done + [key[0]])
    ensures rest == NamesText(key[1..], Closing(many)) && A.Reads(m, rest)
    ensures EndsLine(l, text) ==> EndsLine(m, rest)
    ensures ReadHeader(l, many, done) == ReadHeader(m, many, done + [key[0]])
  {
    var q := MaybeQuoted(key[0]);
    rest := NamesText(key[1..], Closing(many));
    NamesSplit(key, Closing(many), q, rest);
    m := MoreNames(l, many, done, key[0], q, rest);
    EndsOn(l, m, q + ".", rest);
  }

  /** A header with a name that is not quotable is read as another key, or not at all. */
  lemma {:induction false} NamesLost(l: Live, many: bool, done: T.Key, key: T.Key, text: string)
    requires AtName(l, many) && InHeader(l, many, done) && PhaseOf(l) == TableName(many)
    requires key != [] && ValidKey(key) && !ReadableKeys(key)
    requires text == NamesText(key, Closing(many)) && A.Reads(l, text)
    requires EndsLine(l, text)
    ensures Missed(ReadHeader(l, many, done), done + key) == true
    decreases |key|
  {
    if Readable(key[0]) {
      RestUnreadable(key);
      var m, rest := RestOfNames(l, many, done, key, text);
      KeyNext(done, key);
      NamesLost(m, many, done + [key[0]], key[1..], rest);
    } else {
      FirstLost(l, many, done, key, text);
    }
  }

  lemma RestUnreadable(key: T.Key)
    requires key != [] && Readable(key[0]) && ValidKey(key) && !ReadableKeys(key)
    ensures |key| > 1 && ValidKey(key[1..]) && !ReadableKeys(key[1..])
  {
    var i :| 0 <= i < |key| && !Readable(key[i]);
    assert key[1..][i - 1] == key[i];
  }

  // ----- statements -----

  /** Something else is read, or nothing. */
  predicate ReadsOther(r: Read, s: T.Stmt) { r.Stopped? || (r.Statement? && r.s != s) }

  lemma NamesStart(key: T.Key, close: string)
    requires key != [] && ValidKey(key)
    ensures NamesText(key, close) != "" && StartsKey(NamesText(key, close)[0])
  {
    KeyTextStarts(key[0]);
  }

  lemma OtherHeader(l: Live, key: T.Key, many: bool, text: string)
    requires AtItem(l) && key != [] && ValidKey(key) && !ReadableKeys(key)
    requires text == HeaderText(key, many) && A.Reads(l, text)
    requires EndsLine(l, text)
    ensures ReadsOther(ReadTopLevel(l), T.Header(key, many)) == true
  {
    var names := NamesText(key, Closing(many));
    NamesStart(key, Closing(many));
    var m := HeaderOpens(l, many, names);
    EndsOn(l, m, Opening(many), names);
    NamesLost(m, many, [], key, names);
    NothingBefore(key);
    TableMissed(m, key, many);
  }

  lemma TableMissed(m: Live, key: T.Key, many: bool)
    requires PhaseOf(m) == TableName(many) && Missed(ReadHeader(m, many, []), key)
    ensures ReadsOther(ReadTable(m, many), T.Header(key, many))
  {
  }

  /** The line of a statement that cannot be printed is read as something else. */
  lemma OtherStmt(l: Live, s: T.Stmt, text: string)
    requires AtItem(l) && Writable(s) && !Printable(s) && text == StmtText(s) && A.Reads(l, text)
    requires EndsLine(l, text)
    ensures ReadsOther(ReadTopLevel(l), s)
  {
    match s
    case Header(key, many) =>
      HeaderWritten(key, many);
      OtherHeader(l, key, many, text);
    case Assign(k, v) =>
      LineWritten(k, v);
      if BareText(k) { BareQuotable(k); }
      OtherKeyRead(l, k, v, MaybeQuoted(k), text);
  }

  lemma OtherDocument(l: Live, ss: seq<T.Stmt>)
    requires PhaseOf(l) == AtTop && ss != [] && ReadsOther(ReadTopLevel(l), ss[0])
    ensures ReadAll(l).ss != ss
  {
  }

  lemma OtherLine(l: Live, tab: string, ss: seq<T.Stmt>, depth: nat, written: bool, rest: string)
    requires AtItem(l) && AllBlank(tab) && ss != [] && Writable(ss[0]) && !Printable(ss[0])
    requires Left(l, LineOf(tab, ss[0], depth, written) + rest)
    ensures ReadAll(l).ss != ss
  {
    var s := ss[0];
    LineParts(tab, s, depth, written, rest);
    var m := BlanksRead(l, Margin(tab, s, depth, written), StmtText(s) + ("\n" + rest));
    var text := StmtText(s);
    LeftReads(m, text, "\n" + rest);
    LeftReads(A.Further(m, |text|), "\n", rest);
    A.ReadsChar(A.Further(m, |text|), "\n", 0);
    OtherStmt(m, s, text);
    OtherDocument(m, ss);
  }

  /** The text of the statements is read as these statements exactly when no key in them holds a
      backslash or an end of line. */
  lemma {:induction false} RenderExactly(l: Live, tab: string, ss: seq<T.Stmt>, depth: nat, written: bool)
    requires AtItem(l) && AllWritable(ss) && AllBlank(tab) && T.Named(ss)
    requires Left(l, Render(tab, ss, depth, written) + "\n")
    ensures ReadAll(l).ss == ss <==> AllPrintable(ss)
    decreases |ss|
  {
    if ss == [] {
      LastNewline(l);
    } else {
      var line, more := LineOf(tab, ss[0], depth, written), Render(tab, ss[1..], NextDepth(ss[0], depth), true);
      Assoc(line, more, "\n");
      if Printable(ss[0]) {
        var n := OneLine(l, tab, ss[0], depth, written, more + "\n");
        RenderExactly(n, tab, ss[1..], NextDepth(ss[0], depth), true);
        FirstAndRest(ss);
        PrintableRest(ss, ReadAll(n).ss);
      } else {
        OtherLine(l, tab, ss, depth, written, more + "\n");
      }
    }
  }

  lemma PrintableRest(ss: seq<T.Stmt>, rest: seq<T.Stmt>)
    requires ss != [] && Printable(ss[0])
    ensures AllPrintable(ss) <==> AllPrintable(ss[1..])
    ensures [ss[0]] + rest == ss <==> rest == ss[1..]
  {
    assert forall i | 1 <= i < |ss| :: ss[i] == ss[1..][i - 1];
    assert ([ss[0]] + rest)[1..] == rest && [ss[0]] + ss[1..] == ss;
  }

  // ----- documents of the encoder -----

  lemma WritableNamed(ss: seq<T.Stmt>)
    requires AllWritable(ss)
    ensures T.Named(ss)
  {
  }

  lemma StatementsExactly(doc: string, tab: string, ss: seq<T.Stmt>)
    requires AllWritable(ss) && AllBlank(tab) && T.Named(ss) && doc == Render(tab, ss, 0, false)
    ensures Inv(Init(doc)) && PhaseOf(Init(doc)) == AtTop
    ensures ReadAll(Init(doc)).ss == ss <==> AllPrintable(ss)
  {
    StartPhase(doc);
    var l: Live := Init(doc);
    RenderExactly(l, tab, ss, 0, false);
  }

  /** The text of a table with supported values is read as the statements that were written exactly
      when no written key, at any depth, holds a backslash or an end of line. */
  lemma TextReadExactly(t: T.Tbl, tab: string)
    requires R.Storable(t) && AllBlank(tab)
    ensures Encode(t).Lines? && T.Named(Encode(t).ss)
    ensures Inv(Init(R.Text(t, tab))) && PhaseOf(Init(R.Text(t, tab))) == AtTop
    ensures ReadAll(Init(R.Text(t, tab))).ss == Encode(t).ss <==> R.Plain(t)
  {
    R.MapWrites([], t);
    WritableNamed(Encode(t).ss);
    StatementsExactly(R.Text(t, tab), tab, Encode(t).ss);
  }
}
