/** The text of key lines and of the parts of headers: what the encoder writes for them is read
    back by the lexer and the parser as the same key, and the same value. */
module TomlText {
  import opened Iteration
  import opened TomlData
  import opened TomlLexer
  import opened TomlLexerProofs
  import opened TomlValues
  import opened TomlDocument
  import opened TomlLayout
  import opened TomlKeyText
  import A = TomlArrayText
  import T = TomlTables

  // ----- the text -----

  /** A key that Key.maybeQuoted leaves as it is, and that is not empty. */
  predicate BareName(k: string) { k != "" && BareText(k) }

  predicate ReadableKeys(key: T.Key) { forall i | 0 <= i < |key| :: Readable(key[i]) }

  // ----- one name -----

  lemma {:induction false} TrimRightBare(k: string)
    requires BareText(k)
    ensures TrimRight(k) == k && TrimRight(k + " ") == k
  {
    assert (k + " ")[..|k|] == k;
  }

  lemma TrimBare(k: string)
    requires BareName(k)
    ensures TrimSpace(k) == k && TrimSpace(k + " ") == k
  {
    assert TrimLeft(k) == k && TrimLeft(k + " ") == k + " ";
    TrimRightBare(k);
  }

  lemma BareRound(l: Lex)
    requires Bounds(l) && l.items == [] && (l.state == BareKey || l.state == BareTableName)
    requires l.pos < |l.input| && IsBareKeyChar(l.input[l.pos])
    ensures A.Round(l) == A.Further(l, 1)
  {
  }

  lemma {:induction false} BareRun(l: Lex, k: string)
    requires Bounds(l) && l.items == [] && (l.state == BareKey || l.state == BareTableName)
    requires A.Reads(l, k) && BareText(k)
    ensures A.Rounds(l, |k|) == A.Further(l, |k|)
    decreases |k|
  {
    if k != "" {
      var m := A.Further(l, 1);
      assert k == [k[0]] + k[1..];
      A.ReadsSplit(l, [k[0]], k[1..]);
      A.ReadsChar(l, k, 0);
      BareRound(l);
      A.Once(l, m);
      BareRun(m, k[1..]);
      A.Then(l, 1, m, |k| - 1, A.Further(l, |k|));
    }
  }

  /** `l` with everything before the read position, `k` characters on, ignored. */
  function Past(l: Lex, k: nat, s: StateFn): Lex { l.(start := l.pos + k, pos := l.pos + k, state := s) }

  lemma KeyEndText(l: Lex, k: string)
    requires Bounds(l) && A.Reads(l, " ") && Current(l) == k && BareName(k)
    ensures TrimSpace(Current(A.Further(l, 1))) == k
  {
    CurrentGrows(l, A.Further(l, 1));
    assert l.input[l.pos..l.pos + 1] == " ";
    TrimBare(k);
  }

  lemma KeyEndRound(l: Lex, k: string)
    requires Bounds(l) && l.items == [] && l.state == BareKey && A.Reads(l, " ")
    requires Current(l) == k && BareName(k)
    ensures A.Round(l) == A.Queued(Past(l, 1, KeyEnd), Item(ItemText, k))
  {
    A.ReadsChar(l, " ", 0);
    KeyEndText(l, k);
    assert [] + [Item(ItemText, k)] == [Item(ItemText, k)];
  }

  /** The name of a key line and the space behind it. */
  lemma KeyRead(l: Lex, k: string)
    requires Bounds(l) && l.items == [] && l.state == BareKey && l.start == l.pos
    requires BareName(k) && A.Reads(l, k + " ")
    ensures A.Rounds(l, |k| + 1) == A.Queued(Past(l, |k| + 1, KeyEnd), Item(ItemText, k))
  {
    A.ReadsSplit(l, k, " ");
    BareRun(l, k);
    var m := A.Further(l, |k|);
    assert Current(m) == k by { assert Current(l) == "" && "" + k == k; }
    KeyEndRound(m, k);
    A.Once(m, A.Queued(Past(m, 1, KeyEnd), Item(ItemText, k)));
    A.Then(l, |k|, m, 1, A.Queued(Past(m, 1, KeyEnd), Item(ItemText, k)));
  }

  lemma NameEndRound(l: Lex, k: string, c: char)
    requires Bounds(l) && l.items == [] && l.state == BareTableName && A.Reads(l, [c]) && (c == '.' || c == ']')
    requires Current(l) == k && BareName(k)
    ensures A.Round(l) == A.Queued(Past(l, 0, TableNameEnd), Item(ItemText, k))
  {
    A.ReadsChar(l, [c], 0);
    TrimBare(k);
    assert [] + [Item(ItemText, k)] == [Item(ItemText, k)];
  }

  lemma NameStartRound(l: Lex, c: char)
    requires Bounds(l) && l.items == [] && l.state == TableNameStart && A.Reads(l, [c]) && IsBareKeyChar(c)
    ensures A.Round(l) == l.(state := BareTableName)
  {
    A.ReadsChar(l, [c], 0);
  }

  /** One part of a header's name, up to the separator or bracket behind it. */
  lemma NameRead(l: Lex, k: string, c: char) returns (i: nat)
    requires Bounds(l) && l.items == [] && l.state == TableNameStart && l.start == l.pos
    requires BareName(k) && A.Reads(l, k + [c]) && (c == '.' || c == ']')
    ensures A.Rounds(l, i) == A.Queued(Past(l, |k|, TableNameEnd), Item(ItemText, k))
  {
    A.ReadsSplit(l, k, [c]);
    NameStarts(l, k);
    var m := l.(state := BareTableName);
    NameRest(m, k, c);
    i := A.Joined(l, 1, m, |k| + 1, A.Queued(Past(l, |k|, TableNameEnd), Item(ItemText, k)));
  }

  lemma NameStarts(l: Lex, k: string)
    requires Bounds(l) && l.items == [] && l.state == TableNameStart && BareName(k) && A.Reads(l, k)
    ensures A.Rounds(l, 1) == l.(state := BareTableName)
  {
    assert k == [k[0]] + k[1..];
    A.ReadsSplit(l, [k[0]], k[1..]);
    NameStartRound(l, k[0]);
    A.Once(l, l.(state := BareTableName));
  }

  lemma NamePending(m: Lex, n: Lex, k: string)
    requires Bounds(m) && m.start == m.pos && A.Reads(m, k) && n == A.Further(m, |k|)
    ensures Bounds(n) && Current(n) == k
  {
    CurrentGrows(m, n);
    assert Current(m) == "" && "" + k == k;
  }

  lemma NameRest(m: Lex, k: string, c: char)
    requires Bounds(m) && m.items == [] && m.state == BareTableName && m.start == m.pos
    requires BareName(k) && A.Reads(m, k) && A.Reads(A.Further(m, |k|), [c]) && (c == '.' || c == ']')
    ensures A.Rounds(m, |k| + 1) == A.Queued(Past(m, |k|, TableNameEnd), Item(ItemText, k))
  {
    BareRun(m, k);
    var n, q := A.Further(m, |k|), A.Queued(Past(m, |k|, TableNameEnd), Item(ItemText, k));
    NamePending(m, n, k);
    NameEndRound(n, k, c);
    A.Once(n, q);
    A.Then(m, |k|, n, 1, q);
  }

  /** A quoted part of a header's name. */
  lemma QuotedNameRead(l: Lex, k: string, s: StateFn, text: string) returns (i: nat)
    requires Bounds(l) && l.items == [] && l.state == TableNameStart && l.start == l.pos && l.stack == [s]
    requires Readable(k) && !BareText(k) && text == MaybeQuoted(k) && A.Reads(l, text)
    ensures A.Rounds(l, i) == A.Queued(Past(l, |text|, TableNameEnd), Item(ItemString, EscapeQuotes(k)))
  {
    var m := l.(state := Value, stack := [s, TableNameEnd]);
    A.ReadsChar(l, text, 0);
    QuoteRound(l, s);
    A.Once(l, m);
    var j := QuotedRead(m, k, EscapeQuotes(k), text);
    BehindQuotedName(l, m, s, text);
    i := A.Joined(l, 1, m, j, A.Queued(Past(l, |text|, TableNameEnd), Item(ItemString, EscapeQuotes(k))));
  }

  lemma QuoteRound(l: Lex, s: StateFn)
    requires Bounds(l) && l.items == [] && l.state == TableNameStart && l.start == l.pos && l.stack == [s]
    requires l.pos < |l.input| && IsQuote(l.input[l.pos])
    ensures A.Round(l) == l.(state := Value, stack := [s, TableNameEnd])
  {
    assert [s] + [TableNameEnd] == [s, TableNameEnd];
  }

  lemma BehindQuotedName(l: Lex, m: Lex, s: StateFn, text: string)
    requires l.stack == [s] && m == l.(state := Value, stack := [s, TableNameEnd])
    ensures A.Done(m, |text|) == Past(l, |text|, TableNameEnd)
  {
    assert [s, TableNameEnd][..1] == [s];
  }

  // ----- a key line -----

  /** The lexer is at the start of a top-level item. */
  predicate AtItem(l: Lex) { Bounds(l) && l.items == [] && l.state == Top && l.stack == [] && l.start == l.pos }

  lemma TopRound(l: Lex, c: char)
    requires AtItem(l) && A.Reads(l, [c]) && StartsKey(c)
    ensures A.Round(l) == l.(state := KeyStart, stack := [TopEnd])
  {
    A.ReadsChar(l, [c], 0);
    assert [] + [TopEnd] == [TopEnd];
  }

  /** Where a key starts, behind the mark of its start. */
  function AtKey(l: Lex, c: char): Lex {
    if IsQuote(c) then l.(state := Value, stack := [TopEnd, KeyEnd]) else l.(state := BareKey, stack := [TopEnd])
  }

  lemma KeyStartRound(l: Lex, c: char)
    requires Bounds(l) && l.items == [] && l.state == KeyStart && l.start == l.pos && l.stack == [TopEnd]
    requires A.Reads(l, [c]) && StartsKey(c)
    ensures A.Round(l) == A.Queued(AtKey(l, c), Item(ItemKeyStart, ""))
  {
    A.ReadsChar(l, [c], 0);
    assert A.Round(l) == StepKeyStart(l);
    assert [] + [Item(ItemKeyStart, "")] == [Item(ItemKeyStart, "")];
    assert [TopEnd] + [KeyEnd] == [TopEnd, KeyEnd];
  }

  lemma KeyBegins(l: Lex, c: char)
    requires AtItem(l) && A.Reads(l, [c]) && StartsKey(c)
    ensures A.Rounds(l, 2) == A.Queued(AtKey(l, c), Item(ItemKeyStart, ""))
  {
    var m := l.(state := KeyStart, stack := [TopEnd]);
    TopRound(l, c);
    KeyStartRound(m, c);
    A.Once(l, m);
    A.Once(m, A.Round(m));
    A.Then(l, 1, m, 1, A.Round(m));
  }

  lemma EqualsRounds(l: Lex)
    requires Bounds(l) && l.items == [] && l.state == KeyEnd && A.Reads(l, "=")
    ensures A.Rounds(l, 2) == Past(l, 1, Value)
  {
    A.ReadsChar(l, "=", 0);
    var m := l.(pos := l.pos + 1, state := Skip(Value));
    A.Once(l, m);
    A.Once(m, Past(l, 1, Value));
    A.Then(l, 1, m, 1, Past(l, 1, Value));
  }

  lemma SpaceRounds(l: Lex)
    requires Bounds(l) && l.items == [] && l.state == Value && A.Reads(l, " ")
    ensures A.Rounds(l, 2) == Past(l, 1, Value)
  {
    A.ReadsChar(l, " ", 0);
    var m := l.(pos := l.pos + 1, state := Skip(Value));
    A.Once(l, m);
    A.Once(m, Past(l, 1, Value));
    A.Then(l, 1, m, 1, Past(l, 1, Value));
  }

  lemma ToValue(l: Lex)
    requires Bounds(l) && l.items == [] && l.state == KeyEnd && A.Reads(l, "= ")
    ensures A.Rounds(l, 4) == Past(l, 2, Value)
  {
    assert "= " == "=" + " ";
    A.ReadsSplit(l, "=", " ");
    var m := Past(l, 1, Value);
    EqualsRounds(l);
    SpaceRounds(m);
    A.Then(l, 2, m, 2, Past(l, 2, Value));
  }

  /** The text of a line, where the text of the key is `k`. */
  function LineText(k: string, v: Val): string { k + (" " + ("= " + A.EncodeVal(v))) }

  function BehindKey(l: Lex, k: string): Lex { Past(l, |k| + 1, KeyEnd).(stack := [TopEnd]) }

  /** From the name of a line, whose text is `text`, to its value. */
  lemma NameFetched(l: Live, k: string, text: string, rest: string) returns (n: Live)
    requires AtItem(l) && Readable(k) && text == MaybeQuoted(k) && A.Reads(l, text + (" " + rest))
    ensures PhaseOf(n) == ValueNext && ReadTopLevel(l) == ReadValue(n, k)
    ensures n == BehindKey(l, text) && A.Reads(n, rest)
  {
    KeyTextStarts(k);
    KeyParts(l, text, rest);
    var m := KeyStartFetched(l, text[0]);
    if BareText(k) {
      n := KeyFetched(l, m, k);
    } else {
      n := QuotedFetched(l, m, k, text);
    }
  }

  lemma KeyParts(l: Lex, k: string, rest: string)
    requires Bounds(l) && k != "" && A.Reads(l, k + (" " + rest))
    ensures A.Reads(l, [k[0]]) && A.Reads(l, k + " ") && A.Reads(BehindKey(l, k), rest)
  {
    var c, tail := [k[0]], k[1..];
    assert k == c + tail;
    assert k + (" " + rest) == c + (tail + (" " + rest));
    A.ReadsSplit(l, c, tail + (" " + rest));
    assert k + (" " + rest) == k + " " + rest;
    A.ReadsSplit(l, k + " ", rest);
  }

  lemma KeyStartFetched(l: Live, c: char) returns (m: Live)
    requires AtItem(l) && StartsKey(c) && A.Reads(l, [c])
    ensures PhaseOf(m) == KeyName && ReadTopLevel(l) == ReadKey(m) && m == AtKey(l, c)
  {
    KeyBegins(l, c);
    m := StartTaken(l, AtKey(l, c));
  }

  lemma StartTaken(l: Live, n: Lex) returns (m: Live)
    requires PhaseOf(l) == AtTop && n.items == []
    requires A.Rounds(l, 2) == A.Queued(n, Item(ItemKeyStart, ""))
    ensures PhaseOf(m) == KeyName && ReadTopLevel(l) == ReadKey(m) && m == n
  {
    A.FetchedBy(l, 2, n, Item(ItemKeyStart, ""));
    FetchDelivers(l);
    m := StartItem(Fetch(l), n);
  }

  lemma StartItem(f: Fetched, n: Lex) returns (m: Live)
    requires FitsTop(f) && Gets(f, Item(ItemKeyStart, ""), n)
    ensures PhaseOf(m) == KeyName && TopItem(f) == ReadKey(m) && m == n
  {
    m := f.lex;
  }

  lemma KeyFetched(l: Lex, m: Live, k: string) returns (n: Live)
    requires AtItem(l) && BareName(k) && A.Reads(l, k + " ")
    requires PhaseOf(m) == KeyName && m == l.(state := BareKey, stack := [TopEnd])
    ensures PhaseOf(n) == ValueNext && ReadKey(m) == ReadValue(n, k) && n == BehindKey(l, k)
  {
    KeyRead(m, k);
    n := KeyTaken(m, |k| + 1, k, Item(ItemText, k), BehindKey(l, k));
  }

  lemma KeyTaken(m: Live, i: nat, k: string, it: Item, o: Lex) returns (n: Live)
    requires PhaseOf(m) == KeyName && o.items == [] && it.typ != ItemError && KeyString(it) == Good(Text(k))
    requires A.Rounds(m, i) == A.Queued(o, it)
    ensures PhaseOf(n) == ValueNext && ReadKey(m) == ReadValue(n, k) && n == o
  {
    A.FetchedBy(m, i, o, it);
    FetchDelivers(m);
    n := o;
  }

  lemma QuotedFetched(l: Lex, m: Live, k: string, text: string) returns (n: Live)
    requires AtItem(l) && Readable(k) && !BareText(k) && text == MaybeQuoted(k) && A.Reads(l, text + " ")
    requires PhaseOf(m) == KeyName && m == l.(state := Value, stack := [TopEnd, KeyEnd])
    ensures PhaseOf(n) == ValueNext && ReadKey(m) == ReadValue(n, k) && n == BehindKey(l, text)
  {
    A.ReadsSplit(l, text, " ");
    var i, it, o := QuotedKeyRead(l, m, k, text);
    BlankAhead(l, o, text);
    var q := KeyTaken(m, i, k, it, o);
    n := BlankSkipped(q, k);
  }

  lemma BlankAhead(l: Lex, o: Lex, text: string)
    requires AtItem(l) && Bounds(A.Further(l, |text|)) && A.Reads(A.Further(l, |text|), " ")
    requires o == Past(l, |text|, KeyEnd).(stack := [TopEnd])
    ensures AtBlank(o) == true && Past(o, 1, KeyEnd) == BehindKey(l, text)
  {
  }

  predicate AtBlank(o: Lex) { Bounds(o) && o.items == [] && o.state == KeyEnd && A.Reads(o, " ") }

  lemma QuotedKeyRead(l: Lex, m: Lex, k: string, text: string) returns (i: nat, it: Item, o: Lex)
    requires AtItem(l) && Readable(k) && !BareText(k) && text == MaybeQuoted(k) && A.Reads(l, text)
    requires m == l.(state := Value, stack := [TopEnd, KeyEnd])
    ensures o == Past(l, |text|, KeyEnd).(stack := [TopEnd]) && it.typ != ItemError && KeyString(it) == Good(Text(k))
    ensures A.Rounds(m, i) == A.Queued(o, it)
  {
    it := KeyItem(k);
    KeyItemNames(k);
    i := QuotedRead(m, k, EscapeQuotes(k), text);
    BehindQuoted(l, m, text);
    o := A.Done(m, |text|);
  }

  lemma BehindQuoted(l: Lex, m: Lex, text: string)
    requires m == l.(state := Value, stack := [TopEnd, KeyEnd])
    ensures A.Done(m, |text|) == Past(l, |text|, KeyEnd).(stack := [TopEnd])
  {
    assert [TopEnd, KeyEnd][..1] == [TopEnd];
  }

  /** The blank behind a quoted key. */
  lemma BlankSkipped(o: Live, k: string) returns (n: Live)
    requires PhaseOf(o) == ValueNext && AtBlank(o)
    ensures PhaseOf(n) == ValueNext && ReadValue(o, k) == ReadValue(n, k) && n == Past(o, 1, KeyEnd)
  {
    BlankRounds(o);
    n := A.FetchRounds(o, 2, Past(o, 1, KeyEnd));
    SameValue(o, n, k);
  }

  lemma BlankRounds(l: Lex)
    requires AtBlank(l)
    ensures A.Rounds(l, 2) == Past(l, 1, KeyEnd)
  {
    A.ReadsChar(l, " ", 0);
    var m := l.(pos := l.pos + 1, state := Skip(KeyEnd));
    A.Once(l, m);
    A.Once(m, Past(l, 1, KeyEnd));
    A.Then(l, 1, m, 1, Past(l, 1, KeyEnd));
  }

  lemma SameValue(l: Live, m: Live, k: string)
    requires PhaseOf(l) == ValueNext && PhaseOf(m) == ValueNext && Fetch(l) == Fetch(m)
    ensures ReadValue(l, k) == ReadValue(m, k)
  {
  }

  lemma ValueFetched(l: Live, m: Live, name: string, v: Val, n: Live)
    requires PhaseOf(l) == ValueNext && PhaseOf(m) == ValueNext && Fetch(l) == Fetch(m)
    requires A.ParseElement(m, 0) == Ok(v, n)
    ensures ReadValue(l, name) == Statement(T.Assign(name, v), n)
  {
  }

  lemma LineSplit(l: Lex, k: string, v: Val)
    requires AtItem(l) && A.Reads(l, LineText(k, v))
    ensures A.Reads(l, k + (" " + ("= " + A.EncodeVal(v))))
    ensures |LineText(k, v)| == |k| + 3 + |A.EncodeVal(v)|
  {
  }

  lemma ValueBefore(m: Lex, e: string)
    requires m.stack == [TopEnd] && Bounds(m) && m.items == []
    requires A.Reads(m, "= " + e) && m.pos + 2 + |e| < |m.input| && m.input[m.pos + 2 + |e|] == '\n'
    ensures A.Before(Past(m, 2, Value), e) == true
  {
    A.ReadsSplit(m, "= ", e);
  }

  lemma ValueReached(m: Lex, e: string)
    requires m.state == KeyEnd && Bounds(m) && m.items == [] && A.Reads(m, "= " + e)
    ensures A.Rounds(m, 4) == Past(m, 2, Value)
  {
    A.ReadsSplit(m, "= ", e);
    ToValue(m);
  }

  /** Before the value of a line. */
  lemma ValueAhead(m: Live, e: string) returns (n: Live)
    requires m.state == KeyEnd && m.stack == [TopEnd] && Bounds(m) && m.items == [] && PhaseOf(m) == ValueNext
    requires A.Reads(m, "= " + e) && m.pos + 2 + |e| < |m.input| && m.input[m.pos + 2 + |e|] == '\n'
    ensures n == Past(m, 2, Value) && PhaseOf(n) == ValueNext && Fetch(m) == Fetch(n)
    ensures A.Before(n, e)
  {
    ValueBefore(m, e);
    ValueReached(m, e);
    n := A.FetchRounds(m, 4, Past(m, 2, Value));
  }

  lemma ValueParsed(o: Live, v: Val, e: string) returns (n: Live)
    requires PhaseOf(o) == ValueNext && A.Supported(v) && e == A.EncodeVal(v) && A.Before(o, e)
    ensures A.ParseElement(o, 0) == Ok(v, n) && n == A.Done(o, |e|)
  {
    A.ElementRoundTrip(v, o, 0);
    n := A.ParseElement(o, 0).lex;
  }

  lemma NewlineAt(l: Lex, m: Lex, k: string, e: string, text: string)
    requires |text| == |k| + 3 + |e| && l.pos + |text| < |l.input| && l.input[l.pos + |text|] == '\n'
    requires m.pos == l.pos + |k| + 1 && m.input == l.input
    ensures m.pos + 2 + |e| < |m.input| && m.input[m.pos + 2 + |e|] == '\n'
  {
    assert m.pos + 2 + |e| == l.pos + |text|;
  }

  lemma LineEnd(l: Lex, m: Lex, o: Lex, k: string, e: string, text: string)
    requires AtItem(l) && |text| == |k| + 3 + |e|
    requires m == BehindKey(l, k)
    requires o == Past(m, 2, Value)
    ensures A.Done(o, |e|) == Past(l, |text|, TopEnd)
  {
    assert [TopEnd][..0] == [];
  }

  /** What is read behind the name of a line. */
  lemma ValueOfLine(m: Live, k: string, v: Val, e: string) returns (n: Live)
    requires m.state == KeyEnd && m.stack == [TopEnd] && Bounds(m) && m.items == [] && PhaseOf(m) == ValueNext
    requires A.Reads(m, "= " + e) && m.pos + 2 + |e| < |m.input| && m.input[m.pos + 2 + |e|] == '\n'
    requires A.Supported(v) && e == A.EncodeVal(v)
    ensures ReadValue(m, k) == Statement(T.Assign(k, v), n)
    ensures n == A.Done(Past(m, 2, Value), |e|)
  {
    var o := ValueAhead(m, e);
    n := ValueParsed(o, v, e);
    ValueFetched(m, o, k, v, n);
  }

  /** A key line is read as the statement it was made from, up to the end of the line. */
  lemma LineRead(l: Live, k: string, v: Val, text: string) returns (n: Live)
    requires AtItem(l) && Readable(k) && A.Supported(v) && text == LineText(MaybeQuoted(k), v) && A.Reads(l, text)
    requires l.pos + |text| < |l.input| && l.input[l.pos + |text|] == '\n'
    ensures ReadTopLevel(l) == Statement(T.Assign(k, v), n)
    ensures n == Past(l, |text|, TopEnd)
  {
    var q, e := MaybeQuoted(k), A.EncodeVal(v);
    LineSplit(l, q, v);
    var m := NameFetched(l, k, q, "= " + e);
    NewlineAt(l, m, q, e, text);
    n := ValueOfLine(m, k, v, e);
    LineEnd(l, m, Past(m, 2, Value), q, e, text);
  }

  // ----- a header -----

  function EndState(many: bool): StateFn { if many then ArrayTableEnd else TableEnd }
  function StartType(many: bool): ItemType { if many then ItemArrayTableStart else ItemTableStart }
  function EndType(many: bool): ItemType { if many then ItemArrayTableEnd else ItemTableEnd }

  lemma BracketRound(l: Lex)
    requires AtItem(l) && A.Reads(l, "[")
    ensures A.Round(l) == l.(pos := l.pos + 1, state := TableStart)
  {
    A.ReadsChar(l, "[", 0);
  }

  lemma TableRound(l: Lex, c: char)
    requires Bounds(l) && l.items == [] && l.state == TableStart && l.stack == [] && Current(l) == "["
    requires A.Reads(l, [c]) && StartsKey(c)
    ensures A.Round(l) == A.Queued(Past(l, 0, TableNameStart).(stack := [TableEnd]), Item(ItemTableStart, "["))
  {
    A.ReadsChar(l, [c], 0);
    assert [] + [Item(ItemTableStart, "[")] == [Item(ItemTableStart, "[")] && [] + [TableEnd] == [TableEnd];
  }

  lemma ArrayTableRound(l: Lex)
    requires Bounds(l) && l.items == [] && l.state == TableStart && l.stack == [] && Current(l) == "["
    requires A.Reads(l, "[")
    ensures A.Round(l) == A.Queued(Past(l, 1, TableNameStart).(stack := [ArrayTableEnd]), Item(ItemArrayTableStart, "[["))
  {
    A.ReadsChar(l, "[", 0);
    CurrentGrows(l, A.Further(l, 1));
    assert l.input[l.pos..l.pos + 1] == "[" && "[" + "[" == "[[";
    assert [] + [Item(ItemArrayTableStart, "[[")] == [Item(ItemArrayTableStart, "[[")];
    assert [] + [ArrayTableEnd] == [ArrayTableEnd];
  }

  /** The brackets that open a header. */
  lemma HeaderBegins(l: Lex, many: bool, c: char)
    requires AtItem(l) && A.Reads(l, Opening(many) + [c]) && StartsKey(c)
    ensures var n := Past(l, |Opening(many)|, TableNameStart).(stack := [EndState(many)]);
      A.Rounds(l, 2) == A.Queued(n, Item(StartType(many), Opening(many)))
  {
    A.ReadsSplit(l, Opening(many), [c]);
    var m := l.(pos := l.pos + 1, state := TableStart);
    if many {
      assert "[[" == "[" + "[";
      A.ReadsSplit(l, "[", "[");
    }
    BracketRound(l);
    assert Current(m) == "[" by { A.ReadsSplit(l, "[", if many then "[" else ""); assert "[" + "" == "["; }
    if many { ArrayTableRound(m); } else { TableRound(m, c); }
    A.Once(l, m);
    A.Once(m, A.Round(m));
    A.Then(l, 1, m, 1, A.Round(m));
  }

  lemma CloseRound(l: Lex, s: StateFn)
    requires Bounds(l) && l.items == [] && l.state == TableNameEnd && l.stack == [s] && A.Reads(l, "]")
    ensures A.Round(l) == l.(pos := l.pos + 1, state := s, stack := [])
  {
    A.ReadsChar(l, "]", 0);
    assert [s][..0] == [];
  }

  lemma TableEndRound(l: Lex)
    requires Bounds(l) && l.items == [] && l.state == TableEnd && Current(l) == "]"
    ensures A.Round(l) == A.Queued(Past(l, 0, TopEnd), Item(ItemTableEnd, "]"))
  {
    assert [] + [Item(ItemTableEnd, "]")] == [Item(ItemTableEnd, "]")];
  }

  lemma ArrayTableEndRound(l: Lex)
    requires Bounds(l) && l.items == [] && l.state == ArrayTableEnd && Current(l) == "]" && A.Reads(l, "]")
    ensures A.Round(l) == A.Queued(Past(l, 1, TopEnd), Item(ItemArrayTableEnd, "]]"))
  {
    A.ReadsChar(l, "]", 0);
    CurrentGrows(l, A.Further(l, 1));
    assert l.input[l.pos..l.pos + 1] == "]" && "]" + "]" == "]]";
    assert [] + [Item(ItemArrayTableEnd, "]]")] == [Item(ItemArrayTableEnd, "]]")];
  }

  /** One round of the loop in nextItem, seen from the fetch. */
  lemma RoundFetched(l: Live, n: Lex)
    requires PhaseOf(l) != Done && !Stuck(l) && A.Round(l) == n
    ensures n.items == [] ==> GoesOn(l, n) == true
    ensures n.items != [] && n.items[0].typ != ItemError ==>
      Gets(Fetch(l), n.items[0], n.(items := n.items[1..])) == true
  {
    FetchRound(l);
  }

  lemma LastBracket(m: Lex, many: bool)
    requires Bounds(m) && m.items == [] && m.state == EndState(many) && Current(m) == "]"
    requires many ==> A.Reads(m, "]")
    ensures A.Round(m) == A.Queued(Past(m, if many then 1 else 0, TopEnd), Item(EndType(many), Closing(many)))
  {
    if many { ArrayTableEndRound(m); } else { TableEndRound(m); }
  }

  lemma FirstBracket(l: Lex, many: bool) returns (m: Lex)
    requires Bounds(l) && l.items == [] && l.state == TableNameEnd && l.stack == [EndState(many)] && l.start == l.pos
    requires A.Reads(l, Closing(many))
    ensures m == l.(pos := l.pos + 1, state := EndState(many), stack := []) && A.Round(l) == m
    ensures Bounds(m) && Current(m) == "]" && (many ==> A.Reads(m, "]"))
  {
    if many { assert "]]" == "]" + "]"; }
    A.ReadsSplit(l, "]", if many then "]" else "");
    m := l.(pos := l.pos + 1, state := EndState(many), stack := []);
    CloseRound(l, EndState(many));
    assert Current(l) == "" && "" + "]" == "]";
  }

  /** The brackets that close a header. */
  lemma HeaderCloses(l: Live, many: bool)
    requires Bounds(l) && l.items == [] && l.state == TableNameEnd && l.stack == [EndState(many)] && l.start == l.pos
    requires A.Reads(l, Closing(many))
    ensures Gets(Fetch(l), Item(EndType(many), Closing(many)), Past(l, |Closing(many)|, TopEnd).(stack := []))
  {
    var m := FirstBracket(l, many);
    RoundFetched(l, m);
    LastBracket(m, many);
    RoundFetched(m, A.Round(m));
    assert [Item(EndType(many), Closing(many))][1..] == [];
  }
}
