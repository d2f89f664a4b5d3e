/** The text of a header with readable keys is read as the header. */
module TomlHeaderText {
  import opened Sequences
  import opened TomlData
  import opened TomlLexer
  import opened TomlLexerProofs
  import opened TomlValues
  import opened TomlDocument
  import opened TomlLayout
  import opened TomlKeyText
  import opened TomlText
  import A = TomlArrayText
  import T = TomlTables

  /** The names of a header and its closing brackets. */
  function NamesText(key: T.Key, close: string): string
    requires key != []
  {
    if |key| == 1 then MaybeQuoted(key[0]) + close
    else MaybeQuoted(key[0]) + ("." + NamesText(key[1..], close))
  }

  lemma {:induction false} NamesJoined(key: T.Key, close: string)
    requires key != []
    ensures NamesText(key, close) == T.Joined(QuotedAll(key)) + close
    decreases |key|
  {
    QuotedRest(key);
    if |key| > 1 {
      var rest := QuotedAll(key[1..]);
      NamesJoined(key[1..], close);
      JoinedRest(QuotedAll(key), rest);
      Dotted(MaybeQuoted(key[0]), T.Joined(rest), close);
    }
  }

  lemma QuotedRest(key: T.Key)
    requires key != []
    ensures |QuotedAll(key)| == |key| && QuotedAll(key)[0] == MaybeQuoted(key[0])
    ensures QuotedAll(key)[1..] == QuotedAll(key[1..])
  {
  }

  lemma JoinedRest(ks: T.Key, rest: T.Key)
    requires |ks| > 1 && rest == ks[1..]
    ensures T.Joined(ks) == ks[0] + "." + T.Joined(rest)
  {
  }

  lemma Dotted(k: string, r: string, close: string)
    ensures k + "." + r + close == k + ("." + (r + close))
  {
  }

  function HeaderText(key: T.Key, many: bool): string
    requires key != []
  { Opening(many) + NamesText(key, Closing(many)) }

  lemma HeaderWritten(key: T.Key, many: bool)
    requires key != []
    ensures StmtText(T.Header(key, many)) == HeaderText(key, many)
  {
    NamesJoined(key, Closing(many));
    Assoc(Opening(many), T.Joined(QuotedAll(key)), Closing(many));
  }

  // ----- names -----

  /** The lexer stands at the start of a name in a header. */
  predicate AtName(l: Lex, many: bool) {
    Bounds(l) && l.items == [] && l.state == TableNameStart && l.stack == [EndState(many)] && l.start == l.pos
  }

  /** It stands behind a name. */
  predicate BehindName(l: Lex, many: bool) {
    Bounds(l) && l.items == [] && l.state == TableNameEnd && l.stack == [EndState(many)] && l.start == l.pos
  }

  lemma NameTaken(l: Live, many: bool, done: T.Key, k: string, m: Lex)
    requires InHeader(l, many, done) && Readable(k) && Gets(Fetch(l), KeyItem(k), m)
    ensures Inv(m) && InHeader(m, many, done + [k])
    ensures ReadHeader(l, many, done) == ReadHeader(m, many, done + [k])
  {
    KeyItemNames(k);
    HeaderFetch(l, many, done);
  }

  lemma HeaderTaken(l: Live, many: bool, done: T.Key, m: Lex)
    requires InHeader(l, many, done) && Gets(Fetch(l), Item(EndType(many), Closing(many)), m)
    ensures Inv(m) && ReadHeader(l, many, done) == Ok(done, m)
  {
    HeaderFetch(l, many, done);
  }

  lemma SameHeader(l: Live, m: Live, many: bool, done: T.Key)
    requires InHeader(l, many, done) && InHeader(m, many, done) && Fetch(l) == Fetch(m)
    ensures ReadHeader(l, many, done) == ReadHeader(m, many, done)
  {
  }

  lemma NameGot(l: Live, many: bool, k: string, c: char, text: string)
    requires AtName(l, many) && PhaseOf(l) == TableName(many)
    requires Readable(k) && text == MaybeQuoted(k) && A.Reads(l, text + [c]) && (c == '.' || c == ']')
    ensures Gets(Fetch(l), KeyItem(k), Past(l, |text|, TableNameEnd)) == true
  {
    if BareText(k) {
      var i := NameRead(l, k, c);
      A.FetchedBy(l, i, Past(l, |k|, TableNameEnd), Item(ItemText, k));
    } else {
      A.ReadsSplit(l, text, [c]);
      var i := QuotedNameRead(l, k, EndState(many), text);
      A.FetchedBy(l, i, Past(l, |text|, TableNameEnd), Item(ItemString, EscapeQuotes(k)));
    }
  }

  lemma DotRound(l: Lex, many: bool)
    requires BehindName(l, many) && A.Reads(l, ".")
    ensures A.Round(l) == Past(l, 1, TableNameStart)
  {
    A.ReadsChar(l, ".", 0);
  }

  /** The dot between two names. */
  lemma DotRead(l: Live, many: bool, done: T.Key) returns (m: Live)
    requires BehindName(l, many) && InHeader(l, many, done) && A.Reads(l, ".") && PhaseOf(l) == TableRest(many)
    ensures m == Past(l, 1, TableNameStart) && AtName(m, many) && PhaseOf(m) == TableName(many)
    ensures ReadHeader(l, many, done) == ReadHeader(m, many, done)
  {
    DotRound(l, many);
    RoundFetched(l, Past(l, 1, TableNameStart));
    m := Past(l, 1, TableNameStart);
    SameHeader(l, m, many, done);
  }

  /** A name and the character behind it. */
  lemma NameStep(l: Live, many: bool, done: T.Key, k: string, c: char, text: string) returns (m: Live)
    requires AtName(l, many) && InHeader(l, many, done) && PhaseOf(l) == TableName(many)
    requires Readable(k) && text == MaybeQuoted(k) && A.Reads(l, text + [c]) && (c == '.' || c == ']')
    ensures m == Past(l, |text|, TableNameEnd) && BehindName(m, many) && PhaseOf(m) == TableRest(many)
    ensures InHeader(m, many, done + [k]) && ReadHeader(l, many, done) == ReadHeader(m, many, done + [k])
  {
    A.ReadsSplit(l, text, [c]);
    NameGot(l, many, k, c, text);
    NameTaken(l, many, done, k, Past(l, |text|, TableNameEnd));
    m := Past(l, |text|, TableNameEnd);
  }

  lemma FirstOf(l: Lex, k: string, rest: string, c: char)
    requires Bounds(l) && rest != "" && rest[0] == c && A.Reads(l, k + rest)
    ensures A.Reads(l, k + [c]) && A.Reads(A.Further(l, |k|), rest)
  {
    A.ReadsSplit(l, k, rest);
    assert k + rest == k + [c] + rest[1..];
    A.ReadsSplit(l, k + [c], rest[1..]);
  }

  lemma KeyNext(done: T.Key, key: T.Key)
    requires key != []
    ensures |key| == 1 ==> done + [key[0]] == done + key
    ensures done + [key[0]] + key[1..] == done + key
  {
  }

  /** The names of a header are read as its key. */
  lemma {:induction false} NamesRead(l: Live, many: bool, done: T.Key, key: T.Key, text: string) returns (n: Live)
    requires AtName(l, many) && InHeader(l, many, done) && PhaseOf(l) == TableName(many)
    requires key != [] && ReadableKeys(key) && text == NamesText(key, Closing(many)) && A.Reads(l, text)
    ensures n == Past(l, |text|, TopEnd).(stack := [])
    ensures ReadHeader(l, many, done) == Ok(done + key, n)
    decreases |key|
  {
    KeyNext(done, key);
    if |key| == 1 {
      n := LastName(l, many, done, key[0], MaybeQuoted(key[0]));
    } else {
      var rest := NamesText(key[1..], Closing(many));
      var m := MoreNames(l, many, done, key[0], MaybeQuoted(key[0]), rest);
      n := NamesRead(m, many, done + [key[0]], key[1..], rest);
    }
  }

  lemma LastName(l: Live, many: bool, done: T.Key, k: string, text: string) returns (n: Live)
    requires AtName(l, many) && InHeader(l, many, done) && PhaseOf(l) == TableName(many)
    requires Readable(k) && text == MaybeQuoted(k) && A.Reads(l, text + Closing(many))
    ensures n == Past(l, |text + Closing(many)|, TopEnd).(stack := [])
    ensures ReadHeader(l, many, done) == Ok(done + [k], n)
  {
    CloseAhead(l, text, many);
    var m := NameStep(l, many, done, k, ']', text);
    n := HeaderEnds(m, many, done + [k]);
  }

  lemma CloseAhead(l: Lex, k: string, many: bool)
    requires Bounds(l) && A.Reads(l, k + Closing(many))
    ensures A.Reads(l, k + [']']) && A.Reads(Past(l, |k|, TableNameEnd), Closing(many))
  {
    FirstOf(l, k, Closing(many), ']');
  }

  lemma HeaderEnds(m: Live, many: bool, done: T.Key) returns (n: Live)
    requires BehindName(m, many) && InHeader(m, many, done) && A.Reads(m, Closing(many))
    ensures n == Past(m, |Closing(many)|, TopEnd).(stack := [])
    ensures ReadHeader(m, many, done) == Ok(done, n)
  {
    HeaderCloses(m, many);
    n := Past(m, |Closing(many)|, TopEnd).(stack := []);
    HeaderTaken(m, many, done, n);
  }

  lemma MoreNames(l: Live, many: bool, done: T.Key, k: string, text: string, rest: string) returns (m: Live)
    requires AtName(l, many) && InHeader(l, many, done) && PhaseOf(l) == TableName(many)
    requires Readable(k) && text == MaybeQuoted(k) && A.Reads(l, text + ("." + rest))
    ensures m == Past(l, |text| + 1, TableNameStart) && AtName(m, many) && PhaseOf(m) == TableName(many)
    ensures A.Reads(m, rest)
    ensures ReadHeader(l, many, done) == ReadHeader(m, many, done + [k])
  {
    DotAhead(l, text, rest);
    var n := NameStep(l, many, done, k, '.', text);
    m := DotRead(n, many, done + [k]);
  }

  lemma DotAhead(l: Lex, k: string, rest: string)
    requires Bounds(l) && A.Reads(l, k + ("." + rest))
    ensures A.Reads(l, k + ['.']) && A.Reads(Past(l, |k|, TableNameEnd), ".")
    ensures A.Reads(Past(l, |k| + 1, TableNameStart), rest)
  {
    FirstOf(l, k, "." + rest, '.');
    A.ReadsSplit(A.Further(l, |k|), ".", rest);
  }

  // ----- headers -----

  lemma HeaderFetched(l: Live, many: bool, c: char) returns (m: Live)
    requires AtItem(l) && A.Reads(l, Opening(many) + [c]) && StartsKey(c)
    ensures m == Past(l, |Opening(many)|, TableNameStart).(stack := [EndState(many)])
    ensures PhaseOf(m) == TableName(many) && ReadTopLevel(l) == ReadTable(m, many)
  {
    HeaderBegins(l, many, c);
    var n := Past(l, |Opening(many)|, TableNameStart).(stack := [EndState(many)]);
    A.FetchedBy(l, 2, n, Item(StartType(many), Opening(many)));
    FetchDelivers(l);
    m := n;
  }

  lemma NamesBegin(key: T.Key, close: string)
    requires key != [] && ReadableKeys(key)
    ensures NamesText(key, close) != "" && StartsKey(NamesText(key, close)[0])
  {
    assert Readable(key[0]);
    KeyTextStarts(key[0]);
  }

  /** A header is read as the statement it was made from, up to the end of the line. */
  lemma HeaderRead(l: Live, key: T.Key, many: bool, text: string) returns (n: Live)
    requires AtItem(l) && key != [] && ReadableKeys(key) == true && text == HeaderText(key, many) && A.Reads(l, text)
    ensures ReadTopLevel(l) == Statement(T.Header(key, many), n)
    ensures n == Past(l, |text|, TopEnd)
  {
    var names := NamesText(key, Closing(many));
    NamesBegin(key, Closing(many));
    var m := HeaderOpens(l, many, names);
    n := KeyOfHeader(m, key, many, names);
    BehindHeader(l, m, many, names);
  }

  lemma HeaderOpens(l: Live, many: bool, names: string) returns (m: Live)
    requires AtItem(l) && names != "" && StartsKey(names[0]) && A.Reads(l, Opening(many) + names)
    ensures m == Past(l, |Opening(many)|, TableNameStart).(stack := [EndState(many)])
    ensures PhaseOf(m) == TableName(many) && ReadTopLevel(l) == ReadTable(m, many)
    ensures AtName(m, many) == true && A.Reads(m, names) == true
  {
    FirstOf(l, Opening(many), names, names[0]);
    m := HeaderFetched(l, many, names[0]);
  }

  lemma BehindHeader(l: Lex, m: Lex, many: bool, names: string)
    requires AtItem(l) && m == Past(l, |Opening(many)|, TableNameStart).(stack := [EndState(many)])
    ensures Past(m, |names|, TopEnd).(stack := []) == Past(l, |Opening(many) + names|, TopEnd)
  {
  }

  lemma KeyOfHeader(m: Live, key: T.Key, many: bool, names: string) returns (n: Live)
    requires AtName(m, many) && PhaseOf(m) == TableName(many) && key != [] && ReadableKeys(key)
    requires names == NamesText(key, Closing(many)) && A.Reads(m, names)
    ensures ReadTable(m, many) == Statement(T.Header(key, many), n)
    ensures n == Past(m, |names|, TopEnd).(stack := [])
  {
    n := NamesRead(m, many, [], key, names);
    NothingBefore(key);
  }

  lemma NothingBefore(key: T.Key)
    ensures [] + key == key
  {
  }
}
