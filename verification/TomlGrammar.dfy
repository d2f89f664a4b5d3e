/** The language of lexer and parser: a document is read to its end exactly when it is written in one of the
    layouts and no array in it mixes types. */
module TomlGrammar {
  import opened Sequences
  import opened TomlData
  import opened TomlLexer
  import opened TomlLexerProofs
  import opened TomlLoops
  import opened TomlValues
  import opened TomlDocument
  import opened TomlLayout
  import opened TomlKeyText
  import opened TomlText
  import opened TomlDocumentText
  import opened TomlKeyLines
  import opened TomlStrings
  import opened TomlLayouts
  import opened TomlLines
  import opened TomlShapes
  import opened TomlValueShapes
  import A = TomlArrayText
  import H = TomlHeaderText
  import T = TomlTables

  /** `n` is `|text|` characters behind `l`, and `text` stands between. */
  predicate Between(l: Lex, text: string, n: Lex) {
    A.Reads(l, text) && n.input == l.input && n.pos == l.pos + |text| && n.pos <= |n.input|
  }

  lemma BetweenJoin(l: Lex, a: string, m: Lex, b: string, n: Lex)
    requires Between(l, a, m) && Between(m, b, n)
    ensures Between(l, a + b, n)
  {
    ReadsJoin(l, a, b);
  }

  lemma LeftJoin(l: Lex, a: string, m: Lex, rest: string)
    requires Between(l, a, m) && Left(m, rest)
    ensures Left(l, a + rest)
  {
    assert l.input[l.pos..] == l.input[l.pos..m.pos] + l.input[m.pos..];
  }

  lemma OneBetween(l: Lex, c: char, n: Lex)
    requires Bounds(l) && Ahead(l, 0) == c && l.pos < |l.input| && n.input == l.input && n.pos == l.pos + 1
    ensures Between(l, [c], n) && Left(l, [c] + l.input[l.pos + 1..]) && Left(n, l.input[l.pos + 1..])
  {
  }

  // ----- gaps between statements -----

  /** Reading on from `l` is reading on from `n`. */
  predicate Same(l: Live, n: Live) { PhaseOf(l) == AtTop && PhaseOf(n) == AtTop && ReadAll(l) == ReadAll(n) }

  predicate Ends(l: Live) { PhaseOf(l) == AtTop && ReadAll(l).ending == AtEnd }

  lemma FailsTop(l: Live)
    requires PhaseOf(l) == AtTop && !Fetch(l).Got?
    ensures !Ends(l) && ReadTopLevel(l).Stopped? && ReadTopLevel(l).how != AtEnd
  {
    FetchDelivers(l);
  }

  /** The character zero is no statement. */
  lemma ZeroAtTop(l: Live)
    requires AtItem(l) && Ahead(l, 0) == EOF && l.pos < |l.input|
    ensures PhaseOf(l) == AtTop && !Ends(l)
  {
    assert Step(l) == StepTop(l);
    Rejects(l);
    FailsTop(l);
  }

  lemma CommentOpened(l: Live) returns (c: Live)
    requires PhaseOf(l) == AtTop && OutOfValues(l) && Ahead(l, 0) == '#'
    ensures c == Commenting(l) && PhaseOf(c) == InComment(AtTop) && A.Reads(l, "#") && l.pos < |l.input|
    ensures Gets(Fetch(l), Item(ItemCommentStart, ""), c) == true
  {
    SpaceAhead(l);
    CommentFetched(l);
    FetchDelivers(l);
    c := Commenting(l);
  }

  lemma CommentGot(l: Live, c: Live, t: string) returns (n: Live)
    requires PhaseOf(l) == AtTop && c == Commenting(l) && PhaseOf(c) == InComment(AtTop) && Bounds(l)
    requires Gets(Fetch(l), Item(ItemCommentStart, ""), c) == true && RemarkIs(c, t) == true
    ensures n == Past(l, |t| + 1, Top).(stack := []) && AtItem(n) && Same(l, n)
  {
    CommentItem(c, t);
    CommentSkipped(l, c, t, A.Done(c, |t|));
    CommentPlace(l, c, t);
    n := A.Done(c, |t|);
  }

  lemma CommentPlace(l: Lex, c: Lex, t: string)
    requires c == Commenting(l)
    ensures A.Done(c, |t|) == Past(l, |t| + 1, Top).(stack := [])
  {
    assert [Top][..0] == [];
  }

  lemma CommentItem(c: Live, t: string)
    requires PhaseOf(c) != Done && c.stack != [] && c.start == c.pos && RemarkIs(c, t)
    ensures Gets(Fetch(c), Item(ItemText, t), A.Done(c, |t|)) == true
  {
    assert Current(c) == "" && "" + t == t;
  }

  lemma CommentBetween(l: Lex, t: string, n: Lex)
    requires OutOfValues(l) && A.Reads(l, "#") && A.Reads(Commenting(l), t) && Commenting(l).pos + |t| <= |l.input|
    requires n == Past(l, |t| + 1, Top).(stack := [])
    ensures Between(l, "#" + t, n) && Ahead(n, 0) == Ahead(Commenting(l), |t|)
  {
    ReadsJoin(l, "#", t);
  }

  /** Text that does not end in a newline does not end the input. */
  lemma NotLast(l: Lex, text: string, n: Lex)
    requires EndsInNewline(l.input) && text != "" && text[|text| - 1] != '\n' && Between(l, text, n)
    ensures n.pos < |n.input|
  {
    assert text[|text| - 1] == l.input[l.pos..n.pos][|text| - 1] == l.input[n.pos - 1];
  }

  lemma CommentStops(l: Lex, t: string, n: Lex)
    requires EndsInNewline(l.input) && IsRemark(t) && Between(l, "#" + t, n)
    ensures n.pos < |n.input|
  {
    assert ("#" + t)[|t|] == if t == "" then '#' else t[|t| - 1];
    NotLast(l, "#" + t, n);
  }

  /** The text of a comment, and the character that ends it. */
  lemma FindComment(l: Live) returns (t: string, n: Live)
    requires PhaseOf(l) == AtTop && OutOfValues(l) && Ahead(l, 0) == '#'
    ensures IsRemark(t) && Between(l, "#" + t, n) && AtItem(n) && Same(l, n) && n.pos < |n.input|
    ensures Ends(l) ==> IsNL(Ahead(n, 0))
  {
    var c := CommentOpened(l);
    t := RemarkFound(c);
    n := CommentGot(l, c, t);
    CommentBetween(l, t, n);
    CommentStops(l, t, n);
    if Ahead(n, 0) == EOF {
      ZeroAtTop(n);
    }
  }

  lemma SpaceTop(l: Live, c: char) returns (n: Live)
    requires AtItem(l) && Ahead(l, 0) == c && (IsWhitespace(c) || IsNL(c))
    ensures AtItem(n) && Between(l, [c], n) && Same(l, n)
  {
    SpaceAhead(l);
    OneBetween(l, c, Past(l, 1, Top));
    n := BlankRead(l, c, l.input[l.pos + 1..]);
  }

  lemma CommentWhole(l: Live) returns (b: Bit, n: Live)
    requires PhaseOf(l) == AtTop && OutOfValues(l) && Ahead(l, 0) == '#' && Ends(l)
    ensures b.Remark? && IsBit(b) && AtItem(n) && Between(l, BitText(b), n) && Same(l, n)
  {
    var t, m := FindComment(l);
    b := Remark(t, Ahead(m, 0));
    n := SpaceTop(m, Ahead(m, 0));
    BetweenJoin(l, "#" + t, m, [Ahead(m, 0)], n);
  }

  lemma BitTop(l: Live) returns (b: Bit, n: Live)
    requires AtItem(l) && !EndsGap(l) && Ends(l)
    ensures IsBit(b) && AtItem(n) && Between(l, BitText(b), n) && Same(l, n)
  {
    if Ahead(l, 0) == '#' {
      b, n := CommentWhole(l);
    } else {
      b := Space(Ahead(l, 0));
      n := SpaceTop(l, Ahead(l, 0));
    }
  }

  lemma BitLonger(b: Bit)
    ensures BitText(b) != ""
  {
  }

  /** All of a gap. */
  lemma {:induction false} GapTop(l: Live) returns (g: Gap, n: Live)
    requires AtItem(l) && Ends(l)
    ensures AtItem(n) && IsGap(g) && Between(l, GapText(g), n) && Same(l, n) && EndsGap(n)
    decreases Size(l)
  {
    g, n := [], l;
    if !EndsGap(l) {
      var b, m := BitTop(l);
      BitLonger(b);
      g, n := GapTop(m);
      BetweenJoin(l, BitText(b), m, GapText(g), n);
      GapText1(b, g);
      BitFirst(b, g);
      g := [b] + g;
    }
  }

  // ----- the rest of a line -----

  lemma WhiteBehind(l: Live, c: char) returns (n: Live)
    requires PhaseOf(l) == AtTop && BehindLine(l) && Ahead(l, 0) == c && IsWhitespace(c)
    ensures PhaseOf(n) == AtTop && BehindLine(n) && Between(l, [c], n) && Same(l, n) && n.pos < |n.input|
  {
    SpaceAhead(l);
    OneBetween(l, c, A.Further(l, 1));
    WhiteRound(l, c, l.input[l.pos + 1..]);
    Silent(l, A.Further(l, 1));
    n := A.Further(l, 1);
  }

  lemma EndBehind(l: Live, c: char) returns (n: Live)
    requires PhaseOf(l) == AtTop && BehindLine(l) && Ahead(l, 0) == c && (IsNL(c) || c == EOF) && l.pos < |l.input|
    ensures AtItem(n) && Between(l, [c], n) && Same(l, n)
  {
    OneBetween(l, c, Past(l, 1, Top));
    LineCloseRound(l, c, l.input[l.pos + 1..]);
    Silent(l, Past(l, 1, Top));
    n := Past(l, 1, Top);
  }

  lemma OtherBehind(l: Live)
    requires PhaseOf(l) == AtTop && BehindLine(l) && EndsGap(l) && Ahead(l, 0) != EOF
    ensures !Ends(l)
  {
    assert Step(l) == StepTopEnd(l);
    Rejects(l);
    FailsTop(l);
  }

  /** Blanks, and then the end of the line or a comment. */
  lemma {:induction false} CloseTop(l: Live) returns (w: string, b: Bit, n: Live)
    requires PhaseOf(l) == AtTop && BehindLine(l) && l.pos < |l.input| && Ends(l)
    ensures AllWhite(w) && IsClose(b) && AtItem(n) && Between(l, w + BitText(b), n) && Same(l, n)
    decreases Size(l)
  {
    if IsWhitespace(Ahead(l, 0)) {
      var m := WhiteBehind(l, Ahead(l, 0));
      w, b, n := CloseTop(m);
      BetweenJoin(l, [Ahead(l, 0)], m, w + BitText(b), n);
      Assoc([Ahead(l, 0)], w, BitText(b));
      WhiteLonger(Ahead(l, 0), w);
      w := [Ahead(l, 0)] + w;
    } else {
      w := "";
      b, n := CloseNow(l);
      NothingBefore(BitText(b));
    }
  }

  lemma NothingBefore(t: string)
    ensures "" + t == t
  {
  }

  lemma CloseNow(l: Live) returns (b: Bit, n: Live)
    requires PhaseOf(l) == AtTop && BehindLine(l) && l.pos < |l.input| && Ends(l) && !IsWhitespace(Ahead(l, 0))
    ensures IsClose(b) && AtItem(n) && Between(l, BitText(b), n) && Same(l, n)
  {
    var c := Ahead(l, 0);
    b, n := Space('\n'), l;
    if c == '#' {
      b, n := CommentWhole(l);
    } else if IsNL(c) || c == EOF {
      b := Space(c);
      n := EndBehind(l, c);
    } else {
      OtherBehind(l);
    }
  }

  // ----- names -----

  /** A bare name, read in a key line or in a header. */
  predicate InBare(l: Lex) { Bounds(l) && l.items == [] && (l.state == BareKey || l.state == BareTableName) }

  /** What ends a name: in a key line a blank, which is read with it, or the separator; in a header the dot or
      the bracket. */
  predicate EndsBare(s: StateFn, w: string, c: char) {
    if s == BareKey then if w == "" then c == '=' else w == [c] && IsWhitespace(c)
    else w == "" && (c == '.' || c == ']')
  }

  function BareNext(s: StateFn): StateFn { if s == BareKey then KeyEnd else TableNameEnd }

  predicate BareRead(l: Live, k: string, w: string)
    requires PhaseOf(l) != Done
  {
    && BareText(k) && A.Reads(l, k + w) && l.pos + |k| + |w| <= |l.input| && EndsBare(l.state, w, Ahead(l, |k|))
    && Fetch(l).Got? && Fetch(l).item.typ == ItemText
    && Fetch(l).lex == Past(l, |k| + |w|, BareNext(l.state))
  }

  lemma BareEnd(l: Live, w: string)
    requires PhaseOf(l) != Done && InBare(l) && EndsBare(l.state, w, Ahead(l, 0)) && Ahead(l, 0) != EOF
    ensures BareRead(l, "", w) == true
  {
    SpaceAhead(l);
    var n := Step(l);
    assert n == if l.state == BareKey then StepBareKey(l) else StepBareTableName(l);
    assert n.items[0].typ == ItemText && n.items[1..] == [];
    FetchRound(l);
    assert "" + w == w;
  }

  lemma BareGoesOn(l: Live) returns (m: Live)
    requires PhaseOf(l) != Done && InBare(l) && IsBareKeyChar(Ahead(l, 0))
    ensures m == A.Further(l, 1) && GoesOn(l, m) && l.pos < |l.input|
  {
    BareRound(l);
    RoundFetched(l, A.Further(l, 1));
    m := A.Further(l, 1);
  }

  lemma BareTextOn(l: Lex, c: char, k: string, w: string)
    requires A.Reads(l, [c]) && A.Reads(A.Further(l, 1), k + w)
    ensures A.Reads(l, [c] + k + w)
  {
    ReadsJoin(l, [c], k + w);
    assert [c] + k + w == [c] + (k + w);
  }

  lemma BarePlace(l: Lex, m: Lex, k: string, w: string, all: string)
    requires l.pos < |l.input| && m == A.Further(l, 1) && all == [Ahead(l, 0)] + k && InBare(l)
    requires A.Reads(m, k + w) && m.pos + |k| + |w| <= |m.input|
    ensures A.Reads(l, all + w) && l.pos + |all| + |w| <= |l.input| && Ahead(l, |all|) == Ahead(m, |k|)
    ensures Past(m, |k| + |w|, BareNext(m.state)) == Past(l, |all| + |w|, BareNext(l.state))
  {
    BareTextOn(l, Ahead(l, 0), k, w);
  }

  lemma BareOn(l: Live, m: Live, k: string, w: string, all: string)
    requires PhaseOf(l) != Done && InBare(l) && IsBareKeyChar(Ahead(l, 0)) && m == A.Further(l, 1) && GoesOn(l, m)
    requires BareRead(m, k, w) && l.pos < |l.input| && all == [Ahead(l, 0)] + k
    ensures BareRead(l, all, w) == true
  {
    BarePlace(l, m, k, w, all);
    BareLonger(Ahead(l, 0), k, all);
  }

  lemma BareLonger(c: char, k: string, all: string)
    requires IsBareKeyChar(c) && BareText(k) && all == [c] + k
    ensures BareText(all)
  {
  }

  /** The end of a bare name, if it may end here. */
  lemma BareStops(l: Live) returns (w: string)
    requires PhaseOf(l) != Done && InBare(l) && !IsBareKeyChar(Ahead(l, 0))
    ensures Fetch(l).Got? ==> BareRead(l, "", w) == true
  {
    var c := Ahead(l, 0);
    w := if l.state == BareKey && IsWhitespace(c) then [c] else "";
    if EndsBare(l.state, w, c) {
      BareEnd(l, w);
    } else {
      assert Step(l) == if l.state == BareKey then StepBareKey(l) else StepBareTableName(l);
      Rejects(l);
    }
  }

  lemma {:induction false} FindBare(l: Live) returns (k: string, w: string)
    requires PhaseOf(l) != Done && InBare(l)
    ensures Fetch(l).Got? ==> BareRead(l, k, w) == true
    ensures Fetch(l).Got? && IsBareKeyChar(Ahead(l, 0)) ==> k != ""
    decreases Size(l)
  {
    if IsBareKeyChar(Ahead(l, 0)) {
      var m := BareGoesOn(l);
      k, w := FindBare(m);
      if Fetch(l).Got? {
        BareOn(l, m, k, w, [Ahead(l, 0)] + k);
      }
      k := [Ahead(l, 0)] + k;
    } else {
      k := "";
      w := BareStops(l);
    }
  }

  // ----- a key line -----

  lemma KeyOpened(l: Live) returns (m: Live)
    requires AtItem(l) && EndsGap(l) && Ahead(l, 0) != '[' && Ahead(l, 0) != EOF
    ensures PhaseOf(l) == AtTop && m == l.(state := KeyStart, stack := [TopEnd]) && GoesOn(l, m) == true
  {
    assert [] + [TopEnd] == [TopEnd];
    assert Step(l) == StepTop(l);
    FetchRound(l);
    m := l.(state := KeyStart, stack := [TopEnd]);
  }

  /** Nothing can be read. */
  predicate Dead(l: Live) {
    && PhaseOf(l) == AtTop && !ReadTopLevel(l).Statement? && !ReadTopLevel(l).NoStatement?
    && ReadTopLevel(l) != Stopped(AtEnd)
  }

  /** A key cannot start with another character. */
  lemma NoKey(l: Live)
    requires AtItem(l) && EndsGap(l) && Ahead(l, 0) != '[' && Ahead(l, 0) != EOF && !StartsKey(Ahead(l, 0))
    ensures Dead(l) == true
  {
    var m := KeyOpened(l);
    if Ahead(l, 0) == '=' {
      assert Step(m) == StepKeyStart(m);
      Rejects(m);
      FailsTop(l);
    } else {
      NoKeyStarts(m, l.(state := BareKey, stack := [TopEnd]));
      NoKeyName(l, l.(state := BareKey, stack := [TopEnd]));
    }
  }

  lemma NoKeyName(l: Live, n: Lex)
    requires PhaseOf(l) == AtTop && Gets(Fetch(l), Item(ItemKeyStart, ""), n) && InBare(n) && n.state == BareKey
    requires EndsGap(n) && !StartsKey(Ahead(n, 0)) && Ahead(n, 0) != '='
    ensures Dead(l) == true
  {
    FetchDelivers(l);
    var o := StartItem(Fetch(l), n);
    NoKeyItem(o);
    NoNameRead(o);
  }

  lemma NoKeyItem(o: Live)
    requires PhaseOf(o) == KeyName && InBare(o) && o.state == BareKey
    requires EndsGap(o) && !StartsKey(Ahead(o, 0)) && Ahead(o, 0) != '='
    ensures !Fetch(o).Got?
  {
    assert Step(o) == StepBareKey(o);
    Rejects(o);
  }

  lemma NoNameRead(o: Live)
    requires PhaseOf(o) == KeyName && !Fetch(o).Got?
    ensures ReadKey(o).Stopped? && ReadKey(o).how != AtEnd
  {
    FetchDelivers(o);
  }

  lemma NoKeyStarts(m: Live, n: Lex)
    requires PhaseOf(m) != Done && Bounds(m) && m.items == [] && m.state == KeyStart && m.start == m.pos
    requires m.stack == [TopEnd] && EndsGap(m) && Ahead(m, 0) != '=' && !IsQuote(Ahead(m, 0))
    requires n == m.(state := BareKey)
    ensures Gets(Fetch(m), Item(ItemKeyStart, ""), n)
  {
    var it := Item(ItemKeyStart, "");
    assert [] + [it] == [it] && [it][1..] == [];
    assert Step(m) == StepKeyStart(m) == A.Queued(n, it);
    FetchRound(m);
  }

  lemma KeyFirst(l: Live) returns (m: Live)
    requires AtItem(l) && StartsKey(Ahead(l, 0))
    ensures PhaseOf(l) == AtTop && PhaseOf(m) == KeyName && ReadTopLevel(l) == ReadKey(m) && m == AtKey(l, Ahead(l, 0))
  {
    SpaceAhead(l);
    m := KeyStartFetched(l, Ahead(l, 0));
  }

  /** A name is found, with the blank that a bare one takes with it; the value of the name `s` is next. */
  predicate NameFound(l: Live, m: Live, x: Name, w: string, n: Live, s: string) {
    && PhaseOf(m) == KeyName && IsName(x) && AllWhite(w) && Between(l, NameText(x) + w, n) && AtBlanks(n, KeyEnd)
    && PhaseOf(n) == ValueNext && ReadKey(m) == ReadValue(n, s)
  }

  /** What a line with a value has read as its name. */
  lemma KeyAccepted(m: Live) returns (n: Live, s: string)
    requires PhaseOf(m) == KeyName && ReadKey(m).Statement?
    ensures Fetch(m).Got? && n == Fetch(m).lex && PhaseOf(n) == ValueNext && ReadKey(m) == ReadValue(n, s)
    ensures IsStringType(Fetch(m).item.typ) ==> ScalarValue(Fetch(m).item) == Good(Text(s))
  {
    FetchDelivers(m);
    var it := Fetch(m).item;
    n := Fetch(m).lex;
    KeyStringSafe(it);
    s := KeyString(it).value.s;
  }

  lemma BareKeyPlace(l: Lex, m: Lex, k: string, w: string, n: Lex)
    requires AtItem(l) && m == l.(state := BareKey, stack := [TopEnd])
    requires A.Reads(m, k + w) && m.pos + |k| + |w| <= |m.input| && n == Past(m, |k| + |w|, KeyEnd)
    ensures Between(l, k + w, n) && AtBlanks(n, KeyEnd)
  {
  }

  lemma FindBareKey(l: Live, m: Live) returns (x: Name, w: string, n: Live, s: string)
    requires AtItem(l) && IsBareKeyChar(Ahead(l, 0)) && PhaseOf(m) == KeyName
    requires m == l.(state := BareKey, stack := [TopEnd]) && ReadKey(m).Statement?
    ensures NameFound(l, m, x, w, n, s) == true
  {
    n, s := KeyAccepted(m);
    var k;
    k, w := FindBare(m);
    x := Bare(k);
    BareKeyPlace(l, m, k, w, n);
  }

  lemma QuotedPlace(l: Lex, m: Live, f: Form, e: string, n: Lex)
    requires AtItem(l) && PhaseOf(m) != Done && m == l.(state := Value, stack := [TopEnd, KeyEnd])
    requires StringFound(m, f) && e == FormText(f) && n == Fetch(m).lex
    ensures Between(l, e + "", n) && AtBlanks(n, KeyEnd)
  {
    assert e + "" == e;
    BehindQuoted(l, m, e);
  }

  lemma FindQuotedKey(l: Live, m: Live) returns (x: Name, w: string, n: Live, s: string)
    requires AtItem(l) && IsQuote(Ahead(l, 0)) && PhaseOf(m) == KeyName
    requires m == l.(state := Value, stack := [TopEnd, KeyEnd]) && ReadKey(m).Statement?
    ensures NameFound(l, m, x, w, n, s) == true
  {
    n, s := KeyAccepted(m);
    var f := FormFound(m);
    ShapedMeans(f, s);
    x, w := Spelled(s, f), "";
    QuotedPlace(l, m, f, FormText(f), n);
  }

  lemma FindName(l: Live, m: Live) returns (x: Name, w: string, n: Live, s: string)
    requires AtItem(l) && StartsKey(Ahead(l, 0)) && PhaseOf(m) == KeyName && m == AtKey(l, Ahead(l, 0))
    requires ReadKey(m).Statement?
    ensures NameFound(l, m, x, w, n, s) == true
  {
    if IsQuote(Ahead(l, 0)) {
      x, w, n, s := FindQuotedKey(l, m);
    } else {
      x, w, n, s := FindBareKey(l, m);
    }
  }

  // ----- the separator -----

  lemma WhiteValue(l: Live, s: StateFn, c: char) returns (n: Live)
    requires (s == KeyEnd || s == Value) && PhaseOf(l) == ValueNext && AtBlanks(l, s)
    requires Ahead(l, 0) == c && IsWhitespace(c)
    ensures PhaseOf(n) == ValueNext && AtBlanks(n, s) && Between(l, [c], n) && Fetch(l) == Fetch(n)
  {
    SpaceAhead(l);
    OneBetween(l, c, Past(l, 1, s));
    WhiteRounds(l, s, c);
    n := A.FetchRounds(l, 2, Past(l, 1, s));
  }

  lemma {:induction false} FindWhite(l: Live, s: StateFn) returns (w: string, n: Live)
    requires (s == KeyEnd || s == Value) && PhaseOf(l) == ValueNext && AtBlanks(l, s)
    ensures AllWhite(w) && PhaseOf(n) == ValueNext && AtBlanks(n, s) && Between(l, w, n) && Fetch(l) == Fetch(n)
    ensures !IsWhitespace(Ahead(n, 0))
    decreases Size(l)
  {
    w, n := "", l;
    if IsWhitespace(Ahead(l, 0)) {
      var m := WhiteValue(l, s, Ahead(l, 0));
      w, n := FindWhite(m, s);
      BetweenJoin(l, [Ahead(l, 0)], m, w, n);
      WhiteLonger(Ahead(l, 0), w);
      w := [Ahead(l, 0)] + w;
    }
  }

  lemma WhiteLonger(c: char, w: string)
    requires IsWhitespace(c) && AllWhite(w)
    ensures AllWhite([c] + w) == true
  {
  }

  lemma NoEquals(l: Live)
    requires PhaseOf(l) == ValueNext && AtBlanks(l, KeyEnd) && !IsWhitespace(Ahead(l, 0)) && Ahead(l, 0) != '='
    ensures !Fetch(l).Got?
  {
    assert Step(l) == StepKeyEnd(l);
    Rejects(l);
  }

  lemma TakeEquals(l: Live) returns (n: Live)
    requires PhaseOf(l) == ValueNext && AtBlanks(l, KeyEnd) && Ahead(l, 0) == '='
    ensures PhaseOf(n) == ValueNext && AtBlanks(n, Value) && Between(l, "=", n) && Fetch(l) == Fetch(n)
  {
    SpaceAhead(l);
    OneBetween(l, '=', Past(l, 1, Value));
    EqualsRounds(l);
    n := A.FetchRounds(l, 2, Past(l, 1, Value));
  }

  lemma FindEquals(l: Live) returns (w: string, v: string, n: Live)
    requires PhaseOf(l) == ValueNext && AtBlanks(l, KeyEnd) && Fetch(l).Got?
    ensures AllWhite(w) && AllWhite(v) && Between(l, w + ("=" + v), n) && PhaseOf(n) == ValueNext && AtBlanks(n, Value)
    ensures Fetch(l) == Fetch(n) && !IsWhitespace(Ahead(n, 0))
  {
    var m;
    w, m := FindWhite(l, KeyEnd);
    if Ahead(m, 0) != '=' {
      NoEquals(m);
    }
    var o := TakeEquals(m);
    v, n := FindWhite(o, Value);
    BetweenJoin(m, "=", o, v, n);
    BetweenJoin(l, w, m, "=" + v, n);
  }

  // ----- key lines -----

  /** The line from `l` on is `x`, and `n` is behind it. */
  predicate LineFound(l: Live, x: Line, n: Lex) { IsLine(x) && Between(l, TextOf(x), n) && BehindLine(n) }

  lemma ValueTaken(l: Live, o: Live, s: string) returns (n: Live)
    requires PhaseOf(l) == ValueNext && PhaseOf(o) == ValueNext && Fetch(l) == Fetch(o) && ReadValue(l, s).Statement?
    ensures A.ParseElement(o, 0).Ok? && n == A.ParseElement(o, 0).lex == ReadValue(l, s).lex
  {
    FetchDelivers(o);
    n := ReadValue(l, s).lex;
  }

  lemma ValuePlaced(o: Lex, x: Laid, n: Lex)
    requires AtBlanks(o, Value) && Found(o, x, n) && Bounds(n)
    ensures Between(o, LaidText(x), n) && BehindLine(n)
  {
    assert [TopEnd][..0] == [];
  }

  lemma KeyLineText(x: Name, w: string, v: string, u: string, y: Laid)
    requires IsName(x) && AllWhite(w) && AllWhite(v) && AllWhite(u) && IsLaid(y)
    ensures IsLine(KeyLine(x, w + v, u, y)) == true
    ensures TextOf(KeyLine(x, w + v, u, y)) == (NameText(x) + w) + ((v + ("=" + u)) + LaidText(y))
  {
    var a, e := NameText(x), LaidText(y);
    assert a + ((w + v) + ("=" + (u + e))) == (a + w) + ((v + ("=" + u)) + e);
  }

  lemma FindKeyLine(l: Live) returns (x: Line, n: Live)
    requires AtItem(l) && StartsKey(Ahead(l, 0)) && PhaseOf(l) == AtTop && ReadTopLevel(l).Statement?
    ensures LineFound(l, x, n) == true && n == ReadTopLevel(l).lex
  {
    var m := KeyFirst(l);
    var name, w, o, s := FindName(l, m);
    FetchDelivers(o);
    var v, u, q := FindEquals(o);
    n := ValueTaken(o, q, s);
    var y := FindValue(q, 0);
    ValuePlaced(q, y, n);
    KeyLineText(name, w, v, u, y);
    BetweenJoin(o, v + ("=" + u), q, LaidText(y), n);
    BetweenJoin(l, NameText(name) + w, o, (v + ("=" + u)) + LaidText(y), n);
    x := KeyLine(name, w + v, u, y);
  }

  // ----- headers -----

  lemma TableOpened(l: Live) returns (m: Live)
    requires AtItem(l) && Ahead(l, 0) == '['
    ensures PhaseOf(l) == AtTop && m == l.(pos := l.pos + 1, state := TableStart) && GoesOn(l, m) == true
    ensures Between(l, "[", m) && Current(m) == "["
  {
    SpaceAhead(l);
    OneBetween(l, '[', A.Further(l, 1));
    BracketRound(l);
    RoundFetched(l, l.(pos := l.pos + 1, state := TableStart));
    m := l.(pos := l.pos + 1, state := TableStart);
  }

  lemma OneTable(m: Lex)
    requires Bounds(m) && m.items == [] && m.state == TableStart && m.stack == []
    requires Current(m) == "[" && Ahead(m, 0) != '['
    ensures A.Round(m) == A.Queued(Past(m, 0, TableNameStart).(stack := [TableEnd]), Item(ItemTableStart, "["))
  {
    assert [] + [Item(ItemTableStart, "[")] == [Item(ItemTableStart, "[")] && [] + [TableEnd] == [TableEnd];
  }

  lemma HeadOpened(l: Live, m: Live) returns (many: bool, n: Live)
    requires PhaseOf(l) == AtTop && PhaseOf(m) == AtTop && m.state == TableStart && m.stack == [] && Current(m) == "["
    requires Fetch(l) == Fetch(m) && Bounds(m) && m.items == []
    ensures many <==> Ahead(m, 0) == '['
    ensures n == Past(m, if many then 1 else 0, TableNameStart).(stack := [EndState(many)])
    ensures n.pos <= |n.input| && (many ==> A.Reads(m, "["))
    ensures Gets(Fetch(l), Item(StartType(many), Opening(many)), n) == true
  {
    many := Ahead(m, 0) == '[';
    var it := Item(StartType(many), Opening(many));
    if many {
      SpaceAhead(m);
      ArrayTableRound(m);
    } else {
      OneTable(m);
    }
    RoundFetched(m, A.Round(m));
    assert [it][1..] == [];
    FetchDelivers(m);
    n := Past(m, if many then 1 else 0, TableNameStart).(stack := [EndState(many)]);
  }

  lemma HeadTaken(l: Live, many: bool, n: Live)
    requires PhaseOf(l) == AtTop && Gets(Fetch(l), Item(StartType(many), Opening(many)), n) && n.state == TableNameStart
    requires n.stack == [EndState(many)]
    ensures PhaseOf(n) == TableName(many) && ReadTopLevel(l) == ReadTable(n, many)
  {
    FetchDelivers(l);
  }

  lemma FindHead(l: Live) returns (many: bool, n: Live)
    requires AtItem(l) && Ahead(l, 0) == '['
    ensures PhaseOf(l) == AtTop && Between(l, Opening(many), n) && H.AtName(n, many) && PhaseOf(n) == TableName(many)
    ensures ReadTopLevel(l) == ReadTable(n, many)
  {
    var m := TableOpened(l);
    many, n := HeadOpened(l, m);
    HeadTaken(l, many, n);
    if many {
      BetweenJoin(l, "[", m, "[", n);
    }
  }

  predicate HeaderOk(l: Live, many: bool, done: T.Key)
    requires InHeader(l, many, done)
  { ReadHeader(l, many, done).Ok? }

  lemma NoHeader(l: Live, many: bool, done: T.Key)
    requires InHeader(l, many, done) && !Fetch(l).Got?
    ensures !HeaderOk(l, many, done)
  {
    HeaderFetch(l, many, done);
  }

  /** No name starts with one of these; before a blank the lexer never gets on. */
  lemma NoName(l: Live, many: bool, done: T.Key)
    requires H.AtName(l, many) && InHeader(l, many, done)
    requires Ahead(l, 0) == ']' || Ahead(l, 0) == '.' || Ahead(l, 0) == EOF || IsWhitespace(Ahead(l, 0))
    ensures !HeaderOk(l, many, done)
  {
    if !IsWhitespace(Ahead(l, 0)) {
      assert Step(l) == StepTableNameStart(l);
      Rejects(l);
    }
    NoHeader(l, many, done);
  }

  lemma ItemAccepted(f: Fetched, many: bool, done: T.Key) returns (n: Live, s: string)
    requires FitsHeader(f, many, done) && HeaderItem(f, many, done).Ok? && f.Got? && IsNameType(f.item.typ)
    ensures n == f.lex && InHeader(n, many, done + [s])
    ensures HeaderItem(f, many, done) == ReadHeader(n, many, done + [s])
    ensures IsStringType(f.item.typ) ==> ScalarValue(f.item) == Good(Text(s))
  {
    KeyStringSafe(f.item);
    n := f.lex;
    s := KeyString(f.item).value.s;
  }

  /** What the parser makes of a name in a header. */
  lemma PartAccepted(l: Live, many: bool, done: T.Key) returns (n: Live, s: string)
    requires H.AtName(l, many) && InHeader(l, many, done) && PhaseOf(l) == TableName(many) && HeaderOk(l, many, done)
    ensures Fetch(l).Got? && n == Fetch(l).lex && InHeader(n, many, done + [s])
    ensures ReadHeader(l, many, done) == ReadHeader(n, many, done + [s])
    ensures IsStringType(Fetch(l).item.typ) ==> ScalarValue(Fetch(l).item) == Good(Text(s))
  {
    if !Fetch(l).Got? {
      NoHeader(l, many, done);
    }
    FetchDelivers(l);
    HeaderFetch(l, many, done);
    assert ReadHeader(l, many, done) == HeaderItem(Fetch(l), many, done);
    n, s := ItemAccepted(Fetch(l), many, done);
  }

  predicate PartFound(l: Lex, many: bool, x: Name, n: Lex) {
    IsName(x) && Between(l, NameText(x), n) && BehindPart(n, many) && (x.Bare? ==> !IsWhitespace(Ahead(n, 0)))
  }

  lemma BarePartStarts(l: Live, many: bool) returns (m: Live)
    requires H.AtName(l, many) && PhaseOf(l) == TableName(many)
    requires Ahead(l, 0) != ']' && Ahead(l, 0) != '.' && Ahead(l, 0) != EOF && !IsWhitespace(Ahead(l, 0))
    requires !IsQuote(Ahead(l, 0))
    ensures PhaseOf(m) != Done && m == l.(state := BareTableName) && GoesOn(l, m) == true
  {
    assert Step(l) == StepTableNameStart(l);
    FetchRound(l);
    m := l.(state := BareTableName);
  }

  predicate AtNameEnd(l: Lex, k: nat) { Ahead(l, k) == '.' || Ahead(l, k) == ']' }

  lemma BarePartPlace(l: Lex, many: bool, k: string, n: Lex)
    requires H.AtName(l, many) && A.Reads(l, k) && l.pos + |k| <= |l.input| && k != "" && BareText(k)
    requires n == Past(l, |k|, TableNameEnd) && AtNameEnd(l, |k|)
    ensures PartFound(l, many, Bare(k), n) == true
  {
  }

  lemma BareInHeader(m: Live, k: string, w: string)
    requires PhaseOf(m) != Done && m.state == BareTableName && BareRead(m, k, w)
    ensures w == "" && BareText(k) && A.Reads(m, k + w) && m.pos + |k| + |w| <= |m.input| && AtNameEnd(m, |k|)
    ensures Fetch(m).Got? && Fetch(m).lex == Past(m, |k| + |w|, TableNameEnd)
  {
  }

  lemma BareInPlace(l: Lex, m: Lex, k: string, w: string)
    requires m == l.(state := BareTableName) && w == "" && A.Reads(m, k + w) && AtNameEnd(m, |k|) && !AtNameEnd(l, 0)
    ensures k != "" && A.Reads(l, k) && AtNameEnd(l, |k|)
    ensures Past(m, |k| + |w|, TableNameEnd) == Past(l, |k|, TableNameEnd)
  {
    assert k + w == k;
  }

  lemma FindBarePart(l: Live, many: bool, m: Live, n: Lex) returns (x: Name)
    requires H.AtName(l, many) && m == l.(state := BareTableName) && PhaseOf(m) != Done
    requires Fetch(m).Got? && n == Fetch(m).lex && !AtNameEnd(l, 0)
    ensures PartFound(l, many, x, n) == true
  {
    var k, w := FindBare(m);
    BareInHeader(m, k, w);
    BareInPlace(l, m, k, w);
    x := Bare(k);
    BarePartPlace(l, many, k, n);
  }

  lemma QuotedPartStarts(l: Live, many: bool) returns (m: Live)
    requires H.AtName(l, many) && PhaseOf(l) == TableName(many) && IsQuote(Ahead(l, 0))
    ensures PhaseOf(m) != Done && m == l.(state := Value, stack := [EndState(many), TableNameEnd])
    ensures GoesOn(l, m) == true
  {
    SpaceAhead(l);
    var n := l.(state := Value, stack := [EndState(many), TableNameEnd]);
    QuoteRound(l, EndState(many));
    RoundFetched(l, n);
    m := n;
  }

  lemma QuotedPartPlace(l: Lex, many: bool, m: Live, f: Form, e: string, n: Lex)
    requires H.AtName(l, many) && PhaseOf(m) != Done && m == l.(state := Value, stack := [EndState(many), TableNameEnd])
    requires StringFound(m, f) && e == FormText(f) && n == Fetch(m).lex && Bounds(n)
    ensures Between(l, e, n) && BehindPart(n, many)
  {
    BehindQuotedName(l, m, EndState(many), e);
  }

  lemma FindQuotedPart(l: Live, many: bool, s: string) returns (x: Name)
    requires H.AtName(l, many) && PhaseOf(l) == TableName(many) && IsQuote(Ahead(l, 0)) && Fetch(l).Got?
    requires IsStringType(Fetch(l).item.typ) ==> ScalarValue(Fetch(l).item) == Good(Text(s))
    ensures PartFound(l, many, x, Fetch(l).lex) == true
  {
    var m := QuotedPartStarts(l, many);
    var f := FormFound(m);
    ShapedMeans(f, s);
    x := Spelled(s, f);
    QuotedPartPlace(l, many, m, f, FormText(f), Fetch(l).lex);
  }

  lemma FindPart(l: Live, many: bool, done: T.Key) returns (x: Name, n: Live, s: string)
    requires H.AtName(l, many) && InHeader(l, many, done) && PhaseOf(l) == TableName(many) && HeaderOk(l, many, done)
    ensures PartFound(l, many, x, n) == true && InHeader(n, many, done + [s])
    ensures ReadHeader(l, many, done) == ReadHeader(n, many, done + [s])
  {
    var c := Ahead(l, 0);
    if c == ']' || c == '.' || c == EOF || IsWhitespace(c) {
      NoName(l, many, done);
    }
    n, s := PartAccepted(l, many, done);
    if IsQuote(c) {
      x := FindQuotedPart(l, many, s);
    } else {
      var m := BarePartStarts(l, many);
      x := FindBarePart(l, many, m, n);
    }
  }

  lemma WhitePart(l: Live, many: bool, done: T.Key, c: char) returns (n: Live)
    requires BehindPart(l, many) && InHeader(l, many, done) && Ahead(l, 0) == c && IsWhitespace(c)
    ensures BehindPart(n, many) && InHeader(n, many, done) && Between(l, [c], n)
    ensures ReadHeader(l, many, done) == ReadHeader(n, many, done)
  {
    SpaceAhead(l);
    OneBetween(l, c, A.Further(l, 1));
    PartBlank(l, many, c, l.input[l.pos + 1..]);
    HeaderSilent(l, many, done, A.Further(l, 1));
    n := A.Further(l, 1);
  }

  lemma {:induction false} FindPartBlanks(l: Live, many: bool, done: T.Key) returns (w: string, n: Live)
    requires BehindPart(l, many) && InHeader(l, many, done)
    ensures AllWhite(w) && BehindPart(n, many) && InHeader(n, many, done) && Between(l, w, n)
    ensures ReadHeader(l, many, done) == ReadHeader(n, many, done) && !IsWhitespace(Ahead(n, 0))
    ensures !IsWhitespace(Ahead(l, 0)) ==> w == ""
    decreases Size(l)
  {
    w, n := "", l;
    if IsWhitespace(Ahead(l, 0)) {
      var m := WhitePart(l, many, done, Ahead(l, 0));
      w, n := FindPartBlanks(m, many, done);
      BetweenJoin(l, [Ahead(l, 0)], m, w, n);
      WhiteLonger(Ahead(l, 0), w);
      w := [Ahead(l, 0)] + w;
    }
  }

  lemma DotFound(l: Live, many: bool, done: T.Key) returns (n: Live)
    requires BehindPart(l, many) && InHeader(l, many, done) && Ahead(l, 0) == '.'
    ensures H.AtName(n, many) && InHeader(n, many, done) && PhaseOf(n) == TableName(many) && Between(l, ".", n)
    ensures ReadHeader(l, many, done) == ReadHeader(n, many, done)
  {
    SpaceAhead(l);
    OneBetween(l, '.', Past(l, 1, TableNameStart));
    A.ReadsChar(l, ".", 0);
    HeaderSilent(l, many, done, Past(l, 1, TableNameStart));
    n := Past(l, 1, TableNameStart);
  }

  lemma OtherPart(l: Live, many: bool, done: T.Key)
    requires BehindPart(l, many) && InHeader(l, many, done) && !IsWhitespace(Ahead(l, 0))
    requires Ahead(l, 0) != '.' && Ahead(l, 0) != ']'
    ensures !HeaderOk(l, many, done)
  {
    assert Step(l) == StepTableNameEnd(l);
    Rejects(l);
    NoHeader(l, many, done);
  }

  lemma BracketClosed(l: Live, many: bool) returns (m: Live)
    requires PhaseOf(l) != Done && BehindPart(l, many) && Ahead(l, 0) == ']'
    ensures m == l.(pos := l.pos + 1, state := EndState(many), stack := [])
    ensures GoesOn(l, m) == true && Between(l, "]", m)
  {
    SpaceAhead(l);
    OneBetween(l, ']', A.Further(l, 1));
    CloseRound(l, EndState(many));
    m := l.(pos := l.pos + 1, state := EndState(many), stack := []);
    RoundFetched(l, m);
  }

  /** An array of tables needs a second bracket. */
  lemma SecondBracket(m: Live)
    requires PhaseOf(m) != Done && Bounds(m) && m.items == [] && m.state == ArrayTableEnd
    ensures Fetch(m).Got? ==> Ahead(m, 0) == ']' && A.Reads(m, "]") && m.pos < |m.input|
  {
    if Ahead(m, 0) == ']' {
      SpaceAhead(m);
    } else {
      assert Step(m) == StepArrayTableEnd(m);
      Rejects(m);
    }
  }

  lemma HeadClosed(l: Live, many: bool, done: T.Key) returns (n: Lex)
    requires BehindPart(l, many) && InHeader(l, many, done) && Ahead(l, 0) == ']' && HeaderOk(l, many, done)
    ensures Between(l, Closing(many), n) && BehindLine(n) && n == ReadHeader(l, many, done).lex
  {
    HeaderFetch(l, many, done);
    var m := BracketClosed(l, many);
    if many {
      SecondBracket(m);
    }
    n := Past(m, if many then 1 else 0, TopEnd);
    var it := EndFetched(m, many, n);
    EndTaken(l, many, done, it, n);
    if many {
      BetweenJoin(l, "]", m, "]", n);
    }
  }

  /** What stands behind the first name and its blanks. */
  function RestText(more: seq<Part>, many: bool): string {
    if more == [] then Closing(many) else "." + PartsText(more, Closing(many))
  }

  lemma {:induction false} FindMore(l: Live, many: bool, done: T.Key) returns (more: seq<Part>, n: Lex)
    requires BehindPart(l, many) && InHeader(l, many, done) && !IsWhitespace(Ahead(l, 0)) && HeaderOk(l, many, done)
    ensures AreParts(more) && Between(l, RestText(more, many), n) && BehindLine(n) && n == ReadHeader(l, many, done).lex
    decreases Size(l), 0
  {
    more := [];
    if Ahead(l, 0) == ']' {
      n := HeadClosed(l, many, done);
    } else {
      if Ahead(l, 0) != '.' {
        OtherPart(l, many, done);
      }
      var q := DotFound(l, many, done);
      more, n := FindParts(q, many, done);
      BetweenJoin(l, ".", q, PartsText(more, Closing(many)), n);
    }
  }

  lemma PartsJoined(l: Lex, x: Name, m: Lex, w: string, o: Lex, more: seq<Part>, many: bool, n: Lex)
    requires IsPart(Part(x, w)) && AreParts(more)
    requires Between(l, NameText(x), m) && Between(m, w, o) && Between(o, RestText(more, many), n)
    ensures AreParts([Part(x, w)] + more) && Between(l, PartsText([Part(x, w)] + more, Closing(many)), n)
  {
    assert ([Part(x, w)] + more)[1..] == more;
    BetweenJoin(m, w, o, RestText(more, many), n);
    BetweenJoin(l, NameText(x), m, w + RestText(more, many), n);
  }

  /** The names of a header and its end. */
  lemma {:induction false} FindParts(l: Live, many: bool, done: T.Key) returns (ps: seq<Part>, n: Lex)
    requires H.AtName(l, many) && InHeader(l, many, done) && PhaseOf(l) == TableName(many) && HeaderOk(l, many, done)
    ensures ps != [] && AreParts(ps) && Between(l, PartsText(ps, Closing(many)), n) && BehindLine(n)
    ensures n == ReadHeader(l, many, done).lex
    decreases Size(l), 1
  {
    var x, m, s := FindPart(l, many, done);
    var w, o := FindPartBlanks(m, many, done + [s]);
    NameLonger(x);
    var more;
    more, n := FindMore(o, many, done + [s]);
    PartsJoined(l, x, m, w, o, more, many, n);
    ps := [Part(x, w)] + more;
  }

  lemma NameLonger(x: Name)
    requires IsName(x)
    ensures NameText(x) != ""
  {
    if x.Spelled? {
      FormOpens(x.f);
    }
  }

  lemma FindHeadLine(l: Live) returns (x: Line, n: Live)
    requires AtItem(l) && Ahead(l, 0) == '[' && PhaseOf(l) == AtTop && ReadTopLevel(l).Statement?
    ensures LineFound(l, x, n) == true && n == ReadTopLevel(l).lex
  {
    var many, m := FindHead(l);
    n := ReadTopLevel(l).lex;
    var ps, o := FindParts(m, many, []);
    BetweenJoin(l, Opening(many), m, PartsText(ps, Closing(many)), o);
    x := HeadLine(ps, many);
  }

  // ----- lines -----

  lemma {:induction false} TailLast(es: seq<Placed>, comma: bool, last: Gap)
    ensures var t := TailText(es, comma, last); t != "" && t[|t| - 1] == ']'
    ensures es != [] ==> var t := BehindText(es, comma, last); t != "" && t[|t| - 1] == ']'
    decreases |es|
  {
    if es != [] {
      TailLast(es[1..], comma, last);
    }
  }

  lemma LiteralLast(text: string, v: Val)
    requires LiteralMeans(text, v)
    ensures text != "" && text[|text| - 1] != '\n'
  {
    if v.Datetime? {
      assert text[5..][|text| - 6] == text[|text| - 1];
    }
  }

  /** A value does not end in a newline. */
  lemma LaidLast(x: Laid)
    requires IsLaid(x)
    ensures var t := LaidText(x); t != "" && t[|t| - 1] != '\n'
  {
    match x
    case Scalar(text, v) => LiteralLast(text, v);
    case Quoted(f, _) =>
    case Many(es, comma, last) => TailLast(es, comma, last);
  }

  lemma {:induction false} PartsLast(ps: seq<Part>, close: string)
    requires ps != [] && close != "" && close[|close| - 1] == ']'
    ensures var t := PartsText(ps, close); t != "" && t[|t| - 1] == ']'
    decreases |ps|
  {
    if |ps| > 1 {
      PartsLast(ps[1..], close);
    }
  }

  lemma LastOf(a: string, b: string)
    requires b != ""
    ensures (a + b) != "" && (a + b)[|a + b| - 1] == b[|b| - 1]
  {
  }

  /** Nor does a line. */
  lemma LineLast(x: Line)
    requires IsLine(x)
    ensures TextOf(x) != "" && TextOf(x)[|TextOf(x)| - 1] != '\n'
  {
    match x
    case KeyLine(name, before, behind, y) =>
      var e := LaidText(y);
      LaidLast(y);
      LastOf(behind, e);
      LastOf("=", behind + e);
      LastOf(before, "=" + (behind + e));
      LastOf(NameText(name), before + ("=" + (behind + e)));
    case HeadLine(ps, many) =>
      PartsLast(ps, Closing(many));
      LastOf(Opening(many), PartsText(ps, Closing(many)));
  }

  lemma FindLine(l: Live) returns (x: Line, n: Live)
    requires AtItem(l) && EndsGap(l) && Ahead(l, 0) != EOF && PhaseOf(l) == AtTop && ReadTopLevel(l).Statement?
    ensures LineFound(l, x, n) == true && n == ReadTopLevel(l).lex && n.pos < |n.input| && n.pos > l.pos
  {
    if Ahead(l, 0) == '[' {
      x, n := FindHeadLine(l);
    } else {
      if !StartsKey(Ahead(l, 0)) {
        NoKey(l);
      }
      x, n := FindKeyLine(l);
    }
    LineLast(x);
    NotLast(l, TextOf(x), n);
  }

  // ----- documents -----

  /** Where no gap is ahead, a document that is read to its end goes on with a statement, or ends. */
  lemma StatementAhead(l: Live)
    requires AtItem(l) && EndsGap(l) && Ends(l)
    ensures if Ahead(l, 0) == EOF then l.pos == |l.input|
            else ReadTopLevel(l).Statement? && ReadAll(ReadTopLevel(l).lex).ending == AtEnd
  {
    if Ahead(l, 0) == EOF {
      if l.pos < |l.input| {
        ZeroAtTop(l);
      }
    } else {
      NotSkipped(l);
    }
  }

  /** Neither a comment nor the end of the input is read there. */
  lemma NotSkipped(l: Live)
    requires AtItem(l) && EndsGap(l) && Ahead(l, 0) != EOF
    ensures PhaseOf(l) == AtTop && !ReadTopLevel(l).NoStatement? && ReadTopLevel(l) != Stopped(AtEnd)
  {
    if Ahead(l, 0) == '[' {
      var many, m := FindHead(l);
      TableNoEnd(m, many);
    } else if StartsKey(Ahead(l, 0)) {
      var m := KeyFirst(l);
      KeyNoEnd(m);
    } else {
      NoKey(l);
    }
  }

  lemma TableNoEnd(m: Live, many: bool)
    requires PhaseOf(m) == TableName(many)
    ensures !ReadTable(m, many).NoStatement? && ReadTable(m, many) != Stopped(AtEnd)
  {
  }

  lemma KeyNoEnd(m: Live)
    requires PhaseOf(m) == KeyName
    ensures !ReadKey(m).NoStatement? && ReadKey(m) != Stopped(AtEnd)
  {
    FetchDelivers(m);
    if Fetch(m).Got? && KeyString(Fetch(m).item).Good? {
      ValueNoEnd(Fetch(m).lex, KeyString(Fetch(m).item).value.s);
    }
  }

  lemma ValueNoEnd(m: Live, s: string)
    requires PhaseOf(m) == ValueNext
    ensures !ReadValue(m, s).NoStatement? && ReadValue(m, s) != Stopped(AtEnd)
  {
    FetchDelivers(m);
  }

  lemma RowJoined(l: Lex, g: Gap, m: Lex, x: Line, o: Lex, w: string, b: Bit, n: Lex, rs: seq<Row>, last: Gap)
    requires IsGap(g) && IsLine(x) && AllWhite(w) && IsClose(b) && AreRows(rs) && IsGap(last)
    requires Between(l, GapText(g), m) && Between(m, TextOf(x), o) && Between(o, w + BitText(b), n)
    requires Left(n, RowsText(rs, last))
    ensures AreRows([Row(g, x, w, b)] + rs) == true && Left(l, RowsText([Row(g, x, w, b)] + rs, last)) == true
  {
    var all, rest := [Row(g, x, w, b)] + rs, RowsText(rs, last);
    assert all[1..] == rs;
    LeftJoin(o, w + BitText(b), n, rest);
    Assoc(w, BitText(b), rest);
    LeftJoin(m, TextOf(x), o, w + (BitText(b) + rest));
    LeftJoin(l, GapText(g), m, TextOf(x) + (w + (BitText(b) + rest)));
  }

  /** What is read to its end is written in one of the layouts. */
  lemma {:induction false} FindRows(l: Live) returns (rs: seq<Row>, last: Gap)
    requires AtItem(l) && Ends(l)
    ensures AreRows(rs) && IsGap(last) && Left(l, RowsText(rs, last))
    decreases Size(l)
  {
    var g, m := GapTop(l);
    StatementAhead(m);
    if Ahead(m, 0) == EOF {
      rs, last := [], g;
      LeftJoin(l, GapText(g), m, "");
      assert GapText(g) + "" == GapText(g);
    } else {
      var x, o := FindLine(m);
      var w, b, n := CloseTop(o);
      rs, last := FindRows(n);
      RowJoined(l, g, m, x, o, w, b, n, rs, last);
      rs := [Row(g, x, w, b)] + rs;
    }
  }

  /** The document is written in one of the layouts, and no array in it mixes types. */
  predicate Written(data: string, rs: seq<Row>, last: Gap) {
    AreRows(rs) && IsGap(last) && data + "\n" == RowsText(rs, last) && forall i | 0 <= i < |rs| :: Unmixed(rs[i].line)
  }

  lemma {:induction false} MeaningEnds(rs: seq<Row>)
    ensures Meaning(rs).ending == AtEnd <==> forall i | 0 <= i < |rs| :: Unmixed(rs[i].line)
    decreases |rs|
  {
    if rs != [] {
      MeaningEnds(rs[1..]);
      assert forall i | 0 <= i < |rs[1..]| :: rs[1..][i] == rs[i + 1];
    }
  }

  lemma FindLayout(data: string) returns (rs: seq<Row>, last: Gap)
    requires PhaseOf(Init(data)) == AtTop && ReadAll(Init(data)).ending == AtEnd
    ensures Written(data, rs, last)
  {
    rs, last := FindRows(Init(data));
    RowsRead(Init(data), rs, last);
    MeaningEnds(rs);
  }

  /** Exactly the documents in these layouts are read to their end. */
  lemma AcceptedExactly(data: string)
    ensures PhaseOf(Init(data)) == AtTop
    ensures ReadAll(Init(data)).ending == AtEnd <==> exists rs, last :: Written(data, rs, last)
  {
    StartPhase(data);
    if ReadAll(Init(data)).ending == AtEnd {
      var rs, last := FindLayout(data);
    } else {
      forall rs, last ensures !Written(data, rs, last) {
        if Written(data, rs, last) {
          RowsRead(Init(data), rs, last);
          MeaningEnds(rs);
        }
      }
    }
  }

  /** A text has one meaning, however its layout is taken apart. */
  lemma OneMeaning(data: string, rs: seq<Row>, last: Gap, rs': seq<Row>, last': Gap)
    requires Written(data, rs, last) && Written(data, rs', last')
    ensures Meaning(rs) == Meaning(rs')
  {
    StartPhase(data);
    RowsRead(Init(data), rs, last);
    RowsRead(Init(data), rs', last');
  }

  /** The statements of a layout are accepted. */
  predicate Accepts(p: T.Parser, rs: seq<Row>) { T.Named(Meaning(rs).ss) && T.Replay(p, Meaning(rs).ss).Accepted? }

  /** Exactly the texts of statements that the tables accept are parsed. */
  lemma ParsedExactly(data: string, p: T.Parser)
    ensures PhaseOf(Init(data)) == AtTop
    ensures Parse(Init(data), p).Parsed? <==> exists rs, last :: Written(data, rs, last) && Accepts(p, rs)
  {
    AcceptedExactly(data);
    ParseReplays(Init(data), p);
    if Parse(Init(data), p).Parsed? {
      var rs, last := FindLayout(data);
      RowsRead(Init(data), rs, last);
    } else {
      forall rs, last ensures !(Written(data, rs, last) && Accepts(p, rs)) {
        if Written(data, rs, last) {
          RowsRead(Init(data), rs, last);
          MeaningEnds(rs);
        }
      }
    }
  }
}
