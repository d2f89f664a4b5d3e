/** Which keys a line keeps: the text of a line is read as the statement it was made from exactly when
    the key holds no backslash and no end of line. */
module TomlKeyLines {
  import opened Decimal
  import opened Sequences
  import opened TomlData
  import opened TomlLexer
  import opened TomlEscapes
  import opened TomlLexerProofs
  import opened TomlLoops
  import opened TomlValues
  import opened TomlDocument
  import opened TomlLayout
  import opened TomlKeyText
  import opened TomlText
  import A = TomlArrayText
  import T = TomlTables

  // ----- what a string item holds -----

  /** The configuration `k` characters further. */
  lemma RoundStays(l: Live, n: Lex)
    requires PhaseOf(l) != Done && !Stuck(l) && Step(l) == n && n.items == []
    ensures GoesOn(l, n) == true
  {
    FetchRound(l);
  }

  /** An escape in a string: it is incomplete and the fetch fails, or the string goes on behind it. */
  lemma EscapeFetched(l: Live, t: string)
    requires PhaseOf(l) != Done && l.state == Str && t == Rest(l) && t != "" && t[0] == '\\'
    ensures UnitLen(t) == 0 ==> !Fetch(l).Got?
    ensures UnitLen(t) > 0 ==> GoesOn(l, A.Further(l, UnitLen(t))) == true
  {
    OneOff(l);
    RestAhead(l);
    var m := l.(pos := l.pos + 1, state := StrEscape, stack := l.stack + [Str]);
    RoundStays(l, m);
    EscapeTaken(m, l, t);
  }

  lemma EscapeTaken(m: Live, l: Lex, t: string)
    requires m == l.(pos := l.pos + 1, state := StrEscape, stack := l.stack + [Str]) && Bounds(l) && l.state == Str
    requires PhaseOf(m) != Done && t == Rest(l) && t != "" && t[0] == '\\' && l.items == []
    ensures UnitLen(t) == 0 ==> !Fetch(m).Got?
    ensures UnitLen(t) > 0 ==> GoesOn(m, A.Further(l, UnitLen(t))) == true
  {
    RestAhead(l);
    assert m.stack[..|l.stack|] == l.stack;
    var c := Ahead(m, 0);
    assert c == Ahead(l, 1);
    if IsSimpleEscape(c) {
      RoundStays(m, A.Further(l, 2));
    } else if c == 'u' || c == 'U' {
      var h := m.(pos := m.pos + 1, state := if c == 'u' then ShortUnicodeEscape else LongUnicodeEscape);
      RoundStays(m, h);
      HexTaken(h, l, t, c, if c == 'u' then 4 else 8);
    } else {
      FetchRound(m);
    }
  }

  /** Inside the hexadecimal digits of an escape in the string of `l`. */
  predicate AtDigits(h: Lex, l: Lex, c: char, k: nat) {
    && ((c == 'u' && k == 4 && h.state == ShortUnicodeEscape) || (c == 'U' && k == 8 && h.state == LongUnicodeEscape))
    && h == l.(pos := l.pos + 2, state := h.state, stack := l.stack + [l.state]) && l.items == []
    && (l.state == Str || l.state == MultilineStr)
  }

  lemma DigitsAhead(h: Lex, l: Lex, t: string, c: char, k: nat)
    requires AtDigits(h, l, c, k) && Bounds(l) && Bounds(h)
    requires t == Rest(l) && |t| > 1 && t[0] == '\\' && t[1] == c
    ensures UnitLen(t) == if HexAhead(Rest(h), k) then k + 2 else 0
  {
    RestAhead(l);
    RestAhead(h);
    assert t == ['\\', c] + Rest(h);
    HexUnit(t, Rest(h), c, k);
  }

  lemma HexTaken(h: Live, l: Lex, t: string, c: char, k: nat)
    requires AtDigits(h, l, c, k) && Bounds(l)
    requires PhaseOf(h) != Done && t == Rest(l) && |t| > 1 && t[0] == '\\' && t[1] == c
    ensures UnitLen(t) == 0 ==> !Fetch(h).Got?
    ensures UnitLen(t) > 0 ==> GoesOn(h, A.Further(l, UnitLen(t))) == true
  {
    DigitsAhead(h, l, t, c, k);
    if HexAhead(Rest(h), k) {
      HexReads(h, l, c, k);
    } else {
      HexStops(h, l, c, k);
    }
  }

  lemma HexReads(h: Live, l: Lex, c: char, k: nat)
    requires AtDigits(h, l, c, k) && PhaseOf(h) != Done && HexAhead(Rest(h), k)
    ensures GoesOn(h, A.Further(l, k + 2)) == true
  {
    HexExactly(h, k);
    assert h.stack[..|l.stack|] == l.stack;
    RoundStays(h, A.Further(l, k + 2));
  }

  lemma HexStops(h: Live, l: Lex, c: char, k: nat)
    requires AtDigits(h, l, c, k) && PhaseOf(h) != Done && !HexAhead(Rest(h), k)
    ensures !Fetch(h).Got?
  {
    HexExactly(h, k);
    HexOutcome(h, k);
    FetchRound(h);
  }

  lemma BodyOn(t: string, n: nat, b: string)
    requires t != "" && t[0] != '"' && !IsNL(t[0]) && n == UnitLen(t) && 0 < n <= |t| && IsBody(b) && b <= t[n..]
    ensures IsBody(t[..n] + b) && t[..n] + b <= t
  {
    var u := t[..n] + b;
    assert t == t[..n] + t[n..];
    UnitPrefix(u, t);
    assert u[n..] == b;
  }

  /** The item holds what is pending and `b`, a body up to a quote. */
  predicate StringIs(it: Item, l: Lex, b: string) {
    && Bounds(l) && it == Item(ItemString, Current(l) + b) && IsBody(b)
    && b <= Rest(l) && |b| < |Rest(l)| && Rest(l)[|b|] == '"'
  }

  lemma EndsWithLine(s: string, start: nat)
    requires EndsInNewline(s) && start < |s|
    ensures !NoNewline(s[start..|s|])
  {
    assert s[start..|s|][|s| - 1 - start] == '\n';
  }

  lemma StrWithin(l: Live)
    requires l.state == Str
    ensures Rest(l) != ""
  {
    RestAhead(l);
    EndsWithLine(l.input, l.start);
  }

  lemma NewlineFails(l: Live)
    requires PhaseOf(l) != Done && l.state == Str && IsNL(Ahead(l, 0))
    ensures !Fetch(l).Got?
  {
    FetchRound(l);
  }

  lemma QuoteStep(l: Lex)
    requires Bounds(l) && l.items == [] && l.state == Str && l.stack != [] && Ahead(l, 0) == '"'
    ensures A.Round(l) == A.Queued(A.Done(l, 1), Item(ItemString, Current(l)))
  {
    assert [] + [Item(ItemString, Current(l))] == [Item(ItemString, Current(l))];
  }

  lemma QuoteIs(it: Item, l: Lex)
    requires Bounds(l) && Ahead(l, 0) == '"' && it == Item(ItemString, Current(l))
    ensures StringIs(it, l, "") == true
  {
    RestAhead(l);
    assert Current(l) + "" == Current(l);
  }

  lemma QuoteCloses(l: Live)
    requires PhaseOf(l) != Done && l.state == Str && Ahead(l, 0) == '"'
    ensures Fetch(l).Got? ==> StringIs(Fetch(l).item, l, "") == true
  {
    OneOff(l);
    QuoteStep(l);
    RoundFetched(l, A.Round(l));
    QuoteIs(Item(ItemString, Current(l)), l);
  }

  lemma PlainFetched(l: Live, c: char)
    requires PhaseOf(l) != Done && l.state == Str && l.pos < |l.input| && c == Ahead(l, 0)
    requires !IsNL(c) && c != '"' && c != '\\'
    ensures GoesOn(l, A.Further(l, 1)) == true
  {
    RoundStays(l, A.Further(l, 1));
  }

  lemma Grown(it: Item, l: Lex, m: Lex, n: nat, b: string)
    requires Bounds(l) && Rest(l) != "" && Rest(l)[0] != '"' && !IsNL(Rest(l)[0])
    requires n == UnitLen(Rest(l)) && 0 < n <= |Rest(l)| && m == A.Further(l, n) && StringIs(it, m, b)
    ensures StringIs(it, l, Rest(l)[..n] + b)
  {
    RestAhead(l);
    var t := Rest(l);
    CurrentGrows(l, m);
    assert l.input[l.pos..m.pos] == t[..n] && Rest(m) == t[n..];
    BodyOn(t, n, b);
    Assoc(Current(l), t[..n], b);
  }

  /** A string item holds the text up to the first quote outside an escape, and that text is a body. */
  lemma {:induction false} StringFetched(l: Live) returns (b: string)
    requires PhaseOf(l) != Done && l.state == Str
    ensures Fetch(l).Got? ==> StringIs(Fetch(l).item, l, b) == true
    decreases Measure(l), 1
  {
    StrWithin(l);
    OneOff(l);
    b := "";
    var t, c := Rest(l), Ahead(l, 0);
    if IsNL(c) {
      NewlineFails(l);
    } else if c == '"' {
      QuoteCloses(l);
    } else {
      if c == '\\' {
        EscapeFetched(l, t);
      } else {
        RestAhead(l);
        PlainFetched(l, c);
      }
      if UnitLen(t) > 0 {
        b := StringOn(l, UnitLen(t));
      }
    }
  }

  lemma {:induction false} StringOn(l: Live, n: nat) returns (b: string)
    requires PhaseOf(l) != Done && l.state == Str && Rest(l) != "" && Rest(l)[0] != '"' && !IsNL(Rest(l)[0])
    requires n == UnitLen(Rest(l)) && 0 < n && GoesOn(l, A.Further(l, n)) == true
    ensures Fetch(l).Got? ==> StringIs(Fetch(l).item, l, b) == true
    decreases Measure(l), 0
  {
    var m := A.Further(l, n);
    var more := StringFetched(m);
    b := Rest(l)[..n] + more;
    if Fetch(l).Got? {
      Grown(Fetch(l).item, l, m, n, more);
    }
  }

  // ----- keys that a line does not keep -----

  /** No backslash before the first quote. */
  predicate QuoteFirst(t: string)
    decreases |t|
  {
    t == "" || t[0] == '"' || (t[0] != '\\' && QuoteFirst(t[1..]))
  }

  lemma {:induction false} QuoteFirstJoins(a: string, b: string)
    requires QuoteFirst(a) && QuoteFirst(b)
    ensures QuoteFirst(a + b)
    decreases |a|
  {
    if a == "" {
      assert a + b == b;
    } else if a[0] != '"' {
      QuoteFirstJoins(a[1..], b);
      assert (a + b)[1..] == a[1..] + b;
    }
  }

  lemma {:induction false} PlainQuoteFirst(t: string)
    requires forall i | 0 <= i < |t| :: t[i] != '\\'
    ensures QuoteFirst(t)
    decreases |t|
  {
    if t != "" {
      PlainQuoteFirst(t[1..]);
    }
  }

  /** What the encoder writes for a value has no backslash outside a string. */
  lemma {:induction false} ValueQuoteFirst(v: Val)
    requires A.Supported(v)
    ensures QuoteFirst(A.EncodeVal(v))
    decreases v, 0
  {
    match v
    case Text(s) => A.QuoteStarts(s, Quote(s));
    case Boolean(b) => PlainQuoteFirst(if b then "true" else "false");
    case Integer(n) =>
      FormatNatValue(if n < 0 then -n else n);
      PlainQuoteFirst(FormatInt(n));
    case FloatNum(t) =>
      FloatPlain(t);
      PlainQuoteFirst(t);
    case Datetime(t) =>
      DatePlain(t);
      PlainQuoteFirst(t);
    case Arr(vs) =>
      PlainQuoteFirst("[");
      PlainQuoteFirst("]");
      ElemsQuoteFirst(vs);
      QuoteFirstJoins("[", A.EncodeElems(vs));
      QuoteFirstJoins("[" + A.EncodeElems(vs), "]");
  }

  lemma {:induction false} ElemsQuoteFirst(vs: seq<Val>)
    requires forall i | 0 <= i < |vs| :: A.Supported(vs[i])
    ensures QuoteFirst(A.EncodeElems(vs))
    decreases vs, 1
  {
    if vs != [] {
      ValueQuoteFirst(vs[0]);
      if |vs| > 1 {
        ElemsQuoteFirst(vs[1..]);
        PlainQuoteFirst(", ");
        QuoteFirstJoins(A.EncodeVal(vs[0]), ", ");
        QuoteFirstJoins(A.EncodeVal(vs[0]) + ", ", A.EncodeElems(vs[1..]));
      }
    }
  }

  lemma {:induction false} FloatPlain(t: string)
    requires NumOf(t) != NotNum
    ensures forall i | 0 <= i < |t| :: t[i] != '\\'
    decreases |t|
  {
    if t != "" {
      FloatPlain(t[..|t| - 1]);
    }
  }

  lemma DatePlain(t: string)
    requires DatetimeText(t)
    ensures forall i | 0 <= i < |t| :: t[i] != '\\'
  {
    forall i | 0 <= i < |t| ensures t[i] != '\\' {
      if i < 4 {
        assert t[..5][..4][i] == t[i];
      } else if i == 4 {
        assert t[..5][4] == t[4];
      } else {
        assert t[5..][i - 5] == t[i] && FormatChar(DATE_FORMAT[i - 5], t[i]);
      }
    }
  }

  lemma {:induction false} PlainDecodes(t: string)
    requires forall i | 0 <= i < |t| :: t[i] != '\\'
    ensures ReplaceEscapes(t) == Decoded(t)
    decreases |t|
  {
    if t != "" {
      PlainDecodes(t[1..]);
      assert t == [t[0]] + t[1..];
    }
  }

  lemma {:induction false} BodyNoNewline(b: string)
    requires IsBody(b)
    ensures forall i | 0 <= i < |b| :: !IsNL(b[i])
    decreases |b|
  {
    if b != "" {
      var n := UnitLen(b);
      BodyNoNewline(b[n..]);
      forall i | 0 <= i < |b| ensures !IsNL(b[i]) {
        if i >= n {
          assert b[i] == b[n..][i - n];
        } else if i > 1 {
          assert b[2..n][i - 2] == b[i];
        }
      }
    }
  }

  /** A quote in the first unit of a body is the second character of an escape. */
  lemma QuoteInUnit(b: string, i: nat)
    requires IsBody(b) && i < |b| && i < UnitLen(b) && b[i] == '"'
    ensures i == 1 && b[0] == '\\' && UnitLen(b) == 2
  {
    var n := UnitLen(b);
    assert n > 2 ==> forall j | 2 <= j < n :: IsHexadecimal(b[2..n][j - 2]) && b[2..n][j - 2] == b[j];
  }

  lemma UnitDecoded(b: string, n: nat, s: string)
    requires IsBody(b) && b != "" && n == UnitLen(b) && ReplaceEscapes(b) == Decoded(s)
    ensures 0 < n <= |b| && IsBody(b[n..]) && s != "" && s == [s[0]] + s[1..]
    ensures ReplaceEscapes(b[n..]) == Decoded(s[1..])
  {
  }

  /** A quote in a body belongs to an escape, and what follows it is a body of its own. */
  lemma {:induction false} QuoteInBody(b: string, i: nat, s: string) returns (p: string, q: string)
    requires IsBody(b) && i < |b| && b[i] == '"' && ReplaceEscapes(b) == Decoded(s)
    ensures i > 0 && b[i - 1] == '\\' && IsBody(b[i + 1..])
    ensures ReplaceEscapes(b[i + 1..]) == Decoded(q) && s == p + q
    decreases |b|
  {
    var n := UnitLen(b);
    UnitDecoded(b, n, s);
    if i < n {
      QuoteInUnit(b, i);
      p, q := [s[0]], s[1..];
    } else {
      var rest := b[n..];
      p, q := QuoteInBody(rest, i - n, s[1..]);
      assert rest[i - n + 1..] == b[i + 1..] && rest[i - n - 1] == b[i - 1];
      Assoc([s[0]], p, q);
      p := [s[0]] + p;
    }
  }

  lemma {:induction false} LastCopied(k: string)
    requires k != ""
    ensures var e := EscapeQuotes(k); e != "" && e[|e| - 1] == k[|k| - 1]
    decreases |k|
  {
    if |k| > 1 {
      LastCopied(k[1..]);
    } else {
      assert k[1..] == "";
    }
  }

  /** Text that runs on behind the quote of a key: before a quote of the line it has no backslash. */
  lemma {:induction false} RunsOnPlain(t: string, w: string, more: string)
    requires t <= w + ("\n" + more) && QuoteFirst(w) && (t != "" ==> t[0] != '"')
    requires forall j | 0 < j < |t| :: t[j] == '"' ==> t[j - 1] == '\\'
    requires forall j | 0 <= j < |t| :: !IsNL(t[j])
    ensures forall j | 0 <= j < |t| :: t[j] != '\\'
    decreases |t|
  {
    var all := w + ("\n" + more);
    if t != "" {
      assert t[0] == all[0] && t[1..] <= all[1..] by { assert t == all[..|t|] && t[1..] == all[1..][..|t| - 1]; }
      assert w != "" && all[1..] == w[1..] + ("\n" + more);
      RunsOnPlain(t[1..], w[1..], more);
      assert forall j | 0 < j < |t| :: t[j] == t[1..][j - 1];
    }
  }

  /** The quote behind the key is taken for a part of it, and the string ends later in the line. */
  lemma OverrunDiffers(k: string, b: string, t: string, s: string, w: string, more: string)
    requires k != "" && b == EscapeQuotes(k) + "\"" + t && IsBody(b) && ReplaceEscapes(b) == Decoded(s)
    requires t != "" && t[0] != '"' && t <= w + ("\n" + more) && QuoteFirst(w)
    ensures s != k
  {
    var e := EscapeQuotes(k);
    LastCopied(k);
    var p, q := QuoteInBody(b, |e|, s);
    assert b[|e| + 1..] == t && b[|e| - 1] == e[|e| - 1];
    BodyNoNewline(t);
    forall j | 0 < j < |t| && t[j] == '"' ensures t[j - 1] == '\\' {
      var _, _ := QuoteInBody(t, j, q);
    }
    RunsOnPlain(t, w, more);
    PlainDecodes(t);
  }

  /** Where a body ends that is read of the text `e` and what follows it. */
  lemma ShortBody(e: string, b: string, rest: string, tail: string)
    requires rest == e + tail && b <= rest && |b| <= |e| && |b| < |rest| && rest[|b|] == '"'
    ensures ReadOf(b, e)
  {
    assert b == rest[..|b|] == e[..|b|];
  }

  lemma LongBody(e: string, b: string, rest: string, tail: string) returns (t: string)
    requires rest == e + ("\"" + tail) && b <= rest && |e| < |b| < |rest| && rest[|b|] == '"'
    ensures b == e + "\"" + t && t <= tail && |t| < |tail| && tail[|t|] == '"'
  {
    t := b[|e| + 1..];
    assert b == rest[..|b|];
    assert t == tail[..|t|] && rest[|b|] == tail[|t|];
  }

  lemma HeadKept(t: string, tail: string, w: string, more: string)
    requires tail == w + more && t <= tail && |t| < |tail| && tail[|t|] == '"' && w != "" && w[0] != '"'
    ensures t != "" && t[0] != '"'
  {
    assert t != "" ==> t[0] == tail[0];
  }

  /** Behind the opening quote of a key that is not quotable: whatever string is read, it is not the
      key. */
  lemma OtherKey(k: string, b: string, s: string, w: string, more: string, rest: string)
    requires k != "" && !Quotable(k) && rest == EscapeQuotes(k) + ("\"" + (w + ("\n" + more)))
    requires QuoteFirst(w) && w != "" && w[0] != '"'
    requires IsBody(b) && b <= rest && |b| < |rest| && rest[|b|] == '"' && ReplaceEscapes(b) == Decoded(s)
    ensures s != k
  {
    var e, tail := EscapeQuotes(k), w + ("\n" + more);
    if |b| <= |e| {
      ShortBody(e, b, rest, "\"" + tail);
      BodyShrinks(k, b, s);
    } else {
      var t := LongBody(e, b, rest, tail);
      HeadKept(t, tail, w, "\n" + more);
      OverrunDiffers(k, b, t, s, w, more);
    }
  }

  // ----- reading the line -----

  /** The line is read as this statement. */
  predicate ReadAs(r: Read, s: T.Stmt) { r.Statement? && r.s == s }

  /** The line is read as an assignment to this key. */
  predicate Assigns(r: Read, k: string) { r.Statement? && r.s.Assign? && r.s.name == k }

  /** What is written behind a key. */
  function Behind(v: Val): string { " = " + A.EncodeVal(v) }

  lemma BehindPlain(v: Val)
    requires A.Supported(v)
    ensures QuoteFirst(Behind(v)) && Behind(v) != "" && Behind(v)[0] != '"'
  {
    PlainQuoteFirst(" = ");
    ValueQuoteFirst(v);
    QuoteFirstJoins(" = ", A.EncodeVal(v));
  }

  lemma LineJoined(q: string, v: Val)
    ensures LineText(q, v) == q + Behind(v)
  {
    assert " " + ("= " + A.EncodeVal(v)) == Behind(v);
  }

  /** The rest of the line behind the opening quote of the key `k`, with `w` behind the closing one. */
  predicate LineAhead(o: Lex, k: string, w: string, more: string) {
    Bounds(o) && Rest(o) == EscapeQuotes(k) + ("\"" + (w + ("\n" + more)))
  }

  lemma QuotedParts(e: string, w: string, q: string, nl: string, text: string)
    requires text == "\"" + e + "\"" + w && q == "\""
    ensures text != "" && text[1..] + nl == e + (q + (w + nl))
  {
    var inner := e + (q + w);
    assert text == q + inner;
    Assoc(e, q + w, nl);
    Assoc(q, w, nl);
  }

  lemma LineInside(l: Lex, o: Lex, k: string, w: string, text: string) returns (more: string)
    requires Bounds(l) && text == "\"" + EscapeQuotes(k) + "\"" + w && A.Reads(l, text)
    requires l.pos + |text| < |l.input| && l.input[l.pos + |text|] == '\n'
    requires o.input == l.input && o.start == o.pos == l.pos + 1
    ensures LineAhead(o, k, w, more)
  {
    var i := l.pos + |text|;
    more := l.input[i + 1..];
    QuotedParts(EscapeQuotes(k), w, "\"", "\n" + more, text);
    assert Rest(o) == text[1..] + ("\n" + more);
  }

  /** A name read inside such a line is not the key. */
  lemma NameDiffers(o: Lex, k: string, w: string, more: string, it: Item, b: string)
    requires LineAhead(o, k, w, more) && k != "" && !Quotable(k)
    requires QuoteFirst(w) && w != "" && w[0] != '"'
    requires o.start == o.pos && StringIs(it, o, b)
    ensures KeyString(it) != Good(Text(k))
  {
    assert Current(o) == "" && "" + b == b;
    if KeyString(it) == Good(Text(k)) {
      OtherKey(k, b, k, w, more, Rest(o));
    }
  }

  lemma ValueAssigns(n: Live, name: string)
    requires PhaseOf(n) == ValueNext
    ensures var r := ReadValue(n, name); r.Stopped? || (r.Statement? && r.s.Assign? && r.s.name == name)
  {
  }

  lemma KeyRefused(m: Live, k: string)
    requires PhaseOf(m) == KeyName
    requires Fetch(m).Got? ==> KeyString(Fetch(m).item) != Good(Text(k))
    ensures !Assigns(ReadKey(m), k) && !ReadKey(m).NoStatement?
  {
    FetchDelivers(m);
    if Fetch(m).Got? {
      var it := Fetch(m).item;
      KeyStringSafe(it);
      if KeyString(it).Good? {
        ValueAssigns(Fetch(m).lex, KeyString(it).value.s);
      }
    }
  }

  /** Behind the opening quote of a key. */
  function InQuotes(l: Lex): Lex {
    l.(start := l.pos + 1, pos := l.pos + 1, state := Str, stack := [TopEnd, KeyEnd])
  }

  lemma QuotePassed(l: Lex, m: Lex, k: string, q: string)
    requires AtItem(l) && k != "" && q == "\"" + EscapeQuotes(k) + "\"" && A.Reads(l, q)
    requires m == l.(state := Value, stack := [TopEnd, KeyEnd])
    ensures A.Round(m) == InQuotes(l)
  {
    QuoteOpens(m, k, EscapeQuotes(k), q, InQuotes(l));
  }

  lemma QuoteEntered(l: Live, k: string, q: string, rest: string) returns (m: Live)
    requires AtItem(l) && k != "" && q == "\"" + EscapeQuotes(k) + "\"" && A.Reads(l, q + rest)
    ensures PhaseOf(m) == KeyName && ReadTopLevel(l) == ReadKey(m)
    ensures GoesOn(m, InQuotes(l)) == true
  {
    A.ReadsSplit(l, q, rest);
    A.ReadsChar(l, q, 0);
    var c := '"';
    m := KeyStartFetched(l, c);
    QuotePassed(l, m, k, q);
    RoundFetched(m, InQuotes(l));
  }

  /** The line of a key that is not quotable assigns nothing to that key. */
  lemma OtherKeyRead(l: Live, k: string, v: Val, q: string, text: string)
    requires AtItem(l) && k != "" && !Quotable(k) && A.Supported(v) && q == "\"" + EscapeQuotes(k) + "\""
    requires text == LineText(q, v) && A.Reads(l, text)
    requires l.pos + |text| < |l.input| && l.input[l.pos + |text|] == '\n'
    ensures !Assigns(ReadTopLevel(l), k) && !ReadTopLevel(l).NoStatement?
  {
    var o, w := InQuotes(l), Behind(v);
    LineJoined(q, v);
    BehindPlain(v);
    var m := QuoteEntered(l, k, q, w);
    var more := LineInside(l, o, k, w, text);
    var b := StringFetched(o);
    if Fetch(o).Got? {
      NameDiffers(o, k, w, more, Fetch(o).item, b);
    }
    KeyRefused(m, k);
  }

  lemma BareQuotable(k: string)
    requires BareText(k)
    ensures Quotable(k)
  {
    assert forall i | 0 <= i < |k| :: IsBareKeyChar(k[i]);
  }

  /** The text of a line is read as the statement it was made from exactly when the key holds no
      backslash and no end of line; with any other key, nothing is assigned to that key. */
  lemma LineReadExactly(l: Live, k: string, v: Val, text: string)
    requires AtItem(l) && k != "" && A.Supported(v) && text == LineText(MaybeQuoted(k), v) && A.Reads(l, text)
    requires l.pos + |text| < |l.input| && l.input[l.pos + |text|] == '\n'
    ensures ReadAs(ReadTopLevel(l), T.Assign(k, v)) <==> Quotable(k)
    ensures Assigns(ReadTopLevel(l), k) <==> Quotable(k)
  {
    if Quotable(k) {
      var n := LineRead(l, k, v, text);
    } else {
      if BareText(k) { BareQuotable(k); }
      OtherKeyRead(l, k, v, MaybeQuoted(k), text);
    }
  }
}
