/** What the lexer accepts as a word, a number, a date, a string or a comment is written in one of the forms
    that have a meaning. */
module TomlShapes {
  import opened Decimal
  import opened TomlData
  import opened TomlLexer
  import opened TomlEscapes
  import opened TomlLexerProofs
  import opened TomlLoops
  import opened TomlValues
  import opened TomlKeyText
  import opened TomlText
  import opened TomlKeyLines
  import opened TomlStrings
  import opened TomlLayouts
  import A = TomlArrayText

  lemma Rejects(l: Live)
    requires PhaseOf(l) != Done && !Stuck(l) && Step(l).items != [] && Step(l).items[0].typ == ItemError
    ensures !Fetch(l).Got?
  {
    FetchRound(l);
  }

  // ----- words, numbers and dates -----

  predicate InToken(s: StateFn) {
    || s == NumberOrDateStart || s == NumberOrDate || s == DateAfterYear || s == NumberStart || s == Number
    || s == FloatStart || s == Float || s == True || s == False
  }

  predicate Fails(n: Lex) { n.items != [] && n.items[0].typ == ItemError }

  /** The token ends `k` characters on. */
  predicate TokenEnds(l: Lex, n: Lex, k: nat)
    requires Bounds(l) && l.stack != []
  {
    && l.pos + k <= |l.input| && |n.items| == 1 && n.items[0].val == Current(A.Further(l, k))
    && IsLiteral(n.items[0].typ) && n == A.Queued(A.Done(l, k), n.items[0])
  }

  predicate IsLiteral(t: ItemType) { IsScalarType(t) && !IsStringType(t) }

  /** One more character of it is read. */
  predicate TokenGoes(l: Lex, n: Lex) {
    n.items == [] && InToken(n.state) && l.pos < |l.input| && n == A.Further(l, 1).(state := n.state)
  }

  lemma DigitStep(l: Live)
    requires l.state == NumberOrDateStart || l.state == NumberStart || l.state == FloatStart
    ensures Fails(Step(l)) || TokenGoes(l, Step(l)) == true
  {
  }

  lemma PopsToken(l: Lex, k: nat, m: Lex, typ: ItemType)
    requires Bounds(l) && l.stack != [] && l.items == [] && l.pos + k <= |l.input| && m == A.Further(l, k)
    requires IsLiteral(typ)
    ensures TokenEnds(l, Pop(Emit(m, typ)), k) == true
  {
    var it := Item(typ, Current(m));
    assert [] + [it] == [it];
  }

  lemma NumberOrDateStep(l: Lex)
    requires Bounds(l) && l.items == [] && l.stack != [] && l.state == NumberOrDate
    ensures var n := StepNumberOrDate(l); (Fails(n) || TokenEnds(l, n, 0) || TokenGoes(l, n)) == true
  {
    if Ahead(l, 0) != '-' && Ahead(l, 0) != '.' && !IsDigit(Ahead(l, 0)) {
      PopsToken(l, 0, l, ItemInteger);
    }
  }

  lemma NumberStep(l: Lex)
    requires Bounds(l) && l.items == [] && l.stack != [] && l.state == Number
    ensures (TokenEnds(l, StepNumber(l), 0) || TokenGoes(l, StepNumber(l))) == true
  {
    if Ahead(l, 0) != '.' && !IsDigit(Ahead(l, 0)) {
      PopsToken(l, 0, l, ItemInteger);
    }
  }

  lemma FloatStep(l: Lex)
    requires Bounds(l) && l.items == [] && l.stack != [] && l.state == Float
    ensures (TokenEnds(l, StepFloat(l), 0) || TokenGoes(l, StepFloat(l))) == true
  {
    if !IsDigit(Ahead(l, 0)) {
      PopsToken(l, 0, l, ItemFloat);
    }
  }

  lemma PlainFormat()
    ensures forall i | 0 <= i < |DATE_FORMAT| :: DATE_FORMAT[i] != EOF
  {
  }

  lemma Stepped(l: Lex, n: Lex, k: nat, typ: ItemType)
    requires Bounds(l) && l.items == [] && l.stack != [] && IsLiteral(typ)
    requires !Fails(n) ==> l.pos + k <= |l.input| && n == Pop(Emit(l.(pos := l.pos + k), typ))
    ensures (Fails(n) || TokenEnds(l, n, k)) == true
  {
    if !Fails(n) {
      PopsToken(l, k, l.(pos := l.pos + k), typ);
    }
  }

  lemma FailsToken(l: Lex, n: Lex)
    requires l.items == [] && n == Fail(l.(pos := n.pos), REJECTED)
    ensures Fails(n)
  {
  }

  lemma DateStep(l: Lex)
    requires Bounds(l) && l.items == [] && l.stack != []
    ensures (Fails(StepDate(l, DATE_FORMAT)) || TokenEnds(l, StepDate(l, DATE_FORMAT), |DATE_FORMAT|)) == true
  {
    PlainFormat();
    DateOutcome(l, DATE_FORMAT);
    DateEnds(l, StepDate(l, DATE_FORMAT), |DATE_FORMAT|);
  }

  lemma DateEnds(l: Lex, n: Lex, k: nat)
    requires Bounds(l) && l.items == [] && l.stack != []
    requires (Bounds(n) && n == Fail(l.(pos := n.pos), REJECTED))
          || (l.pos + k <= |l.input| && n == Pop(Emit(l.(pos := l.pos + k), ItemDatetime)))
    ensures (Fails(n) || TokenEnds(l, n, k)) == true
  {
    if n == Fail(l.(pos := n.pos), REJECTED) {
      FailsToken(l, n);
    } else {
      Stepped(l, n, k, ItemDatetime);
    }
  }

  lemma WordStep(l: Lex, rest: string)
    requires Bounds(l) && l.items == [] && l.stack != [] && (rest == "rue" || rest == "alse")
    ensures (Fails(StepConst(l, rest)) || TokenEnds(l, StepConst(l, rest), |rest|)) == true
  {
    ConstOutcome(l, rest);
    Stepped(l, StepConst(l, rest), |rest|, ItemBool);
  }

  lemma TokenStep(l: Live) returns (k: nat)
    requires InToken(l.state)
    ensures l.stack != [] && (Fails(Step(l)) || TokenEnds(l, Step(l), k) || TokenGoes(l, Step(l))) == true
  {
    k := 0;
    match l.state
    case DateAfterYear =>
      k := |DATE_FORMAT|;
      DateStep(l);
    case True =>
      k := 3;
      WordStep(l, "rue");
    case False =>
      k := 4;
      WordStep(l, "alse");
    case NumberOrDate => NumberOrDateStep(l);
    case Number => NumberStep(l);
    case Float => FloatStep(l);
    case _ => DigitStep(l);
  }

  /** The item is what is pending and `k` characters more. */
  predicate TokenIs(l: Live, k: nat)
    requires PhaseOf(l) != Done && l.stack != []
  {
    Fetch(l).Got? ==>
      && l.pos + k <= |l.input| && Fetch(l).item.val == Current(A.Further(l, k)) && IsLiteral(Fetch(l).item.typ)
      && Fetch(l).lex == A.Done(l, k)
  }

  lemma TokenPlace(l: Lex, m: Lex, k: nat)
    requires Bounds(l) && l.stack != [] && m == A.Further(l, 1).(state := m.state) && m.pos + k <= |m.input|
    ensures Current(A.Further(m, k)) == Current(A.Further(l, k + 1)) && A.Done(m, k) == A.Done(l, k + 1)
  {
    assert A.Further(m, k).pos == A.Further(l, k + 1).pos;
  }

  lemma TokenOn(l: Live, m: Live, k: nat)
    requires PhaseOf(l) != Done && l.stack != [] && m == A.Further(l, 1).(state := m.state) && PhaseOf(m) != Done
    requires Fetch(l) == Fetch(m) && TokenIs(m, k)
    ensures TokenIs(l, k + 1) == true
  {
    if Fetch(m).Got? {
      TokenPlace(l, m, k);
    }
  }

  lemma {:induction false} TokenFetched(l: Live) returns (k: nat)
    requires PhaseOf(l) != Done && InToken(l.state)
    ensures l.stack != [] && TokenIs(l, k) == true
    decreases Measure(l)
  {
    k := TokenStep(l);
    FetchRound(l);
    var n := Step(l);
    if n.items == [] {
      k := TokenFetched(n);
      TokenOn(l, n, k);
      k := k + 1;
    }
  }

  /** The text of such an item has the meaning that the parser gives it. */
  lemma LiteralFound(it: Item, v: Val)
    requires ItemOk(it) && IsLiteral(it.typ) && ScalarValue(it) == Good(v)
    ensures LiteralMeans(it.val, v)
  {
    if it.typ == ItemInteger {
      WholeIsDecimal(it.val);
    }
  }

  // ----- raw strings -----

  lemma StandsBack(l: Lex, b: string, close: string, n: nat)
    requires Bounds(l) && n <= |Rest(l)| && Stands(A.Further(l, n), b, close)
    ensures Stands(l, Rest(l)[..n] + b, close)
  {
    RestAhead(l);
    var t := Rest(l);
    assert Rest(A.Further(l, n)) == t[n..];
    assert t == t[..n] + t[n..];
    assert t[n..] == (b + close) + t[n..][|b + close|..];
    assert (t[..n] + b) + close == t[..n] + (b + close);
  }

  lemma OneStands(l: Lex, c: char)
    requires Bounds(l) && l.pos < |l.input| && Ahead(l, 0) == c
    ensures Stands(l, "", [c])
  {
    RestAhead(l);
    assert "" + [c] == [c] == Rest(l)[..1];
  }

  lemma ThreeStand(l: Lex, q: char)
    requires Bounds(l) && Ahead(l, 0) == q && Ahead(l, 1) == q && Ahead(l, 2) == q && q != EOF
    ensures Stands(l, "", [q, q, q]) && l.pos + 3 <= |l.input|
  {
    RestAhead(l);
    assert "" + [q, q, q] == [q, q, q] == Rest(l)[..3];
  }

  lemma RawWithin(l: Live)
    requires l.state == RawStr
    ensures l.pos < |l.input|
  {
    if l.pos == |l.input| {
      EndsWithLine(l.input, l.start);
    }
  }

  lemma RawBodyOn(c: char, b: string)
    requires c != '\'' && !IsNL(c) && IsRawBody(b)
    ensures IsRawBody([c] + b)
  {
  }

  lemma {:induction false} RawFound(l: Live) returns (b: string)
    requires PhaseOf(l) != Done && l.state == RawStr
    ensures Fetch(l).Got? ==> IsRawBody(b) && Stands(l, b, "'") == true
    decreases Measure(l)
  {
    b := "";
    RawWithin(l);
    var c := Ahead(l, 0);
    if IsNL(c) {
      Rejects(l);
    } else if c == '\'' {
      OneStands(l, c);
    } else {
      RawGoesOn(l, c);
      var more := RawFound(A.Further(l, 1));
      RestAhead(l);
      b := Rest(l)[..1] + more;
      if Fetch(l).Got? {
        StandsBack(l, more, "'", 1);
        RawBodyOn(c, more);
      }
    }
  }

  // ----- raw multi-line strings -----

  lemma AtEndSpins(l: Live)
    requires PhaseOf(l) != Done && (l.state == MultilineRawStr || l.state == MultilineStr) && l.pos >= |l.input|
    ensures !Fetch(l).Got?
  {
  }

  /** The first three characters of what stands ahead are not all quotes. */
  lemma NotThree(l: Lex, b: string, q: char)
    requires Stands(l, b, [q, q, q]) && b != "" && !(Ahead(l, 0) == q && Ahead(l, 1) == q && Ahead(l, 2) == q)
    ensures !Three(b + [q, q, q], q)
  {
    StandsFirst(l, b, [q, q, q], 0);
    StandsFirst(l, b, [q, q, q], 1);
    StandsFirst(l, b, [q, q, q], 2);
  }

  lemma RawLinesBodyOn(l: Lex, b: string)
    requires Bounds(l) && l.pos < |l.input| && IsRawLines(b) && Stands(l, Rest(l)[..1] + b, "'''")
    requires !(Ahead(l, 0) == '\'' && Ahead(l, 1) == '\'' && Ahead(l, 2) == '\'')
    ensures IsRawLines(Rest(l)[..1] + b)
  {
    RestAhead(l);
    var all := Rest(l)[..1] + b;
    NotThree(l, all, '\'');
    assert ['\'', '\'', '\''] == "'''" && all[1..] == b;
  }

  lemma {:induction false} RawLinesFound(l: Live) returns (b: string)
    requires PhaseOf(l) != Done && l.state == MultilineRawStr
    ensures Fetch(l).Got? ==> IsRawLines(b) && Stands(l, b, "'''") == true
    decreases Measure(l)
  {
    b := "";
    if l.pos >= |l.input| {
      AtEndSpins(l);
    } else if Ahead(l, 0) == '\'' && Ahead(l, 1) == '\'' && Ahead(l, 2) == '\'' {
      ThreeStand(l, '\'');
    } else {
      RawLinesGoOn(l);
      var more := RawLinesFound(A.Further(l, 1));
      RestAhead(l);
      b := Rest(l)[..1] + more;
      if Fetch(l).Got? {
        StandsBack(l, more, "'''", 1);
        RawLinesBodyOn(l, more);
      }
    }
  }

  // ----- multi-line strings -----

  /** A backslash at the very end of the input, but for the end of its line. */
  lemma LineEscapeAtEnd(l: Live)
    requires PhaseOf(l) != Done && l.state == MultilineStr && l.pos + 2 == |l.input|
    requires Ahead(l, 0) == '\\' && IsNL(Ahead(l, 1))
    ensures !Fetch(l).Got?
  {
    var m := l.(pos := l.pos + 1, state := MultilineStrEscape);
    RoundStays(l, m);
    var n := l.(pos := |l.input|);
    assert Step(m) == n;
    RoundStays(m, n);
    AtEndSpins(n);
  }

  lemma LinesBroken(l: Live, t: string)
    requires PhaseOf(l) != Done && l.state == MultilineStr && t == Rest(l) && t != "" && t[0] == '\\'
    requires UnitLen(t) == 0 && !AtLineEscape(t)
    ensures !Fetch(l).Got?
  {
    OneOff(l);
    RestAhead(l);
    var m := l.(pos := l.pos + 1, state := MultilineStrEscape);
    RoundStays(l, m);
    BrokenEscape(m, l, t);
  }

  lemma BrokenEscape(m: Live, l: Lex, t: string)
    requires m == l.(pos := l.pos + 1, state := MultilineStrEscape) && Bounds(l) && l.state == MultilineStr
    requires PhaseOf(m) != Done && t == Rest(l) && t != "" && t[0] == '\\' && l.items == []
    requires UnitLen(t) == 0 && !AtLineEscape(t)
    ensures !Fetch(m).Got?
  {
    RestAhead(l);
    var c := Ahead(m, 0);
    assert c == Ahead(l, 1);
    assert A.Round(m) == StepStrEscape(Push(m, MultilineStr));
    if c == 'u' || c == 'U' {
      var h := l.(pos := l.pos + 2, state := if c == 'u' then ShortUnicodeEscape else LongUnicodeEscape,
                  stack := l.stack + [MultilineStr]);
      RoundStays(m, h);
      HexTaken(h, l, t, c, if c == 'u' then 4 else 8);
    } else {
      Rejects(m);
    }
  }

  /** One character or escape of a multi-line string, or there is no string. */
  lemma LinesOn(l: Live, t: string)
    requires PhaseOf(l) != Done && l.state == MultilineStr && t == Rest(l) && t != ""
    requires !(Ahead(l, 0) == '"' && Ahead(l, 1) == '"' && Ahead(l, 2) == '"')
    ensures Fetch(l).Got? ==> 0 < LineUnit(t) <= |t|
    ensures 0 < LineUnit(t) <= |t| ==> GoesOn(l, A.Further(l, LineUnit(t))) == true
  {
    RestAhead(l);
    if AtLineEscape(t) {
      if |t| >= 3 { LinesGlued(l); } else { LineEscapeAtEnd(l); }
    } else if t[0] == '\\' {
      if UnitLen(t) > 0 { LinesEscape(l, t); } else { LinesBroken(l, t); }
    } else {
      LinesPlain(l, t[0]);
    }
  }

  lemma LinesBodyOn(l: Lex, t: string, n: nat, b: string)
    requires Bounds(l) && t == Rest(l) && t != "" && n == LineUnit(t) && 0 < n <= |t| && IsLines(b)
    requires Stands(l, t[..n] + b, "\"\"\"") && !(Ahead(l, 0) == '"' && Ahead(l, 1) == '"' && Ahead(l, 2) == '"')
    ensures IsLines(t[..n] + b)
  {
    var all := t[..n] + b;
    StandsOn(l, all, "\"\"\"", 0);
    NotThree(l, all, '"');
    assert ['"', '"', '"'] == "\"\"\"" && all[n..] == b;
    UnitPrefix(all, t);
    assert all == t[..|all|];
    assert LineUnit(all) == n;
  }

  lemma {:induction false} LinesFound(l: Live) returns (b: string)
    requires PhaseOf(l) != Done && l.state == MultilineStr
    ensures Fetch(l).Got? ==> IsLines(b) && Stands(l, b, "\"\"\"") == true
    decreases Measure(l), 1
  {
    b := "";
    if l.pos >= |l.input| {
      AtEndSpins(l);
    } else if Ahead(l, 0) == '"' && Ahead(l, 1) == '"' && Ahead(l, 2) == '"' {
      ThreeStand(l, '"');
    } else {
      RestAhead(l);
      LinesOn(l, Rest(l));
      if 0 < LineUnit(Rest(l)) <= |Rest(l)| {
        b := LinesFoundOn(l, Rest(l), LineUnit(Rest(l)));
      }
    }
  }

  lemma {:induction false} LinesFoundOn(l: Live, t: string, n: nat) returns (b: string)
    requires PhaseOf(l) != Done && l.state == MultilineStr && t == Rest(l) && t != ""
    requires n == LineUnit(t) && 0 < n <= |t| && !(Ahead(l, 0) == '"' && Ahead(l, 1) == '"' && Ahead(l, 2) == '"')
    requires GoesOn(l, A.Further(l, n)) == true
    ensures Fetch(l).Got? ==> IsLines(b) && Stands(l, b, "\"\"\"") == true
    decreases Measure(l), 0
  {
    var more := LinesFound(A.Further(l, n));
    b := t[..n] + more;
    if Fetch(l).Got? {
      StandsBack(l, more, "\"\"\"", n);
      LinesBodyOn(l, t, n, more);
    }
  }

  // ----- strings from the value on -----

  predicate AtValueStart(o: Lex) {
    o.state == Value && o.items == [] && Bounds(o) && o.start == o.pos && o.stack != []
  }

  /** The string is written in one of the four forms, whatever it means. */
  predicate Shaped(f: Form) {
    match f
    case Basic(b) => IsBody(b)
    case Raw(b) => IsRawBody(b)
    case Lines(b) => IsLines(b)
    case RawLines(b) => IsRawLines(b)
  }

  predicate StringFound(o: Live, f: Form)
    requires PhaseOf(o) != Done && o.stack != []
  { Shaped(f) && A.Reads(o, FormText(f)) && GotAt(o, FormItem(f), FormText(f)) }

  lemma OpenReads(o: Lex, open: string, b: string, close: string, s: StateFn)
    requires Bounds(o) && Stands(Inside(o, |open|, s), b, close) && Bounds(Inside(o, |open|, s))
    requires forall i | 0 <= i < |open| :: Ahead(o, i) == open[i] && o.pos + i < |o.input|
    ensures A.Reads(o, open + b + close) && Current(Inside(o, |open|, s)) == ""
  {
    RestAhead(o);
    var m := Inside(o, |open|, s);
    RestAhead(m);
    assert Rest(o)[..|open|] == open;
    assert Rest(m) == Rest(o)[|open|..];
    var all := open + b + close;
    assert all == open + (b + close);
    assert Rest(o)[..|all|] == all;
  }

  lemma BasicForm(o: Live) returns (f: Form)
    requires PhaseOf(o) != Done && AtValueStart(o) && Ahead(o, 0) == '"' && o.pos < |o.input|
    requires !(Ahead(o, 1) == '"' && Ahead(o, 2) == '"')
    ensures Fetch(o).Got? ==> StringFound(o, f) == true
  {
    var m := Inside(o, 1, Str);
    assert A.Round(o) == StepValue(o) == m;
    RoundFetched(o, m);
    var b := StringFetched(m);
    f := Basic(b);
    if Fetch(o).Got? {
      BasicWhole(o, m, b, FormText(f));
    }
  }

  lemma BasicWhole(o: Live, m: Live, b: string, e: string)
    requires PhaseOf(o) != Done && PhaseOf(m) != Done && AtValueStart(o) && m == Inside(o, 1, Str)
    requires Fetch(o) == Fetch(m) && Ahead(o, 0) == '"' && o.pos < |o.input|
    requires Fetch(m).Got? && StringIs(Fetch(m).item, m, b) && e == FormText(Basic(b))
    ensures StringFound(o, Basic(b)) == true
  {
    BodyStands(m, b);
    OpenReads(o, "\"", b, "\"", Str);
    BasicFetched(m, b);
    QuotesGot(o, m, ItemString, b, 1, e, Str);
  }

  lemma BodyStands(m: Lex, b: string)
    requires Bounds(m) && b <= Rest(m) && |b| < |Rest(m)| && Rest(m)[|b|] == '"'
    ensures Stands(m, b, "\"")
  {
    assert b + "\"" == Rest(m)[..|b| + 1];
  }

  lemma RawForm(o: Live) returns (f: Form)
    requires PhaseOf(o) != Done && AtValueStart(o) && Ahead(o, 0) == '\'' && o.pos < |o.input|
    requires !(Ahead(o, 1) == '\'' && Ahead(o, 2) == '\'')
    ensures Fetch(o).Got? ==> StringFound(o, f) == true
  {
    var m := Inside(o, 1, RawStr);
    assert A.Round(o) == StepValue(o) == m;
    RoundFetched(o, m);
    var b := RawFound(m);
    f := Raw(b);
    if Fetch(o).Got? {
      RawWhole(o, m, b, FormText(f));
    }
  }

  lemma RawWhole(o: Live, m: Live, b: string, e: string)
    requires PhaseOf(o) != Done && PhaseOf(m) != Done && AtValueStart(o) && m == Inside(o, 1, RawStr)
    requires Fetch(o) == Fetch(m) && Ahead(o, 0) == '\'' && o.pos < |o.input|
    requires IsRawBody(b) && Stands(m, b, "'") && e == FormText(Raw(b))
    ensures StringFound(o, Raw(b)) == true
  {
    OpenReads(o, "'", b, "'", RawStr);
    RawFetched(m, b);
    QuotesGot(o, m, ItemRawString, b, 1, e, RawStr);
  }

  /** Three quotes open a string. */
  predicate ThreeOpened(o: Live, m: Live, q: char, s: StateFn) {
    && PhaseOf(o) != Done && PhaseOf(m) != Done && AtValueStart(o) && m == Inside(o, 3, s) && Fetch(o) == Fetch(m)
    && o.pos + 3 <= |o.input| && Ahead(o, 0) == q && Ahead(o, 1) == q && Ahead(o, 2) == q
  }

  lemma ThreeReads(o: Live, m: Live, q: char, b: string, e: string, s: StateFn)
    requires ThreeOpened(o, m, q, s) && Stands(m, b, [q, q, q]) && e == [q, q, q] + b + [q, q, q]
    ensures A.Reads(o, e) == true && Current(m) == "" && |e| == 3 + |b| + 3
  {
    OpenReads(o, [q, q, q], b, [q, q, q], s);
  }

  lemma LinesForm(o: Live) returns (f: Form)
    requires PhaseOf(o) != Done && AtValueStart(o) && o.pos + 3 <= |o.input|
    requires Ahead(o, 0) == '"' && Ahead(o, 1) == '"' && Ahead(o, 2) == '"'
    ensures Fetch(o).Got? ==> StringFound(o, f) == true
  {
    var m := Inside(o, 3, MultilineStr);
    ThreeOpen(o, '"', MultilineStr);
    var b := LinesFound(m);
    f := Lines(b);
    if Fetch(o).Got? {
      LinesWhole(o, m, b, FormText(f));
    }
  }

  lemma LinesWhole(o: Live, m: Live, b: string, e: string)
    requires ThreeOpened(o, m, '"', MultilineStr) && IsLines(b) && Stands(m, b, "\"\"\"") && e == FormText(Lines(b))
    ensures StringFound(o, Lines(b)) == true
  {
    ThreeReads(o, m, '"', b, e, MultilineStr);
    LinesFetched(m, b);
    QuotesGot(o, m, ItemMultilineString, b, 3, e, MultilineStr);
  }

  lemma RawLinesForm(o: Live) returns (f: Form)
    requires PhaseOf(o) != Done && AtValueStart(o) && o.pos + 3 <= |o.input|
    requires Ahead(o, 0) == '\'' && Ahead(o, 1) == '\'' && Ahead(o, 2) == '\''
    ensures Fetch(o).Got? ==> StringFound(o, f) == true
  {
    var m := Inside(o, 3, MultilineRawStr);
    ThreeOpen(o, '\'', MultilineRawStr);
    var b := RawLinesFound(m);
    f := RawLines(b);
    if Fetch(o).Got? {
      RawLinesWhole(o, m, b, FormText(f));
    }
  }

  lemma RawLinesWhole(o: Live, m: Live, b: string, e: string)
    requires ThreeOpened(o, m, '\'', MultilineRawStr) && IsRawLines(b) && Stands(m, b, "'''")
    requires e == FormText(RawLines(b))
    ensures StringFound(o, RawLines(b)) == true
  {
    ThreeReads(o, m, '\'', b, e, MultilineRawStr);
    RawLinesFetched(m, b);
    QuotesGot(o, m, ItemRawMultilineString, b, 3, e, MultilineRawStr);
  }

  /** Every string that the lexer accepts is written in one of the four forms. */
  lemma FormFound(o: Live) returns (f: Form)
    requires PhaseOf(o) != Done && AtValueStart(o) && IsQuote(Ahead(o, 0))
    ensures Fetch(o).Got? ==> StringFound(o, f) == true
  {
    var q := Ahead(o, 0);
    var three := Ahead(o, 1) == q && Ahead(o, 2) == q;
    if three {
      ThreeStand(o, q);
    }
    if q == '"' {
      if three { f := LinesForm(o); } else { f := BasicForm(o); }
    } else {
      if three { f := RawLinesForm(o); } else { f := RawForm(o); }
    }
  }

  lemma ShapedMeans(f: Form, s: string)
    requires Shaped(f) && ScalarValue(FormItem(f)) == Good(Text(s))
    ensures FormMeans(f, s)
  {
  }

  // ----- comments -----

  /** A comment runs to the next end of line or to a character zero. */
  predicate EndsRemark(c: Lex, k: nat) { IsNL(Ahead(c, k)) || Ahead(c, k) == EOF }

  predicate RemarkIs(c: Live, t: string)
    requires PhaseOf(c) != Done && c.stack != []
  {
    IsRemark(t) && A.Reads(c, t) && c.pos + |t| <= |c.input| && GetsString(c, ItemText, t, 0) && EndsRemark(c, |t|)
  }

  lemma RemarkStep(c: Lex, it: Item)
    requires Bounds(c) && c.items == [] && c.state == Comment && c.stack != [] && EndsRemark(c, 0)
    requires it == Item(ItemText, Current(c))
    ensures A.Round(c) == A.Queued(A.Done(c, 0), it)
  {
    assert [] + [it] == [it];
    assert A.Round(c) == StepComment(c);
  }

  lemma RemarkEnds(c: Live)
    requires PhaseOf(c) != Done && c.state == Comment && c.stack != [] && EndsRemark(c, 0)
    ensures RemarkIs(c, "") == true
  {
    var it := Item(ItemText, Current(c));
    RemarkStep(c, it);
    Closes(c, it, 0);
  }

  lemma ReadsOne(c: Lex, t: string, all: string)
    requires Bounds(c) && c.pos < |c.input| && A.Reads(A.Further(c, 1), t) && c.pos + 1 + |t| <= |c.input|
    requires all == [Ahead(c, 0)] + t && EndsRemark(A.Further(c, 1), |t|)
    ensures A.Reads(c, all) && all <= Rest(c) && all[1..] == t && EndsRemark(c, |all|)
  {
    RestAhead(c);
    assert c.input[c.pos..c.pos + |all|] == [c.input[c.pos]] + c.input[c.pos + 1..c.pos + 1 + |t|];
    assert Rest(c)[..|all|] == c.input[c.pos..c.pos + |all|];
  }

  lemma RemarkOn(c: Live, t: string, all: string)
    requires PhaseOf(c) != Done && c.stack != [] && c.pos < |c.input| && !EndsRemark(c, 0)
    requires GoesOn(c, A.Further(c, 1)) && RemarkIs(A.Further(c, 1), t) == true && all == [Ahead(c, 0)] + t
    ensures RemarkIs(c, all) == true
  {
    ReadsOne(c, t, all);
    StringGoesOn(c, ItemText, all, 1, 0);
  }

  lemma {:induction false} RemarkFound(c: Live) returns (t: string)
    requires PhaseOf(c) != Done && c.state == Comment && c.stack != []
    ensures RemarkIs(c, t) == true
    decreases Measure(c)
  {
    var x := Ahead(c, 0);
    if EndsRemark(c, 0) {
      t := "";
      RemarkEnds(c);
    } else {
      RemarkGoesOn(c, x);
      var more := RemarkFound(A.Further(c, 1));
      t := [x] + more;
      RemarkOn(c, more, t);
    }
  }
}
