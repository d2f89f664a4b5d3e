/** Texts on which the lexer always returns: without three quotes in a row, and without a blank right
    behind a bracket or a dot, no configuration is ever led into a loop. */
module TomlCalm {
  import opened TomlLexer
  import opened TomlLexerProofs
  import opened TomlLoops

  /** No three quotes start here, and no bracket or dot with a blank behind it. */
  predicate CalmHere(t: string) {
    && !Three(t, '"') && !Three(t, '\'')
    && (|t| > 1 && (t[0] == '[' || t[0] == '.') ==> !IsWhitespace(t[1]))
  }

  predicate Calm(t: string) { forall i | 0 <= i < |t| :: CalmHere(t[i..]) }

  lemma CalmFirst(t: string)
    requires Calm(t) && t != ""
    ensures CalmHere(t)
  {
    assert t[0..] == t;
  }

  lemma CalmDrop(t: string, k: nat)
    requires Calm(t)
    ensures Calm(Drop(t, k))
  {
    var u := Drop(t, k);
    forall i | 0 <= i < |u| ensures CalmHere(u[i..]) { assert u[i..] == t[k + i..]; }
  }

  lemma CalmRest(t: string)
    requires Calm(t) && t != ""
    ensures Calm(t[1..])
  {
    CalmDrop(t, 1);
  }

  /** The line end that the lexer adds keeps a text calm. */
  lemma CalmLine(data: string)
    requires Calm(data)
    ensures Calm(data + "\n")
  {
    var t := data + "\n";
    forall i | 0 <= i < |t| ensures CalmHere(t[i..]) {
      if i < |data| {
        assert t[i..] == data[i..] + "\n" && CalmHere(data[i..]);
      }
    }
  }

  // ----- calm texts lead into no loop -----

  lemma {:induction false} CalmValue(t: string)
    requires Calm(t)
    ensures !ValueLoops(t)
    decreases |t|
  {
    if t != "" {
      CalmFirst(t);
      CalmRest(t);
      CalmValue(t[1..]);
    }
  }

  lemma {:induction false} CalmDot(t: string)
    requires Calm(t)
    ensures !DotLoops(t)
    decreases |t|
  {
    if t != "" {
      CalmFirst(t);
      CalmRest(t);
      CalmDot(t[1..]);
      CalmValue(t[1..]);
    }
  }

  lemma {:induction false} CalmEquals(t: string)
    requires Calm(t)
    ensures !EqualsLoops(t)
    decreases |t|
  {
    if t != "" {
      CalmRest(t);
      CalmEquals(t[1..]);
      CalmValue(t[1..]);
    }
  }

  lemma {:induction false} CalmElement(t: string)
    requires Calm(t)
    ensures !ElementLoops(t)
    decreases |t|
  {
    if t != "" {
      CalmRest(t);
      CalmElement(t[1..]);
      CalmValue(t);
    }
  }

  lemma {:induction false} CalmComma(t: string)
    requires Calm(t)
    ensures !CommaLoops(t)
    decreases |t|
  {
    if t != "" {
      CalmRest(t);
      CalmComma(t[1..]);
      CalmElement(t[1..]);
    }
  }

  // ----- configurations -----

  predicate IsMultiline(s: StateFn) { s == MultilineStr || s == MultilineRawStr || s == MultilineStrEscape }

  /** States that a continuation never is. */
  predicate Fleeting(s: StateFn) { IsMultiline(s) || s == TableNameStart || s == TableStart || s.Skip? }

  predicate AllLasting(stack: seq<StateFn>) { forall i | 0 <= i < |stack| :: !Fleeting(stack[i]) }

  /** The character before the read position. */
  predicate Behind(l: Lex, c: char) { 0 < l.pos <= |l.input| && l.input[l.pos - 1] == c }

  /** The start of a table name stands right behind a bracket or a dot. */
  predicate Placed(l: Lex) {
    && (l.state == TableStart ==> Behind(l, '['))
    && (l.state == TableNameStart ==> Behind(l, '[') || Behind(l, '.'))
  }

  predicate QuietState(s: StateFn) {
    !IsMultiline(s) && (s.Skip? ==> !Fleeting(s.to))
  }

  predicate Quiet(l: Lex) { Calm(l.input) && QuietState(l.state) && AllLasting(l.stack) && Placed(l) }

  lemma InitQuiet(data: string)
    requires Calm(data)
    ensures Quiet(Init(data))
  {
    CalmLine(data);
  }

  lemma NotBlank(l: Lex)
    requires Bounds(l) && Calm(l.input) && (Behind(l, '[') || Behind(l, '.'))
    ensures !IsWhitespace(Ahead(l, 0))
  {
    if l.pos < |l.input| {
      assert CalmHere(l.input[l.pos - 1..]);
      assert l.input[l.pos - 1..][1] == Ahead(l, 0);
    }
  }

  lemma {:induction false} QuietLoops(l: Lex)
    requires Bounds(l) && Quiet(l)
    ensures !Loops(l)
    decreases l.state
  {
    CalmDrop(l.input, l.pos);
    var t := Rest(l);
    CalmValue(t);
    CalmDot(t);
    CalmEquals(t);
    CalmElement(t);
    CalmComma(t);
    TopLasts(l.stack);
    if l.state == TableNameStart {
      NotBlank(l);
      RestAhead(l);
    }
  }

  lemma TopLasts(stack: seq<StateFn>)
    requires AllLasting(stack)
    ensures !InMultiline(stack)
  {
  }

  // ----- one step -----

  lemma Popped(l: Lex, n: Lex)
    requires Calm(l.input) && AllLasting(l.stack) && n == Pop(l)
    ensures n.items == l.items ==> Quiet(n) == true
  {
  }

  lemma Pushed(stack: seq<StateFn>, s: StateFn)
    requires AllLasting(stack) && !Fleeting(s)
    ensures AllLasting(stack + [s])
  {
  }

  /** The step fails, or stays quiet. */
  predicate Stays(n: Lex) { n.items == [] || n.items[0].typ != ItemError ==> Quiet(n) }

  /** What quiet steps start from. */
  predicate Still(l: Lex) { Bounds(l) && l.items == [] && Quiet(l) }

  lemma PopStays(l: Lex, m: Lex)
    requires Still(l) && m.input == l.input && m.stack == l.stack
    requires m.items == [] || (m.items[0].typ != ItemError && l.stack != [])
    ensures Stays(Pop(m)) == true
  {
  }

  lemma BracketBehind(l: Lex)
    requires Bounds(l) && (Ahead(l, 0) == '[' || Ahead(l, 0) == '.')
    ensures Behind(Adv(l, 1), Ahead(l, 0)) && Adv(l, 1).pos == l.pos + 1
  {
  }

  lemma TopStays(l: Lex)
    requires Still(l) && (l.state == Top || l.state == TopEnd)
    ensures Stays(StepDocument(l)) == true
  {
    Pushed(l.stack, Top);
    Pushed(l.stack, TopEnd);
    if Ahead(l, 0) == '[' {
      BracketBehind(l);
    }
  }

  lemma TableStays(l: Lex)
    requires Still(l) && (l.state == TableStart || l.state == TableEnd || l.state == ArrayTableEnd)
    ensures Stays(StepDocument(l)) == true
  {
    Pushed(l.stack, TableEnd);
    Pushed(l.stack, ArrayTableEnd);
    if Ahead(l, 0) == '[' {
      BracketBehind(l);
    }
  }

  lemma NameStays(l: Lex)
    requires Still(l) && l.stack != []
    requires l.state == TableNameStart || l.state == BareTableName || l.state == TableNameEnd
    ensures Stays(StepDocument(l)) == true
  {
    Pushed(l.stack, TableNameEnd);
    if Ahead(l, 0) == '.' {
      BracketBehind(l);
    }
    PopStays(l, Adv(l, 1));
  }

  lemma KeyStays(l: Lex)
    requires Still(l) && (l.state == KeyStart || l.state == BareKey || l.state == KeyEnd)
    ensures Stays(StepDocument(l)) == true
  {
    Pushed(l.stack, KeyEnd);
  }

  lemma ValueStays(l: Lex)
    requires Still(l) && l.state == Value
    ensures Stays(StepValue(l)) == true
  {
    RestAhead(l);
    CalmDrop(l.input, l.pos);
    if Rest(l) != "" {
      CalmFirst(Rest(l));
    }
  }

  lemma ArrayStays(l: Lex)
    requires Still(l) && l.stack != [] && (l.state == ArrayValue || l.state == ArrayValueEnd || l.state == ArrayEnd)
    ensures Stays(StepElement(l)) == true
  {
    Pushed(l.stack, ArrayValue);
    Pushed(l.stack, ArrayValueEnd);
    PopStays(l, EmitText(l, ItemArrayEnd, ""));
  }

  lemma CommentStays(l: Lex)
    requires Still(l) && l.stack != [] && (l.state == CommentStart || l.state == Comment)
    ensures Stays(StepElement(l)) == true
  {
    PopStays(l, Emit(l, ItemText));
  }

  lemma CloseStays(l: Lex, typ: ItemType)
    requires Still(l) && l.stack != [] && typ != ItemError
    ensures Stays(CloseString(l, typ, 1)) == true
  {
    PopStays(l, Ignore(Adv(Emit(l, typ), 1)));
  }

  lemma StrStays(l: Lex)
    requires Still(l) && l.stack != [] && l.state == Str
    ensures Stays(StepStr(l)) == true
  {
    CloseStays(l, ItemString);
    Pushed(l.stack, Str);
  }

  lemma RawStays(l: Lex)
    requires Still(l) && l.stack != [] && l.state == RawStr
    ensures Stays(StepRawStr(l)) == true
  {
    CloseStays(l, ItemRawString);
  }

  lemma EscapeStays(l: Lex)
    requires Still(l) && l.stack != [] && l.state == StrEscape
    ensures Stays(StepStrEscape(l)) == true
  {
    PopStays(l, Adv(l, 1));
  }

  lemma HexStays(l: Lex, k: nat)
    requires Still(l) && l.stack != []
    ensures Stays(StepHex(l, k)) == true
  {
    HexOutcome(l, k);
    PopStays(l, l.(pos := l.pos + k));
  }

  lemma NumberStays(l: Lex)
    requires Still(l) && l.stack != [] && InNumberOrDate(l.state) && l.state != DateAfterYear
    ensures Stays(StepScalar(l)) == true
  {
    PopStays(l, Emit(l, ItemInteger));
    PopStays(l, Emit(l, ItemFloat));
  }

  lemma DateStays(l: Lex, format: string)
    requires Still(l) && l.stack != [] && forall i | 0 <= i < |format| :: format[i] != EOF
    ensures Stays(StepDate(l, format)) == true
  {
    DateOutcome(l, format);
    if l.pos + |format| <= |l.input| {
      PopStays(l, Emit(l.(pos := l.pos + |format|), ItemDatetime));
    }
  }

  lemma WordStays(l: Lex, rest: string)
    requires Still(l) && l.stack != [] && forall i | 0 <= i < |rest| :: rest[i] != EOF
    ensures Stays(StepConst(l, rest)) == true
  {
    ConstOutcome(l, rest);
    if l.pos + |rest| <= |l.input| {
      PopStays(l, Emit(l.(pos := l.pos + |rest|), ItemBool));
    }
  }

  lemma DocumentStays(l: Lex)
    requires Ready(l) && Quiet(l) && InDocument(l.state)
    ensures Stays(StepDocument(l)) == true
  {
    if l.state == Top || l.state == TopEnd {
      TopStays(l);
    } else if l.state == TableStart || l.state == TableEnd || l.state == ArrayTableEnd {
      TableStays(l);
    } else if l.state == KeyStart || l.state == BareKey || l.state == KeyEnd {
      KeyStays(l);
    } else {
      NameStays(l);
    }
  }

  lemma ElementStays(l: Lex)
    requires Ready(l) && Quiet(l) && InElement(l.state)
    ensures Stays(StepElement(l)) == true
  {
    if l.state == Value {
      ValueStays(l);
    } else if l.state.Skip? {
      SkipStays(l);
    } else if l.state == CommentStart || l.state == Comment {
      CommentStays(l);
    } else {
      ArrayStays(l);
    }
  }

  lemma SkipStays(l: Lex)
    requires Still(l) && l.state.Skip?
    ensures Stays(StepElement(l)) == true
  {
  }

  lemma StringStays(l: Lex)
    requires Ready(l) && Quiet(l) && InString(l.state)
    ensures Stays(StepString(l)) == true
  {
    if l.state == Str {
      StrStays(l);
    } else if l.state == RawStr {
      RawStays(l);
    } else if l.state == StrEscape {
      EscapeStays(l);
    } else {
      HexStays(l, if l.state == ShortUnicodeEscape then 4 else 8);
    }
  }

  lemma ScalarStays(l: Lex)
    requires Ready(l) && Quiet(l) && (InNumberOrDate(l.state) || l.state == True || l.state == False)
    ensures Stays(StepScalar(l)) == true
  {
    if l.state == DateAfterYear {
      DateStays(l, DATE_FORMAT);
    } else if l.state == True {
      WordStays(l, "rue");
    } else if l.state == False {
      WordStays(l, "alse");
    } else {
      NumberStays(l);
    }
  }

  lemma StepStays(l: Lex)
    requires Ready(l) && Quiet(l)
    ensures Stays(Step(l)) == true
  {
    if InDocument(l.state) {
      DocumentStays(l);
    } else if InElement(l.state) {
      ElementStays(l);
    } else if InString(l.state) {
      StringStays(l);
    } else {
      ScalarStays(l);
    }
  }

  lemma QuietTaken(n: Lex)
    requires Stays(n) && n.items != [] && n.items[0].typ != ItemError
    ensures Quiet(n.(items := n.items[1..]))
  {
  }

  /** The loop of nextItem stays quiet until it has an item. */
  lemma {:induction false} QuietDelivers(l: Live)
    requires PhaseOf(l) != Done && Quiet(l)
    ensures Fetch(l).Got? ==> Quiet(Fetch(l).lex)
    decreases Measure(l)
  {
    if !Stuck(l) {
      FetchRound(l);
      StepStays(l);
      var n := Step(l);
      if n.items == [] {
        QuietDelivers(n);
      } else if n.items[0].typ != ItemError {
        QuietTaken(n);
      }
    }
  }

  /** On a calm text nextItem returns, and leaves a configuration of which the same holds. */
  lemma QuietFetch(l: Live)
    requires PhaseOf(l) != Done && Quiet(l)
    ensures !Fetch(l).Spins? && (Fetch(l).Got? ==> Quiet(Fetch(l).lex))
  {
    SpinsExactly(l);
    QuietLoops(l);
    QuietDelivers(l);
  }
}
