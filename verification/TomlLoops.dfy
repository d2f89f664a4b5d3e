/** When nextItem does not return, said of the text ahead: the lexer's two loops are the blank at
    the start of a table name and the multi-line string that is not closed. */
module TomlLoops {
  import opened TomlLexer
  import opened TomlEscapes
  import opened TomlLexerProofs

  // ----- texts that lead into a loop -----

  predicate Three(t: string, q: char) { |t| >= 3 && t[0] == q && t[1] == q && t[2] == q }

  function Drop(t: string, k: nat): string { if k <= |t| then t[k..] else "" }

  /** The rest of a raw multi-line string: no three quotes before the end of the input. */
  predicate RawRunsOff(t: string)
    decreases |t|
  {
    t == "" || (!Three(t, '\'') && RawRunsOff(t[1..]))
  }

  /** The rest of a multi-line string: every escape is complete, where an escaped end of line takes
      one more character with it, and outside escapes there are no three quotes before the end. */
  predicate RunsOff(t: string)
    decreases |t|
  {
    t == "" ||
    if t[0] == '\\' then
      if |t| > 1 && IsNL(t[1]) then RunsOff(Drop(t, 3)) else UnitLen(t) > 0 && RunsOff(Drop(t, UnitLen(t)))
    else !Three(t, '"') && RunsOff(t[1..])
  }

  predicate ValueLoops(t: string)
    decreases |t|
  {
    t != "" &&
    if IsWhitespace(t[0]) then ValueLoops(t[1..])
    else (Three(t, '"') && RunsOff(t[3..])) || (Three(t, '\'') && RawRunsOff(t[3..]))
  }

  predicate NameLoops(t: string) { t != "" && (IsWhitespace(t[0]) || ValueLoops(t)) }

  /** Behind a name of a header. */
  predicate DotLoops(t: string)
    decreases |t|
  {
    t != "" && if IsWhitespace(t[0]) then DotLoops(t[1..]) else t[0] == '.' && NameLoops(t[1..])
  }

  /** Behind the key of a line. */
  predicate EqualsLoops(t: string)
    decreases |t|
  {
    t != "" && if IsWhitespace(t[0]) then EqualsLoops(t[1..]) else t[0] == '=' && ValueLoops(t[1..])
  }

  predicate ElementLoops(t: string)
    decreases |t|
  {
    t != "" && if IsWhitespace(t[0]) || IsNL(t[0]) then ElementLoops(t[1..]) else ValueLoops(t)
  }

  /** Behind an element of an array. */
  predicate CommaLoops(t: string)
    decreases |t|
  {
    t != "" && if IsWhitespace(t[0]) || IsNL(t[0]) then CommaLoops(t[1..]) else t[0] == ',' && ElementLoops(t[1..])
  }

  function Rest(l: Lex): string { Drop(l.input, l.pos) }

  /** An escape returns to a multi-line string. */
  predicate InMultiline(stack: seq<StateFn>) { stack != [] && stack[|stack| - 1] == MultilineStr }

  predicate LoopsFrom(s: StateFn, multiline: bool, t: string)
    decreases s
  {
    match s
    case Skip(u) => LoopsFrom(u, multiline, t)
    case Value => ValueLoops(t)
    case TableNameStart => NameLoops(t)
    case TableNameEnd => DotLoops(t)
    case KeyEnd => EqualsLoops(t)
    case ArrayValue => ElementLoops(t)
    case ArrayValueEnd => CommaLoops(t)
    case MultilineStr => RunsOff(t)
    case MultilineRawStr => RawRunsOff(t)
    case MultilineStrEscape => RunsOff("\\" + t)
    case StrEscape => multiline && (t == "" || !IsNL(t[0])) && RunsOff("\\" + t)
    case ShortUnicodeEscape => multiline && RunsOff(['\\', 'u'] + t)
    case LongUnicodeEscape => multiline && RunsOff(['\\', 'U'] + t)
    case _ => false
  }

  /** The text ahead leads the lexer into one of its loops before the next item. */
  predicate Loops(l: Lex) { LoopsFrom(l.state, InMultiline(l.stack), Rest(l)) }

  // ----- one step -----

  /** What a step does to the question. */
  predicate Follows(l: Lex, n: Lex) { if n.items == [] then Loops(n) == Loops(l) else !Loops(l) }

  lemma RestAhead(l: Lex)
    requires Bounds(l)
    ensures Rest(l) == l.input[l.pos..] && |Rest(l)| == |l.input| - l.pos
    ensures forall k: nat :: Ahead(l, k) == if k < |Rest(l)| then Rest(l)[k] else EOF
  {
  }

  lemma RestAdv(l: Lex, k: nat)
    requires Bounds(l)
    ensures Rest(Adv(l, k)) == Drop(Rest(l), k) && Adv(l, k).input == l.input
  {
    var t := l.input[l.pos..];
    if l.pos + k <= |l.input| {
      assert l.input[l.pos + k..] == t[k..];
    }
  }

  lemma OneOff(l: Lex)
    requires Bounds(l)
    ensures Rest(l) != "" ==> Rest(Adv(l, 1)) == Rest(l)[1..] && Ahead(l, 0) == Rest(l)[0]
    ensures Rest(l) == "" ==> Rest(Adv(l, 1)) == "" && Ahead(l, 0) == EOF
  {
    RestAdv(l, 1);
    RestAhead(l);
  }

  predicate Harmless(s: StateFn) {
    || s == Top || s == TopEnd || s == TableStart || s == TableEnd || s == ArrayTableEnd || s == BareTableName
    || s == KeyStart || s == BareKey || s == ArrayEnd || s == CommentStart || s == Comment || s == Str || s == RawStr
    || s == NumberOrDateStart || s == NumberOrDate || s == DateAfterYear || s == NumberStart || s == Number
    || s == FloatStart || s == Float || s == True || s == False
  }

  lemma {:induction false} DateEmits(l: Lex, format: string)
    requires Bounds(l)
    ensures StepDate(l, format).items != []
    decreases |format|
  {
    if format != "" && FormatChar(format[0], Ahead(l, 0)) {
      DateEmits(Adv(l, 1), format[1..]);
    }
  }

  lemma {:induction false} ConstEmits(l: Lex, rest: string)
    requires Bounds(l)
    ensures StepConst(l, rest).items != []
    decreases |rest|
  {
    if rest != "" && Ahead(l, 0) == rest[0] {
      ConstEmits(Adv(l, 1), rest[1..]);
    }
  }

  /** States from which the next item comes without a loop. */
  lemma HarmlessDocument(l: Lex)
    requires Bounds(l) && l.items == [] && Harmless(l.state) && InDocument(l.state)
    ensures Follows(l, StepDocument(l)) == true
  {
  }

  lemma HarmlessElement(l: Lex)
    requires Bounds(l) && l.items == [] && Harmless(l.state) && InElement(l.state)
    ensures Follows(l, StepElement(l)) == true
  {
  }

  lemma HarmlessString(l: Lex)
    requires Bounds(l) && l.items == [] && (l.state == Str || l.state == RawStr)
    ensures Follows(l, StepString(l)) == true
  {
  }

  lemma HarmlessNumber(l: Lex)
    requires Bounds(l) && l.items == [] && InNumberOrDate(l.state) && l.state != DateAfterYear
    ensures Follows(l, StepScalar(l)) == true
  {
  }

  lemma HarmlessWord(l: Lex, rest: string)
    requires Bounds(l) && l.items == [] && ((l.state == True && rest == "rue") || (l.state == False && rest == "alse"))
    ensures Follows(l, StepConst(l, rest)) == true
  {
    ConstEmits(l, rest);
  }

  lemma HarmlessDate(l: Lex, format: string)
    requires Bounds(l) && l.items == [] && l.state == DateAfterYear
    ensures Follows(l, StepDate(l, format)) == true
  {
    DateEmits(l, format);
  }

  lemma HarmlessScalar(l: Lex)
    requires Bounds(l) && l.items == []
    requires InNumberOrDate(l.state) || l.state == True || l.state == False
    ensures Follows(l, StepScalar(l)) == true
  {
    if l.state == DateAfterYear {
      HarmlessDate(l, DATE_FORMAT);
    } else if l.state == True {
      HarmlessWord(l, "rue");
    } else if l.state == False {
      HarmlessWord(l, "alse");
    } else {
      HarmlessNumber(l);
    }
  }

  lemma ValueFollows(l: Lex)
    requires At(l, Value)
    ensures Follows(l, StepValue(l)) == true
  {
    if QuoteAhead(l) {
      QuoteFollows(l, Ahead(l, 0));
    } else {
      OneOff(l);
    }
  }

  lemma QuoteFollows(l: Lex, q: char)
    requires At(l, Value) && Ahead(l, 0) == q && (q == '"' || q == '\'')
    ensures Follows(l, StepValue(l)) == true
  {
    RestAhead(l);
    RestAdv(l, 3);
  }

  lemma NameStartFollows(l: Lex)
    requires At(l, TableNameStart) && !IsWhitespace(Ahead(l, 0))
    ensures Follows(l, StepTableNameStart(l)) == true
  {
    OneOff(l);
  }

  lemma NameEndFollows(l: Lex)
    requires At(l, TableNameEnd) && TableStack(l.stack)
    ensures Follows(l, StepTableNameEnd(l)) == true
  {
    OneOff(l);
  }

  lemma KeyEndFollows(l: Lex)
    requires At(l, KeyEnd)
    ensures Follows(l, StepKeyEnd(l)) == true
  {
    OneOff(l);
  }

  lemma ArrayValueFollows(l: Lex)
    requires At(l, ArrayValue)
    ensures Follows(l, StepArrayValue(l)) == true
  {
    OneOff(l);
  }

  lemma ArrayValueEndFollows(l: Lex)
    requires At(l, ArrayValueEnd)
    ensures Follows(l, StepArrayValueEnd(l)) == true
  {
    OneOff(l);
  }

  lemma RawFollows(l: Lex)
    requires At(l, MultilineRawStr) && l.pos < |l.input|
    ensures Follows(l, StepMultilineRawStr(l)) == true
  {
    OneOff(l);
    RestAhead(l);
  }

  lemma MultilineFollows(l: Lex)
    requires At(l, MultilineStr) && l.pos < |l.input|
    ensures Follows(l, StepMultilineStr(l)) == true
  {
    OneOff(l);
    if Ahead(l, 0) == '\\' {
      BackslashBack(Rest(l));
    } else {
      RestAhead(l);
    }
  }

  lemma BackslashBack(t: string)
    requires t != "" && t[0] == '\\'
    ensures "\\" + t[1..] == t
  {
  }

  /** A simple escape, of which `t` is the rest from the character behind the backslash. */
  lemma SimpleRuns(t: string, s: string)
    requires t != "" && IsSimpleEscape(t[0]) && s == "\\" + t
    ensures RunsOff(s) == RunsOff(t[1..])
  {
    assert s[2..] == t[1..];
  }

  lemma MalformedRuns(t: string, s: string)
    requires s == "\\" + t && (t == "" || !(IsNL(t[0]) || IsSimpleEscape(t[0]) || t[0] == 'u' || t[0] == 'U'))
    ensures !RunsOff(s)
  {
    assert UnitLen(s) == 0;
  }

  /** Behind an escape: the state it returns to. */
  lemma PopFollows(l: Lex, m: Lex)
    requires Bounds(l) && l.items == [] && EscapeStack(l.stack) && m == l.(pos := m.pos, state := m.state) && Bounds(m)
    ensures Pop(m).items == [] && Loops(Pop(m)) == (InMultiline(l.stack) && RunsOff(Rest(m)))
  {
  }

  /** What StepStrEscape does with the character behind the backslash. */
  lemma EscapeCases(l: Lex, s: string)
    requires Bounds(l) && l.items == [] && EscapeStack(l.stack) && s == "\\" + Rest(l)
    requires Rest(l) == "" || !IsNL(Rest(l)[0])
    ensures var n := StepStrEscape(l); if n.items == [] then Loops(n) == (InMultiline(l.stack) && RunsOff(s)) else !RunsOff(s)
  {
    OneOff(l);
    var t, c := Rest(l), Ahead(l, 0);
    if IsSimpleEscape(c) {
      SimpleRuns(t, s);
      PopFollows(l, Adv(l, 1));
    } else if c == 'u' || c == 'U' {
      assert s == ['\\', c] + t[1..];
    } else {
      MalformedRuns(t, s);
    }
  }

  lemma EscapeAsks(l: Lex, s: string)
    requires l.state == StrEscape && s == "\\" + Rest(l)
    ensures Loops(l) == (InMultiline(l.stack) && (Rest(l) == "" || !IsNL(Rest(l)[0])) && RunsOff(s))
  {
  }

  lemma EscapeFollows(l: Lex)
    requires At(l, StrEscape) && EscapeStack(l.stack)
    ensures Follows(l, StepStrEscape(l)) == true
  {
    var s := "\\" + Rest(l);
    EscapeAsks(l, s);
    if Rest(l) != "" && IsNL(Rest(l)[0]) {
      OneOff(l);
    } else {
      EscapeCases(l, s);
    }
  }

  lemma MultilineEscapeAsks(l: Lex, s: string)
    requires l.state == MultilineStrEscape && s == "\\" + Rest(l)
    ensures Loops(l) == RunsOff(s)
  {
  }

  lemma NewlineFollows(l: Lex, s: string)
    requires At(l, MultilineStrEscape) && s == "\\" + Rest(l) && Rest(l) != "" && IsNL(Rest(l)[0])
    ensures StepMultilineStrEscape(l).items == [] && Loops(StepMultilineStrEscape(l)) == RunsOff(s)
  {
    OneOff(l);
    RestAdv(l, 2);
    NewlineRuns(Rest(l), s);
  }

  lemma MultilineEscapeFollows(l: Lex)
    requires At(l, MultilineStrEscape) && StringStack(l.stack)
    ensures Follows(l, StepMultilineStrEscape(l)) == true
  {
    var s := "\\" + Rest(l);
    MultilineEscapeAsks(l, s);
    if Rest(l) != "" && IsNL(Rest(l)[0]) {
      NewlineFollows(l, s);
    } else {
      OneOff(l);
      PushedFollows(l, Push(l, MultilineStr), s);
    }
  }

  lemma PushedFollows(l: Lex, m: Lex, s: string)
    requires Bounds(l) && l.items == [] && StringStack(l.stack) && m == Push(l, MultilineStr)
    requires s == "\\" + Rest(l) && (Rest(l) == "" || !IsNL(Rest(l)[0]))
    ensures var n := StepStrEscape(m); if n.items == [] then Loops(n) == RunsOff(s) else !RunsOff(s)
  {
    assert m.stack[..|l.stack|] == l.stack;
    EscapeCases(m, s);
  }

  lemma NewlineRuns(t: string, s: string)
    requires t != "" && IsNL(t[0]) && s == "\\" + t
    ensures RunsOff(s) == RunsOff(Drop(t, 2))
  {
    assert Drop(s, 3) == Drop(t, 2);
  }

  /** The text starts with `k` hexadecimal digits. */
  predicate HexAhead(t: string, k: nat) { |t| >= k && AllHex(t[..k]) }

  lemma HexFirst(t: string, k: nat)
    requires k > 0
    ensures HexAhead(t, k) <==> t != "" && IsHexadecimal(t[0]) && HexAhead(t[1..], k - 1)
  {
    if |t| >= k {
      var d := t[..k];
      assert d[0] == t[0] && d[1..] == t[1..][..k - 1] && d == [t[0]] + t[1..][..k - 1];
    }
  }

  /** StepHex reads its digits and pops, or it fails. */
  lemma {:induction false} HexExactly(l: Lex, k: nat)
    requires Bounds(l) && l.items == []
    ensures HexAhead(Rest(l), k) ==> l.pos + k <= |l.input| && StepHex(l, k) == Pop(l.(pos := l.pos + k))
    ensures !HexAhead(Rest(l), k) ==> StepHex(l, k).items != []
    decreases k
  {
    if k > 0 {
      OneOff(l);
      HexFirst(Rest(l), k);
      if IsHexadecimal(Ahead(l, 0)) {
        HexExactly(Adv(l, 1), k - 1);
      }
    }
  }

  lemma HexUnit(s: string, t: string, u: char, k: nat)
    requires ((u == 'u' && k == 4) || (u == 'U' && k == 8)) && s == ['\\', u] + t
    ensures UnitLen(s) == if HexAhead(t, k) then k + 2 else 0
  {
    assert |t| >= k ==> s[2..2 + k] == t[..k];
  }

  lemma HexRuns(s: string, t: string, u: char, k: nat)
    requires ((u == 'u' && k == 4) || (u == 'U' && k == 8)) && s == ['\\', u] + t
    ensures RunsOff(s) == (HexAhead(t, k) && RunsOff(t[k..]))
  {
    HexUnit(s, t, u, k);
    assert |t| >= k ==> s[2 + k..] == t[k..];
  }

  lemma HexAsks(l: Lex, u: char, s: string)
    requires (l.state == ShortUnicodeEscape && u == 'u') || (l.state == LongUnicodeEscape && u == 'U')
    requires s == ['\\', u] + Rest(l)
    ensures Loops(l) == (InMultiline(l.stack) && RunsOff(s))
  {
  }

  lemma HexPops(l: Lex, k: nat)
    requires Bounds(l) && l.items == [] && EscapeStack(l.stack) && l.pos + k <= |l.input|
    ensures var n := Pop(l.(pos := l.pos + k));
      n.items == [] && k <= |Rest(l)| && Loops(n) == (InMultiline(l.stack) && RunsOff(Rest(l)[k..]))
  {
    RestAhead(l);
    RestAdv(l, k);
    PopFollows(l, l.(pos := l.pos + k));
  }

  lemma HexFollows(l: Lex, u: char, k: nat)
    requires Bounds(l) && l.items == [] && EscapeStack(l.stack)
    requires (l.state == ShortUnicodeEscape && u == 'u' && k == 4) || (l.state == LongUnicodeEscape && u == 'U' && k == 8)
    ensures Follows(l, StepHex(l, k)) == true
  {
    var t := Rest(l);
    HexExactly(l, k);
    HexRuns(['\\', u] + t, t, u, k);
    HexAsks(l, u, ['\\', u] + t);
    if HexAhead(t, k) {
      HexPops(l, k);
    }
  }

  // ----- the dispatch -----

  lemma StringFollows(l: Lex)
    requires Ready(l) && InString(l.state)
    ensures Follows(l, StepString(l)) == true
  {
    match l.state
    case MultilineStr => MultilineFollows(l);
    case MultilineRawStr => RawFollows(l);
    case MultilineStrEscape => MultilineEscapeFollows(l);
    case StrEscape => EscapeFollows(l);
    case ShortUnicodeEscape => HexFollows(l, 'u', 4);
    case LongUnicodeEscape => HexFollows(l, 'U', 8);
    case Str => HarmlessString(l);
    case RawStr => HarmlessString(l);
  }

  lemma ElementFollows(l: Lex)
    requires Ready(l) && InElement(l.state)
    ensures Follows(l, StepElement(l)) == true
  {
    match l.state
    case Value => ValueFollows(l);
    case ArrayValue => ArrayValueFollows(l);
    case ArrayValueEnd => ArrayValueEndFollows(l);
    case Skip(s) =>
    case ArrayEnd => HarmlessElement(l);
    case CommentStart => HarmlessElement(l);
    case Comment => HarmlessElement(l);
  }

  lemma DocumentFollows(l: Lex)
    requires Ready(l) && InDocument(l.state)
    ensures Follows(l, StepDocument(l)) == true
  {
    if l.state == TableNameStart {
      NameStartFollows(l);
    } else if l.state == TableNameEnd {
      NameEndFollows(l);
    } else if l.state == KeyEnd {
      KeyEndFollows(l);
    } else {
      HarmlessDocument(l);
    }
  }

  lemma StepFollows(l: Lex)
    requires Ready(l)
    ensures Follows(l, Step(l)) == true
  {
    if InDocument(l.state) {
      DocumentFollows(l);
    } else if InElement(l.state) {
      ElementFollows(l);
    } else if InString(l.state) {
      StringFollows(l);
    } else {
      HarmlessScalar(l);
    }
  }

  lemma StuckLoops(l: Lex)
    requires Bounds(l) && Stuck(l)
    ensures Loops(l)
  {
    RestAhead(l);
  }

  /** From every configuration in which the parser can ask for an item: nextItem does not return if
      and only if the text ahead leads into one of the two loops. */
  lemma {:induction false} SpinsExactly(l: Live)
    requires PhaseOf(l) != Done
    ensures Fetch(l).Spins? <==> Loops(l)
    decreases Measure(l)
  {
    if Stuck(l) {
      StuckLoops(l);
    } else {
      FetchRound(l);
      StepFollows(l);
      if Step(l).items == [] {
        SpinsExactly(Step(l));
      }
    }
  }
}
