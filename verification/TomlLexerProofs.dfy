/** What every reachable lexer configuration keeps, why nextItem returns, and which items
    the parser can see where. */
module TomlLexerProofs {
  import opened TomlLexer
  import opened TomlEscapes

  // ----- token texts -----

  /** A number read from left to right. */
  datatype Num = NoNum | Minus | Whole | Dot | Fraction | NotNum

  function NumNext(s: Num, c: char): Num {
    match s
    case NoNum => if c == '-' then Minus else if IsDigit(c) then Whole else NotNum
    case Minus => if IsDigit(c) then Whole else NotNum
    case Whole => if IsDigit(c) then Whole else if c == '.' then Dot else NotNum
    case Dot | Fraction => if IsDigit(c) then Fraction else NotNum
    case NotNum => NotNum
  }

  function NumOf(t: string): Num {
    if t == "" then NoNum else NumNext(NumOf(t[..|t| - 1]), t[|t| - 1])
  }

  lemma NumExtends(t: string, c: char)
    ensures NumOf(t + [c]) == NumNext(NumOf(t), c)
  {
    assert (t + [c])[..|t|] == t;
  }

  predicate FitsFormat(t: string, format: string) {
    |t| == |format| && forall i | 0 <= i < |t| :: FormatChar(format[i], t[i])
  }

  predicate AllDigits(t: string) { forall i | 0 <= i < |t| :: IsDigit(t[i]) }

  /** "YYYY-" */
  predicate YearText(t: string) { |t| == 5 && AllDigits(t[..4]) && t[4] == '-' }

  predicate DatetimeText(t: string) {
    |t| >= 5 && YearText(t[..5]) && FitsFormat(t[5..], DATE_FORMAT)
  }

  predicate NoNewline(t: string) { forall i | 0 <= i < |t| :: !IsNL(t[i]) }

  /** What the parser may rely on in the text of an item. */
  predicate ItemOk(it: Item) {
    match it.typ
    case ItemString => ScanOf(it.val) == Plain
    case ItemBool => it.val == "true" || it.val == "false"
    case ItemInteger => NumOf(it.val) == Whole
    case ItemFloat => NumOf(it.val) == Fraction
    case ItemDatetime => DatetimeText(it.val)
    case _ => true
  }

  // ----- shape of the continuation stack -----

  /** Continuations of a value: the top-level item, then one for every open array. */
  predicate ValueStack(s: seq<StateFn>) {
    |s| > 0 && s[0] == TopEnd && forall i | 1 <= i < |s| :: s[i] == ArrayValueEnd
  }

  /** Continuations of a quoted name. */
  predicate NameStack(s: seq<StateFn>) {
    s == [TopEnd, KeyEnd] || s == [TableEnd, TableNameEnd] || s == [ArrayTableEnd, TableNameEnd]
  }

  predicate StringStack(s: seq<StateFn>) { ValueStack(s) || NameStack(s) }

  predicate TableStack(s: seq<StateFn>) { s == [TableEnd] || s == [ArrayTableEnd] }

  predicate EscapeStack(s: seq<StateFn>) {
    |s| > 0 && (s[|s| - 1] == Str || s[|s| - 1] == MultilineStr) && StringStack(s[..|s| - 1])
  }

  predicate CommentStack(s: seq<StateFn>) {
    || s == [Top]
    || (|s| > 0 && (s[|s| - 1] == ArrayValue || s[|s| - 1] == ArrayValueEnd) && ValueStack(s[..|s| - 1]))
  }

  predicate QuoteAhead(l: Lex) { Ahead(l, 0) == '"' || Ahead(l, 0) == '\'' }

  /** The stack that goes with a state; `quote` says that a quote is ahead. */
  predicate Shape(state: StateFn, stack: seq<StateFn>, quote: bool) {
    match state
    case Top | TopEnd | TableStart | TableEnd | ArrayTableEnd => stack == []
    case TableNameStart | BareTableName | TableNameEnd => TableStack(stack)
    case KeyStart | BareKey | KeyEnd => stack == [TopEnd]
    case Value => ValueStack(stack) || (NameStack(stack) && quote)
    case ArrayValue | ArrayValueEnd | ArrayEnd => ValueStack(stack)
    case Str | MultilineStr | RawStr | MultilineRawStr | MultilineStrEscape => StringStack(stack)
    case StrEscape | ShortUnicodeEscape | LongUnicodeEscape => EscapeStack(stack)
    case CommentStart | Comment => CommentStack(stack)
    case Skip(s) =>
      || (s == Top && stack == [])
      || ((s == KeyStart || s == KeyEnd) && stack == [TopEnd])
      || ((s == Value || s == ArrayValue || s == ArrayValueEnd) && ValueStack(stack))
    case Halt => true
    case _ => ValueStack(stack)
  }

  /** Inside a basic string, which is where an escape of it returns to. */
  predicate Escaping(stack: seq<StateFn>, t: string, within: bool, scan: Scan) {
    |stack| > 0 && stack[|stack| - 1] == Str ==> within && ScanOf(t) == scan && NoNewline(t)
  }

  /** The pending text `t` that goes with a state; `within` says that it starts before
      the end of the input. */
  predicate Pending(state: StateFn, stack: seq<StateFn>, t: string, within: bool) {
    match state
    case Value | ArrayValue | ArrayValueEnd | NumberOrDateStart => t == ""
    case Str => within && ScanOf(t) == Plain && NoNewline(t)
    case RawStr => within && NoNewline(t)
    case StrEscape => Escaping(stack, t, within, Slash)
    case ShortUnicodeEscape => Escaping(stack, t, within, Hex(4))
    case LongUnicodeEscape => Escaping(stack, t, within, Hex(8))
    case NumberStart => NumOf(t) == Minus
    case NumberOrDate => NumOf(t) == Whole && AllDigits(t)
    case Number => NumOf(t) == Whole
    case FloatStart => NumOf(t) == Dot
    case Float => NumOf(t) == Fraction
    case DateAfterYear => YearText(t)
    case True => t == "t"
    case False => t == "f"
    case _ => true
  }

  predicate ShapeOf(l: Lex) { Shape(l.state, l.stack, QuoteAhead(l)) }

  predicate Within(l: Lex) { l.start < |l.input| }

  predicate PendingOf(l: Lex)
    requires Bounds(l)
  { Pending(l.state, l.stack, Current(l), Within(l)) }

  predicate EndsInNewline(input: string) { |input| > 0 && input[|input| - 1] == '\n' }

  predicate Inv(l: Lex) {
    Bounds(l) && EndsInNewline(l.input) && l.items == [] && ShapeOf(l) && PendingOf(l)
  }

  // ----- where the parser stands -----

  datatype Phase =
    | AtTop
    | InComment(back: Phase)
    | TableName(many: bool)
    | TableRest(many: bool)
    | KeyName
    | ValueNext
    | InArray(depth: nat)
    | Done

  function ValuePhase(s: seq<StateFn>): Phase {
    if |s| == 2 && NameStack(s) then if s[1] == KeyEnd then KeyName else TableName(s[0] == ArrayTableEnd)
    else if |s| <= 1 then ValueNext
    else InArray(|s| - 1)
  }

  function CommentPhase(s: seq<StateFn>): Phase {
    if s == [Top] || s == [] then AtTop else InArray(|s| - 1)
  }

  function PhaseIn(state: StateFn, stack: seq<StateFn>): Phase {
    match state
    case Top | TopEnd | TableStart | KeyStart => AtTop
    case TableEnd => TableRest(false)
    case ArrayTableEnd => TableRest(true)
    case TableNameStart | BareTableName => TableName(stack == [ArrayTableEnd])
    case TableNameEnd => TableRest(stack == [ArrayTableEnd])
    case BareKey => KeyName
    case KeyEnd => ValueNext
    case ArrayValue | ArrayValueEnd | ArrayEnd => InArray(|stack|)
    case StrEscape | ShortUnicodeEscape | LongUnicodeEscape =>
      ValuePhase(if stack == [] then [] else stack[..|stack| - 1])
    case CommentStart => CommentPhase(stack)
    case Comment => InComment(CommentPhase(stack))
    case Skip(s) =>
      if s == Top || s == KeyStart then AtTop
      else if s == KeyEnd then ValueNext
      else if s == Value then ValuePhase(stack)
      else InArray(|stack|)
    case Halt => Done
    case _ => ValuePhase(stack)
  }

  function PhaseOf(l: Lex): Phase { PhaseIn(l.state, l.stack) }

  predicate IsStringType(t: ItemType) {
    t == ItemString || t == ItemRawString || t == ItemMultilineString || t == ItemRawMultilineString
  }

  predicate IsScalarType(t: ItemType) {
    IsStringType(t) || t == ItemBool || t == ItemInteger || t == ItemFloat || t == ItemDatetime
  }

  predicate IsNameType(t: ItemType) { t == ItemText || IsStringType(t) }

  /** The items the parser accepts where it stands. */
  predicate Allowed(p: Phase, t: ItemType) {
    match p
    case AtTop =>
      t == ItemCommentStart || t == ItemTableStart || t == ItemArrayTableStart || t == ItemKeyStart || t == ItemEOF
    case InComment(_) => t == ItemText
    case TableName(_) => IsNameType(t)
    case TableRest(many) => IsNameType(t) || t == (if many then ItemArrayTableEnd else ItemTableEnd)
    case KeyName => IsNameType(t)
    case ValueNext => IsScalarType(t) || t == ItemArray
    case InArray(_) => IsScalarType(t) || t == ItemArray || t == ItemArrayEnd || t == ItemCommentStart
    case Done => false
  }

  function After(p: Phase, t: ItemType): Phase {
    match p
    case AtTop =>
      if t == ItemCommentStart then InComment(AtTop)
      else if t == ItemTableStart then TableName(false)
      else if t == ItemArrayTableStart then TableName(true)
      else if t == ItemKeyStart then KeyName
      else Done
    case InComment(back) => back
    case TableName(many) => TableRest(many)
    case TableRest(_) => if IsNameType(t) then p else AtTop
    case KeyName => ValueNext
    case ValueNext => if t == ItemArray then InArray(1) else AtTop
    case InArray(d) =>
      if t == ItemArray then InArray(d + 1)
      else if t == ItemCommentStart then InComment(p)
      else if t != ItemArrayEnd then p
      else if d <= 1 then AtTop else InArray(d - 1)
    case Done => Done
  }

  /** Between two items the parser can only be led on to the next part of a table name. */
  predicate LeadsOn(p: Phase, q: Phase) { p == q || (p.TableRest? && q == TableName(p.many)) }

  // ----- termination -----

  /** The two loops of the program that make no progress. */
  predicate Stuck(l: Lex) {
    || (l.state == TableNameStart && IsWhitespace(Ahead(l, 0)))
    || ((l.state == MultilineStr || l.state == MultilineRawStr) && l.pos >= |l.input|)
  }

  function Rank(s: StateFn): nat {
    match s
    case Halt => 0
    case BareKey | BareTableName | Value => 2
    case KeyStart | TableNameStart | ArrayValue => 3
    case Top | TableStart => 4
    case TopEnd => 5
    case TableEnd | ArrayEnd | Comment | NumberOrDate | Number | Float => 6
    case CommentStart => 7
    case Skip(_) => 8
    case _ => 1
  }

  function Measure(l: Lex): int { 40 * (|l.input| - l.pos) + Rank(l.state) }

  // ----- one step -----
  //
  // Postconditions compare these predicates with `true`: that keeps the verifier from
  // splitting them into one obligation per state.

  /** Stack, phase, items and measure after a step that does not loop. */
  predicate StepShape(l: Lex, n: Lex) {
    && n.input == l.input && Bounds(n) && |n.items| <= 2
    && (n.items == [] ==> ShapeOf(n) && LeadsOn(PhaseOf(l), PhaseOf(n)) && Measure(n) < Measure(l))
    && (n.items != [] ==>
          if n.items[0].typ == ItemError then n.items[0].val != NO_STATES
          else
            && |n.items| == 1
            && Allowed(PhaseOf(l), n.items[0].typ)
            && ShapeOf(n)
            && PhaseOf(n) == After(PhaseOf(l), n.items[0].typ)
            && Measure(n) < Measure(l))
  }

  /** The pending text after a step, and the text of the item it emitted. */
  predicate StepText(n: Lex) {
    && Bounds(n)
    && (n.items == [] ==> PendingOf(n))
    && (n.items != [] && n.items[0].typ != ItemError ==> ItemOk(n.items[0]) && PendingOf(n))
  }

  predicate StepOk(l: Lex, n: Lex) { StepShape(l, n) && StepText(n) }

  /** A step that ends in an error item. */
  lemma FailOk(l: Lex, n: Lex)
    requires n.input == l.input && Bounds(n) && 1 <= |n.items| <= 2 && n.items[0] == Item(ItemError, REJECTED)
    ensures StepOk(l, n) == true
  {
  }

  predicate At(l: Lex, s: StateFn) { Bounds(l) && l.items == [] && l.state == s }

  // Document structure, names, arrays, comments.

  lemma TopStep(l: Lex)
    requires At(l, Top) && l.stack == []
    ensures StepOk(l, StepTop(l)) == true
  {
    assert l.stack + [Top] == [Top] && l.stack + [TopEnd] == [TopEnd];
  }

  lemma TopEndStep(l: Lex)
    requires At(l, TopEnd) && l.stack == []
    ensures StepOk(l, StepTopEnd(l)) == true
  {
    assert [] + [Top] == [Top];
  }

  lemma TableStartStep(l: Lex)
    requires At(l, TableStart) && l.stack == []
    ensures StepOk(l, StepTableStart(l)) == true
  {
    assert [] + [TableEnd] == [TableEnd] && [] + [ArrayTableEnd] == [ArrayTableEnd];
  }

  lemma TableEndStep(l: Lex)
    requires At(l, TableEnd) && l.stack == []
    ensures StepOk(l, Goto(Emit(l, ItemTableEnd), TopEnd)) == true
  {
  }

  lemma ArrayTableEndStep(l: Lex)
    requires At(l, ArrayTableEnd) && l.stack == []
    ensures StepOk(l, StepArrayTableEnd(l)) == true
  {
  }

  lemma TableNameStartStep(l: Lex)
    requires At(l, TableNameStart) && TableStack(l.stack) && !IsWhitespace(Ahead(l, 0))
    ensures StepOk(l, StepTableNameStart(l)) == true
  {
  }

  /** The end of a bare name. */
  lemma NameEmitted(l: Lex, m: Lex, text: string, next: StateFn)
    requires Bounds(l) && l.items == [] && m == l.(pos := m.pos) && l.pos <= m.pos <= |l.input|
    requires
      || (l.state == BareTableName && TableStack(l.stack) && next == TableNameEnd)
      || (l.state == BareKey && l.stack == [TopEnd] && next == KeyEnd)
    ensures StepOk(l, Goto(EmitText(m, ItemText, text), next)) == true
  {
  }

  lemma BareTableNameStep(l: Lex)
    requires At(l, BareTableName) && TableStack(l.stack)
    ensures StepOk(l, StepBareTableName(l)) == true
  {
    var c := Ahead(l, 0);
    if c == '.' || c == ']' {
      NameEmitted(l, l, TrimSpace(Current(l)), TableNameEnd);
    }
  }

  lemma TableNameEndStep(l: Lex)
    requires At(l, TableNameEnd) && TableStack(l.stack)
    ensures StepOk(l, StepTableNameEnd(l)) == true
  {
  }

  lemma KeyStartStep(l: Lex)
    requires At(l, KeyStart) && l.stack == [TopEnd]
    ensures StepOk(l, StepKeyStart(l)) == true
  {
    assert l.stack + [KeyEnd] == [TopEnd, KeyEnd];
  }

  lemma BareKeyStep(l: Lex)
    requires At(l, BareKey) && l.stack == [TopEnd]
    ensures StepOk(l, StepBareKey(l)) == true
  {
    var c := Ahead(l, 0);
    var m := if IsWhitespace(c) then Adv(l, 1) else l;
    if IsWhitespace(c) || c == '=' {
      NameEmitted(l, m, TrimSpace(Current(m)), KeyEnd);
    }
  }

  lemma KeyEndStep(l: Lex)
    requires At(l, KeyEnd) && l.stack == [TopEnd]
    ensures StepOk(l, StepKeyEnd(l)) == true
  {
  }

  /** Moves inside an array that emit nothing. */
  lemma ArrayMoves(l: Lex, m: Lex, s: StateFn)
    requires Bounds(l) && l.items == [] && ValueStack(l.stack) && m == l.(pos := l.pos + 1, state := s) && Bounds(m)
    requires l.state == ArrayValue || l.state == ArrayValueEnd
    requires s == ArrayEnd || s == Skip(ArrayValue) || s == Skip(ArrayValueEnd)
    ensures StepOk(l, m) == true
  {
  }

  lemma ArrayComment(l: Lex, m: Lex)
    requires Bounds(l) && l.items == [] && ValueStack(l.stack)
    requires l.state == ArrayValue || l.state == ArrayValueEnd
    requires m == l.(pos := l.pos + 1, state := CommentStart, stack := l.stack + [l.state]) && Bounds(m)
    ensures StepOk(l, m) == true
  {
    assert m.stack[..|l.stack|] == l.stack;
  }

  lemma ArrayElement(l: Lex, m: Lex)
    requires At(l, ArrayValue) && ValueStack(l.stack) && l.start == l.pos
    requires m == l.(state := Value, stack := l.stack + [ArrayValueEnd])
    ensures StepOk(l, m) == true
  {
  }

  lemma ArrayValueStep(l: Lex)
    requires At(l, ArrayValue) && ValueStack(l.stack) && l.start == l.pos
    ensures StepOk(l, StepArrayValue(l)) == true
  {
    var c := Ahead(l, 0);
    var n := StepArrayValue(l);
    if IsWhitespace(c) || IsNL(c) {
      ArrayMoves(l, n, Skip(ArrayValue));
    } else if c == '#' {
      ArrayComment(l, n);
    } else if c == ',' {
      FailOk(l, n);
    } else if c == ']' {
      ArrayMoves(l, n, ArrayEnd);
    } else {
      ArrayElement(l, n);
    }
  }

  lemma ArrayComma(l: Lex, m: Lex)
    requires At(l, ArrayValueEnd) && ValueStack(l.stack)
    requires m == l.(start := l.pos + 1, pos := l.pos + 1, state := ArrayValue) && Bounds(m)
    ensures StepOk(l, m) == true
  {
  }

  lemma ArrayValueEndStep(l: Lex)
    requires At(l, ArrayValueEnd) && ValueStack(l.stack) && l.start == l.pos
    ensures StepOk(l, StepArrayValueEnd(l)) == true
  {
    var c := Ahead(l, 0);
    var n := StepArrayValueEnd(l);
    if IsWhitespace(c) || IsNL(c) {
      ArrayMoves(l, n, Skip(ArrayValueEnd));
    } else if c == '#' {
      ArrayComment(l, n);
    } else if c == ',' {
      ArrayComma(l, n);
    } else if c == ']' {
      ArrayMoves(l, n, ArrayEnd);
    } else {
      FailOk(l, n);
    }
  }

  lemma ArrayEndStep(l: Lex)
    requires At(l, ArrayEnd) && ValueStack(l.stack)
    ensures StepOk(l, StepArrayEnd(l)) == true
  {
  }

  lemma CommentStartStep(l: Lex)
    requires At(l, CommentStart) && CommentStack(l.stack)
    ensures StepOk(l, Goto(EmitText(l, ItemCommentStart, ""), Comment)) == true
  {
  }

  lemma CommentStep(l: Lex)
    requires At(l, Comment) && CommentStack(l.stack)
    ensures StepOk(l, StepComment(l)) == true
  {
  }

  lemma SkipStep(l: Lex, s: StateFn)
    requires At(l, Skip(s)) && ShapeOf(l)
    ensures StepOk(l, Goto(Ignore(l), s)) == true
  {
  }

  /** Reading one more character of a token. */
  lemma Extend(l: Lex)
    requires Bounds(l) && l.pos < |l.input|
    ensures Bounds(Adv(l, 1)) && Current(Adv(l, 1)) == Current(l) + [Ahead(l, 0)]
  {
  }

  lemma QuotedStep(l: Lex)
    requires At(l, Value) && StringStack(l.stack) && QuoteAhead(l) && EndsInNewline(l.input)
    ensures StepOk(l, StepValue(l)) == true
  {
  }

  lemma WordGoesOn(l: Lex, m: Lex, s: StateFn)
    requires At(l, Value) && ValueStack(l.stack) && m == l.(pos := l.pos + 1, state := s) && Bounds(m)
    requires s == NumberStart || s == True || s == False
    requires Pending(s, m.stack, Current(m), Within(m))
    ensures StepOk(l, m) == true
  {
  }

  lemma WordBegins(l: Lex, c: char, s: StateFn)
    requires l.start == l.pos && Bounds(l) && c == Ahead(l, 0)
    requires (c == '-' && s == NumberStart) || (c == 't' && s == True) || (c == 'f' && s == False)
    ensures StepValue(l) == Goto(Adv(l, 1), s) && Bounds(Adv(l, 1)) && Current(Adv(l, 1)) == [c]
  {
    Extend(l);
    assert Current(l) == "" && "" + [c] == [c];
  }

  lemma WordStep(l: Lex, c: char)
    requires At(l, Value) && ValueStack(l.stack) && l.start == l.pos
    requires c == Ahead(l, 0) && (c == '-' || c == 't' || c == 'f')
    ensures StepOk(l, StepValue(l)) == true
  {
    var s := if c == '-' then NumberStart else if c == 't' then True else False;
    var m := Goto(Adv(l, 1), s);
    WordBegins(l, c, s);
    MinusText([c]);
    WordGoesOn(l, m, s);
  }

  lemma MinusText(t: string)
    ensures t == "-" ==> NumOf(t) == Minus
  {
    if t == "-" {
      assert t[..0] == "";
    }
  }

  lemma ValueStep(l: Lex)
    requires At(l, Value) && ValueStack(l.stack) && l.start == l.pos
    requires !QuoteAhead(l) && Ahead(l, 0) != '-' && Ahead(l, 0) != 't' && Ahead(l, 0) != 'f'
    ensures StepOk(l, StepValue(l)) == true
  {
  }

  // Ends of scalars and names.

  /** `m` is `l` after emitting the item `it`. */
  predicate Emitted(l: Lex, m: Lex, it: Item) {
    && m == l.(start := m.start, pos := m.pos, items := [it])
    && l.pos <= m.pos == m.start <= |l.input|
    && (l.pos < m.pos || Rank(l.state) > 5)
    && PhaseOf(l) == ValuePhase(l.stack)
    && ItemOk(it)
  }

  lemma ScalarDone(l: Lex, m: Lex, it: Item)
    requires Emitted(l, m, it) && IsScalarType(it.typ) && ValueStack(l.stack)
    ensures StepOk(l, Pop(m)) == true
  {
    if |l.stack| == 1 {
      assert l.stack == [TopEnd];
    }
  }

  lemma NameDone(l: Lex, m: Lex, it: Item)
    requires Emitted(l, m, it) && IsStringType(it.typ) && NameStack(l.stack)
    ensures StepOk(l, Pop(m)) == true
  {
    assert l.stack[..1] == [l.stack[0]];
  }

  lemma EmitsScalar(l: Lex, m: Lex, typ: ItemType)
    requires Bounds(l) && l.items == [] && ValueStack(l.stack) && IsScalarType(typ)
    requires PhaseOf(l) == ValuePhase(l.stack)
    requires m == l.(pos := m.pos) && Bounds(m) && (l.pos < m.pos || (l.pos == m.pos && Rank(l.state) > 5))
    requires ItemOk(Item(typ, Current(m)))
    ensures StepOk(l, Pop(Emit(m, typ))) == true
  {
    var it := Item(typ, Current(m));
    assert [] + [it] == [it];
    ScalarDone(l, Emit(m, typ), it);
  }

  // Strings.

  /** A single-line token has not reached the end: the last character is a newline. */
  lemma BeforeEnd(l: Lex)
    requires Bounds(l) && EndsInNewline(l.input) && NoNewline(Current(l)) && Within(l)
    ensures l.pos < |l.input|
  {
    forall i | l.start <= i < l.pos
      ensures !IsNL(l.input[i])
    {
      assert l.input[i] == Current(l)[i - l.start];
    }
  }

  lemma CloseStep(l: Lex, typ: ItemType, k: nat)
    requires Bounds(l) && l.items == [] && StringStack(l.stack) && IsStringType(typ)
    requires PhaseOf(l) == ValuePhase(l.stack)
    requires 0 < k && l.pos + k <= |l.input|
    requires typ == ItemString ==> ScanOf(Current(l)) == Plain
    ensures StepOk(l, CloseString(l, typ, k)) == true
  {
    var it := Item(typ, Current(l));
    var m := Ignore(Adv(Emit(l, typ), k));
    assert [] + [it] == [it];
    if NameStack(l.stack) {
      NameDone(l, m, it);
    } else {
      ScalarDone(l, m, it);
    }
  }

  lemma StrGoesOn(l: Lex)
    requires At(l, Str) && StringStack(l.stack) && l.pos < |l.input| && Ahead(l, 0) != '"'
    requires Within(l) && ScanOf(Current(l)) == Plain && NoNewline(Current(l))
    ensures StepOk(l, StepStr(l)) == true
  {
    var c := Ahead(l, 0);
    if IsNL(c) {
      FailOk(l, StepStr(l));
    } else {
      Extend(l);
      ScanExtends(Current(l), c);
      if c == '\\' {
        StrEscapes(l, Adv(l, 1));
      } else {
        StrContinues(l, Adv(l, 1));
      }
    }
  }

  lemma StrContinues(l: Lex, m: Lex)
    requires At(l, Str) && StringStack(l.stack) && m == l.(pos := l.pos + 1) && Bounds(m)
    requires Within(m) && ScanOf(Current(m)) == Plain && NoNewline(Current(m))
    ensures StepOk(l, m) == true
  {
  }

  lemma StrEscapes(l: Lex, m: Lex)
    requires At(l, Str) && StringStack(l.stack) && m == l.(pos := l.pos + 1) && Bounds(m)
    requires Within(m) && ScanOf(Current(m)) == Slash && NoNewline(Current(m))
    ensures StepOk(l, Goto(Push(m, Str), StrEscape)) == true
  {
    assert (l.stack + [Str])[..|l.stack|] == l.stack;
  }

  lemma StrStep(l: Lex)
    requires At(l, Str) && StringStack(l.stack) && EndsInNewline(l.input)
    requires Within(l) && ScanOf(Current(l)) == Plain && NoNewline(Current(l))
    ensures StepOk(l, StepStr(l)) == true
  {
    BeforeEnd(l);
    if Ahead(l, 0) == '"' {
      CloseStep(l, ItemString, 1);
    } else {
      StrGoesOn(l);
    }
  }

  lemma RawStrStep(l: Lex)
    requires At(l, RawStr) && StringStack(l.stack) && EndsInNewline(l.input)
    requires Within(l) && NoNewline(Current(l))
    ensures StepOk(l, StepRawStr(l)) == true
  {
    BeforeEnd(l);
    Extend(l);
    if Ahead(l, 0) == '\'' {
      CloseStep(l, ItemRawString, 1);
    }
  }

  lemma MultilineStrStep(l: Lex)
    requires At(l, MultilineStr) && StringStack(l.stack) && l.pos < |l.input|
    ensures StepOk(l, StepMultilineStr(l)) == true
  {
    if Ahead(l, 0) == '"' && Ahead(l, 1) == '"' && Ahead(l, 2) == '"' {
      CloseStep(l, ItemMultilineString, 3);
    }
  }

  lemma MultilineRawStrStep(l: Lex)
    requires At(l, MultilineRawStr) && StringStack(l.stack) && l.pos < |l.input|
    ensures StepOk(l, StepMultilineRawStr(l)) == true
  {
    if Ahead(l, 0) == '\'' && Ahead(l, 1) == '\'' && Ahead(l, 2) == '\'' {
      CloseStep(l, ItemRawMultilineString, 3);
    }
  }

  /** Returning from an escape to the string around it. */
  lemma EscapeDone(l: Lex, n: Lex)
    requires Bounds(l) && l.items == [] && EscapeStack(l.stack)
    requires PhaseOf(l) == ValuePhase(l.stack[..|l.stack| - 1])
    requires n == l.(pos := n.pos) && l.pos < n.pos <= |l.input| && Rank(l.state) == 1
    requires Escaping(n.stack, Current(n), Within(n), Plain)
    ensures StepOk(l, Pop(n)) == true
  {
  }

  lemma EscapeExtends(l: Lex, scan: Scan)
    requires Bounds(l) && l.pos < |l.input| && Escaping(l.stack, Current(l), Within(l), scan) && !IsNL(Ahead(l, 0))
    ensures Escaping(l.stack, Current(Adv(l, 1)), Within(l), ScanNext(scan, Ahead(l, 0)))
  {
    Extend(l);
    ScanExtends(Current(l), Ahead(l, 0));
  }

  lemma StrEscapeStep(l: Lex)
    requires At(l, StrEscape) && EscapeStack(l.stack) && Escaping(l.stack, Current(l), Within(l), Slash)
    ensures StepOk(l, StepStrEscape(l)) == true
  {
    var c := Ahead(l, 0);
    if IsSimpleEscape(c) {
      EscapeExtends(l, Slash);
      EscapeDone(l, Adv(l, 1));
    } else if c == 'u' || c == 'U' {
      EscapeExtends(l, Slash);
      HexStarts(l, Adv(l, 1), if c == 'u' then ShortUnicodeEscape else LongUnicodeEscape);
    } else {
      FailOk(l, StepStrEscape(l));
    }
  }

  lemma HexStarts(l: Lex, m: Lex, s: StateFn)
    requires At(l, StrEscape) && EscapeStack(l.stack) && (s == ShortUnicodeEscape || s == LongUnicodeEscape)
    requires m == l.(pos := l.pos + 1) && Bounds(m)
    requires Escaping(m.stack, Current(m), Within(m), Hex(if s == ShortUnicodeEscape then 4 else 8))
    ensures StepOk(l, Goto(m, s)) == true
  {
  }

  lemma StrEscapeAnyState(l: Lex, s: StateFn)
    ensures StepStrEscape(Goto(l, s)) == StepStrEscape(l)
  {
  }

  /** What a step promises about `l` it promises about every place with the same phase. */
  lemma SamePlace(m: Lex, l: Lex, n: Lex)
    requires m.input == l.input && PhaseOf(m) == PhaseOf(l) && Measure(m) == Measure(l) && StepOk(m, n)
    ensures StepOk(l, n) == true
  {
  }

  lemma PushedEscapeStep(l: Lex)
    requires At(l, MultilineStrEscape) && StringStack(l.stack)
    ensures StepOk(l, StepStrEscape(Push(l, MultilineStr))) == true
  {
    var m := Goto(Push(l, MultilineStr), StrEscape);
    assert m.stack[..|l.stack|] == l.stack;
    StrEscapeAnyState(Push(l, MultilineStr), StrEscape);
    StrEscapeStep(m);
    SamePlace(m, l, StepStrEscape(m));
  }

  lemma MultilineStrEscapeStep(l: Lex)
    requires At(l, MultilineStrEscape) && StringStack(l.stack)
    ensures StepOk(l, StepMultilineStrEscape(l)) == true
  {
    if !IsNL(Ahead(l, 0)) {
      PushedEscapeStep(l);
    }
  }

  lemma SliceFirst(s: string, i: nat, j: nat)
    requires i < j <= |s|
    ensures s[i..j] == [s[i]] + s[i + 1..j]
  {
  }

  /** The pending text at a later position. */
  lemma CurrentGrows(l: Lex, m: Lex)
    requires Bounds(l) && m == l.(pos := m.pos) && l.pos <= m.pos <= |l.input|
    ensures Current(m) == Current(l) + l.input[l.pos..m.pos]
  {
  }

  /** StepHex either fails or reads exactly `k` hexadecimal digits and pops. */
  lemma {:induction false} HexOutcome(l: Lex, k: nat)
    requires Bounds(l)
    ensures var n := StepHex(l, k); var m := l.(pos := l.pos + k);
      || (Bounds(n) && n == Fail(l.(pos := n.pos), REJECTED))
      || (Bounds(m) && n == Pop(m) && AllHex(l.input[l.pos..m.pos]))
    decreases k
  {
    if k > 0 && IsHexadecimal(Ahead(l, 0)) {
      HexOutcome(Adv(l, 1), k - 1);
      if l.pos + k <= |l.input| {
        SliceFirst(l.input, l.pos, l.pos + k);
      }
    }
  }

  lemma {:induction false} HexScan(t: string, d: string)
    requires ScanOf(t) == Hex(|d|) && |d| > 0 && AllHex(d) && NoNewline(t)
    ensures ScanOf(t + d) == Plain && NoNewline(t + d)
    decreases |d|
  {
    ScanExtends(t, d[0]);
    assert t + [d[0]] + d[1..] == t + d;
    if |d| > 1 {
      HexScan(t + [d[0]], d[1..]);
    } else {
      assert t + d == t + [d[0]];
    }
  }

  lemma HexStep(l: Lex, k: nat)
    requires Bounds(l) && l.items == [] && EscapeStack(l.stack) && k > 0
    requires l.state == ShortUnicodeEscape || l.state == LongUnicodeEscape
    requires Escaping(l.stack, Current(l), Within(l), Hex(k))
    ensures StepOk(l, StepHex(l, k)) == true
  {
    HexOutcome(l, k);
    var n := StepHex(l, k);
    if Bounds(n) && n == Fail(l.(pos := n.pos), REJECTED) {
      FailOk(l, n);
    } else {
      HexDone(l, l.(pos := l.pos + k), k);
    }
  }

  lemma HexDone(l: Lex, m: Lex, k: nat)
    requires Bounds(l) && l.items == [] && EscapeStack(l.stack) && k > 0
    requires l.state == ShortUnicodeEscape || l.state == LongUnicodeEscape
    requires Escaping(l.stack, Current(l), Within(l), Hex(k))
    requires m == l.(pos := l.pos + k) && Bounds(m) && AllHex(l.input[l.pos..m.pos])
    ensures StepOk(l, Pop(m)) == true
  {
    HexEscaping(l, m, k);
    EscapeDone(l, m);
  }

  lemma HexEscaping(l: Lex, m: Lex, k: nat)
    requires Bounds(l) && EscapeStack(l.stack) && k > 0 && Escaping(l.stack, Current(l), Within(l), Hex(k))
    requires m == l.(pos := l.pos + k) && Bounds(m) && AllHex(l.input[l.pos..m.pos])
    ensures Escaping(m.stack, Current(m), Within(m), Plain)
  {
    if l.stack[|l.stack| - 1] == Str {
      HexScan(Current(l), l.input[l.pos..m.pos]);
      CurrentGrows(l, m);
    }
  }

  // Numbers, dates, booleans.

  predicate InNumberOrDate(s: StateFn) {
    || s == NumberOrDateStart || s == NumberOrDate || s == DateAfterYear
    || s == NumberStart || s == Number || s == FloatStart || s == Float
  }

  /** One more character inside a number or date. */
  lemma NumberGoesOn(l: Lex, s: StateFn)
    requires Bounds(l) && l.items == [] && InNumberOrDate(l.state) && InNumberOrDate(s) && ValueStack(l.stack)
    requires l.pos < |l.input| && Pending(s, l.stack, Current(l) + [Ahead(l, 0)], Within(l))
    ensures StepOk(l, Goto(Adv(l, 1), s)) == true
  {
    Extend(l);
  }

  lemma StartDigitStep(l: Lex, s: StateFn)
    requires Bounds(l) && l.items == [] && ValueStack(l.stack)
    requires
      || (l.state == NumberOrDateStart && s == NumberOrDate && l.start == l.pos)
      || (l.state == NumberStart && s == Number && NumOf(Current(l)) == Minus)
      || (l.state == FloatStart && s == Float && NumOf(Current(l)) == Dot)
    ensures StepOk(l, StepDigit(l, s)) == true
  {
    if IsDigit(Ahead(l, 0)) {
      NumExtends(Current(l), Ahead(l, 0));
      NumberGoesOn(l, s);
    } else {
      FailOk(l, StepDigit(l, s));
    }
  }

  lemma NumberOrDateStep(l: Lex)
    requires At(l, NumberOrDate) && ValueStack(l.stack)
    requires NumOf(Current(l)) == Whole && AllDigits(Current(l))
    ensures StepOk(l, StepNumberOrDate(l)) == true
  {
    var c := Ahead(l, 0);
    if c == '-' || IsDigit(c) || c == '.' {
      NumExtends(Current(l), c);
      if c == '.' {
        NumberGoesOn(l, FloatStart);
      } else if IsDigit(c) {
        NumberGoesOn(l, NumberOrDate);
      } else if l.pos + 1 - l.start == 5 {
        NumberGoesOn(l, DateAfterYear);
      }
    } else {
      EmitsScalar(l, l, ItemInteger);
    }
  }

  lemma NumberStep(l: Lex)
    requires At(l, Number) && ValueStack(l.stack) && NumOf(Current(l)) == Whole
    ensures StepOk(l, StepNumber(l)) == true
  {
    var c := Ahead(l, 0);
    if IsDigit(c) || c == '.' {
      NumExtends(Current(l), c);
      NumberGoesOn(l, if c == '.' then FloatStart else Number);
    } else {
      EmitsScalar(l, l, ItemInteger);
    }
  }

  lemma FloatStep(l: Lex)
    requires At(l, Float) && ValueStack(l.stack) && NumOf(Current(l)) == Fraction
    ensures StepOk(l, StepFloat(l)) == true
  {
    if IsDigit(Ahead(l, 0)) {
      NumExtends(Current(l), Ahead(l, 0));
      NumberGoesOn(l, Float);
    } else {
      EmitsScalar(l, l, ItemFloat);
    }
  }

  /** StepDate either fails or reads text of the given format and emits. */
  lemma {:induction false} DateOutcome(l: Lex, format: string)
    requires Bounds(l) && forall i | 0 <= i < |format| :: format[i] != EOF
    ensures var n := StepDate(l, format); var k := |format|;
      || (Bounds(n) && n == Fail(l.(pos := n.pos), REJECTED))
      || (l.pos + k <= |l.input| && n == Pop(Emit(l.(pos := l.pos + k), ItemDatetime))
          && FitsFormat(l.input[l.pos..l.pos + k], format))
    decreases |format|
  {
    if format != "" && FormatChar(format[0], Ahead(l, 0)) {
      DateOutcome(Adv(l, 1), format[1..]);
      var k := |format|;
      if l.pos + k <= |l.input| {
        SliceFirst(l.input, l.pos, l.pos + k);
      }
    }
  }

  lemma DateIsText(y: string, d: string)
    requires YearText(y) && FitsFormat(d, DATE_FORMAT)
    ensures ItemOk(Item(ItemDatetime, y + d))
  {
    assert (y + d)[..5] == y && (y + d)[5..] == d;
  }

  lemma DateStep(l: Lex, format: string)
    requires At(l, DateAfterYear) && ValueStack(l.stack) && YearText(Current(l))
    requires format == DATE_FORMAT && forall i | 0 <= i < |format| :: format[i] != EOF
    ensures StepOk(l, StepDate(l, format)) == true
  {
    DateOutcome(l, format);
    var n := StepDate(l, format);
    if Bounds(n) && n == Fail(l.(pos := n.pos), REJECTED) {
      FailOk(l, n);
    } else {
      var m := l.(pos := l.pos + |format|);
      DateIsText(Current(l), l.input[l.pos..m.pos]);
      DateDone(l, m, Current(l) + l.input[l.pos..m.pos]);
    }
  }

  lemma DateDone(l: Lex, m: Lex, text: string)
    requires At(l, DateAfterYear) && ValueStack(l.stack)
    requires m == l.(pos := m.pos) && Bounds(m) && l.pos < m.pos
    requires text == Current(l) + l.input[l.pos..m.pos] && ItemOk(Item(ItemDatetime, text))
    ensures StepOk(l, Pop(Emit(m, ItemDatetime))) == true
  {
    CurrentGrows(l, m);
    EmitsScalar(l, m, ItemDatetime);
  }

  /** StepConst emits an error first unless it reads exactly `rest`. */
  lemma {:induction false} ConstOutcome(l: Lex, rest: string)
    requires Bounds(l) && l.items == [] && l.stack != []
    requires forall i | 0 <= i < |rest| :: rest[i] != EOF
    ensures var n := StepConst(l, rest); var k := |rest|;
      || (Bounds(n) && n.input == l.input && |n.items| == 2 && n.items[0] == Item(ItemError, REJECTED))
      || (l.pos + k <= |l.input| && n == Pop(Emit(l.(pos := l.pos + k), ItemBool))
          && l.input[l.pos..l.pos + k] == rest)
    decreases |rest|
  {
    if rest != "" && Ahead(l, 0) == rest[0] {
      ConstOutcome(Adv(l, 1), rest[1..]);
      var k := |rest|;
      if l.pos + k <= |l.input| {
        SliceFirst(l.input, l.pos, l.pos + k);
      }
    }
  }

  lemma ConstStep(l: Lex, rest: string, word: string)
    requires Bounds(l) && l.items == [] && (l.state == True || l.state == False) && ValueStack(l.stack)
    requires rest != "" && forall i | 0 <= i < |rest| :: rest[i] != EOF
    requires Current(l) + rest == word && ItemOk(Item(ItemBool, word))
    ensures StepOk(l, StepConst(l, rest)) == true
  {
    ConstOutcome(l, rest);
    var n := StepConst(l, rest);
    if Bounds(n) && n.input == l.input && |n.items| == 2 && n.items[0] == Item(ItemError, REJECTED) {
      FailOk(l, n);
    } else {
      ConstDone(l, l.(pos := l.pos + |rest|), rest, word);
    }
  }

  lemma ConstDone(l: Lex, m: Lex, rest: string, word: string)
    requires Bounds(l) && l.items == [] && (l.state == True || l.state == False) && ValueStack(l.stack)
    requires m == l.(pos := l.pos + |rest|) && Bounds(m) && rest != "" && l.input[l.pos..m.pos] == rest
    requires Current(l) + rest == word && ItemOk(Item(ItemBool, word))
    ensures StepOk(l, Pop(Emit(m, ItemBool))) == true
  {
    CurrentGrows(l, m);
    EmitsScalar(l, m, ItemBool);
  }

  // The dispatch.

  predicate Ready(l: Lex) { Inv(l) && !Stuck(l) && l.state != Halt }

  lemma ScalarStep(l: Lex)
    requires Ready(l) && (InNumberOrDate(l.state) || l.state == True || l.state == False)
    ensures StepOk(l, StepScalar(l)) == true
  {
    match l.state
    case NumberOrDateStart => StartDigitStep(l, NumberOrDate);
    case NumberOrDate => NumberOrDateStep(l);
    case DateAfterYear => DateStep(l, DATE_FORMAT);
    case NumberStart => StartDigitStep(l, Number);
    case Number => NumberStep(l);
    case FloatStart => StartDigitStep(l, Float);
    case Float => FloatStep(l);
    case True =>
      assert "t" + "rue" == "true";
      ConstStep(l, "rue", "true");
    case False =>
      assert "f" + "alse" == "false";
      ConstStep(l, "alse", "false");
  }

  predicate InString(s: StateFn) {
    || s == Str || s == MultilineStr || s == RawStr || s == MultilineRawStr
    || s == MultilineStrEscape || s == StrEscape || s == ShortUnicodeEscape || s == LongUnicodeEscape
  }

  lemma StringStep(l: Lex)
    requires Ready(l) && InString(l.state)
    ensures StepOk(l, StepString(l)) == true
  {
    match l.state
    case Str => StrStep(l);
    case MultilineStr => MultilineStrStep(l);
    case RawStr => RawStrStep(l);
    case MultilineRawStr => MultilineRawStrStep(l);
    case MultilineStrEscape => MultilineStrEscapeStep(l);
    case StrEscape => StrEscapeStep(l);
    case ShortUnicodeEscape => HexStep(l, 4);
    case LongUnicodeEscape => HexStep(l, 8);
  }

  predicate InElement(s: StateFn) {
    || s == Value || s == ArrayValue || s == ArrayValueEnd || s == ArrayEnd
    || s == CommentStart || s == Comment || s.Skip?
  }

  lemma ElementStep(l: Lex)
    requires Ready(l) && InElement(l.state)
    ensures StepOk(l, StepElement(l)) == true
  {
    match l.state
    case Value =>
      var c := Ahead(l, 0);
      if QuoteAhead(l) {
        QuotedStep(l);
      } else if c == '-' || c == 't' || c == 'f' {
        WordStep(l, c);
      } else {
        ValueStep(l);
      }
    case ArrayValue => ArrayValueStep(l);
    case ArrayValueEnd => ArrayValueEndStep(l);
    case ArrayEnd => ArrayEndStep(l);
    case CommentStart => CommentStartStep(l);
    case Comment => CommentStep(l);
    case Skip(s) => SkipStep(l, s);
  }

  predicate InDocument(s: StateFn) {
    || s == Top || s == TopEnd || s == TableStart || s == TableEnd || s == ArrayTableEnd
    || s == TableNameStart || s == BareTableName || s == TableNameEnd
    || s == KeyStart || s == BareKey || s == KeyEnd
  }

  lemma DocumentStep(l: Lex)
    requires Ready(l) && InDocument(l.state)
    ensures StepOk(l, StepDocument(l)) == true
  {
    match l.state
    case Top => TopStep(l);
    case TopEnd => TopEndStep(l);
    case TableStart => TableStartStep(l);
    case TableEnd => TableEndStep(l);
    case ArrayTableEnd => ArrayTableEndStep(l);
    case TableNameStart => TableNameStartStep(l);
    case BareTableName => BareTableNameStep(l);
    case TableNameEnd => TableNameEndStep(l);
    case KeyStart => KeyStartStep(l);
    case BareKey => BareKeyStep(l);
    case KeyEnd => KeyEndStep(l);
  }

  /** One step from any configuration that is kept: the stack never runs dry, the
      emitted item is one the parser expects there, and the measure falls. */
  lemma StepKeeps(l: Lex)
    requires Ready(l)
    ensures StepOk(l, Step(l)) == true
  {
    if InDocument(l.state) {
      DocumentStep(l);
    } else if InElement(l.state) {
      ElementStep(l);
    } else if InString(l.state) {
      StringStep(l);
    } else {
      ScalarStep(l);
    }
  }

  // ----- nextItem -----

  lemma InitKeeps(data: string)
    ensures Inv(Init(data))
  {
  }

  /** Configurations that are kept; the lexer starts in one. */
  type Live = l: Lex | Inv(l) witness (InitKeeps(""); Init(""))

  /** The contract between lexer and parser for one item, fetched in `l`: it fits where
      the parser stands, its text is well formed, and the lexer goes on in `n`. */
  predicate Delivered(l: Live, it: Item, n: Live) {
    && ItemOk(it) && Allowed(PhaseOf(l), it.typ)
    && PhaseOf(n) == After(PhaseOf(l), it.typ)
    && n.input == l.input && Measure(n) < Measure(l)
  }

  /** What nextItem delivers: an item, an error item, or it never returns. */
  datatype Fetched = Got(item: Item, lex: Live) | Failed(msg: string) | Spins

  lemma Progress(l: Lex, n: Lex)
    requires Inv(l) && StepOk(l, n)
    ensures n.items == [] ==> (Inv(n) && LeadsOn(PhaseOf(l), PhaseOf(n)) && Measure(n) < Measure(l) && n.input == l.input) == true
    ensures n.items != [] && n.items[0].typ != ItemError ==>
      var m := n.(items := []); Inv(m) == true && Delivered(l, n.items[0], m) == true
    ensures n.items != [] && n.items[0].typ == ItemError ==> n.items[0].val != NO_STATES
  {
  }

  /** nextItem: run states until an item is queued, then take the oldest. */
  function Fetch(l: Live): Fetched
    requires PhaseOf(l) != Done
    decreases Measure(l)
  {
    if Stuck(l) then Spins
    else
      var n := Step(l);
      StepKeeps(l);
      Progress(l, n);
      if n.items == [] then Fetch(n)
      else if n.items[0].typ == ItemError then Failed(n.items[0].val)
      else Got(n.items[0], n.(items := n.items[1..]))
  }

  lemma AllowedOn(p: Phase, q: Phase, t: ItemType)
    requires LeadsOn(p, q) && Allowed(q, t)
    ensures Allowed(p, t) && After(p, t) == After(q, t)
  {
  }

  lemma DeliveredOn(l: Live, n: Live, f: Fetched)
    requires LeadsOn(PhaseOf(l), PhaseOf(n)) && Measure(n) < Measure(l) && n.input == l.input
    requires f.Got? ==> Delivered(n, f.item, f.lex)
    ensures f.Got? ==> Delivered(l, f.item, f.lex) == true
  {
    if f.Got? {
      AllowedOn(PhaseOf(l), PhaseOf(n), f.item.typ);
    }
  }

  /** Every item is one the parser expects where it stands, and no error is the lexer's
      own "no states to pop". */
  lemma {:induction false} FetchDelivers(l: Live)
    requires PhaseOf(l) != Done
    ensures Fetch(l).Got? ==> Delivered(l, Fetch(l).item, Fetch(l).lex) == true
    ensures Fetch(l).Failed? ==> Fetch(l).msg != NO_STATES
    decreases Measure(l)
  {
    if !Stuck(l) {
      var n := Step(l);
      StepKeeps(l);
      Progress(l, n);
      if n.items == [] {
        FetchDelivers(n);
        DeliveredOn(l, n, Fetch(n));
      }
    }
  }

  /** The fetch delivers the item `it` and leaves the lexer in `n`. */
  predicate Gets(f: Fetched, it: Item, n: Lex) { f.Got? && f.item == it && f.lex == n }

  /** Items are queued in `n`, and `f` is what taking the oldest gives. */
  predicate Announces(f: Fetched, n: Lex) {
    && n.items != []
    && if n.items[0].typ == ItemError then f == Failed(n.items[0].val)
       else Gets(f, n.items[0], n.(items := n.items[1..]))
  }

  /** One round of the loop in nextItem. */
  predicate GoesOn(l: Live, n: Lex)
    requires PhaseOf(l) != Done
  { Inv(n) && PhaseOf(n) != Done && LeadsOn(PhaseOf(l), PhaseOf(n)) && Fetch(l) == Fetch(n) && Measure(n) < Measure(l) }

  lemma FetchRound(l: Live)
    requires PhaseOf(l) != Done && !Stuck(l)
    ensures Step(l).items == [] ==> GoesOn(l, Step(l)) == true
    ensures Step(l).items != [] ==> Announces(Fetch(l), Step(l)) == true
  {
    StepKeeps(l);
    Progress(l, Step(l));
  }
}
