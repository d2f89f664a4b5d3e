/** The TOML lexer as an automaton on values.

    A configuration `Lex` holds the input, the start of the pending token, the read
    position, the current state function, the stack of continuations and the items that
    were emitted but not yet fetched.  `Step` is what one call of a state function does,
    stated by looking ahead at the input; it needs no `width` and never backs up.  The
    class in TomlLexerObject.dfy follows the program (next, backup, accept) and is proved
    to refine it.

    Characters have width one, and reading past the end gives the character EOF, which is
    also an ordinary (zero) character of the input. */
module TomlLexer {

  datatype ItemType =
    | ItemError | ItemEOF | ItemText
    | ItemString | ItemRawString | ItemMultilineString | ItemRawMultilineString
    | ItemBool | ItemInteger | ItemFloat | ItemDatetime
    | ItemArray | ItemArrayEnd
    | ItemTableStart | ItemTableEnd | ItemArrayTableStart | ItemArrayTableEnd
    | ItemKeyStart | ItemCommentStart

  datatype Item = Item(typ: ItemType, val: string)

  /** The state functions; `Skip(s)` is the closure returned by lexSkip and `Halt` is nil. */
  datatype StateFn =
    | Top | TopEnd | TableStart | TableEnd | ArrayTableEnd
    | TableNameStart | BareTableName | TableNameEnd
    | KeyStart | BareKey | KeyEnd
    | Value | ArrayValue | ArrayValueEnd | ArrayEnd
    | Str | MultilineStr | RawStr | MultilineRawStr
    | MultilineStrEscape | StrEscape | ShortUnicodeEscape | LongUnicodeEscape
    | NumberOrDateStart | NumberOrDate | DateAfterYear | NumberStart | Number
    | FloatStart | Float | True | False
    | CommentStart | Comment
    | Skip(to: StateFn) | Halt

  datatype Lex = Lex(input: string, start: nat, pos: nat, state: StateFn,
                     stack: seq<StateFn>, items: seq<Item>)

  const EOF: char := '\0'
  const NO_STATES := "BUG in lexer: no states to pop."
  const REJECTED := "lexical error"

  predicate IsWhitespace(c: char) { c == '\t' || c == ' ' }
  predicate IsNL(c: char) { c == '\n' || c == '\r' }
  predicate IsDigit(c: char) { '0' <= c <= '9' }
  predicate IsHexadecimal(c: char) { '0' <= c <= '9' || 'a' <= c <= 'f' || 'A' <= c <= 'F' }
  predicate IsBareKeyChar(c: char) {
    'A' <= c <= 'Z' || 'a' <= c <= 'z' || '0' <= c <= '9' || c == '_' || c == '-'
  }

  predicate IsSimpleEscape(c: char) {
    c == 'b' || c == 't' || c == 'n' || c == 'f' || c == 'r' || c == '"' || c == '\\'
  }

  /** Characters that strings.TrimSpace removes. */
  predicate IsSpace(c: char) {
    || c in "\t\n\U{B}\U{C}\r " || c == '\U{85}' || c == '\U{A0}' || c == '\U{1680}'
    || '\U{2000}' <= c <= '\U{200A}' || c in "\U{2028}\U{2029}\U{202F}\U{205F}\U{3000}"
  }

  function TrimLeft(s: string): (r: string)
    ensures |r| <= |s|
  {
    if s != "" && IsSpace(s[0]) then TrimLeft(s[1..]) else s
  }

  function TrimRight(s: string): string {
    if s != "" && IsSpace(s[|s| - 1]) then TrimRight(s[..|s| - 1]) else s
  }

  function TrimSpace(s: string): string { TrimRight(TrimLeft(s)) }

  function Init(data: string): Lex { Lex(data + "\n", 0, 0, Top, [], []) }

  /** The `k`-th character ahead of the read position. */
  function Ahead(l: Lex, k: nat): char {
    if l.pos + k < |l.input| then l.input[l.pos + k] else EOF
  }

  function Adv(l: Lex, k: nat): Lex {
    l.(pos := if l.pos + k <= |l.input| then l.pos + k else if l.pos <= |l.input| then |l.input| else l.pos)
  }

  function Current(l: Lex): string
    requires l.start <= l.pos <= |l.input|
  { l.input[l.start..l.pos] }

  function Goto(l: Lex, s: StateFn): Lex { l.(state := s) }
  function Ignore(l: Lex): Lex { l.(start := l.pos) }
  function Push(l: Lex, s: StateFn): Lex { l.(stack := l.stack + [s]) }

  function EmitText(l: Lex, typ: ItemType, text: string): Lex {
    l.(items := l.items + [Item(typ, text)], start := l.pos)
  }

  function Emit(l: Lex, typ: ItemType): Lex
    requires l.start <= l.pos <= |l.input|
  { EmitText(l, typ, Current(l)) }

  function Fail(l: Lex, msg: string): Lex {
    l.(items := l.items + [Item(ItemError, msg)], state := Halt)
  }

  function Pop(l: Lex): Lex {
    if l.stack == [] then Fail(l, NO_STATES)
    else l.(state := l.stack[|l.stack| - 1], stack := l.stack[..|l.stack| - 1])
  }

  /** The bounds every configuration keeps; all a single step needs to be defined. */
  predicate Bounds(l: Lex) { l.start <= l.pos <= |l.input| }

  // ----- document structure -----

  function StepTop(l: Lex): Lex
    requires Bounds(l)
  {
    var c := Ahead(l, 0);
    if IsWhitespace(c) || IsNL(c) then Goto(Adv(l, 1), Skip(Top))
    else if c == '#' then Goto(Push(Adv(l, 1), Top), CommentStart)
    else if c == '[' then Goto(Adv(l, 1), TableStart)
    else if c == EOF then
      if Adv(l, 1).pos > l.start then Fail(Adv(l, 1), REJECTED) else Goto(Emit(l, ItemEOF), Halt)
    else Goto(Push(l, TopEnd), KeyStart)
  }

  function StepTopEnd(l: Lex): Lex
    requires Bounds(l)
  {
    var c := Ahead(l, 0);
    var n := Adv(l, 1);
    if c == '#' then Goto(Push(n, Top), CommentStart)
    else if IsWhitespace(c) then n
    else if IsNL(c) || c == EOF then Goto(Ignore(n), Top)
    else Fail(n, REJECTED)
  }

  function StepTableStart(l: Lex): Lex
    requires Bounds(l)
  {
    if Ahead(l, 0) == '[' then
      Goto(Push(Emit(Adv(l, 1), ItemArrayTableStart), ArrayTableEnd), TableNameStart)
    else
      Goto(Push(Emit(l, ItemTableStart), TableEnd), TableNameStart)
  }

  function StepArrayTableEnd(l: Lex): Lex
    requires Bounds(l)
  {
    if Ahead(l, 0) == ']' then Goto(Emit(Adv(l, 1), ItemArrayTableEnd), TopEnd)
    else Fail(Adv(l, 1), REJECTED)
  }

  function StepTableNameStart(l: Lex): Lex
    requires Bounds(l)
  {
    var c := Ahead(l, 0);
    if c == ']' || c == EOF || c == '.' then Fail(l, REJECTED)
    else if c == '"' || c == '\'' then Goto(Push(Ignore(l), TableNameEnd), Value)
    else if IsWhitespace(c) then l
    else Goto(l, BareTableName)
  }

  function StepBareTableName(l: Lex): Lex
    requires Bounds(l)
  {
    var c := Ahead(l, 0);
    if IsBareKeyChar(c) then Adv(l, 1)
    else if c == '.' || c == ']' then Goto(EmitText(l, ItemText, TrimSpace(Current(l))), TableNameEnd)
    else Fail(Adv(l, 1), REJECTED)
  }

  function StepTableNameEnd(l: Lex): Lex
    requires Bounds(l)
  {
    var c := Ahead(l, 0);
    var n := Adv(l, 1);
    if IsWhitespace(c) then n
    else if c == '.' then Goto(Ignore(n), TableNameStart)
    else if c == ']' then Pop(n)
    else Fail(n, REJECTED)
  }

  function StepKeyStart(l: Lex): Lex
    requires Bounds(l)
  {
    var c := Ahead(l, 0);
    if c == '=' then Fail(l, REJECTED)
    else if IsWhitespace(c) || IsNL(c) then Goto(Adv(l, 1), Skip(KeyStart))
    else if c == '"' || c == '\'' then Goto(Push(EmitText(l, ItemKeyStart, ""), KeyEnd), Value)
    else Goto(EmitText(l, ItemKeyStart, ""), BareKey)
  }

  function StepBareKey(l: Lex): Lex
    requires Bounds(l)
  {
    var c := Ahead(l, 0);
    var n := Adv(l, 1);
    if IsBareKeyChar(c) then n
    else if IsWhitespace(c) then Goto(EmitText(n, ItemText, TrimSpace(Current(n))), KeyEnd)
    else if c == '=' then Goto(EmitText(l, ItemText, TrimSpace(Current(l))), KeyEnd)
    else Fail(n, REJECTED)
  }

  function StepKeyEnd(l: Lex): Lex {
    var c := Ahead(l, 0);
    var n := Adv(l, 1);
    if c == '=' then Goto(n, Skip(Value))
    else if IsWhitespace(c) then Goto(n, Skip(KeyEnd))
    else Fail(n, REJECTED)
  }

  // ----- values -----

  function StepValue(l: Lex): Lex
    requires Bounds(l)
  {
    var c := Ahead(l, 0);
    var n := Adv(l, 1);
    if IsWhitespace(c) then Goto(n, Skip(Value))
    else if c == '[' then Goto(EmitText(n, ItemArray, ""), ArrayValue)
    else if c == '"' then
      if Ahead(l, 1) == '"' && Ahead(l, 2) == '"' then Goto(Ignore(Adv(l, 3)), MultilineStr)
      else Goto(Ignore(n), Str)
    else if c == '\'' then
      if Ahead(l, 1) == '\'' && Ahead(l, 2) == '\'' then Goto(Ignore(Adv(l, 3)), MultilineRawStr)
      else Goto(Ignore(n), RawStr)
    else if c == 't' then Goto(n, True)
    else if c == 'f' then Goto(n, False)
    else if c == '-' then Goto(n, NumberStart)
    else if IsDigit(c) then Goto(l, NumberOrDateStart)
    else Fail(n, REJECTED)
  }

  function StepArrayValue(l: Lex): Lex {
    var c := Ahead(l, 0);
    var n := Adv(l, 1);
    if IsWhitespace(c) || IsNL(c) then Goto(n, Skip(ArrayValue))
    else if c == '#' then Goto(Push(n, ArrayValue), CommentStart)
    else if c == ',' then Fail(n, REJECTED)
    else if c == ']' then Goto(n, ArrayEnd)
    else Goto(Push(l, ArrayValueEnd), Value)
  }

  function StepArrayValueEnd(l: Lex): Lex {
    var c := Ahead(l, 0);
    var n := Adv(l, 1);
    if IsWhitespace(c) || IsNL(c) then Goto(n, Skip(ArrayValueEnd))
    else if c == '#' then Goto(Push(n, ArrayValueEnd), CommentStart)
    else if c == ',' then Goto(Ignore(n), ArrayValue)
    else if c == ']' then Goto(n, ArrayEnd)
    else Fail(n, REJECTED)
  }

  function StepArrayEnd(l: Lex): Lex { Pop(EmitText(l, ItemArrayEnd, "")) }

  // ----- strings -----

  /** Emits the text read so far, then drops the closing quotes (`k` of them). */
  function CloseString(l: Lex, typ: ItemType, k: nat): Lex
    requires Bounds(l)
  { Pop(Ignore(Adv(Emit(l, typ), k))) }

  function StepStr(l: Lex): Lex
    requires Bounds(l)
  {
    var c := Ahead(l, 0);
    if IsNL(c) then Fail(Adv(l, 1), REJECTED)
    else if c == '\\' then Goto(Push(Adv(l, 1), Str), StrEscape)
    else if c == '"' then CloseString(l, ItemString, 1)
    else Adv(l, 1)
  }

  function StepRawStr(l: Lex): Lex
    requires Bounds(l)
  {
    var c := Ahead(l, 0);
    if IsNL(c) then Fail(Adv(l, 1), REJECTED)
    else if c == '\'' then CloseString(l, ItemRawString, 1)
    else Adv(l, 1)
  }

  function StepMultilineStr(l: Lex): Lex
    requires Bounds(l)
  {
    var c := Ahead(l, 0);
    if c == '\\' then Goto(Adv(l, 1), MultilineStrEscape)
    else if c == '"' && Ahead(l, 1) == '"' && Ahead(l, 2) == '"' then CloseString(l, ItemMultilineString, 3)
    else Adv(l, 1)
  }

  function StepMultilineRawStr(l: Lex): Lex
    requires Bounds(l)
  {
    if Ahead(l, 0) == '\'' && Ahead(l, 1) == '\'' && Ahead(l, 2) == '\'' then
      CloseString(l, ItemRawMultilineString, 3)
    else Adv(l, 1)
  }

  function StepMultilineStrEscape(l: Lex): Lex {
    if IsNL(Ahead(l, 0)) then Goto(Adv(l, 2), MultilineStr)
    else StepStrEscape(Push(l, MultilineStr))
  }

  function StepStrEscape(l: Lex): Lex {
    var c := Ahead(l, 0);
    var n := Adv(l, 1);
    if IsSimpleEscape(c) then Pop(n)
    else if c == 'u' then Goto(n, ShortUnicodeEscape)
    else if c == 'U' then Goto(n, LongUnicodeEscape)
    else Fail(n, REJECTED)
  }

  /** Reads `k` hexadecimal digits, stopping behind the first character that is none. */
  function StepHex(l: Lex, k: nat): Lex
    decreases k
  {
    if k == 0 then Pop(l)
    else if IsHexadecimal(Ahead(l, 0)) then StepHex(Adv(l, 1), k - 1)
    else Fail(Adv(l, 1), REJECTED)
  }

  // ----- numbers, dates, booleans -----

  function StepDigit(l: Lex, next: StateFn): Lex {
    if IsDigit(Ahead(l, 0)) then Goto(Adv(l, 1), next) else Fail(Adv(l, 1), REJECTED)
  }

  function StepNumberOrDate(l: Lex): Lex
    requires Bounds(l)
  {
    var c := Ahead(l, 0);
    if c == '-' then
      if l.pos + 1 - l.start == 5 then Goto(Adv(l, 1), DateAfterYear) else Fail(Adv(l, 1), REJECTED)
    else if IsDigit(c) then Adv(l, 1)
    else if c == '.' then Goto(Adv(l, 1), FloatStart)
    else Pop(Emit(l, ItemInteger))
  }

  function StepNumber(l: Lex): Lex
    requires Bounds(l)
  {
    var c := Ahead(l, 0);
    if IsDigit(c) then Adv(l, 1)
    else if c == '.' then Goto(Adv(l, 1), FloatStart)
    else Pop(Emit(l, ItemInteger))
  }

  function StepFloat(l: Lex): Lex
    requires Bounds(l)
  {
    if IsDigit(Ahead(l, 0)) then Adv(l, 1) else Pop(Emit(l, ItemFloat))
  }

  /** What follows "YYYY-"; a '0' stands for any digit. */
  const DATE_FORMAT := "00-00T00:00:00Z"

  predicate FormatChar(f: char, c: char) { if f == '0' then IsDigit(c) else f == c }

  function StepDate(l: Lex, format: string): Lex
    requires Bounds(l)
    decreases |format|
  {
    if format == "" then Pop(Emit(l, ItemDatetime))
    else if FormatChar(format[0], Ahead(l, 0)) then StepDate(Adv(l, 1), format[1..])
    else Fail(Adv(l, 1), REJECTED)
  }

  /** The rest of "true" or "false".  An error does not stop this state: lexConst answers
      nil for both outcomes, so a bogus itemBool follows the error item. */
  function StepConst(l: Lex, rest: string): Lex
    requires Bounds(l)
    decreases |rest|
  {
    if rest == "" then Pop(Emit(l, ItemBool))
    else if Ahead(l, 0) == rest[0] then StepConst(Adv(l, 1), rest[1..])
    else Pop(Emit(Fail(Adv(l, 1), REJECTED), ItemBool))
  }

  // ----- comments -----

  function StepComment(l: Lex): Lex
    requires Bounds(l)
  {
    var c := Ahead(l, 0);
    if IsNL(c) || c == EOF then Pop(Emit(l, ItemText)) else Adv(l, 1)
  }

  function StepDocument(l: Lex): Lex
    requires Bounds(l)
  {
    match l.state
    case Top => StepTop(l)
    case TopEnd => StepTopEnd(l)
    case TableStart => StepTableStart(l)
    case TableEnd => Goto(Emit(l, ItemTableEnd), TopEnd)
    case ArrayTableEnd => StepArrayTableEnd(l)
    case TableNameStart => StepTableNameStart(l)
    case BareTableName => StepBareTableName(l)
    case TableNameEnd => StepTableNameEnd(l)
    case KeyStart => StepKeyStart(l)
    case BareKey => StepBareKey(l)
    case KeyEnd => StepKeyEnd(l)
    case Halt => l
    case _ => StepElement(l)
  }

  function StepElement(l: Lex): Lex
    requires Bounds(l)
  {
    match l.state
    case Value => StepValue(l)
    case ArrayValue => StepArrayValue(l)
    case ArrayValueEnd => StepArrayValueEnd(l)
    case ArrayEnd => StepArrayEnd(l)
    case CommentStart => Goto(EmitText(l, ItemCommentStart, ""), Comment)
    case Comment => StepComment(l)
    case Skip(s) => Goto(Ignore(l), s)
    case _ => StepString(l)
  }

  function StepString(l: Lex): Lex
    requires Bounds(l)
  {
    match l.state
    case Str => StepStr(l)
    case MultilineStr => StepMultilineStr(l)
    case RawStr => StepRawStr(l)
    case MultilineRawStr => StepMultilineRawStr(l)
    case MultilineStrEscape => StepMultilineStrEscape(l)
    case StrEscape => StepStrEscape(l)
    case ShortUnicodeEscape => StepHex(l, 4)
    case LongUnicodeEscape => StepHex(l, 8)
    case _ => StepScalar(l)
  }

  function StepScalar(l: Lex): Lex
    requires Bounds(l)
  {
    match l.state
    case NumberOrDateStart => StepDigit(l, NumberOrDate)
    case NumberOrDate => StepNumberOrDate(l)
    case DateAfterYear => StepDate(l, DATE_FORMAT)
    case NumberStart => StepDigit(l, Number)
    case Number => StepNumber(l)
    case FloatStart => StepDigit(l, Float)
    case Float => StepFloat(l)
    case True => StepConst(l, "rue")
    case False => StepConst(l, "alse")
    case _ => l
  }

  /** One call of the current state function; nil does nothing. */
  function Step(l: Lex): Lex
    requires Bounds(l)
  { StepDocument(l) }
}
