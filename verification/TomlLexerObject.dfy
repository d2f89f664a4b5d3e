/** The lexer object as the program has it: it reads one character at a time, remembers its
    width, backs up, and queues items.  Every state function is proved to do what the
    automaton's step says. */
module TomlLexerObject {
  import opened TomlLexer
  import opened TomlLexerProofs

  class Lexer {
    const input: string
    var start: nat
    var pos: nat
    var width: nat
    var state: StateFn
    var stack: seq<StateFn>
    var items: seq<Item>

    constructor (data: string)
      ensures input == data + "\n" && Valid() && View() == Init(data)
    {
      input := data + "\n";
      start, pos, width, state, stack, items := 0, 0, 0, Top, [], [];
    }

    function View(): Lex
      reads this
    { Lex(input, start, pos, state, stack, items) }

    predicate Valid()
      reads this
    { start <= pos <= |input| && EndsInNewline(input) }

    /** The configuration when the state function returns `next`. */
    function Then(next: StateFn): Lex
      reads this
    { View().(state := next) }

    // ----- reading -----

    method Next() returns (r: char)
      requires Valid()
      modifies `pos, `width
      ensures Valid() && r == Ahead(old(View()), 0) && View() == Adv(old(View()), 1)
      ensures width == pos - old(pos)
    {
      if pos >= |input| {
        width := 0;
        return EOF;
      }
      r, width := input[pos], 1;
      pos := pos + 1;
    }

    method Backup()
      requires width <= pos - start && Valid()
      modifies `pos
      ensures Valid() && pos == old(pos) - width
    {
      pos := pos - width;
    }

    method Accept(valid: char) returns (ok: bool)
      requires Valid()
      modifies `pos, `width
      ensures Valid() && ok == (Ahead(old(View()), 0) == valid)
      ensures View() == if ok then Adv(old(View()), 1) else old(View())
      ensures old(pos) < |input| ==> width == 1
    {
      var r := Next();
      if r == valid {
        return true;
      }
      Backup();
      ok := false;
    }

    method Peek() returns (r: char)
      requires Valid()
      modifies `pos, `width
      ensures Valid() && View() == old(View()) && r == Ahead(View(), 0)
    {
      r := Next();
      Backup();
    }

    method IgnorePending()
      requires Valid()
      modifies `start
      ensures Valid() && View() == Ignore(old(View()))
    {
      start := pos;
    }

    // ----- stack and items -----

    method PushState(s: StateFn)
      modifies `stack
      ensures View() == Push(old(View()), s)
    {
      stack := stack + [s];
    }

    method PopState() returns (next: StateFn)
      modifies `stack, `items
      ensures Then(next) == Pop(old(View()))
    {
      if |stack| == 0 {
        next := Errorf(NO_STATES);
        return;
      }
      next := stack[|stack| - 1];
      stack := stack[..|stack| - 1];
    }

    method EmitItem(typ: ItemType)
      requires Valid()
      modifies `items, `start
      ensures Valid() && View() == Emit(old(View()), typ)
    {
      items := items + [Item(typ, input[start..pos])];
      start := pos;
    }

    method EmitTrim(typ: ItemType)
      requires Valid()
      modifies `items, `start
      ensures Valid() && View() == EmitText(old(View()), typ, TrimSpace(Current(old(View()))))
    {
      items := items + [Item(typ, TrimSpace(input[start..pos]))];
      start := pos;
    }

    method Errorf(msg: string) returns (next: StateFn)
      modifies `items
      ensures Then(next) == Fail(old(View()), msg)
    {
      items := items + [Item(ItemError, msg)];
      next := Halt;
    }

    // ----- document structure -----

    method LexTop() returns (next: StateFn)
      requires Valid()
      modifies this
      ensures Valid() && Then(next) == StepTop(old(View()))
    {
      var r := Next();
      if IsWhitespace(r) || IsNL(r) {
        return Skip(Top);
      }
      if r == '#' {
        PushState(Top);
        return CommentStart;
      }
      if r == '[' {
        return TableStart;
      }
      if r == EOF {
        if pos > start {
          next := Errorf(REJECTED);
          return;
        }
        EmitItem(ItemEOF);
        return Halt;
      }
      Backup();
      PushState(TopEnd);
      next := KeyStart;
    }

    method LexTopEnd() returns (next: StateFn)
      requires Valid() && state == TopEnd
      modifies this
      ensures Valid() && Then(next) == StepTopEnd(old(View()))
    {
      var r := Next();
      if r == '#' {
        PushState(Top);
        return CommentStart;
      } else if IsWhitespace(r) {
        return TopEnd;
      } else if IsNL(r) || r == EOF {
        IgnorePending();
        return Top;
      }
      next := Errorf(REJECTED);
    }

    method LexTableStart() returns (next: StateFn)
      requires Valid()
      modifies this
      ensures Valid() && Then(next) == StepTableStart(old(View()))
    {
      var r := Peek();
      if r == '[' {
        var _ := Next();
        EmitItem(ItemArrayTableStart);
        PushState(ArrayTableEnd);
      } else {
        EmitItem(ItemTableStart);
        PushState(TableEnd);
      }
      next := TableNameStart;
    }

    method LexTableEnd() returns (next: StateFn)
      requires Valid()
      modifies this
      ensures Valid() && Then(next) == Goto(Emit(old(View()), ItemTableEnd), TopEnd)
    {
      EmitItem(ItemTableEnd);
      next := TopEnd;
    }

    method LexArrayTableEnd() returns (next: StateFn)
      requires Valid()
      modifies this
      ensures Valid() && Then(next) == StepArrayTableEnd(old(View()))
    {
      var r := Next();
      if r != ']' {
        next := Errorf(REJECTED);
        return;
      }
      EmitItem(ItemArrayTableEnd);
      next := TopEnd;
    }

    method LexTableNameStart() returns (next: StateFn)
      requires Valid() && state == TableNameStart
      modifies this
      ensures Valid() && Then(next) == StepTableNameStart(old(View()))
    {
      var r := Peek();
      if r == ']' || r == EOF || r == '.' {
        next := Errorf(REJECTED);
      } else if r == '"' || r == '\'' {
        IgnorePending();
        PushState(TableNameEnd);
        next := Value;
      } else if IsWhitespace(r) {
        next := TableNameStart;
      } else {
        next := BareTableName;
      }
    }

    method LexBareTableName() returns (next: StateFn)
      requires Valid() && state == BareTableName
      modifies this
      ensures Valid() && Then(next) == StepBareTableName(old(View()))
    {
      var r := Next();
      if IsBareKeyChar(r) {
        next := BareTableName;
      } else if r == '.' || r == ']' {
        Backup();
        EmitTrim(ItemText);
        next := TableNameEnd;
      } else {
        next := Errorf(REJECTED);
      }
    }

    method LexTableNameEnd() returns (next: StateFn)
      requires Valid() && state == TableNameEnd
      modifies this
      ensures Valid() && Then(next) == StepTableNameEnd(old(View()))
    {
      var r := Next();
      if IsWhitespace(r) {
        next := TableNameEnd;
      } else if r == '.' {
        IgnorePending();
        next := TableNameStart;
      } else if r == ']' {
        next := PopState();
      } else {
        next := Errorf(REJECTED);
      }
    }

    method LexKeyStart() returns (next: StateFn)
      requires Valid()
      modifies this
      ensures Valid() && Then(next) == StepKeyStart(old(View()))
    {
      var r := Peek();
      if r == '=' {
        next := Errorf(REJECTED);
      } else if IsWhitespace(r) || IsNL(r) {
        var _ := Next();
        next := Skip(KeyStart);
      } else {
        IgnorePending();
        assert input[pos..pos] == "";
        EmitItem(ItemKeyStart);
        if r == '"' || r == '\'' {
          PushState(KeyEnd);
          next := Value;
        } else {
          next := BareKey;
        }
      }
    }

    method LexBareKey() returns (next: StateFn)
      requires Valid() && state == BareKey
      modifies this
      ensures Valid() && Then(next) == StepBareKey(old(View()))
    {
      var r := Next();
      if IsBareKeyChar(r) {
        next := BareKey;
      } else if IsWhitespace(r) {
        EmitTrim(ItemText);
        next := KeyEnd;
      } else if r == '=' {
        Backup();
        EmitTrim(ItemText);
        next := KeyEnd;
      } else {
        next := Errorf(REJECTED);
      }
    }

    method LexKeyEnd() returns (next: StateFn)
      requires Valid()
      modifies this
      ensures Valid() && Then(next) == StepKeyEnd(old(View()))
    {
      var r := Next();
      if r == '=' {
        next := Skip(Value);
      } else if IsWhitespace(r) {
        next := Skip(KeyEnd);
      } else {
        next := Errorf(REJECTED);
      }
    }

    // ----- values -----

    /** Behind an opening quote: whether two more follow, which are then consumed. */
    method TwoMore(quote: char) returns (ok: bool)
      requires Valid() && start < pos && width == 1 && (quote == '"' || quote == '\'')
      modifies `pos, `width
      ensures Valid() && ok == (Ahead(old(View()), 0) == quote && Ahead(old(View()), 1) == quote)
      ensures View() == if ok then Adv(old(View()), 2) else old(View())
      ensures ok ==> pos == old(pos) + 2 && width == 1
    {
      ok := Accept(quote);
      if ok {
        assert pos < |input|;
        ok := Accept(quote);
        if !ok {
          Backup();
        }
      }
    }

    method LexValue() returns (next: StateFn)
      requires Valid()
      modifies this
      ensures Valid() && Then(next) == StepValue(old(View()))
    {
      var r := Next();
      if IsWhitespace(r) {
        return Skip(Value);
      }
      if r == '[' {
        IgnorePending();
        assert input[pos..pos] == "";
        EmitItem(ItemArray);
        next := ArrayValue;
      } else if r == '"' || r == '\'' {
        var three := TwoMore(r);
        IgnorePending();
        if r == '"' {
          next := if three then MultilineStr else Str;
        } else {
          next := if three then MultilineRawStr else RawStr;
        }
      } else if r == 't' {
        next := True;
      } else if r == 'f' {
        next := False;
      } else if r == '-' {
        next := NumberStart;
      } else if IsDigit(r) {
        Backup();
        next := NumberOrDateStart;
      } else {
        next := Errorf(REJECTED);
      }
    }

    method LexArrayValue() returns (next: StateFn)
      requires Valid()
      modifies this
      ensures Valid() && Then(next) == StepArrayValue(old(View()))
    {
      var r := Next();
      if IsWhitespace(r) || IsNL(r) {
        return Skip(ArrayValue);
      } else if r == '#' {
        PushState(ArrayValue);
        return CommentStart;
      } else if r == ',' {
        next := Errorf(REJECTED);
        return;
      } else if r == ']' {
        return ArrayEnd;
      }
      Backup();
      PushState(ArrayValueEnd);
      next := Value;
    }

    method LexArrayValueEnd() returns (next: StateFn)
      requires Valid()
      modifies this
      ensures Valid() && Then(next) == StepArrayValueEnd(old(View()))
    {
      var r := Next();
      if IsWhitespace(r) || IsNL(r) {
        next := Skip(ArrayValueEnd);
      } else if r == '#' {
        PushState(ArrayValueEnd);
        next := CommentStart;
      } else if r == ',' {
        IgnorePending();
        next := ArrayValue;
      } else if r == ']' {
        next := ArrayEnd;
      } else {
        next := Errorf(REJECTED);
      }
    }

    method LexArrayEnd() returns (next: StateFn)
      requires Valid()
      modifies this
      ensures Valid() && Then(next) == StepArrayEnd(old(View()))
    {
      IgnorePending();
      assert input[pos..pos] == "";
      EmitItem(ItemArrayEnd);
      next := PopState();
    }

    // ----- strings -----

    method LexString() returns (next: StateFn)
      requires Valid() && state == Str
      modifies this
      ensures Valid() && Then(next) == StepStr(old(View()))
    {
      var r := Next();
      if IsNL(r) {
        next := Errorf(REJECTED);
      } else if r == '\\' {
        PushState(Str);
        next := StrEscape;
      } else if r == '"' {
        Backup();
        EmitItem(ItemString);
        var _ := Next();
        IgnorePending();
        next := PopState();
      } else {
        next := Str;
      }
    }

    method LexRawString() returns (next: StateFn)
      requires Valid() && state == RawStr
      modifies this
      ensures Valid() && Then(next) == StepRawStr(old(View()))
    {
      var r := Next();
      if IsNL(r) {
        next := Errorf(REJECTED);
      } else if r == '\'' {
        Backup();
        EmitItem(ItemRawString);
        var _ := Next();
        IgnorePending();
        next := PopState();
      } else {
        next := RawStr;
      }
    }

    /** Behind three closing quotes. */
    method CloseMultiline(typ: ItemType) returns (next: StateFn)
      requires Valid() && start + 3 <= pos && width == 1
      modifies this
      ensures Valid() && Then(next) == CloseString(old(View()).(pos := old(pos) - 3), typ, 3)
    {
      Backup();
      Backup();
      Backup();
      ghost var before := View();
      assert before == old(View()).(pos := old(pos) - 3);
      EmitItem(typ);
      ThreeMore();
      IgnorePending();
      next := PopState();
    }

    method ThreeMore()
      requires Valid() && pos + 3 <= |input|
      modifies `pos, `width
      ensures Valid() && View() == Adv(old(View()), 3)
    {
      var _ := Next();
      var _ := Next();
      var _ := Next();
    }

    method LexMultilineString() returns (next: StateFn)
      requires Valid() && state == MultilineStr
      modifies this
      ensures Valid() && Then(next) == StepMultilineStr(old(View()))
    {
      var r := Next();
      if r == '\\' {
        return MultilineStrEscape;
      }
      if r == '"' {
        var three := TwoMore('"');
        if three {
          next := CloseMultiline(ItemMultilineString);
          return;
        }
      }
      next := MultilineStr;
    }

    method LexMultilineRawString() returns (next: StateFn)
      requires Valid() && state == MultilineRawStr
      modifies this
      ensures Valid() && Then(next) == StepMultilineRawStr(old(View()))
    {
      var r := Next();
      if r == '\'' {
        var three := TwoMore('\'');
        if three {
          next := CloseMultiline(ItemRawMultilineString);
          return;
        }
      }
      next := MultilineRawStr;
    }

    method LexStringEscape() returns (next: StateFn)
      requires Valid()
      modifies this
      ensures Valid() && Then(next) == StepStrEscape(old(View()))
    {
      var r := Next();
      if IsSimpleEscape(r) {
        next := PopState();
      } else if r == 'u' {
        next := ShortUnicodeEscape;
      } else if r == 'U' {
        next := LongUnicodeEscape;
      } else {
        next := Errorf(REJECTED);
      }
    }

    method LexMultilineStringEscape() returns (next: StateFn)
      requires Valid()
      modifies this
      ensures Valid() && Then(next) == StepMultilineStrEscape(old(View()))
    {
      var r := Next();
      if IsNL(r) {
        var _ := Next();
        return MultilineStr;
      }
      Backup();
      PushState(MultilineStr);
      next := LexStringEscape();
    }

    /** The loops of lexShortUnicodeEscape and lexLongUnicodeEscape. */
    method LexHex(count: nat) returns (next: StateFn)
      requires Valid()
      modifies this
      ensures Valid() && Then(next) == StepHex(old(View()), count)
    {
      var i := 0;
      while i < count
        invariant 0 <= i <= count && Valid()
        invariant StepHex(View(), count - i) == StepHex(old(View()), count)
      {
        var r := Next();
        if !IsHexadecimal(r) {
          next := Errorf(REJECTED);
          return;
        }
        i := i + 1;
      }
      next := PopState();
    }

    // ----- numbers, dates, booleans -----

    /** lexNumberOrDateStart, lexNumberStart and lexFloatStart want one digit. */
    method LexDigit(then_: StateFn) returns (next: StateFn)
      requires Valid()
      modifies this
      ensures Valid() && Then(next) == StepDigit(old(View()), then_)
    {
      var r := Next();
      if !IsDigit(r) {
        next := Errorf(REJECTED);
        return;
      }
      next := then_;
    }

    method LexNumberOrDate() returns (next: StateFn)
      requires Valid() && state == NumberOrDate
      modifies this
      ensures Valid() && Then(next) == StepNumberOrDate(old(View()))
    {
      var r := Next();
      if r == '-' {
        if pos - start != 5 {
          next := Errorf(REJECTED);
          return;
        }
        return DateAfterYear;
      } else if IsDigit(r) {
        return NumberOrDate;
      } else if r == '.' {
        return FloatStart;
      }
      Backup();
      EmitItem(ItemInteger);
      next := PopState();
    }

    method LexDateAfterYear() returns (next: StateFn)
      requires Valid()
      modifies this
      ensures Valid() && Then(next) == StepDate(old(View()), DATE_FORMAT)
    {
      var formats := DATE_FORMAT;
      var i := 0;
      while i < |formats|
        invariant 0 <= i <= |formats| && Valid()
        invariant StepDate(View(), formats[i..]) == StepDate(old(View()), formats)
      {
        var r := Next();
        if !FormatChar(formats[i], r) {
          next := Errorf(REJECTED);
          return;
        }
        assert formats[i..][1..] == formats[i + 1..];
        i := i + 1;
      }
      assert formats[i..] == "";
      DateEnds(View());
      EmitItem(ItemDatetime);
      next := PopState();
    }

    method LexNumber() returns (next: StateFn)
      requires Valid() && state == Number
      modifies this
      ensures Valid() && Then(next) == StepNumber(old(View()))
    {
      var r := Next();
      if IsDigit(r) {
        return Number;
      } else if r == '.' {
        return FloatStart;
      }
      Backup();
      EmitItem(ItemInteger);
      next := PopState();
    }

    method LexFloat() returns (next: StateFn)
      requires Valid() && state == Float
      modifies this
      ensures Valid() && Then(next) == StepFloat(old(View()))
    {
      var r := Next();
      if IsDigit(r) {
        return Float;
      }
      Backup();
      EmitItem(ItemFloat);
      next := PopState();
    }

    /** lexConst: the rest of a word.  It answers nil whether it succeeds or not. */
    method LexConst(rest: string)
      requires Valid() && stack != []
      modifies this
      ensures Valid() && stack == old(stack)
      ensures Pop(Emit(View(), ItemBool)) == StepConst(old(View()), rest)
    {
      var i := 0;
      while i < |rest|
        invariant 0 <= i <= |rest| && Valid() && stack == old(stack)
        invariant StepConst(View(), rest[i..]) == StepConst(old(View()), rest)
      {
        var r := Next();
        if r != rest[i] {
          ghost var failed := View();
          var next := Errorf(REJECTED);
          ForgetsState(View(), Halt);
          return;
        }
        assert rest[i..][1..] == rest[i + 1..];
        i := i + 1;
      }
      assert rest[i..] == "";
    }

    /** lexTrue and lexFalse */
    method LexWord(rest: string) returns (next: StateFn)
      requires Valid() && stack != []
      modifies this
      ensures Valid() && Then(next) == StepConst(old(View()), rest)
    {
      LexConst(rest);
      EmitItem(ItemBool);
      next := PopState();
    }

    // ----- comments -----

    method LexCommentStart() returns (next: StateFn)
      requires Valid()
      modifies this
      ensures Valid() && Then(next) == Goto(EmitText(old(View()), ItemCommentStart, ""), Comment)
    {
      IgnorePending();
      assert input[pos..pos] == "";
      EmitItem(ItemCommentStart);
      next := Comment;
    }

    method LexComment() returns (next: StateFn)
      requires Valid() && state == Comment
      modifies this
      ensures Valid() && Then(next) == StepComment(old(View()))
    {
      var r := Peek();
      if IsNL(r) || r == EOF {
        EmitItem(ItemText);
        next := PopState();
        return;
      }
      var _ := Next();
      next := Comment;
    }

    // ----- nextItem -----

    method RunDocumentState() returns (next: StateFn)
      requires Valid() && InDocument(state)
      modifies this
      ensures Valid() && Then(next) == StepDocument(old(View()))
    {
      match state
      case Top => next := LexTop();
      case TopEnd => next := LexTopEnd();
      case TableStart => next := LexTableStart();
      case TableEnd => next := LexTableEnd();
      case ArrayTableEnd => next := LexArrayTableEnd();
      case TableNameStart => next := LexTableNameStart();
      case BareTableName => next := LexBareTableName();
      case TableNameEnd => next := LexTableNameEnd();
      case KeyStart => next := LexKeyStart();
      case BareKey => next := LexBareKey();
      case KeyEnd => next := LexKeyEnd();
    }

    method RunElementState() returns (next: StateFn)
      requires Valid() && InElement(state)
      modifies this
      ensures Valid() && Then(next) == StepElement(old(View()))
    {
      match state
      case Value => next := LexValue();
      case ArrayValue => next := LexArrayValue();
      case ArrayValueEnd => next := LexArrayValueEnd();
      case ArrayEnd => next := LexArrayEnd();
      case CommentStart => next := LexCommentStart();
      case Comment => next := LexComment();
      case Skip(to) =>
        IgnorePending();
        next := to;
    }

    method RunStringState() returns (next: StateFn)
      requires Valid() && InString(state)
      modifies this
      ensures Valid() == true && Then(next) == StepString(old(View()))
    {
      if state == Str {
        next := LexString();
      } else if state == MultilineStr {
        next := LexMultilineString();
      } else if state == RawStr {
        next := LexRawString();
      } else if state == MultilineRawStr {
        next := LexMultilineRawString();
      } else {
        next := RunEscapeState();
      }
    }

    method RunEscapeState() returns (next: StateFn)
      requires Valid()
      requires state == MultilineStrEscape || state == StrEscape || state == ShortUnicodeEscape || state == LongUnicodeEscape
      modifies this
      ensures Valid() == true && Then(next) == StepString(old(View()))
    {
      match state
      case MultilineStrEscape => next := LexMultilineStringEscape();
      case StrEscape => next := LexStringEscape();
      case ShortUnicodeEscape => next := LexHex(4);
      case LongUnicodeEscape => next := LexHex(8);
    }

    method RunNumberState() returns (next: StateFn)
      requires Valid() && InNumberOrDate(state) && state != DateAfterYear
      modifies this
      ensures Valid() == true && Then(next) == StepScalar(old(View()))
    {
      match state
      case NumberOrDateStart => next := LexDigit(NumberOrDate);
      case NumberOrDate => next := LexNumberOrDate();
      case NumberStart => next := LexDigit(Number);
      case Number => next := LexNumber();
      case FloatStart => next := LexDigit(Float);
      case Float => next := LexFloat();
    }

    method RunDateState() returns (next: StateFn)
      requires Valid() && state == DateAfterYear
      modifies this
      ensures Valid() == true && Then(next) == StepScalar(old(View()))
    {
      next := LexDateAfterYear();
    }

    method RunWordState() returns (next: StateFn)
      requires Valid() && stack != [] && (state == True || state == False)
      modifies this
      ensures Valid() == true && Then(next) == StepScalar(old(View()))
    {
      if state == True {
        next := LexWord("rue");
      } else {
        next := LexWord("alse");
      }
    }

    method RunScalarState() returns (next: StateFn)
      requires Valid() && stack != [] && (InNumberOrDate(state) || state == True || state == False)
      modifies this
      ensures Valid() == true && Then(next) == StepScalar(old(View()))
    {
      if state == DateAfterYear {
        next := RunDateState();
      } else if state == True || state == False {
        next := RunWordState();
      } else {
        next := RunNumberState();
      }
    }

    /** One call of the current state function. */
    method RunState()
      requires Valid() && Ready(View())
      modifies this
      ensures Valid() && View() == Step(old(View()))
    {
      if InDocument(state) {
        state := RunDocumentState();
      } else if InElement(state) {
        state := RunElementState();
      } else if InString(state) {
        state := RunStringState();
      } else {
        state := RunScalarState();
      }
    }

    /** nextItem: runs states until an item is queued and takes the oldest.  `Spins` stands for
        the two calls that never return. */
    method NextItem() returns (f: Fetched)
      requires Valid() && Inv(View()) && PhaseOf(View()) != Done
      modifies this
      ensures Valid() && f == Fetch(old(View())) && (f.Got? ==> View() == f.lex)
    {
      ghost var all := Fetch(View());
      while |items| == 0
        invariant Valid()
        invariant items == [] ==> Inv(View()) && PhaseOf(View()) != Done && Fetch(View()) == all
        invariant items != [] ==> Announces(all, View())
        decreases |items| == 0, if |items| == 0 then Measure(View()) else 0
      {
        if Stuck(View()) {
          return Spins;
        }
        FetchRound(View());
        RunState();
      }
      var it := items[0];
      items := items[1..];
      f := if it.typ == ItemError then Failed(it.val) else Got(it, View());
    }
  }

  lemma DateEnds(l: Lex)
    requires Bounds(l)
    ensures StepDate(l, "") == Pop(Emit(l, ItemDatetime))
  {
  }

  lemma ForgetsState(l: Lex, s: StateFn)
    requires Bounds(l) && l.stack != []
    ensures Pop(Emit(l.(state := s), ItemBool)) == Pop(Emit(l, ItemBool))
  {
  }
}