/** How the parser turns items into values (parser.value), following the lexer item by
    item, and how the encoder writes array elements (eElement, eArrayOrSliceElement). */
module TomlValues {
  import opened Decimal
  import opened TomlData
  import opened TomlLexer
  import opened TomlEscapes
  import opened TomlLexerProofs

  /** The parser's "BUG" exits, which end the whole process. */
  datatype BugKind = UnexpectedItem | BadLiteral | BadBasicEscape | BadMultilineEscape | BadDate

  datatype Outcome<T> =
    | Ok(value: T, lex: Live)
    | UserError
    | Spinning
    | Bug(kind: BugKind)

  // ----- scalars -----

  function StripFirstNewline(s: string): string {
    if s == "" || s[0] != '\n' then s else s[1..]
  }

  /** Drops every backslash-newline together with the white space behind it. */
  function StripEscapedWhitespace(s: string): string
    decreases |s|
  {
    if |s| < 2 then s
    else if s[0] == '\\' && s[1] == '\n' then StripEscapedWhitespace(TrimLeft(s[2..]))
    else [s[0]] + StripEscapedWhitespace(s[1..])
  }

  function TwoDigits(t: string, i: nat): int
    requires i + 2 <= |t|
  { 10 * (t[i] as int - '0' as int) + (t[i + 1] as int - '0' as int) }

  function DaysIn(month: int, year: int): int {
    if month == 2 then if year % 4 == 0 && (year % 100 != 0 || year % 400 == 0) then 29 else 28
    else if month == 4 || month == 6 || month == 9 || month == 11 then 30 else 31
  }

  /** The ranges time.Parse checks in text of the form YYYY-MM-DDThh:mm:ssZ. */
  predicate OnCalendar(t: string) {
    && |t| == 20
    && var year := 100 * TwoDigits(t, 0) + TwoDigits(t, 2);
    && 1 <= TwoDigits(t, 5) <= 12
    && 1 <= TwoDigits(t, 8) <= DaysIn(TwoDigits(t, 5), year)
    && TwoDigits(t, 11) < 24 && TwoDigits(t, 14) < 60 && TwoDigits(t, 17) < 60
  }

  datatype Scalar = Good(value: Val) | Refused | Faulty(kind: BugKind)

  function Unescaped(d: Decoded, kind: BugKind): Scalar {
    match d case Decoded(s) => Good(Text(s)) case BadEscape => Faulty(kind)
  }

  function ScalarValue(it: Item): Scalar {
    match it.typ
    case ItemString => Unescaped(ReplaceEscapes(it.val), BadBasicEscape)
    case ItemMultilineString =>
      Unescaped(ReplaceEscapes(StripFirstNewline(StripEscapedWhitespace(it.val))), BadMultilineEscape)
    case ItemRawString => Good(Text(it.val))
    case ItemRawMultilineString => Good(Text(StripFirstNewline(it.val)))
    case ItemBool =>
      if it.val == "true" then Good(Boolean(true))
      else if it.val == "false" then Good(Boolean(false))
      else Faulty(BadLiteral)
    case ItemInteger =>
      (match ParseInt(it.val)
       case Exact(n) => Good(Integer(n))
       case RangeError => Refused
       case SyntaxError => Faulty(BadLiteral))
    case ItemFloat =>
      if NumOf(it.val) != Fraction then Faulty(BadLiteral)
      else if IsFloat64(it.val) then Good(FloatNum(it.val)) else Refused
    case ItemDatetime => if OnCalendar(it.val) then Good(Datetime(it.val)) else Faulty(BadDate)
    case _ => Faulty(UnexpectedItem)
  }

  lemma {:induction false} WholeIsDecimal(t: string)
    requires NumOf(t) == Whole
    ensures IsDecimal(t) || (t != "" && t[0] == '-' && IsDecimal(t[1..]))
    decreases |t|
  {
    var u := t[..|t| - 1];
    if NumOf(u) == Whole {
      WholeIsDecimal(u);
      assert |t| > 1 && t[1..] == u[1..] + [t[|t| - 1]];
    } else if NumOf(u) == Minus {
      assert NumOf(u[..|u| - 1]) == NoNum;
      OnlyEmptyIsNoNum(u[..|u| - 1]);
      assert t[1..] == [t[|t| - 1]];
    } else {
      OnlyEmptyIsNoNum(u);
    }
  }

  lemma OnlyEmptyIsNoNum(t: string)
    requires NumOf(t) == NoNum
    ensures t == ""
  {
  }

  /** On the texts the lexer delivers, a "BUG" exit is reached exactly for a date that is not
      on the calendar and for a multi-line string that, trimmed, has an incomplete escape, and an
      error of the user exactly for a number out of range. */
  lemma ScalarSafe(it: Item)
    requires ItemOk(it) && IsScalarType(it.typ)
    ensures ScalarValue(it).Faulty? <==>
      || (it.typ == ItemDatetime && !OnCalendar(it.val))
      || (it.typ == ItemMultilineString && !WellEscaped(StripFirstNewline(StripEscapedWhitespace(it.val))))
    ensures ScalarValue(it).Faulty? ==>
      ScalarValue(it).kind == if it.typ == ItemDatetime then BadDate else BadMultilineEscape
    ensures ScalarValue(it).Refused? <==>
      || (it.typ == ItemInteger && ParseInt(it.val) == RangeError)
      || (it.typ == ItemFloat && !IsFloat64(it.val))
  {
    if it.typ == ItemString {
      ScanFromPlain(it.val);
      ScanIsWellEscaped(it.val);
    } else if it.typ == ItemInteger {
      WholeIsDecimal(it.val);
    }
  }

  // ----- values -----

  /** The lexer is inside `depth` open arrays. */
  predicate InArrayAt(l: Live, depth: nat) { depth > 0 && PhaseOf(l) == InArray(depth) }

  function Outside(depth: nat): Phase { if depth <= 1 then AtTop else InArray(depth - 1) }

  /** None of the exits that would mean that lexer and parser misunderstand each other. */
  predicate Understood<T>(r: Outcome<T>) {
    r.Bug? ==> r.kind == BadDate || r.kind == BadMultilineEscape
  }

  /** The value that starts with the item `it`, which has just been fetched. */
  function ParseValue(it: Item, l: Live, depth: nat): (r: Outcome<Val>)
    requires ItemOk(it)
    requires IsScalarType(it.typ) || (it.typ == ItemArray && InArrayAt(l, depth))
    ensures Understood(r)
    ensures r.Ok? && it.typ != ItemArray ==> r.lex == l
    ensures r.Ok? && it.typ == ItemArray ==> PhaseOf(r.lex) == Outside(depth) && Measure(r.lex) < Measure(l)
    decreases Measure(l), 1
  {
    if it.typ == ItemArray then ParseArray([], l, depth)
    else
      ScalarSafe(it);
      match ScalarValue(it)
      case Good(v) => Ok(v, l)
      case Refused => UserError
      case Faulty(k) => Bug(k)
  }

  /** The rest of an array whose elements so far are `acc`. */
  function ParseArray(acc: seq<Val>, l: Live, depth: nat): (r: Outcome<Val>)
    requires InArrayAt(l, depth)
    ensures Understood(r)
    ensures r.Ok? ==> PhaseOf(r.lex) == Outside(depth) && Measure(r.lex) < Measure(l)
    decreases Measure(l), 0
  {
    FetchDelivers(l);
    ArrayItem(acc, Fetch(l), depth)
  }

  predicate FitsArray(f: Fetched, depth: nat) {
    f.Got? ==> ItemOk(f.item) && Allowed(InArray(depth), f.item.typ) && PhaseOf(f.lex) == After(InArray(depth), f.item.typ)
  }

  /** The loop of parser.value for arrays, standing at the fetched item. */
  function ArrayItem(acc: seq<Val>, f: Fetched, depth: nat): (r: Outcome<Val>)
    requires depth > 0 && FitsArray(f, depth)
    ensures Understood(r)
    ensures r.Ok? ==> f.Got? && PhaseOf(r.lex) == Outside(depth) && Measure(r.lex) <= Measure(f.lex)
    decreases if f.Got? then Measure(f.lex) else 0, 2
  {
    match f
    case Spins => Spinning
    case Failed(_) => UserError
    case Got(it, n) =>
      if it.typ == ItemArrayEnd then
        if Homogeneous(acc) then Ok(Arr(acc), n) else UserError
      else if it.typ == ItemCommentStart then
        FetchDelivers(n);
        match Fetch(n) {
          case Spins => Spinning
          case Failed(_) => UserError
          case Got(text, m) =>
            if text.typ != ItemText then Bug(UnexpectedItem) else ParseArray(acc, m, depth)
        }
      else
        match ParseValue(it, n, depth + 1) {
          case Ok(v, m) => ParseArray(acc + [v], m, depth)
          case other => other
        }
  }
}
