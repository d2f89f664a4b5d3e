/** The text the encoder writes for an array element comes back from the lexer and the
    parser as the same value, consumed exactly, with the continuation popped. */
module TomlArrayText {
  import opened Decimal
  import opened Iteration
  import opened Sequences
  import opened TomlData
  import opened TomlLexer
  import opened TomlEscapes
  import opened TomlLexerProofs
  import opened TomlValues

  // ----- the encoder -----

  /** eElement. */
  function EncodeVal(v: Val): string
    decreases v, 0
  {
    match v
    case Text(s) => Quote(s)
    case Boolean(b) => if b then "true" else "false"
    case Integer(n) => FormatInt(n)
    case FloatNum(t) => t
    case Datetime(t) => t
    case Arr(vs) => "[" + EncodeElems(vs) + "]"
  }

  /** The body of the loop in eArrayOrSliceElement. */
  function EncodeElems(vs: seq<Val>): string
    decreases vs, 1
  {
    if vs == [] then ""
    else if |vs| == 1 then EncodeVal(vs[0])
    else EncodeVal(vs[0]) + ", " + EncodeElems(vs[1..])
  }

  /** Strings, booleans, 64-bit integers, finite floats, datetimes on the calendar, and homogeneous
      arrays of such values. */
  predicate Supported(v: Val) {
    match v
    case Text(_) => true
    case Boolean(_) => true
    case Integer(n) => IsInt64(n)
    case FloatNum(t) => NumOf(t) == Fraction && IsFloat64(t)
    case Datetime(t) => DatetimeText(t) && OnCalendar(t)
    case Arr(vs) => Homogeneous(vs) && forall i | 0 <= i < |vs| :: Supported(vs[i])
  }

  // ----- reading -----

  predicate Reads(l: Lex, text: string) {
    l.pos + |text| <= |l.input| && l.input[l.pos..l.pos + |text|] == text
  }

  /** `l` after reading `k` more characters of the pending token. */
  function Further(l: Lex, k: nat): Lex { l.(pos := l.pos + k) }

  /** `l` when the token that ends `k` characters on has been taken and the state to
      return to has been popped. */
  function Done(l: Lex, k: nat): Lex
    requires l.stack != []
  {
    l.(start := l.pos + k, pos := l.pos + k, state := l.stack[|l.stack| - 1], stack := l.stack[..|l.stack| - 1])
  }

  lemma ReadsChar(l: Lex, text: string, i: nat)
    requires Reads(l, text) && i < |text|
    ensures l.input[l.pos + i] == text[i]
  {
    assert text[i] == l.input[l.pos..l.pos + |text|][i];
  }

  lemma ReadsSplit(l: Lex, a: string, b: string)
    requires Bounds(l) && Reads(l, a + b)
    ensures Reads(l, a) && Reads(Further(l, |a|), b)
    ensures Bounds(Further(l, |a|)) && Current(Further(l, |a|)) == Current(l) + a
  {
    var m := Further(l, |a|);
    var both := l.input[l.pos..l.pos + |a + b|];
    assert a == both[..|a|] && b == both[|a|..];
    assert l.input[l.pos..m.pos] == both[..|a|];
    assert l.input[m.pos..m.pos + |b|] == both[|a|..];
    assert Current(m) == Current(l) + l.input[l.pos..m.pos];
  }

  /** One round of the loop in nextItem: a call of the current state function, unless an item is
      queued. */
  function Round(l: Lex): Lex { if l.items != [] || !Bounds(l) then l else Step(l) }

  /** In the two loops a call changes nothing. */
  lemma StuckStays(l: Lex)
    requires Stuck(l)
    ensures Round(l) == l
  {
  }

  function Rounds(l: Lex, k: nat): Lex { Iterate(Round, k, l) }

  /** The parser makes the value `v` and leaves the lexer in `n`. */
  predicate Yields(r: Outcome<Val>, v: Val, n: Lex) { r.Ok? && r.value == v && r.lex == n }

  /** What `k` rounds that end in `m` say about the fetch. */
  predicate RoundsFetch(l: Live, m: Lex, n: Live)
    requires PhaseOf(l) != Phase.Done && PhaseOf(n) != Phase.Done
  {
    && (m.items == [] ==> n == m && PhaseOf(n) == PhaseOf(l) && Fetch(l) == Fetch(n))
    && (m.items != [] && m.items[0].typ != ItemError ==>
          Gets(Fetch(l), m.items[0], m.(items := m.items[1..])))
  }

  lemma {:induction false} FetchRounds(l: Live, k: nat, m: Lex) returns (n: Live)
    requires PhaseOf(l) != Phase.Done && !PhaseOf(l).TableRest? && Rounds(l, k) == m
    ensures PhaseOf(n) != Phase.Done && RoundsFetch(l, m, n)
    decreases k
  {
    n := l;
    if k > 0 && !Stuck(l) {
      var o := FirstRound(l);
      if o.items == [] {
        n := FetchRounds(o, k - 1, m);
      } else {
        RoundsStop(o, k - 1);
      }
    } else if k > 0 {
      StuckStays(l);
      RoundsStop(l, k);
    }
  }

  lemma FirstRound(l: Live) returns (o: Lex)
    requires PhaseOf(l) != Phase.Done && !PhaseOf(l).TableRest? && !Stuck(l)
    ensures o == Round(l)
    ensures o.items == [] ==> Inv(o) && PhaseOf(o) == PhaseOf(l) && Fetch(l) == Fetch(o)
    ensures o.items != [] && o.items[0].typ != ItemError ==>
      Gets(Fetch(l), o.items[0], o.(items := o.items[1..])) == true
  {
    o := Step(l);
    FetchRound(l);
  }

  lemma RoundsStop(l: Lex, k: nat)
    requires Round(l) == l
    ensures Rounds(l, k) == l
  {
    IterateFixed(Round, k, l);
  }

  // Strings.

  lemma PlainRound(l: Lex, c: char)
    requires Bounds(l) && l.items == [] && l.state == Str && Reads(l, [c])
    requires c != '"' && c != '\\' && !IsNL(c)
    ensures Round(l) == Further(l, 1)
  {
    ReadsChar(l, [c], 0);
  }

  lemma EscapeRounds(l: Lex, c: char)
    requires Bounds(l) && l.items == [] && l.state == Str && Reads(l, ['\\', c]) && IsSimpleEscape(c)
    ensures Round(Round(l)) == Further(l, 2)
  {
    ReadsChar(l, ['\\', c], 0);
    ReadsChar(l, ['\\', c], 1);
    var m := l.(pos := l.pos + 1, state := StrEscape, stack := l.stack + [Str]);
    assert Round(l) == m;
    assert m.stack[..|l.stack|] == l.stack;
  }

  lemma StrUnit(l: Lex, c: char)
    requires Bounds(l) && l.items == [] && l.state == Str && Reads(l, EscapeChar(c))
    ensures Rounds(l, |EscapeChar(c)|) == Further(l, |EscapeChar(c)|)
  {
    var e := EscapeChar(c);
    if |e| == 1 {
      PlainRound(l, c);
      assert Rounds(l, 1) == Round(l);
    } else {
      EscapeRounds(l, e[1]);
      assert Rounds(l, 2) == Rounds(Round(l), 1) == Round(Round(l));
    }
  }

  lemma {:induction false} StrRun(l: Lex, e: string, s: string)
    requires Bounds(l) && l.items == [] && l.state == Str && e == Escape(s) && Reads(l, e)
    ensures Rounds(l, |e|) == Further(l, |e|)
    decreases |s|
  {
    if s != "" {
      var u := EscapeChar(s[0]);
      var rest := Escape(s[1..]);
      ReadsSplit(l, u, rest);
      StrUnit(l, s[0]);
      StrRun(Further(l, |u|), rest, s[1..]);
      Then(l, |u|, Further(l, |u|), |rest|, Further(l, |e|));
    }
  }

  /** A character behind a value that cannot be taken for a part of it. */
  predicate Ends(c: char) { !IsDigit(c) && c != '.' && c != '-' && c != '"' }

  /** The lexer is about to read a value; what follows the text does not run into it. */
  predicate Before(l: Lex, text: string) {
    && Bounds(l) && l.items == [] && l.state == Value && l.start == l.pos && l.stack != []
    && Reads(l, text) && l.pos + |text| < |l.input| && Ends(l.input[l.pos + |text|])
  }

  function Queued(l: Lex, it: Item): Lex { l.(items := [it]) }

  lemma Then(l: Lex, j: nat, m: Lex, k: nat, n: Lex)
    requires Rounds(l, j) == m && Rounds(m, k) == n
    ensures Rounds(l, j + k) == n
  {
    IterateSum(Round, j, k, l);
  }

  /** The same, where the number of rounds does not matter. */
  lemma Joined(l: Lex, j: nat, m: Lex, k: nat, n: Lex) returns (i: nat)
    requires Rounds(l, j) == m && Rounds(m, k) == n
    ensures Rounds(l, i) == n
  {
    Then(l, j, m, k, n);
    i := j + k;
  }

  lemma Once(l: Lex, m: Lex)
    requires Round(l) == m
    ensures Rounds(l, 1) == m
  {
    assert Iterate(Round, 0, m) == m;
  }

  lemma QuoteAheadOf(l: Lex, s: string)
    requires Before(l, Quote(s))
    ensures Reads(l, "\"") && Reads(l.(pos := l.pos + 1), Escape(s) + "\"")
    ensures l.input[l.pos] == '"' && !(Ahead(l, 1) == '"' && Ahead(l, 2) == '"')
  {
    var q := Quote(s);
    QuoteStarts(s, q);
    ReadsSplit(l, "\"", Escape(s) + "\"");
    ReadsChar(l, q, 0);
    ReadsChar(l, q, 1);
  }

  lemma QuoteStarts(s: string, q: string)
    requires q == Quote(s)
    ensures q == "\"" + (Escape(s) + "\"") && |q| > 1 && q[0] == '"'
    ensures if s == "" then |q| == 2 else q[1] != '"'
  {
    assert q == "\"" + (Escape(s) + "\"");
    if s != "" {
      assert q[1] == EscapeChar(s[0])[0];
    }
  }

  lemma OpenRound(l: Lex)
    requires Bounds(l) && l.items == [] && l.state == Value && l.pos < |l.input| && l.input[l.pos] == '"'
    requires !(Ahead(l, 1) == '"' && Ahead(l, 2) == '"')
    ensures Round(l) == l.(start := l.pos + 1, pos := l.pos + 1, state := Str)
  {
  }

  lemma OpenQuote(l: Lex, s: string)
    requires Before(l, Quote(s))
    ensures Round(l) == l.(start := l.pos + 1, pos := l.pos + 1, state := Str)
    ensures Reads(l.(pos := l.pos + 1), Escape(s) + "\"")
  {
    QuoteAheadOf(l, s);
    OpenRound(l);
  }

  lemma CloseQuote(l: Lex)
    requires Bounds(l) && l.items == [] && l.state == Str && l.stack != [] && Reads(l, "\"")
    ensures Round(l) == Queued(Done(l, 1), Item(ItemString, Current(l)))
  {
    ReadsChar(l, "\"", 0);
    assert [] + [Item(ItemString, Current(l))] == [Item(ItemString, Current(l))];
  }

  lemma StringBody(m: Lex, s: string, e: string)
    requires Bounds(m) && m.items == [] && m.state == Str && m.stack != [] && m.start == m.pos
    requires e == Escape(s) && Reads(m, e + "\"")
    ensures Rounds(m, |e| + 1) == Queued(Done(m, |e| + 1), Item(ItemString, e))
  {
    ReadsSplit(m, e, "\"");
    StrRun(m, e, s);
    var n, q := Further(m, |e|), Queued(Done(m, |e| + 1), Item(ItemString, e));
    StringCloses(m, e, n);
    Then(m, |e|, n, 1, q);
  }

  /** The closing quote behind the text `e`. */
  lemma StringCloses(m: Lex, e: string, n: Lex)
    requires Bounds(m) && m.items == [] && m.state == Str && m.stack != [] && m.start == m.pos
    requires Reads(m, e) && n == Further(m, |e|) && Bounds(n) && Reads(n, "\"")
    ensures Rounds(n, 1) == Queued(Done(m, |e| + 1), Item(ItemString, e))
  {
    CloseQuote(n);
    assert Current(n) == e;
    Once(n, Queued(Done(m, |e| + 1), Item(ItemString, e)));
  }

  /** Lexing a quoted string: one item, whose text is what the encoder escaped. */
  lemma StringRead(l: Lex, s: string) returns (k: nat)
    requires Before(l, Quote(s))
    ensures Rounds(l, k) == Queued(Done(l, |Quote(s)|), Item(ItemString, Escape(s)))
  {
    var e := Escape(s);
    OpenQuote(l, s);
    var m := l.(start := l.pos + 1, pos := l.pos + 1, state := Str);
    assert Reads(m, e + "\"");
    StringBody(m, s, e);
    Once(l, m);
    k := 1 + (|e| + 1);
    Then(l, 1, m, |e| + 1, Queued(Done(m, |e| + 1), Item(ItemString, e)));
  }

  // Numbers.

  /** Inside a number, behind its first digit. */
  predicate BehindDigit(s: StateFn) { s == Number || s == NumberOrDate || s == Float }

  function NumberItem(s: StateFn): ItemType { if s == Float then ItemFloat else ItemInteger }

  lemma DigitRound(l: Lex)
    requires Bounds(l) && l.items == [] && BehindDigit(l.state)
    requires l.pos < |l.input| && IsDigit(l.input[l.pos])
    ensures Round(l) == Further(l, 1)
  {
  }

  lemma {:induction false} DigitsRun(l: Lex, d: string)
    requires Bounds(l) && l.items == [] && BehindDigit(l.state)
    requires Reads(l, d) && AllDigits(d)
    ensures Rounds(l, |d|) == Further(l, |d|)
    decreases |d|
  {
    if d != "" {
      var m := Further(l, 1);
      assert d == [d[0]] + d[1..];
      ReadsSplit(l, [d[0]], d[1..]);
      ReadsChar(l, d, 0);
      DigitRound(l);
      Once(l, m);
      DigitsRun(m, d[1..]);
      Then(l, 1, m, |d| - 1, Further(l, |d|));
    }
  }

  lemma NumberEndRound(l: Lex)
    requires Bounds(l) && l.items == [] && BehindDigit(l.state)
    requires l.stack != [] && l.pos < |l.input| && Ends(l.input[l.pos])
    ensures Round(l) == Queued(Done(l, 0), Item(NumberItem(l.state), Current(l)))
  {
    NumberEndStep(l);
    assert [] + [Item(NumberItem(l.state), Current(l))] == [Item(NumberItem(l.state), Current(l))];
  }

  lemma NumberEndStep(l: Lex)
    requires Bounds(l) && l.items == [] && BehindDigit(l.state)
    requires l.pos < |l.input| && Ends(l.input[l.pos])
    ensures Round(l) == Pop(Emit(l, NumberItem(l.state)))
  {
    assert Round(l) ==
      if l.state == Number then StepNumber(l) else if l.state == Float then StepFloat(l) else StepNumberOrDate(l);
  }

  lemma MinusRead(l: Lex, text: string)
    requires Before(l, text) && |text| > 1 && text[0] == '-' && IsDigit(text[1])
    ensures Rounds(l, 2) == l.(pos := l.pos + 2, state := Number)
  {
    ReadsChar(l, text, 0);
    ReadsChar(l, text, 1);
    var a, m := l.(pos := l.pos + 1, state := NumberStart), l.(pos := l.pos + 2, state := Number);
    assert Round(l) == StepValue(l);
    Once(l, a);
    Once(a, m);
    Then(l, 1, a, 1, m);
  }

  lemma DigitRead(l: Lex, text: string)
    requires Before(l, text) && text != "" && IsDigit(text[0])
    ensures Rounds(l, 2) == l.(pos := l.pos + 1, state := NumberOrDate)
  {
    ReadsChar(l, text, 0);
    var a, m := l.(state := NumberOrDateStart), l.(pos := l.pos + 1, state := NumberOrDate);
    assert Round(l) == StepValue(l);
    Once(l, a);
    Once(a, m);
    Then(l, 1, a, 1, m);
  }

  predicate StartsNumber(text: string) {
    text != "" && (IsDigit(text[0]) || (|text| > 1 && text[0] == '-' && IsDigit(text[1])))
  }

  /** Where a number goes on behind its first digit. */
  function BehindFirst(text: string): nat { if text != "" && text[0] == '-' then 2 else 1 }

  function StateBehind(text: string): StateFn { if text != "" && text[0] == '-' then Number else NumberOrDate }

  /** From the value position to behind the first digit. */
  lemma FirstDigit(l: Lex, text: string) returns (k: nat, m: Lex, j: nat)
    requires Before(l, text) && StartsNumber(text)
    ensures j == BehindFirst(text) && j <= |text|
    ensures m == l.(pos := l.pos + j, state := StateBehind(text))
    ensures Rounds(l, k) == m
  {
    k := 2;
    if text[0] == '-' {
      MinusRead(l, text);
      j, m := 2, l.(pos := l.pos + 2, state := Number);
    } else {
      DigitRead(l, text);
      j, m := 1, l.(pos := l.pos + 1, state := NumberOrDate);
    }
  }

  lemma NumberEndAt(m: Lex, n: Lex, d: string, text: string)
    requires Bounds(m) && Reads(m, d) && n == Further(m, |d|) && m.stack != [] && text == Current(m) + d
    ensures Bounds(n) && Current(n) == text && Done(n, 0) == Done(m, |d|)
  {
    CurrentGrows(m, n);
  }

  lemma NumberEnd(n: Lex, q: Lex)
    requires Bounds(n) && n.items == [] && BehindDigit(n.state)
    requires n.stack != [] && n.pos < |n.input| && Ends(n.input[n.pos])
    requires q == Queued(Done(n, 0), Item(NumberItem(n.state), Current(n)))
    ensures Rounds(n, 1) == q
  {
    NumberEndRound(n);
    Once(n, q);
  }

  /** From inside a number to its end. */
  lemma NumberTail(m: Lex, d: string, text: string)
    requires Bounds(m) && m.items == [] && BehindDigit(m.state) && m.stack != []
    requires Reads(m, d) && AllDigits(d) && m.pos + |d| < |m.input| && Ends(m.input[m.pos + |d|])
    requires text == Current(m) + d
    ensures Rounds(m, |d| + 1) == Queued(Done(m, |d|), Item(NumberItem(m.state), text))
  {
    var n := Further(m, |d|);
    var q := Queued(Done(m, |d|), Item(NumberItem(m.state), text));
    NumberEndAt(m, n, d, text);
    DigitsRun(m, d);
    NumberEnd(n, q);
    Then(m, |d|, n, 1, q);
  }

  /** What is left to read, and what has been read, `j` characters into a token. */
  lemma Partway(l: Lex, m: Lex, text: string, j: nat)
    requires Before(l, text) && j <= |text| && m == l.(pos := l.pos + j, state := m.state)
    ensures Bounds(m) && Reads(m, text[j..]) && Current(m) + text[j..] == text
    ensures m.items == [] && m.stack == l.stack && m.input == l.input
    ensures m.pos + |text[j..]| == l.pos + |text| && Done(m, |text[j..]|) == Done(l, |text|)
  {
    assert text == text[..j] + text[j..];
    ReadsSplit(l, text[..j], text[j..]);
    assert Current(l) == "" && "" + text[..j] == text[..j];
    assert Current(m) == Current(Further(l, j));
  }

  lemma NumberRest(l: Lex, m: Lex, text: string, j: nat)
    requires Before(l, text) && j <= |text| && AllDigits(text[j..])
    requires m == l.(pos := l.pos + j, state := m.state) && BehindDigit(m.state)
    ensures Rounds(m, |text| - j + 1) == Queued(Done(l, |text|), Item(NumberItem(m.state), text))
  {
    Partway(l, m, text, j);
    NumberTail(m, text[j..], text);
  }

  lemma NumberThrough(l: Lex, k: nat, m: Lex, text: string, j: nat)
    requires Before(l, text) && Rounds(l, k) == m && j <= |text| && AllDigits(text[j..])
    requires m == l.(pos := l.pos + j, state := m.state) && BehindDigit(m.state)
    ensures Rounds(l, k + (|text| - j + 1)) == Queued(Done(l, |text|), Item(NumberItem(m.state), text))
  {
    NumberRest(l, m, text, j);
    Then(l, k, m, |text| - j + 1, Queued(Done(l, |text|), Item(NumberItem(m.state), text)));
  }

  lemma IntegerStarts(text: string)
    requires text != "" && (AllDigits(text) || (text[0] == '-' && AllDigits(text[1..]) && |text| > 1))
    ensures StartsNumber(text) && BehindFirst(text) <= |text| && AllDigits(text[BehindFirst(text)..])
  {
    if text[0] == '-' {
      assert text[1..][0] == text[1] && text[1..][1..] == text[2..];
    }
  }

  lemma IntegerRead(l: Lex, text: string) returns (k: nat)
    requires Before(l, text) == true && text != ""
    requires (AllDigits(text) || (text[0] == '-' && AllDigits(text[1..]) && |text| > 1)) == true
    ensures Rounds(l, k) == Queued(Done(l, |text|), Item(ItemInteger, text))
  {
    IntegerStarts(text);
    var i, m, j := FirstDigit(l, text);
    k := i + (|text| - j + 1);
    NumberThrough(l, i, m, text, j);
  }

  // Floats.

  function SignLength(t: string): nat { if t != "" && t[0] == '-' then 1 else 0 }

  /** An optional minus sign, digits, a point at `dot`, digits. */
  predicate PointAt(t: string, dot: nat) {
    && SignLength(t) < dot && dot + 1 < |t| && t[dot] == '.'
    && AllDigits(t[SignLength(t)..dot]) && AllDigits(t[dot + 1..])
  }

  /** The last character and what comes before it. */
  lemma NumLast(t: string) returns (u: string, c: char)
    requires NumOf(t) == Dot || NumOf(t) == Fraction
    ensures t == u + [c] && NumNext(NumOf(u), c) == NumOf(t)
  {
    u, c := t[..|t| - 1], t[|t| - 1];
  }

  lemma {:induction false} FindPoint(t: string) returns (dot: nat)
    requires NumOf(t) == Fraction
    ensures PointAt(t, dot)
    decreases |t|
  {
    var u, c := NumLast(t);
    if NumOf(u) == Fraction {
      dot := FindPoint(u);
      PointOn(u, c, dot);
    } else {
      dot := PointLast(u, c);
    }
  }

  lemma PointLast(u: string, c: char) returns (dot: nat)
    requires NumOf(u) == Dot && IsDigit(c)
    ensures PointAt(u + [c], dot)
  {
    var w, d := NumLast(u);
    dot := |w|;
    WholeIsDecimal(w);
    FirstBehindPoint(w, c, u + [c]);
  }

  lemma PointOn(u: string, c: char, dot: nat)
    requires PointAt(u, dot) && IsDigit(c)
    ensures PointAt(u + [c], dot)
  {
    var t := u + [c];
    assert t[SignLength(t)..dot] == u[SignLength(u)..dot];
    assert t[dot + 1..] == u[dot + 1..] + [c];
  }

  lemma FirstBehindPoint(w: string, c: char, t: string)
    requires (w != "" && AllDigits(w)) || (|w| > 1 && w[0] == '-' && AllDigits(w[1..]))
    requires IsDigit(c) && t == w + "." + [c]
    ensures PointAt(t, |w|)
  {
    assert t[SignLength(t)..|w|] == w[SignLength(t)..];
    assert w[0..] == w;
    assert t[|w| + 1..] == [c];
  }

  lemma PointStarts(t: string, dot: nat)
    requires PointAt(t, dot)
    ensures StartsNumber(t) && BehindFirst(t) <= dot && AllDigits(t[BehindFirst(t)..dot])
  {
    var d := t[SignLength(t)..dot];
    assert d[0] == t[SignLength(t)];
    assert d[1..] == t[BehindFirst(t)..dot];
  }

  /** Further digits of a token, from `j` to `i`. */
  lemma DigitsTo(l: Lex, m: Lex, text: string, j: nat, i: nat)
    requires Before(l, text) && j <= i <= |text| && AllDigits(text[j..i])
    requires m == l.(pos := l.pos + j, state := m.state) && BehindDigit(m.state)
    ensures Rounds(m, i - j) == l.(pos := l.pos + i, state := m.state)
  {
    Partway(l, m, text, j);
    assert text[j..] == text[j..i] + text[i..];
    ReadsSplit(m, text[j..i], text[i..]);
    DigitsRun(m, text[j..i]);
  }

  /** The point of a float and the digit behind it. */
  lemma PointRead(l: Lex, m: Lex, text: string, i: nat) returns (k: nat)
    requires Before(l, text) && i + 1 < |text| && text[i] == '.' && IsDigit(text[i + 1])
    requires m == l.(pos := l.pos + i, state := m.state) && (m.state == Number || m.state == NumberOrDate)
    ensures Rounds(m, k) == l.(pos := l.pos + (i + 2), state := Float)
  {
    ReadsChar(l, text, i);
    ReadsChar(l, text, i + 1);
    var a, n := m.(pos := m.pos + 1, state := FloatStart), m.(pos := m.pos + 2, state := Float);
    PointRound(m);
    Once(m, a);
    FractionRound(a);
    Once(a, n);
    k := Joined(m, 1, a, 1, n);
  }

  lemma FractionRound(a: Lex)
    requires Bounds(a) && a.items == [] && a.state == FloatStart && a.pos < |a.input| && IsDigit(a.input[a.pos])
    ensures Round(a) == a.(pos := a.pos + 1, state := Float)
  {
    assert Round(a) == StepDigit(a, Float);
  }

  lemma PointRound(m: Lex)
    requires Bounds(m) && m.items == [] && (m.state == Number || m.state == NumberOrDate)
    requires m.pos < |m.input| && m.input[m.pos] == '.'
    ensures Round(m) == m.(pos := m.pos + 1, state := FloatStart)
  {
    assert Round(m) == if m.state == Number then StepNumber(m) else StepNumberOrDate(m);
  }

  /** The part before the point. */
  lemma WholeRead(l: Lex, text: string, dot: nat) returns (k: nat)
    requires Before(l, text) == true && StartsNumber(text)
    requires BehindFirst(text) <= dot <= |text| && AllDigits(text[BehindFirst(text)..dot]) == true
    ensures Rounds(l, k) == l.(pos := l.pos + dot, state := StateBehind(text))
  {
    var i, m, j := FirstDigit(l, text);
    k := WholeRest(l, i, m, j, text, dot);
  }

  lemma WholeRest(l: Lex, i: nat, m: Lex, j: nat, text: string, dot: nat) returns (k: nat)
    requires Before(l, text) == true && Rounds(l, i) == m && j <= dot <= |text| && AllDigits(text[j..dot]) == true
    requires m == l.(pos := l.pos + j, state := m.state) && BehindDigit(m.state)
    ensures Rounds(l, k) == l.(pos := l.pos + dot, state := m.state)
  {
    var n := l.(pos := l.pos + dot, state := m.state);
    DigitsTo(l, m, text, j, dot);
    k := Joined(l, i, m, dot - j, n);
  }

  lemma PointEnds(t: string, dot: nat)
    requires PointAt(t, dot)
    ensures t[dot] == '.' && IsDigit(t[dot + 1]) && AllDigits(t[dot + 2..])
  {
    var d := t[dot + 1..];
    assert d[0] == t[dot + 1] && d[1..] == t[dot + 2..];
  }

  lemma FloatRead(l: Lex, text: string) returns (k: nat)
    requires Before(l, text) == true && NumOf(text) == Fraction
    ensures Rounds(l, k) == Queued(Done(l, |text|), Item(ItemFloat, text))
  {
    var dot := FindPoint(text);
    PointStarts(text, dot);
    PointEnds(text, dot);
    k := WholeRead(l, text, dot);
    var n := l.(pos := l.pos + dot, state := StateBehind(text));
    var i := PointRead(l, n, text, dot);
    var p := l.(pos := l.pos + (dot + 2), state := Float);
    k := Joined(l, k, n, i, p);
    k := FractionRead(l, k, p, text, dot + 2);
  }

  lemma FractionRead(l: Lex, k: nat, p: Lex, text: string, j: nat) returns (r: nat)
    requires Before(l, text) == true && Rounds(l, k) == p && p == l.(pos := l.pos + j, state := Float)
    requires j <= |text| && AllDigits(text[j..])
    ensures Rounds(l, r) == Queued(Done(l, |text|), Item(ItemFloat, text))
  {
    NumberThrough(l, k, p, text, j);
    r := k + (|text| - j + 1);
  }

  // Datetimes.

  /** Reading a datetime behind "YYYY-". */
  lemma {:induction false} FormatRun(l: Lex, rest: string, format: string)
    requires Bounds(l) && l.items == [] && Reads(l, rest) && FitsFormat(rest, format)
    ensures StepDate(l, format) == Pop(Emit(Further(l, |rest|), ItemDatetime))
    decreases |rest|
  {
    if rest != "" {
      assert rest == [rest[0]] + rest[1..];
      ReadsSplit(l, [rest[0]], rest[1..]);
      ReadsChar(l, rest, 0);
      FormatRun(Further(l, 1), rest[1..], format[1..]);
    }
  }

  lemma YearStarts(text: string)
    requires |text| >= 5 && YearText(text[..5])
    ensures IsDigit(text[0]) && AllDigits(text[1..4]) && text[4] == '-'
  {
    var year := text[..5];
    assert forall i | 0 <= i < 4 :: year[..4][i] == text[i];
    assert year[4] == text[4];
  }

  lemma DashRead(l: Lex, n: Lex, text: string) returns (k: nat)
    requires Before(l, text) == true && |text| >= 5 && text[4] == '-' && n == l.(pos := l.pos + 4, state := NumberOrDate)
    ensures Rounds(n, k) == l.(pos := l.pos + 5, state := DateAfterYear)
  {
    ReadsChar(l, text, 4);
    assert Round(n) == StepNumberOrDate(n);
    k := 1;
    Once(n, l.(pos := l.pos + 5, state := DateAfterYear));
  }

  /** The year and the dash behind it. */
  lemma YearRead(l: Lex, text: string) returns (k: nat)
    requires Before(l, text) == true && |text| >= 5 && YearText(text[..5])
    ensures Rounds(l, k) == l.(pos := l.pos + 5, state := DateAfterYear)
  {
    YearStarts(text);
    k := WholeRead(l, text, 4);
    var n := l.(pos := l.pos + 4, state := NumberOrDate);
    var i := DashRead(l, n, text);
    k := Joined(l, k, n, i, l.(pos := l.pos + 5, state := DateAfterYear));
  }

  lemma DateRound(m: Lex, format: string)
    requires Bounds(m) && m.items == [] && m.state == DateAfterYear && format == DATE_FORMAT
    ensures Round(m) == StepDate(m, format)
  {
  }

  lemma DateRest(m: Lex, rest: string, text: string, format: string) returns (k: nat)
    requires Bounds(m) && m.items == [] && m.stack != [] && Reads(m, rest) && Current(m) + rest == text
    requires m.state == DateAfterYear && format == DATE_FORMAT && FitsFormat(rest, format)
    ensures Rounds(m, k) == Queued(Done(m, |rest|), Item(ItemDatetime, text))
  {
    FormatRun(m, rest, format);
    DateRound(m, format);
    Emitted(m, rest, ItemDatetime, text);
    k := 1;
    Once(m, Queued(Done(m, |rest|), Item(ItemDatetime, text)));
  }

  lemma DateRead(l: Lex, text: string) returns (k: nat)
    requires Before(l, text) == true && |text| >= 5 && YearText(text[..5]) && FitsFormat(text[5..], DATE_FORMAT) == true
    ensures Rounds(l, k) == Queued(Done(l, |text|), Item(ItemDatetime, text))
  {
    k := YearRead(l, text);
    var m := l.(pos := l.pos + 5, state := DateAfterYear);
    Partway(l, m, text, 5);
    var i := DateRest(m, text[5..], text, DATE_FORMAT);
    k := Joined(l, k, m, i, Queued(Done(l, |text|), Item(ItemDatetime, text)));
  }

  lemma Emitted(m: Lex, rest: string, typ: ItemType, text: string)
    requires Bounds(m) && m.items == [] && m.stack != [] && Reads(m, rest) && Current(m) + rest == text
    ensures Pop(Emit(Further(m, |rest|), typ)) == Queued(Done(m, |rest|), Item(typ, text))
  {
    var n := Further(m, |rest|);
    CurrentGrows(m, n);
    assert [] + [Item(typ, text)] == [Item(typ, text)];
  }

  // Words.

  /** Reading a word behind its first letter. */
  lemma {:induction false} WordRun(l: Lex, rest: string)
    requires Bounds(l) && l.items == [] && Reads(l, rest)
    requires forall i | 0 <= i < |rest| :: rest[i] != EOF
    ensures StepConst(l, rest) == Pop(Emit(Further(l, |rest|), ItemBool))
    decreases |rest|
  {
    if rest != "" {
      assert rest == [rest[0]] + rest[1..];
      ReadsSplit(l, [rest[0]], rest[1..]);
      ReadsChar(l, rest, 0);
      WordRun(Further(l, 1), rest[1..]);
    }
  }

  lemma WordEnd(m: Lex, rest: string, word: string)
    requires Bounds(m) && m.items == [] && m.stack != [] && Reads(m, rest)
    requires (m.state == True && rest == "rue") || (m.state == False && rest == "alse")
    requires Current(m) + rest == word
    ensures Round(m) == Queued(Done(m, |rest|), Item(ItemBool, word))
  {
    WordRun(m, rest);
    WordRound(m, rest, word);
  }

  lemma WordRound(m: Lex, rest: string, word: string)
    requires Bounds(m) && m.items == [] && m.stack != [] && Reads(m, rest)
    requires (m.state == True && rest == "rue") || (m.state == False && rest == "alse")
    requires StepConst(m, rest) == Pop(Emit(Further(m, |rest|), ItemBool)) && Current(m) + rest == word
    ensures Round(m) == Queued(Done(m, |rest|), Item(ItemBool, word))
  {
    WordSteps(m, rest);
    Emitted(m, rest, ItemBool, word);
  }

  lemma WordSteps(m: Lex, rest: string)
    requires Bounds(m) && m.items == []
    requires (m.state == True && rest == "rue") || (m.state == False && rest == "alse")
    ensures Round(m) == StepConst(m, rest)
  {
  }

  lemma WordStart(l: Lex, word: string, m: Lex)
    requires Before(l, word) && word != "" && (word[0] == 't' || word[0] == 'f')
    requires m == l.(pos := l.pos + 1, state := if word[0] == 't' then True else False)
    ensures Rounds(l, 1) == m
  {
    ReadsChar(l, word, 0);
    Once(l, m);
  }

  lemma WordRest(l: Lex, m: Lex, rest: string, word: string)
    requires Before(l, word) && |word| > 0 && word[1..] == rest
    requires m == l.(pos := l.pos + 1, state := m.state)
    requires (m.state == True && rest == "rue") || (m.state == False && rest == "alse")
    ensures Rounds(m, 1) == Queued(Done(l, |word|), Item(ItemBool, word))
  {
    Partway(l, m, word, 1);
    WordEnd(m, rest, word);
    Once(m, Queued(Done(l, |word|), Item(ItemBool, word)));
  }

  lemma WordRead(l: Lex, rest: string, word: string)
    requires Before(l, word) && |word| > 0 && word[1..] == rest
    requires (word[0] == 't' && rest == "rue") || (word[0] == 'f' && rest == "alse")
    ensures Rounds(l, 2) == Queued(Done(l, |word|), Item(ItemBool, word))
  {
    var m := l.(pos := l.pos + 1, state := if word[0] == 't' then True else False);
    WordStart(l, word, m);
    WordRest(l, m, rest, word);
    Then(l, 1, m, 1, Queued(Done(l, |word|), Item(ItemBool, word)));
  }

  // One element.

  predicate IsScalar(v: Val) { !v.Arr? }

  function ItemFor(v: Val): Item
    requires IsScalar(v)
  {
    match v
    case Text(s) => Item(ItemString, Escape(s))
    case Boolean(b) => Item(ItemBool, EncodeVal(v))
    case Integer(n) => Item(ItemInteger, EncodeVal(v))
    case FloatNum(t) => Item(ItemFloat, t)
    case Datetime(t) => Item(ItemDatetime, t)
  }

  lemma ScalarRead(l: Lex, v: Val) returns (k: nat)
    requires IsScalar(v) && Supported(v) && Before(l, EncodeVal(v))
    ensures Rounds(l, k) == Queued(Done(l, |EncodeVal(v)|), ItemFor(v))
  {
    match v
    case Text(s) =>
      k := StringRead(l, s);
    case Boolean(b) =>
      WordRead(l, if b then "rue" else "alse", EncodeVal(v));
      k := 2;
    case Integer(n) =>
      FormatNatValue(if n < 0 then -n else n);
      var text := FormatInt(n);
      assert n < 0 ==> text[1..] == FormatNat(-n);
      k := IntegerRead(l, text);
    case FloatNum(t) => k := FloatRead(l, t);
    case Datetime(t) => k := DateRead(l, t);
  }

  lemma ScalarParsed(v: Val)
    requires IsScalar(v) && Supported(v)
    ensures ScalarValue(ItemFor(v)) == Good(v)
  {
    match v
    case Text(s) => EscapeRoundTrip(s);
    case Boolean(_) =>
    case Integer(n) => FormatParse(n);
    case FloatNum(_) =>
    case Datetime(_) =>
  }

  // Arrays.

  /** The value that starts with the fetched item, where `depth` arrays are open. */
  function ElementItem(f: Fetched, depth: nat): Outcome<Val>
    requires f.Got? ==> ItemOk(f.item)
    requires f.Got? && f.item.typ == ItemArray ==> InArrayAt(f.lex, depth + 1)
  {
    match f
    case Spins => Spinning
    case Failed(_) => UserError
    case Got(it, n) =>
      if IsScalarType(it.typ) || it.typ == ItemArray then ParseValue(it, n, depth + 1)
      else Bug(UnexpectedItem)
  }

  predicate ValueAt(l: Live, depth: nat) {
    PhaseOf(l) == (if depth == 0 then ValueNext else InArray(depth))
  }

  /** Fetches and parses one value. */
  function ParseElement(l: Live, depth: nat): Outcome<Val>
    requires ValueAt(l, depth)
  {
    FetchDelivers(l);
    ElementItem(Fetch(l), depth)
  }

  /** Rounds that end with a queued item are a fetch. */
  lemma FetchedBy(l: Live, k: nat, n: Lex, it: Item)
    requires PhaseOf(l) != Phase.Done && !PhaseOf(l).TableRest? && Rounds(l, k) == Queued(n, it) && n.items == []
    requires it.typ != ItemError
    ensures Gets(Fetch(l), it, n)
  {
    var _ := FetchRounds(l, k, Queued(n, it));
    assert [it][1..] == [];
  }

  /** Every string: the text of writeQuoted is lexed as one string item, consumed exactly,
      and replaceEscapes makes it the same string again. */
  lemma StringRoundTrip(s: string, l: Live, depth: nat)
    requires ValueAt(l, depth) && Before(l, Quote(s))
    ensures Gets(Fetch(l), Item(ItemString, Escape(s)), Done(l, |Quote(s)|))
    ensures ReplaceEscapes(Escape(s)) == Decoded(s)
  {
    var k := StringRead(l, s);
    FetchedBy(l, k, Done(l, |Quote(s)|), Item(ItemString, Escape(s)));
    EscapeRoundTrip(s);
  }

  lemma OpenBracket(l: Lex)
    requires Bounds(l) && l.items == [] && l.state == Value && l.start == l.pos && Reads(l, "[")
    ensures Rounds(l, 1) == Queued(l.(start := l.pos + 1, pos := l.pos + 1, state := ArrayValue), Item(ItemArray, ""))
  {
    ReadsChar(l, "[", 0);
    assert [] + [Item(ItemArray, "")] == [Item(ItemArray, "")];
    Once(l, Round(l));
  }

  lemma CloseRound(l: Lex)
    requires Bounds(l) && l.items == [] && (l.state == ArrayValue || l.state == ArrayValueEnd) && Reads(l, "]")
    ensures Round(l) == l.(pos := l.pos + 1, state := ArrayEnd)
  {
    ReadsChar(l, "]", 0);
    assert Round(l) == if l.state == ArrayValue then StepArrayValue(l) else StepArrayValueEnd(l);
  }

  lemma CloseBracket(l: Lex)
    requires Bounds(l) && l.items == [] && (l.state == ArrayValue || l.state == ArrayValueEnd)
    requires l.stack != [] && Reads(l, "]")
    ensures Rounds(l, 2) == Queued(Done(l, 1), Item(ItemArrayEnd, ""))
  {
    var m, q := l.(pos := l.pos + 1, state := ArrayEnd), Queued(Done(l, 1), Item(ItemArrayEnd, ""));
    CloseRound(l);
    Once(l, m);
    assert l.pos + 1 <= |l.input|;
    ArrayEndRound(m);
    assert Done(m, 0) == Done(l, 1);
    Once(m, q);
    Then(l, 1, m, 1, q);
  }

  lemma ArrayEndRound(m: Lex)
    requires Bounds(m) && m.items == [] && m.state == ArrayEnd && m.stack != []
    ensures Round(m) == Queued(Done(m, 0), Item(ItemArrayEnd, ""))
  {
    assert Round(m) == StepArrayEnd(m);
    assert [] + [Item(ItemArrayEnd, "")] == [Item(ItemArrayEnd, "")];
  }

  lemma CommaRound(l: Lex)
    requires Bounds(l) && l.items == [] && l.state == ArrayValueEnd && Reads(l, ",")
    ensures Rounds(l, 1) == l.(start := l.pos + 1, pos := l.pos + 1, state := ArrayValue)
  {
    ReadsChar(l, ",", 0);
    Once(l, Round(l));
  }

  lemma SpaceRounds(l: Lex)
    requires Bounds(l) && l.items == [] && l.state == ArrayValue && Reads(l, " ")
    ensures Rounds(l, 2) == l.(start := l.pos + 1, pos := l.pos + 1, state := ArrayValue)
  {
    ReadsChar(l, " ", 0);
    var n := l.(pos := l.pos + 1, state := Skip(ArrayValue));
    Once(l, n);
    Once(n, Round(n));
    Then(l, 1, n, 1, Round(n));
  }

  /** From the end of one element to the start of the next. */
  lemma Comma(l: Lex)
    requires Bounds(l) && l.items == [] && l.state == ArrayValueEnd && Reads(l, ", ")
    ensures Rounds(l, 3) == l.(start := l.pos + 2, pos := l.pos + 2, state := ArrayValue)
  {
    assert ", " == "," + " ";
    ReadsSplit(l, ",", " ");
    var m := l.(start := l.pos + 1, pos := l.pos + 1, state := ArrayValue);
    CommaRound(l);
    SpaceRounds(m);
    Then(l, 1, m, 2, l.(start := l.pos + 2, pos := l.pos + 2, state := ArrayValue));
  }

  function Inside(l: Lex): Lex { l.(state := Value, stack := l.stack + [ArrayValueEnd]) }

  lemma EnterElement(l: Lex, c: char)
    requires Bounds(l) && l.items == [] && l.state == ArrayValue && Reads(l, [c])
    requires !IsWhitespace(c) && !IsNL(c) && c != '#' && c != ',' && c != ']'
    ensures Rounds(l, 1) == Inside(l)
  {
    ReadsChar(l, [c], 0);
    Once(l, Round(l));
  }

  lemma IntegerOpens(n: int)
    ensures StartsNumber(FormatInt(n))
  {
    FormatNatValue(if n < 0 then -n else n);
    assert n < 0 ==> FormatInt(n)[1] == FormatNat(-n)[0];
  }

  lemma FloatOpens(t: string)
    requires NumOf(t) == Fraction
    ensures StartsNumber(t)
  {
    var dot := FindPoint(t);
    PointStarts(t, dot);
  }

  lemma FirstChar(v: Val)
    requires Supported(v)
    ensures EncodeVal(v) != ""
    ensures var c := EncodeVal(v)[0]; !IsWhitespace(c) && !IsNL(c) && c != '#' && c != ',' && c != ']'
  {
    match v
    case Text(s) => QuoteStarts(s, Quote(s));
    case Boolean(_) =>
    case Integer(n) => IntegerOpens(n);
    case FloatNum(t) => FloatOpens(t);
    case Datetime(t) => YearStarts(t);
    case Arr(vs) => ArrayText(vs);
  }

  /** What ParseArray does depends on the configuration only through the next item. */
  lemma SameFetch(acc: seq<Val>, l: Live, m: Live, depth: nat)
    requires InArrayAt(l, depth) && InArrayAt(m, depth) && Fetch(l) == Fetch(m)
    ensures ParseArray(acc, l, depth) == ParseArray(acc, m, depth)
  {
  }

  lemma ArrayCloses(acc: seq<Val>, l: Live, depth: nat)
    requires InArrayAt(l, depth) && (l.state == ArrayValue || l.state == ArrayValueEnd)
    requires Bounds(l) && l.items == [] && l.stack != [] && Reads(l, "]") && Homogeneous(acc)
    ensures Yields(ParseArray(acc, l, depth), Arr(acc), Done(l, 1)) == true
  {
    CloseBracket(l);
    FetchedBy(l, 2, Done(l, 1), Item(ItemArrayEnd, ""));
  }

  lemma ItemTaken(acc: seq<Val>, v: Val, f: Fetched, q: Live, depth: nat)
    requires depth > 0 && FitsArray(f, depth) && ElementItem(f, depth) == Ok(v, q)
    ensures InArrayAt(q, depth)
    ensures ArrayItem(acc, f, depth) == ParseArray(acc + [v], q, depth)
  {
  }

  lemma ElementTaken(acc: seq<Val>, v: Val, l: Live, m: Live, q: Live, depth: nat)
    requires InArrayAt(l, depth) && InArrayAt(m, depth) && Fetch(l) == Fetch(m)
    requires ParseElement(m, depth) == Ok(v, q)
    ensures InArrayAt(q, depth)
    ensures ParseArray(acc, l, depth) == ParseArray(acc + [v], q, depth)
  {
    FetchDelivers(m);
    ItemTaken(acc, v, Fetch(m), q, depth);
  }

  lemma ScalarFetched(v: Val, l: Live)
    requires PhaseOf(l) != Phase.Done && !PhaseOf(l).TableRest?
    requires IsScalar(v) && Supported(v) && Before(l, EncodeVal(v))
    ensures Gets(Fetch(l), ItemFor(v), Done(l, |EncodeVal(v)|)) == true
  {
    var k := ScalarRead(l, v);
    FetchedBy(l, k, Done(l, |EncodeVal(v)|), ItemFor(v));
  }

  lemma ScalarRoundTrip(v: Val, l: Live, depth: nat)
    requires ValueAt(l, depth)
    requires IsScalar(v) && Supported(v) && Before(l, EncodeVal(v))
    ensures Yields(ParseElement(l, depth), v, Done(l, |EncodeVal(v)|))
  {
    ScalarFetched(v, l);
    ScalarParsed(v);
    FetchDelivers(l);
  }

  /** The text behind the opening bracket of an array, and behind its first element. */
  function ArrayTail(vs: seq<Val>): string { EncodeElems(vs) + "]" }

  function RestText(vs: seq<Val>): string
    requires vs != []
  { if |vs| == 1 then "]" else ", " + ArrayTail(vs[1..]) }

  lemma TailText(vs: seq<Val>, sep: string, close: string)
    requires vs != [] && sep == ", " && close == "]"
    ensures ArrayTail(vs) == EncodeVal(vs[0]) + RestText(vs)
    ensures RestText(vs) != "" && Ends(RestText(vs)[0])
  {
    if |vs| > 1 {
      var e, r := EncodeVal(vs[0]), EncodeElems(vs[1..]);
      Assoc(e + sep, r, close);
      Assoc(e, sep, r + close);
    }
  }

  lemma ArrayText(vs: seq<Val>)
    ensures EncodeVal(Arr(vs)) == "[" + ArrayTail(vs)
  {
    Assoc("[", EncodeElems(vs), "]");
  }

  /** Every supported value, at any depth: the text of the element is read back as the
      same value, consumed exactly, and the stack is popped by one. */
  lemma {:induction false} ElementRoundTrip(v: Val, l: Live, depth: nat)
    requires ValueAt(l, depth)
    requires Supported(v) && Before(l, EncodeVal(v))
    ensures Yields(ParseElement(l, depth), v, Done(l, |EncodeVal(v)|))
    decreases v, 3
  {
    if IsScalar(v) {
      ScalarRoundTrip(v, l, depth);
    } else {
      ArrayRoundTrip(v.elems, l, depth);
    }
  }

  lemma OpenArray(l: Live, body: string, depth: nat) returns (m: Live)
    requires ValueAt(l, depth) && l.state == Value && l.start == l.pos && Bounds(l) && l.items == []
    requires Reads(l, "[" + body)
    ensures m == l.(start := l.pos + 1, pos := l.pos + 1, state := ArrayValue) && InArrayAt(m, depth + 1)
    ensures Reads(m, body) && Bounds(m)
    ensures ParseElement(l, depth) == ParseArray([], m, depth + 1)
  {
    ReadsSplit(l, "[", body);
    OpenFetched(l);
    m := OpenTaken(l, l.(start := l.pos + 1, pos := l.pos + 1, state := ArrayValue), depth);
  }

  lemma OpenTaken(l: Live, n: Lex, depth: nat) returns (m: Live)
    requires ValueAt(l, depth) && Gets(Fetch(l), Item(ItemArray, ""), n)
    ensures m == n && InArrayAt(m, depth + 1) && ParseElement(l, depth) == ParseArray([], m, depth + 1)
  {
    FetchDelivers(l);
    m := Fetch(l).lex;
  }

  lemma OpenFetched(l: Live)
    requires PhaseOf(l) != Phase.Done && !PhaseOf(l).TableRest?
    requires l.state == Value && l.start == l.pos && Bounds(l) && l.items == [] && Reads(l, "[")
    ensures Gets(Fetch(l), Item(ItemArray, ""), l.(start := l.pos + 1, pos := l.pos + 1, state := ArrayValue))
  {
    OpenBracket(l);
    FetchedBy(l, 1, l.(start := l.pos + 1, pos := l.pos + 1, state := ArrayValue), Item(ItemArray, ""));
  }

  lemma ArrayRoundTrip(vs: seq<Val>, l: Live, depth: nat)
    requires ValueAt(l, depth)
    requires Supported(Arr(vs)) && Before(l, EncodeVal(Arr(vs)))
    ensures Yields(ParseElement(l, depth), Arr(vs), Done(l, |EncodeVal(Arr(vs))|)) == true
    decreases vs, 2
  {
    ArrayText(vs);
    var m := OpenArray(l, ArrayTail(vs), depth);
    assert [] + vs == vs;
    ElemsRoundTrip([], vs, m, depth + 1);
    DoneInside(l, m, ArrayTail(vs));
  }

  lemma DoneInside(l: Lex, m: Lex, tail: string)
    requires l.stack != [] && m == l.(start := l.pos + 1, pos := l.pos + 1, state := ArrayValue)
    ensures Done(m, |tail|) == Done(l, |"[" + tail|)
  {
  }

  /** The lexer stands before the elements of an array. */
  predicate AtElements(l: Lex) {
    l.state == ArrayValue && l.stack != [] && Bounds(l) && l.items == [] && l.start == l.pos
  }

  predicate AllSupported(vs: seq<Val>) { forall i | 0 <= i < |vs| :: Supported(vs[i]) }

  lemma NoElements(acc: seq<Val>, vs: seq<Val>, l: Live, depth: nat)
    requires InArrayAt(l, depth) && AtElements(l) && Reads(l, ArrayTail(vs)) && Homogeneous(acc + vs) && vs == []
    ensures Yields(ParseArray(acc, l, depth), Arr(acc + vs), Done(l, |ArrayTail(vs)|)) == true
  {
    assert acc + vs == acc;
    assert ArrayTail(vs) == "]";
    ArrayCloses(acc, l, depth);
  }

  lemma AccNext(acc: seq<Val>, vs: seq<Val>)
    requires vs != []
    ensures acc + [vs[0]] + vs[1..] == acc + vs
  {
  }

  /** Where an array ends that goes on with `rest` behind the text `e`. */
  lemma DoneBehind(l: Lex, q: Lex, e: string, rest: string)
    requires l.stack != [] && q == l.(start := l.pos + |e|, pos := l.pos + |e|, state := ArrayValueEnd)
    ensures Done(q, |rest|) == Done(l, |e + rest|)
  {
  }

  lemma ElemsRoundTrip(acc: seq<Val>, vs: seq<Val>, l: Live, depth: nat)
    requires InArrayAt(l, depth) && AtElements(l) && Reads(l, ArrayTail(vs))
    requires Homogeneous(acc + vs) && AllSupported(vs)
    ensures Yields(ParseArray(acc, l, depth), Arr(acc + vs), Done(l, |ArrayTail(vs)|)) == true
    decreases vs, 1
  {
    if vs == [] {
      NoElements(acc, vs, l, depth);
    } else {
      TailText(vs, ", ", "]");
      var e, rest := EncodeVal(vs[0]), RestText(vs);
      var q := FirstElement(acc, vs[0], e, rest, l, depth);
      AccNext(acc, vs);
      DoneBehind(l, q, e, rest);
      RestRoundTrip(acc + [vs[0]], vs, q, depth);
    }
  }

  /** Reads the first of the elements. */
  lemma FirstElement(acc: seq<Val>, v: Val, e: string, rest: string, l: Live, depth: nat) returns (q: Live)
    requires InArrayAt(l, depth) && AtElements(l) && Reads(l, e + rest)
    requires Supported(v) && e == EncodeVal(v) && rest != "" && Ends(rest[0])
    ensures q == l.(start := l.pos + |e|, pos := l.pos + |e|, state := ArrayValueEnd)
    ensures InArrayAt(q, depth) && Bounds(q) && Reads(q, rest)
    ensures ParseArray(acc, l, depth) == ParseArray(acc + [v], q, depth)
    decreases v, 4
  {
    var m := EnterBefore(l, v, e, rest);
    ElementRoundTrip(v, m, depth);
    q := ParseElement(m, depth).lex;
    ElementTaken(acc, v, l, m, q, depth);
    BehindElement(l, m, q, e, rest);
  }

  lemma BehindElement(l: Lex, m: Lex, q: Lex, e: string, rest: string)
    requires Bounds(l) && m == Inside(l) && q == Done(m, |e|) && Reads(Further(l, |e|), rest)
    ensures q == l.(start := l.pos + |e|, pos := l.pos + |e|, state := ArrayValueEnd)
    ensures Bounds(q) && Reads(q, rest)
  {
    assert m.stack[..|l.stack|] == l.stack;
  }

  lemma LastElement(acc: seq<Val>, vs: seq<Val>, q: Live, depth: nat)
    requires |vs| == 1 && InArrayAt(q, depth) && q.state == ArrayValueEnd && q.stack != []
    requires Bounds(q) && q.items == [] && q.start == q.pos && Reads(q, RestText(vs))
    requires Homogeneous(acc + vs[1..]) == true
    ensures Yields(ParseArray(acc, q, depth), Arr(acc + vs[1..]), Done(q, |RestText(vs)|)) == true
  {
    NothingLeft(acc, vs);
    ArrayCloses(acc, q, depth);
  }

  /** Reads what is behind an element. */
  lemma RestRoundTrip(acc: seq<Val>, vs: seq<Val>, q: Live, depth: nat)
    requires vs != [] && InArrayAt(q, depth) && q.state == ArrayValueEnd && q.stack != []
    requires Bounds(q) && q.items == [] && q.start == q.pos && Reads(q, RestText(vs)) == true
    requires Homogeneous(acc + vs[1..]) == true && AllSupported(vs)
    ensures Yields(ParseArray(acc, q, depth), Arr(acc + vs[1..]), Done(q, |RestText(vs)|)) == true
    decreases vs, 0
  {
    if |vs| == 1 {
      LastElement(acc, vs, q, depth);
    } else {
      var tail := ArrayTail(vs[1..]);
      var m := NextElements(acc, tail, q, depth);
      ElemsRoundTrip(acc, vs[1..], m, depth);
      MoreElements(q, m, tail);
    }
  }

  lemma MoreElements(q: Lex, m: Lex, tail: string)
    requires q.stack != [] && m == q.(start := q.pos + 2, pos := q.pos + 2, state := ArrayValue)
    ensures Done(m, |tail|) == Done(q, |", " + tail|)
  {
  }

  lemma NothingLeft(acc: seq<Val>, vs: seq<Val>)
    requires |vs| == 1
    ensures acc + vs[1..] == acc
  {
  }

  lemma NextElements(acc: seq<Val>, tail: string, q: Live, depth: nat) returns (m: Live)
    requires InArrayAt(q, depth) && q.state == ArrayValueEnd && q.stack != []
    requires Bounds(q) && q.items == [] && q.start == q.pos && Reads(q, ", " + tail)
    ensures m == q.(start := q.pos + 2, pos := q.pos + 2, state := ArrayValue)
    ensures InArrayAt(m, depth) && AtElements(m) == true && Reads(m, tail) == true
    ensures ParseArray(acc, q, depth) == ParseArray(acc, m, depth)
  {
    ReadsSplit(q, ", ", tail);
    Comma(q);
    m := FetchRounds(q, 3, q.(start := q.pos + 2, pos := q.pos + 2, state := ArrayValue));
    SameFetch(acc, q, m, depth);
  }

  lemma ElementAhead(l: Lex, v: Val, e: string, rest: string)
    requires AtElements(l) && Reads(l, e + rest) && Supported(v) && e == EncodeVal(v) && rest != "" && Ends(rest[0])
    ensures e != "" && Reads(l, [e[0]]) && Before(Inside(l), e) == true && Reads(Further(l, |e|), rest)
    ensures !IsWhitespace(e[0]) && !IsNL(e[0]) && e[0] != '#' && e[0] != ',' && e[0] != ']'
  {
    FirstChar(v);
    TextAhead(l, e, rest);
  }

  lemma TextAhead(l: Lex, e: string, rest: string)
    requires AtElements(l) && Reads(l, e + rest) && e != "" && rest != "" && Ends(rest[0])
    ensures Reads(l, [e[0]]) && Before(Inside(l), e) == true && Reads(Further(l, |e|), rest)
  {
    ReadsSplit(l, e, rest);
    assert e == [e[0]] + e[1..];
    ReadsSplit(l, [e[0]], e[1..]);
    ReadsChar(Further(l, |e|), rest, 0);
  }

  lemma EnterBefore(l: Live, v: Val, e: string, rest: string) returns (m: Live)
    requires PhaseOf(l) != Phase.Done && !PhaseOf(l).TableRest? && AtElements(l) && Reads(l, e + rest)
    requires Supported(v) && e == EncodeVal(v) && rest != "" && Ends(rest[0])
    ensures m == Inside(l) && PhaseOf(m) == PhaseOf(l) && Fetch(l) == Fetch(m)
    ensures Before(m, e) && Reads(Further(l, |e|), rest)
  {
    ElementAhead(l, v, e, rest);
    EnterElement(l, e[0]);
    m := FetchRounds(l, 1, Inside(l));
  }
}
