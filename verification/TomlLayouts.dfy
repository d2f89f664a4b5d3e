/** Values however they are laid out: blanks, ends of lines and comments between the elements of an array
    mean nothing, and every way to write a string will do. */
module TomlLayouts {
  import opened Decimal
  import opened TomlData
  import opened TomlLexer
  import opened TomlLexerProofs
  import opened TomlValues
  import opened TomlText
  import opened TomlStrings
  import A = TomlArrayText
  import E = TomlEndings
  import L = TomlLoops
  import P = TomlReplay

  // ----- gaps -----

  /** A blank or an end of line, or a comment with the end of its line. */
  datatype Bit = Space(c: char) | Remark(text: string, end: char)

  function BitText(b: Bit): string { match b case Space(c) => [c] case Remark(t, c) => "#" + t + [c] }

  predicate IsRemark(t: string) { forall i | 0 <= i < |t| :: !IsNL(t[i]) && t[i] != EOF }

  predicate IsBit(b: Bit) {
    match b case Space(c) => IsWhitespace(c) || IsNL(c) case Remark(t, c) => IsRemark(t) && IsNL(c)
  }

  type Gap = seq<Bit>

  function GapText(g: Gap): string { if g == [] then "" else BitText(g[0]) + GapText(g[1..]) }

  predicate IsGap(g: Gap) { forall i | 0 <= i < |g| :: IsBit(g[i]) }

  // ----- comments -----

  lemma RemarkStarts(m: Live)
    requires PhaseOf(m) != Done && m.state == CommentStart && m.items == []
    ensures Gets(Fetch(m), Item(ItemCommentStart, ""), m.(state := Comment, start := m.pos)) == true
  {
    var it := Item(ItemCommentStart, "");
    assert [] + [it] == [it] && [it][1..] == [];
    var n := m.(state := Comment, start := m.pos);
    assert A.Round(m) == A.Queued(n, it);
    RoundFetched(m, A.Queued(n, it));
  }

  lemma RemarkGoesOn(c: Live, x: char)
    requires PhaseOf(c) != Done && c.state == Comment && c.pos < |c.input| && x == Ahead(c, 0) && !IsNL(x) && x != EOF
    ensures GoesOn(c, A.Further(c, 1)) == true
  {
    assert A.Round(c) == A.Further(c, 1);
    RoundFetched(c, A.Further(c, 1));
  }

  lemma RemarkCloses(c: Live)
    requires PhaseOf(c) != Done && c.state == Comment && c.stack != [] && IsNL(Ahead(c, 0))
    ensures GetsString(c, ItemText, "", 0) == true
  {
    var it := Item(ItemText, Current(c));
    assert [] + [it] == [it];
    assert A.Round(c) == StepComment(c) == A.Queued(A.Done(c, 0), it);
    Closes(c, it, 0);
  }

  /** The text of a comment, up to the end of its line. */
  lemma {:induction false} RemarkFetched(c: Live, t: string, end: char)
    requires PhaseOf(c) != Done && c.state == Comment && c.stack != []
    requires IsRemark(t) && IsNL(end) && Stands(c, t, [end])
    ensures GetsString(c, ItemText, t, 0) == true
    decreases |t|
  {
    StandsFirst(c, t, [end], 0);
    if t == "" {
      RemarkCloses(c);
    } else {
      StandsOn(c, t, [end], 1);
      RemarkGoesOn(c, t[0]);
      RemarkFetched(A.Further(c, 1), t[1..], end);
      StringGoesOn(c, ItemText, t, 1, 0);
    }
  }

  // ----- gaps in an array -----

  /** Before or behind an element of an array. */
  predicate InGap(l: Lex) {
    && (l.state == ArrayValue || l.state == ArrayValueEnd) && l.items == [] && Bounds(l) && l.start == l.pos
    && l.stack != []
  }

  lemma SpaceStep(l: Lex, c: char)
    requires InGap(l) && A.Reads(l, [c]) && (IsWhitespace(c) || IsNL(c))
    ensures A.Round(l) == l.(pos := l.pos + 1, state := Skip(l.state))
    ensures A.Round(A.Round(l)) == Past(l, 1, l.state)
  {
    A.ReadsChar(l, [c], 0);
    var m := l.(pos := l.pos + 1, state := Skip(l.state));
    assert A.Round(l) == if l.state == ArrayValue then StepArrayValue(l) else StepArrayValueEnd(l);
    assert A.Round(m) == Past(l, 1, l.state);
  }

  lemma SpaceRead(acc: seq<Val>, l: Live, c: char, depth: nat) returns (m: Live)
    requires InArrayAt(l, depth) && InGap(l) && A.Reads(l, [c]) && (IsWhitespace(c) || IsNL(c))
    ensures m == Past(l, 1, l.state) && InArrayAt(m, depth) && ParseArray(acc, l, depth) == ParseArray(acc, m, depth)
  {
    SpaceStep(l, c);
    A.Once(l, A.Round(l));
    A.Once(A.Round(l), Past(l, 1, l.state));
    A.Then(l, 1, A.Round(l), 1, Past(l, 1, l.state));
    m := A.FetchRounds(l, 2, Past(l, 1, l.state));
    A.SameFetch(acc, l, m, depth);
  }

  /** Behind the mark of a comment. */
  function InRemark(l: Lex): Lex {
    l.(start := l.pos + 1, pos := l.pos + 1, state := Comment, stack := l.stack + [l.state])
  }

  lemma MarkStep(l: Lex)
    requires InGap(l) && A.Reads(l, "#")
    ensures A.Round(l) == l.(pos := l.pos + 1, state := CommentStart, stack := l.stack + [l.state])
  {
    A.ReadsChar(l, "#", 0);
    assert A.Round(l) == if l.state == ArrayValue then StepArrayValue(l) else StepArrayValueEnd(l);
  }

  lemma MarkFetched(l: Live)
    requires PhaseOf(l) != Done && InGap(l) && A.Reads(l, "#")
    ensures Gets(Fetch(l), Item(ItemCommentStart, ""), InRemark(l)) == true
  {
    var m := l.(pos := l.pos + 1, state := CommentStart, stack := l.stack + [l.state]);
    MarkStep(l);
    RoundFetched(l, m);
    RemarkStarts(m);
  }

  lemma RemarkAhead(l: Lex, t: string, end: char)
    requires InGap(l) && A.Reads(l, "#" + t + [end])
    ensures A.Reads(l, "#") && Stands(InRemark(l), t, [end]) && Current(InRemark(l)) == ""
    ensures A.Done(InRemark(l), |t|) == Past(l, |t| + 1, l.state) && A.Reads(Past(l, |t| + 1, l.state), [end])
  {
    assert "#" + t + [end] == "#" + (t + [end]);
    A.ReadsSplit(l, "#", t + [end]);
    var c := InRemark(l);
    A.ReadsSplit(A.Further(l, 1), t, [end]);
    StandsFrom(c, t, [end]);
    assert (l.stack + [l.state])[..|l.stack|] == l.stack;
  }

  lemma StandsFrom(c: Lex, b: string, close: string)
    requires Bounds(c) && A.Reads(c, b + close)
    ensures Stands(c, b, close)
  {
    L.RestAhead(c);
    assert b + close == L.Rest(c)[..|b + close|];
  }

  lemma RemarkRead(acc: seq<Val>, l: Live, t: string, end: char, depth: nat) returns (m: Live)
    requires InArrayAt(l, depth) && InGap(l) && IsRemark(t) && IsNL(end) && A.Reads(l, "#" + t + [end])
    ensures m == Past(l, |t| + 1, l.state) && InArrayAt(m, depth)
    ensures ParseArray(acc, l, depth) == ParseArray(acc, m, depth)
  {
    RemarkAhead(l, t, end);
    MarkFetched(l);
    FetchDelivers(l);
    var c: Live := InRemark(l);
    RemarkFetched(c, t, end);
    E.CommentTaken(Fetch(l), c, depth);
    m := Fetch(c).lex;
    E.CommentValue(acc, Fetch(l), c, m, depth);
  }

  /** A comment with the end of its line. */
  lemma RemarkLine(acc: seq<Val>, l: Live, t: string, end: char, depth: nat) returns (m: Live)
    requires InArrayAt(l, depth) && InGap(l) && IsRemark(t) && IsNL(end) && A.Reads(l, "#" + t + [end])
    ensures m == Past(l, |t| + 2, l.state) && InArrayAt(m, depth)
    ensures ParseArray(acc, l, depth) == ParseArray(acc, m, depth)
  {
    RemarkAhead(l, t, end);
    var n := RemarkRead(acc, l, t, end, depth);
    m := SpaceRead(acc, n, end, depth);
  }

  lemma BitRead(acc: seq<Val>, l: Live, b: Bit, depth: nat) returns (m: Live)
    requires InArrayAt(l, depth) && InGap(l) && IsBit(b) && A.Reads(l, BitText(b))
    ensures m == Past(l, |BitText(b)|, l.state) && InArrayAt(m, depth)
    ensures ParseArray(acc, l, depth) == ParseArray(acc, m, depth)
  {
    match b
    case Space(c) => m := SpaceRead(acc, l, c, depth);
    case Remark(t, end) => m := RemarkLine(acc, l, t, end, depth);
  }

  lemma GapSplit(l: Lex, g: Gap, b: string, more: string)
    requires InGap(l) && g != [] && b == BitText(g[0]) && more == GapText(g[1..]) && A.Reads(l, GapText(g))
    ensures A.Reads(l, b) && InGap(Past(l, |b|, l.state)) && A.Reads(Past(l, |b|, l.state), more)
    ensures |GapText(g)| == |b| + |more|
  {
    A.ReadsSplit(l, b, more);
  }

  /** A gap in an array means nothing. */
  lemma {:induction false} GapRead(acc: seq<Val>, l: Live, g: Gap, depth: nat) returns (m: Live)
    requires InArrayAt(l, depth) && InGap(l) && IsGap(g) && A.Reads(l, GapText(g))
    ensures m == Past(l, |GapText(g)|, l.state) && InArrayAt(m, depth)
    ensures ParseArray(acc, l, depth) == ParseArray(acc, m, depth)
    decreases |g|, 1
  {
    if g == [] {
      m := l;
    } else {
      m := GapOn(acc, l, g, depth);
    }
  }

  lemma {:induction false} GapOn(acc: seq<Val>, l: Live, g: Gap, depth: nat) returns (m: Live)
    requires g != []
    requires InArrayAt(l, depth) && InGap(l) && IsGap(g) && A.Reads(l, GapText(g))
    ensures m == Past(l, |GapText(g)|, l.state) && InArrayAt(m, depth)
    ensures ParseArray(acc, l, depth) == ParseArray(acc, m, depth)
    decreases |g|, 0
  {
    GapSplit(l, g, BitText(g[0]), GapText(g[1..]));
    var n := BitRead(acc, l, g[0], depth);
    m := GapRead(acc, n, g[1..], depth);
  }

  // ----- values -----

  /** A value as it is laid out: a number, boolean or datetime, a string, or an array with gaps around its
      elements and perhaps a comma behind the last one. */
  datatype Laid =
    | Scalar(text: string, v: Val)
    | Quoted(f: Form, s: string)
    | Many(es: seq<Placed>, comma: bool, last: Gap)

  datatype Placed = Placed(before: Gap, item: Laid, behind: Gap)

  /** An optional minus sign and digits. */
  predicate IntegerMeans(text: string, n: int) {
    && text != "" && IsInt64(n)
    && if text[0] == '-' then IsDecimal(text[1..]) && n == -DigitsValue(text[1..])
       else IsDecimal(text) && n == DigitsValue(text)
  }

  /** What a word, a number or a datetime means. */
  predicate LiteralMeans(text: string, v: Val) {
    match v
    case Boolean(b) => text == if b then "true" else "false"
    case Integer(n) => IntegerMeans(text, n)
    case FloatNum(t) => text == t && NumOf(t) == Fraction && IsFloat64(t)
    case Datetime(t) => text == t && DatetimeText(t) && OnCalendar(t)
    case _ => false
  }

  function LaidText(x: Laid): string
    decreases x, 1
  {
    match x
    case Scalar(text, _) => text
    case Quoted(f, _) => FormText(f)
    case Many(es, comma, last) => "[" + TailText(es, comma, last)
  }

  function TailText(es: seq<Placed>, comma: bool, last: Gap): string
    decreases es, 1
  {
    if es == [] then GapText(last) + "]"
    else GapText(es[0].before) + (LaidText(es[0].item) + BehindText(es, comma, last))
  }

  /** The text behind the first element. */
  function BehindText(es: seq<Placed>, comma: bool, last: Gap): string
    requires es != []
    decreases es, 0
  {
    GapText(es[0].behind) + if |es| == 1 && !comma then "]" else "," + TailText(es[1..], comma, last)
  }

  function LaidVal(x: Laid): Val
    decreases x, 1
  {
    match x
    case Scalar(_, v) => v
    case Quoted(_, s) => Text(s)
    case Many(es, _, _) => Arr(LaidVals(es))
  }

  function LaidVals(es: seq<Placed>): (vs: seq<Val>)
    ensures |vs| == |es|
    decreases es, 0
  {
    if es == [] then [] else [LaidVal(es[0].item)] + LaidVals(es[1..])
  }

  predicate IsLaid(x: Laid)
    decreases x
  {
    match x
    case Scalar(text, v) => LiteralMeans(text, v)
    case Quoted(f, s) => FormMeans(f, s)
    case Many(es, _, last) =>
      IsGap(last) && forall i | 0 <= i < |es| :: IsGap(es[i].before) && IsLaid(es[i].item) && IsGap(es[i].behind)
  }

  /** A character that ends a value. */
  predicate Stops(c: char) { IsWhitespace(c) || IsNL(c) || c == '#' || c == ',' || c == ']' || c == EOF }

  /** The lexer stands before a value whose text is `e`. */
  predicate AtLaid(l: Lex, e: string) {
    && l.state == Value && l.items == [] && Bounds(l) && l.start == l.pos && l.stack != []
    && A.Reads(l, e) && l.pos + |e| < |l.input| && Stops(l.input[l.pos + |e|])
  }

  /** The value is parsed, consumed exactly; but an error of the user, if an array in it mixes types. */
  predicate Given(r: Outcome<Val>, v: Val, n: Lex) { if P.Uniform(v) then A.Yields(r, v, n) else r.UserError? }

  lemma BeforeLaid(l: Lex, e: string)
    requires AtLaid(l, e)
    ensures A.Before(l, e) == true
  {
  }

  function LiteralItem(text: string, v: Val): Item {
    match v
    case Boolean(_) => Item(ItemBool, text)
    case Integer(_) => Item(ItemInteger, text)
    case FloatNum(_) => Item(ItemFloat, text)
    case _ => Item(ItemDatetime, text)
  }

  lemma LiteralRead(l: Lex, text: string, v: Val) returns (k: nat)
    requires LiteralMeans(text, v) && A.Before(l, text)
    ensures A.Rounds(l, k) == A.Queued(A.Done(l, |text|), LiteralItem(text, v))
  {
    match v
    case Boolean(b) =>
      A.WordRead(l, if b then "rue" else "alse", text);
      k := 2;
    case Integer(n) => k := A.IntegerRead(l, text);
    case FloatNum(_) => k := A.FloatRead(l, text);
    case Datetime(_) => k := A.DateRead(l, text);
  }

  lemma IntegerParsed(text: string, n: int)
    requires IntegerMeans(text, n)
    ensures ParseInt(text) == Exact(n)
  {
    SignedParse(if text[0] == '-' then text[1..] else text);
    if text[0] == '-' {
      assert text == "-" + text[1..];
    }
  }

  lemma LiteralValue(text: string, v: Val)
    requires LiteralMeans(text, v)
    ensures ScalarValue(LiteralItem(text, v)) == Good(v) && IsScalarType(LiteralItem(text, v).typ) && !v.Arr?
  {
    if v.Integer? {
      IntegerParsed(text, v.n);
    }
  }

  lemma ScalarGiven(l: Live, it: Item, v: Val, n: Lex, depth: nat)
    requires A.ValueAt(l, depth) && Gets(Fetch(l), it, n)
    requires IsScalarType(it.typ) && ScalarValue(it) == Good(v) && !v.Arr?
    ensures Given(A.ParseElement(l, depth), v, n) == true
  {
    FetchDelivers(l);
  }

  lemma ScalarLaid(text: string, v: Val, l: Live, depth: nat)
    requires A.ValueAt(l, depth) && LiteralMeans(text, v) && AtLaid(l, text) == true
    ensures Given(A.ParseElement(l, depth), v, A.Done(l, |text|)) == true
  {
    BeforeLaid(l, text);
    LiteralValue(text, v);
    var k := LiteralRead(l, text, v);
    A.FetchedBy(l, k, A.Done(l, |text|), LiteralItem(text, v));
    ScalarGiven(l, LiteralItem(text, v), v, A.Done(l, |text|), depth);
  }

  lemma TextAhead(l: Live, e: string)
    requires PhaseOf(l) != Done && AtLaid(l, e)
    ensures AtText(l, e) == true
  {
  }

  lemma QuotedLaid(f: Form, s: string, l: Live, e: string, depth: nat)
    requires A.ValueAt(l, depth) && FormMeans(f, s) && e == FormText(f) && AtLaid(l, e) == true
    ensures Given(A.ParseElement(l, depth), Text(s), A.Done(l, |e|)) == true
  {
    TextAhead(l, e);
    FormGot(l, f, s);
    ItemMeans(f, s);
    ScalarGiven(l, FormItem(f), Text(s), A.Done(l, |e|), depth);
  }

  lemma LiteralOpens(text: string, v: Val)
    requires LiteralMeans(text, v)
    ensures text != "" && !Stops(text[0])
  {
    match v
    case FloatNum(t) => A.FloatOpens(t);
    case Datetime(t) => A.YearStarts(t);
    case _ =>
  }

  /** The first character of a value opens it. */
  lemma LaidOpens(x: Laid)
    requires IsLaid(x)
    ensures LaidText(x) != "" && !Stops(LaidText(x)[0])
  {
    match x
    case Scalar(text, v) => LiteralOpens(text, v);
    case Quoted(f, _) =>
    case Many(es, comma, last) =>
  }

  lemma TailStops(g: Gap, rest: string)
    requires IsGap(g) && rest != "" && Stops(rest[0])
    ensures GapText(g) + rest != "" && Stops((GapText(g) + rest)[0])
  {
  }

  // ----- arrays -----

  /** Where the elements of an array end: their values are added, or a type is mixed in. */
  predicate GivenAll(r: Outcome<Val>, acc: seq<Val>, vs: seq<Val>, n: Lex) {
    if Homogeneous(acc + vs) && AllUniform(vs) then A.Yields(r, Arr(acc + vs), n) else r.UserError?
  }

  predicate AllUniform(vs: seq<Val>) { forall i | 0 <= i < |vs| :: P.Uniform(vs[i]) }

  lemma CloseRead(acc: seq<Val>, l: Live, depth: nat)
    requires InArrayAt(l, depth) && InGap(l) && A.Reads(l, "]")
    ensures GivenAll(ParseArray(acc, l, depth), acc, [], A.Done(l, 1)) == true
  {
    A.CloseBracket(l);
    A.FetchedBy(l, 2, A.Done(l, 1), Item(ItemArrayEnd, ""));
    assert acc + [] == acc;
  }

  lemma GapAhead(l: Lex, text: string, rest: string)
    requires InGap(l) && A.Reads(l, text + rest)
    ensures A.Reads(l, text) && A.Reads(Past(l, |text|, l.state), rest) && InGap(Past(l, |text|, l.state))
  {
    A.ReadsSplit(l, text, rest);
  }

  /** A gap with more text behind it. */
  lemma GapThen(acc: seq<Val>, l: Live, g: Gap, text: string, rest: string, depth: nat) returns (n: Live)
    requires IsGap(g) && text == GapText(g) && InArrayAt(l, depth) && InGap(l) && A.Reads(l, text + rest)
    ensures n == Past(l, |text|, l.state) && InArrayAt(n, depth) && InGap(n)
    ensures A.Reads(n, rest) && ParseArray(acc, l, depth) == ParseArray(acc, n, depth)
  {
    GapAhead(l, text, rest);
    n := GapRead(acc, l, g, depth);
  }

  lemma ArrayEndRead(acc: seq<Val>, l: Live, g: Gap, text: string, depth: nat)
    requires InArrayAt(l, depth) && InGap(l) && IsGap(g) && text == GapText(g) && A.Reads(l, text + "]")
    ensures GivenAll(ParseArray(acc, l, depth), acc, [], A.Done(l, |text| + 1)) == true
  {
    var m := GapThen(acc, l, g, text, "]", depth);
    CloseRead(acc, m, depth);
  }

  lemma CommaAhead(l: Lex, tail: string)
    requires InGap(l) && A.Reads(l, "," + tail)
    ensures A.Reads(l, ",") && A.Reads(Past(l, 1, ArrayValue), tail) && InGap(Past(l, 1, ArrayValue))
  {
    A.ReadsSplit(l, ",", tail);
  }

  lemma CommaRead(acc: seq<Val>, l: Live, tail: string, depth: nat) returns (m: Live)
    requires InArrayAt(l, depth) && InGap(l) && l.state == ArrayValueEnd && A.Reads(l, "," + tail)
    ensures m == Past(l, 1, ArrayValue) && InArrayAt(m, depth) && ParseArray(acc, l, depth) == ParseArray(acc, m, depth)
    ensures A.Reads(m, tail) && InGap(m)
  {
    CommaAhead(l, tail);
    A.CommaRound(l);
    m := A.FetchRounds(l, 1, Past(l, 1, ArrayValue));
    A.SameFetch(acc, l, m, depth);
  }

  lemma EnterLaid(l: Lex, e: string, rest: string)
    requires InGap(l) && A.Reads(l, e + rest) && rest != "" && Stops(rest[0])
    ensures AtLaid(A.Inside(l), e) == true && A.Reads(l, e)
  {
    A.ReadsSplit(l, e, rest);
    A.ReadsChar(A.Further(l, |e|), rest, 0);
  }

  /** From a gap into an element. */
  lemma EnterRead(l: Live, e: string, rest: string, depth: nat) returns (m: Live)
    requires InArrayAt(l, depth) && InGap(l) && l.state == ArrayValue && A.Reads(l, e + rest)
    requires e != "" && !Stops(e[0]) && rest != "" && Stops(rest[0])
    ensures m == A.Inside(l) && A.ValueAt(m, depth) && InArrayAt(m, depth) && Fetch(l) == Fetch(m)
    ensures AtLaid(m, e) == true
  {
    EnterLaid(l, e, rest);
    FirstRead(l, e);
    A.EnterElement(l, e[0]);
    m := A.FetchRounds(l, 1, A.Inside(l));
  }

  lemma FirstRead(l: Lex, e: string)
    requires Bounds(l) && A.Reads(l, e) && e != ""
    ensures A.Reads(l, [e[0]])
  {
    assert e == [e[0]] + e[1..];
    A.ReadsSplit(l, [e[0]], e[1..]);
  }

  lemma ItemRefused(acc: seq<Val>, f: Fetched, depth: nat)
    requires depth > 0 && FitsArray(f, depth) && (f.Got? ==> IsScalarType(f.item.typ) || f.item.typ == ItemArray)
    requires A.ElementItem(f, depth).UserError?
    ensures ArrayItem(acc, f, depth).UserError?
  {
  }

  lemma ElementRefused(acc: seq<Val>, l: Live, m: Live, depth: nat)
    requires InArrayAt(l, depth) && InArrayAt(m, depth) && Fetch(l) == Fetch(m)
    requires A.ParseElement(m, depth).UserError?
    ensures ParseArray(acc, l, depth).UserError?
  {
    FetchDelivers(m);
    ItemRefused(acc, Fetch(m), depth);
  }

  /** What the element gives, seen from the array. */
  predicate ElementRead(acc: seq<Val>, l: Live, v: Val, q: Lex, depth: nat)
    requires InArrayAt(l, depth)
  {
    if P.Uniform(v) then Inv(q) && InArrayAt(q, depth) && ParseArray(acc, l, depth) == ParseArray(acc + [v], q, depth)
    else ParseArray(acc, l, depth).UserError?
  }

  lemma ElementGiven(acc: seq<Val>, l: Live, m: Live, v: Val, q: Lex, depth: nat)
    requires InArrayAt(l, depth) && InArrayAt(m, depth) && Fetch(l) == Fetch(m)
    requires Given(A.ParseElement(m, depth), v, q)
    ensures ElementRead(acc, l, v, q, depth) == true
  {
    if P.Uniform(v) {
      A.ElementTaken(acc, v, l, m, A.ParseElement(m, depth).lex, depth);
    } else {
      ElementRefused(acc, l, m, depth);
    }
  }

  lemma BehindElement(l: Lex, e: string, rest: string)
    requires InGap(l) && A.Reads(l, e + rest)
    ensures A.Done(A.Inside(l), |e|) == Past(l, |e|, ArrayValueEnd)
    ensures InGap(Past(l, |e|, ArrayValueEnd)) && A.Reads(Past(l, |e|, ArrayValueEnd), rest)
  {
    A.ReadsSplit(l, e, rest);
    assert (l.stack + [ArrayValueEnd])[..|l.stack|] == l.stack;
  }

  /** Every value in every layout: it is parsed as what it means, and consumed exactly. */
  lemma {:induction false} LaidRead(x: Laid, l: Live, depth: nat)
    requires IsLaid(x) && A.ValueAt(l, depth) && AtLaid(l, LaidText(x))
    ensures Given(A.ParseElement(l, depth), LaidVal(x), A.Done(l, |LaidText(x)|)) == true
    decreases x, 3
  {
    match x
    case Scalar(text, v) => ScalarLaid(text, v, l, depth);
    case Quoted(f, s) => QuotedLaid(f, s, l, LaidText(x), depth);
    case Many(es, comma, last) => ManyRead(es, comma, last, l, depth);
  }

  predicate AllLaid(es: seq<Placed>) {
    forall i | 0 <= i < |es| :: IsGap(es[i].before) && IsLaid(es[i].item) && IsGap(es[i].behind)
  }

  lemma {:induction false} ManyRead(es: seq<Placed>, comma: bool, last: Gap, l: Live, depth: nat)
    requires AllLaid(es) && IsGap(last) && A.ValueAt(l, depth) && AtLaid(l, "[" + TailText(es, comma, last))
    ensures Given(A.ParseElement(l, depth), Arr(LaidVals(es)), A.Done(l, |"[" + TailText(es, comma, last)|)) == true
    decreases es, 2
  {
    var m := A.OpenArray(l, TailText(es, comma, last), depth);
    TailRead([], es, comma, last, m, depth + 1);
    A.DoneInside(l, m, TailText(es, comma, last));
    ManyParsed(A.ParseElement(l, depth), LaidVals(es), A.Done(m, |TailText(es, comma, last)|));
  }

  lemma ManyParsed(r: Outcome<Val>, vs: seq<Val>, n: Lex)
    requires GivenAll(r, [], vs, n)
    ensures Given(r, Arr(vs), n)
  {
    assert [] + vs == vs;
    assert P.Uniform(Arr(vs)) <==> Homogeneous(vs) && AllUniform(vs);
  }

  /** What is read from one gap on. */
  predicate TailIs(acc: seq<Val>, es: seq<Placed>, l: Live, depth: nat, n: Lex)
    requires InArrayAt(l, depth)
  { GivenAll(ParseArray(acc, l, depth), acc, LaidVals(es), n) }

  /** The elements from one gap on. */
  lemma {:induction false} TailRead(acc: seq<Val>, es: seq<Placed>, comma: bool, last: Gap, l: Live, depth: nat)
    requires AllLaid(es) == true && IsGap(last) && InArrayAt(l, depth) && InGap(l) && l.state == ArrayValue
    requires A.Reads(l, TailText(es, comma, last))
    ensures TailIs(acc, es, l, depth, A.Done(l, |TailText(es, comma, last)|)) == true
    decreases es, 1
  {
    if es == [] {
      ArrayEndRead(acc, l, last, GapText(last), depth);
    } else {
      var rest := BehindText(es, comma, last);
      var n := GapThen(acc, l, es[0].before, GapText(es[0].before), LaidText(es[0].item) + rest, depth);
      PlacedRead(acc, es, rest, comma, last, n, depth);
      var q := Past(n, |LaidText(es[0].item)|, ArrayValueEnd);
      BehindElement(n, LaidText(es[0].item), rest);
      if P.Uniform(LaidVal(es[0].item)) {
        BehindRead(acc + [LaidVal(es[0].item)], es, rest, comma, last, q, depth);
      }
      TailEnds(l, n, es[0], rest);
      TailParsed(ParseArray(acc, l, depth), acc, es, A.Done(q, |rest|));
    }
  }

  lemma TailEnds(l: Lex, n: Lex, x: Placed, rest: string)
    requires l.stack != [] && n == Past(l, |GapText(x.before)|, l.state)
    ensures A.Done(Past(n, |LaidText(x.item)|, ArrayValueEnd), |rest|)
            == A.Done(l, |GapText(x.before) + (LaidText(x.item) + rest)|)
  {
  }

  lemma {:induction false} PlacedRead(acc: seq<Val>, es: seq<Placed>, rest: string, comma: bool, last: Gap, n: Live,
        depth: nat)
    requires es != [] && AllLaid(es) && rest == BehindText(es, comma, last)
    requires InArrayAt(n, depth) && InGap(n) && n.state == ArrayValue && A.Reads(n, LaidText(es[0].item) + rest)
    ensures ElementRead(acc, n, LaidVal(es[0].item), Past(n, |LaidText(es[0].item)|, ArrayValueEnd), depth) == true
    decreases es, 0
  {
    var x := es[0].item;
    var e := LaidText(x);
    LaidOpens(x);
    BehindStops(es, comma, last);
    var m := EnterRead(n, e, rest, depth);
    LaidRead(x, m, depth);
    BehindElement(n, e, rest);
    ElementGiven(acc, n, m, LaidVal(x), A.Done(m, |e|), depth);
  }

  lemma BehindStops(es: seq<Placed>, comma: bool, last: Gap)
    requires es != [] && AllLaid(es)
    ensures BehindText(es, comma, last) != "" && Stops(BehindText(es, comma, last)[0])
  {
    TailStops(es[0].behind, if |es| == 1 && !comma then "]" else "," + TailText(es[1..], comma, last));
  }

  /** Behind the first element. */
  lemma {:induction false} BehindRead(acc: seq<Val>, es: seq<Placed>, rest: string, comma: bool, last: Gap, q: Live,
        depth: nat)
    requires es != [] && AllLaid(es) == true && IsGap(last) && rest == BehindText(es, comma, last)
    requires InArrayAt(q, depth) && InGap(q) && q.state == ArrayValueEnd && A.Reads(q, rest)
    ensures TailIs(acc, es[1..], q, depth, A.Done(q, |rest|)) == true
    decreases es, 0, 1
  {
    RestLaid(es);
    if |es| == 1 && !comma {
      LastRead(acc, es, q, depth);
    } else {
      MoreRead(acc, es, GapText(es[0].behind), TailText(es[1..], comma, last), comma, last, q, depth);
    }
  }

  lemma {:induction false} MoreRead(acc: seq<Val>, es: seq<Placed>, g: string, tail: string, comma: bool, last: Gap,
        q: Live, depth: nat)
    requires es != [] && IsGap(es[0].behind) && AllLaid(es[1..]) == true && IsGap(last)
    requires g == GapText(es[0].behind) && tail == TailText(es[1..], comma, last)
    requires InArrayAt(q, depth) && InGap(q) && q.state == ArrayValueEnd && A.Reads(q, g + ("," + tail))
    ensures TailIs(acc, es[1..], q, depth, A.Done(q, |g + ("," + tail)|)) == true
    decreases es, 0, 0
  {
    var m := NextRead(acc, es[0].behind, g, q, tail, depth);
    TailRead(acc, es[1..], comma, last, m, depth);
    NextEnds(q, m, g, tail);
    SameTail(acc, es[1..], q, m, depth, A.Done(m, |tail|));
  }

  lemma SameTail(acc: seq<Val>, es: seq<Placed>, q: Live, m: Live, depth: nat, n: Lex)
    requires InArrayAt(q, depth) && InArrayAt(m, depth) && ParseArray(acc, q, depth) == ParseArray(acc, m, depth)
    requires TailIs(acc, es, m, depth, n)
    ensures TailIs(acc, es, q, depth, n) == true
  {
  }

  lemma LastRead(acc: seq<Val>, es: seq<Placed>, q: Live, depth: nat)
    requires |es| == 1 && IsGap(es[0].behind) && InArrayAt(q, depth) && InGap(q)
    requires A.Reads(q, GapText(es[0].behind) + "]")
    ensures TailIs(acc, es[1..], q, depth, A.Done(q, |GapText(es[0].behind) + "]"|)) == true
  {
    ArrayEndRead(acc, q, es[0].behind, GapText(es[0].behind), depth);
    assert es[1..] == [] && LaidVals([]) == [];
  }

  lemma RestLaid(es: seq<Placed>)
    requires es != [] && AllLaid(es)
    ensures IsGap(es[0].behind) && AllLaid(es[1..]) == true && (|es| == 1 ==> LaidVals(es[1..]) == [])
  {
  }

  /** A gap and the comma behind it. */
  lemma NextRead(acc: seq<Val>, g: Gap, text: string, q: Live, tail: string, depth: nat) returns (m: Live)
    requires IsGap(g) && text == GapText(g) && InArrayAt(q, depth) && InGap(q) && q.state == ArrayValueEnd
    requires A.Reads(q, text + ("," + tail))
    ensures m == Past(q, |text| + 1, ArrayValue) && InArrayAt(m, depth) && InGap(m) && A.Reads(m, tail)
    ensures ParseArray(acc, q, depth) == ParseArray(acc, m, depth)
  {
    var rest := "," + tail;
    var n := GapThen(acc, q, g, text, rest, depth);
    m := CommaRead(acc, n, tail, depth);
  }

  lemma NextEnds(q: Lex, m: Lex, g: string, tail: string)
    requires q.stack != [] && m == Past(q, |g| + 1, ArrayValue)
    ensures A.Done(m, |tail|) == A.Done(q, |g + ("," + tail)|)
  {
  }

  lemma UniformFirst(v: Val, vs: seq<Val>)
    ensures AllUniform([v] + vs) <==> P.Uniform(v) && AllUniform(vs)
  {
    var all := [v] + vs;
    assert all[0] == v && forall i | 0 <= i < |vs| :: all[i + 1] == vs[i];
  }

  lemma TailParsed(r: Outcome<Val>, acc: seq<Val>, es: seq<Placed>, n: Lex)
    requires es != []
    requires if P.Uniform(LaidVal(es[0].item)) then GivenAll(r, acc + [LaidVal(es[0].item)], LaidVals(es[1..]), n)
             else r.UserError?
    ensures GivenAll(r, acc, LaidVals(es), n) == true
  {
    var v, vs := LaidVal(es[0].item), LaidVals(es[1..]);
    UniformFirst(v, vs);
    assert acc + [v] + vs == acc + ([v] + vs);
  }
}
