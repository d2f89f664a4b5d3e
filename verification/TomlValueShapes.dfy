/** What the lexer and the parser accept as a value is written in one of the layouts. */
module TomlValueShapes {
  import opened TomlData
  import opened TomlLexer
  import opened TomlLexerProofs
  import opened TomlLoops
  import opened TomlValues
  import opened TomlKeyText
  import opened TomlText
  import opened TomlKeyLines
  import opened TomlStrings
  import opened TomlLayouts
  import opened TomlShapes
  import A = TomlArrayText
  import E = TomlEndings

  /** How much of the input is left. */
  function Size(l: Lex): nat { if l.pos <= |l.input| then |l.input| - l.pos else 0 }

  /** The text from `l` on is `x`, and `n` is behind it. */
  predicate Found(l: Lex, x: Laid, n: Lex) {
    l.stack != [] && IsLaid(x) && A.Reads(l, LaidText(x)) && n == A.Done(l, |LaidText(x)|)
  }

  predicate ValueFound(l: Live, depth: nat, x: Laid)
    requires A.ValueAt(l, depth)
  { A.ParseElement(l, depth).Ok? ==> Found(l, x, A.ParseElement(l, depth).lex) }

  lemma ReadsJoin(l: Lex, a: string, b: string)
    requires A.Reads(l, a) && A.Reads(A.Further(l, |a|), b)
    ensures A.Reads(l, a + b)
  {
    var i, j := l.pos + |a|, l.pos + |a| + |b|;
    assert l.input[l.pos..j] == l.input[l.pos..i] + l.input[i..j];
  }

  // ----- scalars -----

  predicate OpensLiteral(c: char) { c == 't' || c == 'f' || c == '-' || IsDigit(c) }

  lemma LiteralBegins(l: Live) returns (m: Live, j: nat)
    requires PhaseOf(l) != Done && AtValueStart(l) && OpensLiteral(Ahead(l, 0))
    ensures j <= 1 && l.pos + j <= |l.input| && m == A.Further(l, j).(state := m.state) && InToken(m.state)
    ensures GoesOn(l, m) == true
  {
    var n := Step(l);
    assert n == StepValue(l);
    FetchRound(l);
    m := n;
    j := m.pos - l.pos;
  }

  lemma LiteralText(l: Lex, m: Lex, j: nat, k: nat) returns (e: string)
    requires Bounds(l) && l.start == l.pos && l.stack != [] && m == A.Further(l, j).(state := m.state)
    requires m.pos + k <= |l.input|
    ensures Bounds(A.Further(m, k)) && e == Current(A.Further(m, k)) && A.Reads(l, e) && A.Done(m, k) == A.Done(l, |e|)
  {
    e := l.input[l.pos..m.pos + k];
  }

  predicate LiteralIs(l: Live, e: string)
    requires PhaseOf(l) != Done && l.stack != []
  {
    && Fetch(l).Got? && Fetch(l).item.val == e && IsLiteral(Fetch(l).item.typ)
    && A.Reads(l, e) && Fetch(l).lex == A.Done(l, |e|)
  }

  lemma LiteralFetched(l: Live) returns (e: string)
    requires PhaseOf(l) != Done && AtValueStart(l) && OpensLiteral(Ahead(l, 0))
    ensures Fetch(l).Got? ==> LiteralIs(l, e) == true
  {
    var m, j := LiteralBegins(l);
    var k := TokenFetched(m);
    e := "";
    if Fetch(l).Got? {
      e := LiteralText(l, m, j, k);
    }
  }

  lemma LiteralValued(f: Fetched, depth: nat) returns (v: Val)
    requires f.Got? && ItemOk(f.item) && IsLiteral(f.item.typ) && A.ElementItem(f, depth).Ok?
    ensures LiteralMeans(f.item.val, v) && A.ElementItem(f, depth).lex == f.lex
  {
    v := A.ElementItem(f, depth).value;
    LiteralFound(f.item, v);
  }

  lemma FindLiteral(l: Live, depth: nat) returns (x: Laid)
    requires A.ValueAt(l, depth) && AtValueStart(l) && OpensLiteral(Ahead(l, 0))
    ensures ValueFound(l, depth, x) == true
  {
    x := Scalar("", Boolean(true));
    var e := LiteralFetched(l);
    FetchDelivers(l);
    if A.ParseElement(l, depth).Ok? {
      var v := LiteralValued(Fetch(l), depth);
      x := Scalar(e, v);
      assert Found(l, x, Fetch(l).lex);
    }
  }

  lemma StringValue(f: Fetched, e: Form, depth: nat) returns (s: string)
    requires f.Got? && ItemOk(f.item) && f.item == FormItem(e) && Shaped(e)
    requires A.ElementItem(f, depth).Ok?
    ensures FormMeans(e, s) && A.ElementItem(f, depth).lex == f.lex
  {
    s := A.ElementItem(f, depth).value.s;
    ShapedMeans(e, s);
  }

  lemma FindString(l: Live, depth: nat) returns (x: Laid)
    requires A.ValueAt(l, depth) && AtValueStart(l) && IsQuote(Ahead(l, 0))
    ensures ValueFound(l, depth, x) == true
  {
    x := Scalar("", Boolean(true));
    var f := FormFound(l);
    FetchDelivers(l);
    if A.ParseElement(l, depth).Ok? {
      var s := StringValue(Fetch(l), f, depth);
      x := Quoted(f, s);
      assert Found(l, x, Fetch(l).lex);
    }
  }

  lemma NoValue(l: Live, depth: nat, x: Laid)
    requires A.ValueAt(l, depth) && AtValueStart(l) && !IsWhitespace(Ahead(l, 0)) && !IsQuote(Ahead(l, 0))
    requires !OpensLiteral(Ahead(l, 0)) && Ahead(l, 0) != '['
    ensures ValueFound(l, depth, x) == true
  {
    NoItem(l);
    FetchDelivers(l);
  }

  // ----- gaps -----

  predicate EndsGap(l: Lex) { !IsWhitespace(Ahead(l, 0)) && !IsNL(Ahead(l, 0)) && Ahead(l, 0) != '#' }

  lemma ZeroValue(m: Live)
    requires PhaseOf(m) != Done && m.state == Value && Ahead(m, 0) == EOF
    ensures !Fetch(m).Got?
  {
    assert Step(m) == StepValue(m);
    Rejects(m);
  }

  lemma ZeroFirst(l: Live)
    requires PhaseOf(l) != Done && InGap(l) && l.state == ArrayValue && Ahead(l, 0) == EOF
    ensures !Fetch(l).Got?
  {
    var m := A.Inside(l);
    assert Step(l) == StepArrayValue(l) == m;
    RoundStays(l, m);
    ZeroValue(m);
  }

  lemma ZeroBehind(l: Live)
    requires PhaseOf(l) != Done && InGap(l) && l.state == ArrayValueEnd && Ahead(l, 0) == EOF
    ensures !Fetch(l).Got?
  {
    assert Step(l) == StepArrayValueEnd(l);
    Rejects(l);
  }

  lemma NothingFetched(acc: seq<Val>, l: Live, depth: nat)
    requires InArrayAt(l, depth) && !Fetch(l).Got?
    ensures !ParseArray(acc, l, depth).Ok?
  {
    FetchDelivers(l);
  }

  lemma ZeroInArray(acc: seq<Val>, l: Live, depth: nat)
    requires InArrayAt(l, depth) && InGap(l) && Ahead(l, 0) == EOF
    ensures !ParseArray(acc, l, depth).Ok?
  {
    if l.state == ArrayValue { ZeroFirst(l); } else { ZeroBehind(l); }
    NothingFetched(acc, l, depth);
  }

  lemma SpaceAhead(l: Lex)
    requires Bounds(l) && Ahead(l, 0) != EOF
    ensures l.pos < |l.input| && A.Reads(l, [Ahead(l, 0)])
  {
  }

  /** A gap is read, all of it. */
  predicate GapFound(acc: seq<Val>, l: Live, depth: nat, g: Gap, m: Live)
    requires InArrayAt(l, depth) && InArrayAt(m, depth)
  {
    && IsGap(g) && A.Reads(l, GapText(g)) && m == Past(l, |GapText(g)|, l.state) && EndsGap(m)
    && ParseArray(acc, l, depth) == ParseArray(acc, m, depth)
  }

  lemma GapText1(b: Bit, g: Gap)
    ensures GapText([b] + g) == BitText(b) + GapText(g)
  {
    assert ([b] + g)[1..] == g;
  }

  lemma GapPlace(l: Lex, t: string, n: Lex, more: string, m: Lex)
    requires A.Reads(l, t) && n == Past(l, |t|, l.state) && A.Reads(n, more) && m == Past(n, |more|, l.state)
    ensures A.Reads(l, t + more) && m == Past(l, |t + more|, l.state)
  {
    ReadsJoin(l, t, more);
  }

  lemma GapGrows(acc: seq<Val>, l: Live, depth: nat, b: Bit, t: string, n: Live, g: Gap, m: Live)
    requires InArrayAt(l, depth) && InArrayAt(n, depth) && InArrayAt(m, depth) && IsBit(b) && t == BitText(b)
    requires A.Reads(l, t) && n == Past(l, |t|, l.state) && ParseArray(acc, l, depth) == ParseArray(acc, n, depth)
    requires GapFound(acc, n, depth, g, m)
    ensures GapFound(acc, l, depth, [b] + g, m) == true
  {
    GapPlace(l, t, n, GapText(g), m);
    GapText1(b, g);
    BitFirst(b, g);
  }

  lemma BitFirst(b: Bit, g: Gap)
    requires IsBit(b) && IsGap(g)
    ensures IsGap([b] + g) == true
  {
  }

  /** A comment in an array, up to the end of its line. */
  lemma FindRemark(acc: seq<Val>, l: Live, depth: nat) returns (t: string, end: char)
    requires InArrayAt(l, depth) && InGap(l) && Ahead(l, 0) == '#' && ParseArray(acc, l, depth).Ok?
    ensures IsRemark(t) && IsNL(end) && A.Reads(l, "#" + t + [end])
  {
    var c := RemarkOpened(l);
    t := RemarkFound(c);
    end := Ahead(c, |t|);
    BehindRemark(l, t);
    var n := RemarkPassed(acc, l, c, t, depth);
    if end == EOF {
      ZeroInArray(acc, n, depth);
    } else {
      RemarkText(l, t, end);
    }
  }

  lemma RemarkOpened(l: Live) returns (c: Live)
    requires PhaseOf(l) != Done && InGap(l) && Ahead(l, 0) == '#'
    ensures c == InRemark(l) && PhaseOf(c) != Done && Gets(Fetch(l), Item(ItemCommentStart, ""), c) && A.Reads(l, "#")
  {
    SpaceAhead(l);
    MarkFetched(l);
    FetchDelivers(l);
    c := InRemark(l);
  }

  lemma RemarkGot(c: Live, t: string)
    requires PhaseOf(c) != Done && c.stack != [] && RemarkIs(c, t)
    ensures Fetch(c).Got? && Fetch(c).lex == A.Done(c, |t|) && Fetch(c).item.typ == ItemText
  {
  }

  lemma RemarkPlace(l: Lex, c: Lex, t: string, n: Lex)
    requires InGap(l) && c == InRemark(l) && c.pos + |t| <= |c.input| && n == Past(l, |t| + 1, l.state)
    ensures InGap(n) && Ahead(n, 0) == Ahead(c, |t|)
  {
  }

  lemma RemarkPassed(acc: seq<Val>, l: Live, c: Live, t: string, depth: nat) returns (n: Live)
    requires InArrayAt(l, depth) && InGap(l) && PhaseOf(c) != Done && c == InRemark(l)
    requires Gets(Fetch(l), Item(ItemCommentStart, ""), c) == true && RemarkIs(c, t) == true
    requires A.Done(c, |t|) == Past(l, |t| + 1, l.state) && c.pos + |t| <= |c.input|
    ensures n == Past(l, |t| + 1, l.state) && InArrayAt(n, depth) && InGap(n) && Ahead(n, 0) == Ahead(c, |t|)
    ensures ParseArray(acc, l, depth) == ParseArray(acc, n, depth)
  {
    RemarkGot(c, t);
    FetchDelivers(c);
    n := Fetch(c).lex;
    RemarkIgnored(acc, l, c, n, depth);
    RemarkPlace(l, c, t, n);
  }

  lemma BehindRemark(l: Lex, t: string)
    requires InGap(l)
    ensures A.Done(InRemark(l), |t|) == Past(l, |t| + 1, l.state)
  {
    assert (l.stack + [l.state])[..|l.stack|] == l.stack;
  }

  lemma RemarkIgnored(acc: seq<Val>, l: Live, c: Live, n: Live, depth: nat)
    requires InArrayAt(l, depth) && PhaseOf(c) != Done && Fetch(l).Got? && Fetch(l).item.typ == ItemCommentStart
    requires Fetch(l).lex == c && Fetch(c).Got? && Fetch(c).lex == n && Fetch(c).item.typ == ItemText
    ensures InArrayAt(n, depth) && ParseArray(acc, l, depth) == ParseArray(acc, n, depth)
  {
    FetchDelivers(l);
    E.CommentTaken(Fetch(l), c, depth);
    E.CommentValue(acc, Fetch(l), c, n, depth);
  }

  lemma RemarkText(l: Lex, t: string, end: char)
    requires InGap(l) && A.Reads(l, "#") && A.Reads(InRemark(l), t) && InRemark(l).pos + |t| <= |l.input|
    requires end == Ahead(InRemark(l), |t|) && end != EOF
    ensures A.Reads(l, "#" + t + [end])
  {
    ReadsJoin(l, "#", t);
    var m := A.Further(l, |"#" + t|);
    assert A.Reads(m, [end]);
    ReadsJoin(l, "#" + t, [end]);
  }

  lemma FindBit(acc: seq<Val>, l: Live, depth: nat) returns (b: Bit)
    requires InArrayAt(l, depth) && InGap(l) && !EndsGap(l) && ParseArray(acc, l, depth).Ok?
    ensures IsBit(b) && A.Reads(l, BitText(b))
  {
    SpaceAhead(l);
    if Ahead(l, 0) == '#' {
      var t, end := FindRemark(acc, l, depth);
      b := Remark(t, end);
    } else {
      b := Space(Ahead(l, 0));
    }
  }

  lemma {:induction false} FindGap(acc: seq<Val>, l: Live, depth: nat) returns (g: Gap, m: Live)
    requires InArrayAt(l, depth) && InGap(l)
    ensures InArrayAt(m, depth) && InGap(m) && m.state == l.state && m.input == l.input && Size(m) <= Size(l)
    ensures ParseArray(acc, l, depth).Ok? ==> GapFound(acc, l, depth, g, m) == true
    decreases Size(l)
  {
    g, m := [], l;
    if EndsGap(l) || !ParseArray(acc, l, depth).Ok? {
      assert GapText([]) == "";
    } else {
      var b := FindBit(acc, l, depth);
      var n := BitRead(acc, l, b, depth);
      g, m := FindGap(acc, n, depth);
      GapGrows(acc, l, depth, b, BitText(b), n, g, m);
      g := [b] + g;
    }
  }

  // ----- arrays -----

  predicate TailFound(acc: seq<Val>, l: Live, depth: nat, es: seq<Placed>, comma: bool, last: Gap)
    requires InArrayAt(l, depth) && l.stack != []
  {
    ParseArray(acc, l, depth).Ok? ==>
      && AllLaid(es) && IsGap(last) && A.Reads(l, TailText(es, comma, last))
      && ParseArray(acc, l, depth).lex == A.Done(l, |TailText(es, comma, last)|)
  }

  /** The same behind the first element. */
  predicate RestFound(acc: seq<Val>, q: Live, depth: nat, es: seq<Placed>, comma: bool, last: Gap)
    requires InArrayAt(q, depth) && q.stack != []
  {
    ParseArray(acc, q, depth).Ok? ==>
      && es != [] && AllLaid(es) && IsGap(last) && A.Reads(q, BehindText(es, comma, last))
      && ParseArray(acc, q, depth).lex == A.Done(q, |BehindText(es, comma, last)|)
  }

  lemma ArrayOpened(l: Live, depth: nat) returns (m: Live)
    requires A.ValueAt(l, depth) && AtValueStart(l) && Ahead(l, 0) == '['
    ensures m == Past(l, 1, ArrayValue) && InArrayAt(m, depth + 1) && InGap(m) && Size(m) < Size(l)
    ensures A.ParseElement(l, depth) == ParseArray([], m, depth + 1) && A.Reads(l, "[")
  {
    SpaceAhead(l);
    assert "[" + "" == "[";
    m := A.OpenArray(l, "", depth);
  }

  lemma {:induction false} FindArray(l: Live, depth: nat) returns (x: Laid)
    requires A.ValueAt(l, depth) && AtValueStart(l) && Ahead(l, 0) == '['
    ensures ValueFound(l, depth, x) == true
    decreases Size(l), 1
  {
    var m := ArrayOpened(l, depth);
    var es, comma, last := FindElems([], m, depth + 1);
    x := Many(es, comma, last);
    if A.ParseElement(l, depth).Ok? {
      BracketJoined(l, m, es, comma, last, TailText(es, comma, last));
    }
  }

  lemma BracketJoined(l: Lex, m: Lex, es: seq<Placed>, comma: bool, last: Gap, tail: string)
    requires l.stack != [] && m == Past(l, 1, ArrayValue) && A.Reads(l, "[") && tail == TailText(es, comma, last)
    requires AllLaid(es) && IsGap(last) && A.Reads(m, tail)
    ensures Found(l, Many(es, comma, last), A.Done(m, |tail|)) == true
  {
    ReadsJoin(l, "[", tail);
  }

  /** Every value that is accepted is written in one of the layouts. */
  lemma {:induction false} FindValue(l: Live, depth: nat) returns (x: Laid)
    requires A.ValueAt(l, depth) && AtValueStart(l) && !IsWhitespace(Ahead(l, 0))
    ensures ValueFound(l, depth, x) == true
    decreases Size(l), 2
  {
    var c := Ahead(l, 0);
    if IsQuote(c) {
      x := FindString(l, depth);
    } else if c == '[' {
      x := FindArray(l, depth);
    } else if OpensLiteral(c) {
      x := FindLiteral(l, depth);
    } else {
      x := Scalar("", Boolean(true));
      NoValue(l, depth, x);
    }
  }

  lemma CommaRejected(acc: seq<Val>, l: Live, depth: nat)
    requires InArrayAt(l, depth) && InGap(l) && EndsGap(l)
    requires if l.state == ArrayValue then Ahead(l, 0) == ',' else Ahead(l, 0) != ',' && Ahead(l, 0) != ']'
    ensures !ParseArray(acc, l, depth).Ok?
  {
    FetchDelivers(l);
    assert Step(l) == if l.state == ArrayValue then StepArrayValue(l) else StepArrayValueEnd(l);
    Rejects(l);
  }

  lemma Closed(acc: seq<Val>, l: Live, depth: nat)
    requires InArrayAt(l, depth) && InGap(l) && Ahead(l, 0) == ']'
    ensures A.Reads(l, "]") && (ParseArray(acc, l, depth).Ok? ==> ParseArray(acc, l, depth).lex == A.Done(l, 1))
  {
    SpaceAhead(l);
    CloseRead(acc, l, depth);
  }

  /** Inside the first element. */
  lemma Entered(acc: seq<Val>, l: Live, depth: nat) returns (m: Live)
    requires InArrayAt(l, depth) && InGap(l) && l.state == ArrayValue && EndsGap(l)
    requires Ahead(l, 0) != ',' && Ahead(l, 0) != ']' && Ahead(l, 0) != EOF
    ensures m == A.Inside(l) && A.ValueAt(m, depth) && InArrayAt(m, depth) && AtValueStart(m) && Fetch(l) == Fetch(m)
    ensures ParseArray(acc, l, depth).Ok? ==> A.ParseElement(m, depth).Ok?
  {
    SpaceAhead(l);
    A.EnterElement(l, Ahead(l, 0));
    m := A.FetchRounds(l, 1, A.Inside(l));
    FetchDelivers(l);
    assert !IsWhitespace(Ahead(m, 0));
    ElementOk(acc, l, m, depth);
  }

  lemma ElementOk(acc: seq<Val>, l: Live, m: Live, depth: nat)
    requires InArrayAt(l, depth) && InArrayAt(m, depth) && Fetch(l) == Fetch(m) && AtValueStart(m)
    requires !IsWhitespace(Ahead(m, 0))
    ensures ParseArray(acc, l, depth).Ok? ==> A.ParseElement(m, depth).Ok?
  {
    ValueItem(m);
    FetchDelivers(m);
    ItemOkElement(acc, Fetch(m), depth);
  }

  lemma ItemOkElement(acc: seq<Val>, f: Fetched, depth: nat)
    requires depth > 0 && FitsArray(f, depth) && (f.Got? ==> IsScalarType(f.item.typ) || f.item.typ == ItemArray)
    ensures ArrayItem(acc, f, depth).Ok? ==> A.ElementItem(f, depth).Ok?
  {
  }

  lemma BracketItem(m: Live)
    requires PhaseOf(m) != Done && AtValueStart(m) && Ahead(m, 0) == '['
    ensures Fetch(m).Got? ==> Fetch(m).item.typ == ItemArray
  {
    assert Step(m) == StepValue(m);
    FetchRound(m);
  }

  lemma NoItem(m: Live)
    requires PhaseOf(m) != Done && AtValueStart(m) && !IsWhitespace(Ahead(m, 0)) && !IsQuote(Ahead(m, 0))
    requires !OpensLiteral(Ahead(m, 0)) && Ahead(m, 0) != '['
    ensures !Fetch(m).Got?
  {
    assert Step(m) == StepValue(m);
    Rejects(m);
  }

  /** From a value on, no end of an array and no comment is fetched. */
  lemma ValueItem(m: Live)
    requires PhaseOf(m) != Done && AtValueStart(m) && !IsWhitespace(Ahead(m, 0))
    ensures Fetch(m).Got? ==> IsScalarType(Fetch(m).item.typ) || Fetch(m).item.typ == ItemArray
  {
    var c := Ahead(m, 0);
    if IsQuote(c) {
      var f := FormFound(m);
    } else if c == '[' {
      BracketItem(m);
    } else if OpensLiteral(c) {
      var e := LiteralFetched(m);
    } else {
      NoItem(m);
    }
  }

  /** The elements of an array from one gap on. */
  lemma {:induction false} FindElems(acc: seq<Val>, l: Live, depth: nat)
    returns (es: seq<Placed>, comma: bool, last: Gap)
    requires InArrayAt(l, depth) && InGap(l) && l.state == ArrayValue
    ensures TailFound(acc, l, depth, es, comma, last) == true
    decreases Size(l), 4
  {
    es, comma, last := [], false, [];
    var g, m := FindGap(acc, l, depth);
    if ParseArray(acc, l, depth).Ok? {
      es, comma, last := FindFirst(acc, m, depth);
      if es == [] {
        NoneGrow(acc, l, m, depth, g, comma);
        last := g;
      } else {
        TailGrows(acc, l, m, depth, g, es, comma, last);
        es := [es[0].(before := g)] + es[1..];
      }
    }
  }

  /** A gap and what was found behind it. */
  lemma GapJoined(l: Lex, m: Lex, g: string, tail: string, text: string)
    requires l.stack != [] && m == Past(l, |g|, l.state) && A.Reads(l, g) && A.Reads(m, tail) && text == g + tail
    ensures A.Reads(l, text) && A.Done(m, |tail|) == A.Done(l, |text|)
  {
    ReadsJoin(l, g, tail);
  }

  lemma NoneGrow(acc: seq<Val>, l: Live, m: Live, depth: nat, g: Gap, comma: bool)
    requires InArrayAt(l, depth) && InArrayAt(m, depth) && l.stack != [] && m.stack != []
    requires ParseArray(acc, l, depth).Ok? && GapFound(acc, l, depth, g, m) && TailFound(acc, m, depth, [], comma, [])
    ensures TailFound(acc, l, depth, [], comma, g) == true
  {
    NoneText(comma, g);
    GapJoined(l, m, GapText(g), TailText([], comma, []), TailText([], comma, g));
  }

  lemma NoneText(comma: bool, g: Gap)
    ensures TailText([], comma, g) == GapText(g) + TailText([], comma, [])
  {
    assert GapText([]) + "]" == "]";
  }

  lemma TailGrows(acc: seq<Val>, l: Live, m: Live, depth: nat, g: Gap, es: seq<Placed>, comma: bool, last: Gap)
    requires InArrayAt(l, depth) && InArrayAt(m, depth) && l.stack != [] && m.stack != []
    requires ParseArray(acc, l, depth).Ok? && GapFound(acc, l, depth, g, m) && TailFound(acc, m, depth, es, comma, last)
    requires es != [] && es[0].before == []
    ensures TailFound(acc, l, depth, [es[0].(before := g)] + es[1..], comma, last) == true
  {
    WithGap(es, g, comma, last);
    GapJoined(l, m, GapText(g), TailText(es, comma, last), TailText([es[0].(before := g)] + es[1..], comma, last));
  }

  lemma WithGap(es: seq<Placed>, g: Gap, comma: bool, last: Gap)
    requires es != [] && es[0].before == []
    ensures TailText([es[0].(before := g)] + es[1..], comma, last) == GapText(g) + TailText(es, comma, last)
    ensures AllLaid(es) && IsGap(g) ==> AllLaid([es[0].(before := g)] + es[1..])
  {
    var all := [es[0].(before := g)] + es[1..];
    var rest := LaidText(es[0].item) + BehindText(es, comma, last);
    assert all[1..] == es[1..] && GapText([]) + rest == rest;
    assert BehindText(all, comma, last) == BehindText(es, comma, last);
  }

  /** The same where no gap is ahead. */
  lemma {:induction false} FindFirst(acc: seq<Val>, l: Live, depth: nat)
    returns (es: seq<Placed>, comma: bool, last: Gap)
    requires InArrayAt(l, depth) && InGap(l) && l.state == ArrayValue && EndsGap(l)
    ensures TailFound(acc, l, depth, es, comma, last) == true
    ensures if es == [] then last == [] else es[0].before == []
    decreases Size(l), 3
  {
    es, comma, last := [], false, [];
    var c := Ahead(l, 0);
    if c == EOF {
      ZeroInArray(acc, l, depth);
    } else if c == ',' {
      CommaRejected(acc, l, depth);
    } else if c == ']' {
      Closed(acc, l, depth);
      assert TailText([], false, []) == "" + "]" == "]";
    } else if ParseArray(acc, l, depth).Ok? {
      var m := Entered(acc, l, depth);
      var x := FindValue(m, depth);
      es, comma, last := FindOthers(acc, l, m, x, depth);
    }
  }

  /** Behind an element. */
  lemma ElementPlace(l: Lex, m: Lex, x: Laid, q: Lex)
    requires InGap(l) && m == A.Inside(l) && Found(m, x, q)
    ensures IsLaid(x) && A.Reads(l, LaidText(x)) && q == Past(l, |LaidText(x)|, ArrayValueEnd)
    ensures InGap(q) && Size(q) < Size(l)
  {
    LaidOpens(x);
    assert (l.stack + [ArrayValueEnd])[..|l.stack|] == l.stack;
  }

  lemma ElementFound(acc: seq<Val>, l: Live, m: Live, x: Laid, depth: nat) returns (v: Val, q: Live)
    requires InArrayAt(l, depth) && InGap(l) && InArrayAt(m, depth) && m == A.Inside(l) && Fetch(l) == Fetch(m)
    requires A.ValueAt(m, depth) && A.ParseElement(m, depth).Ok? && ValueFound(m, depth, x)
    ensures IsLaid(x) && A.Reads(l, LaidText(x)) && q == Past(l, |LaidText(x)|, ArrayValueEnd)
    ensures InArrayAt(q, depth) && InGap(q) && Size(q) < Size(l)
    ensures ParseArray(acc, l, depth) == ParseArray(acc + [v], q, depth)
  {
    v, q := A.ParseElement(m, depth).value, A.ParseElement(m, depth).lex;
    ElementPlace(l, m, x, q);
    A.ElementTaken(acc, v, l, m, q, depth);
  }

  lemma {:induction false} FindOthers(acc: seq<Val>, l: Live, m: Live, x: Laid, depth: nat)
    returns (es: seq<Placed>, comma: bool, last: Gap)
    requires InArrayAt(l, depth) && InGap(l) && InArrayAt(m, depth) && m == A.Inside(l) && Fetch(l) == Fetch(m)
    requires A.ValueAt(m, depth) && A.ParseElement(m, depth).Ok? && ValueFound(m, depth, x)
    ensures TailFound(acc, l, depth, es, comma, last) == true && es != [] && es[0].before == []
    decreases Size(l), 2
  {
    var v, q := ElementFound(acc, l, m, x, depth);
    es, comma, last := FindBehind(acc + [v], q, x, depth);
    if ParseArray(acc, l, depth).Ok? {
      BehindJoined(l, q, x, es, comma, last);
    }
  }

  lemma BehindJoined(l: Lex, q: Lex, x: Laid, es: seq<Placed>, comma: bool, last: Gap)
    requires InGap(l) && es != [] && es[0].item == x && es[0].before == [] && A.Reads(l, LaidText(x))
    requires q == Past(l, |LaidText(x)|, ArrayValueEnd) && A.Reads(q, BehindText(es, comma, last))
    ensures A.Reads(l, TailText(es, comma, last))
    ensures A.Done(q, |BehindText(es, comma, last)|) == A.Done(l, |TailText(es, comma, last)|)
  {
    var e, rest := LaidText(x), BehindText(es, comma, last);
    ReadsJoin(l, e, rest);
    assert GapText([]) + (e + rest) == e + rest;
  }

  lemma {:induction false} FindBehind(acc: seq<Val>, l: Live, x: Laid, depth: nat)
    returns (es: seq<Placed>, comma: bool, last: Gap)
    requires InArrayAt(l, depth) && InGap(l) && l.state == ArrayValueEnd && IsLaid(x)
    ensures RestFound(acc, l, depth, es, comma, last) == true && es != [] && es[0].item == x && es[0].before == []
    decreases Size(l), 5
  {
    es, comma, last := [Placed([], x, [])], false, [];
    var g, m := FindGap(acc, l, depth);
    if ParseArray(acc, l, depth).Ok? {
      var c := Ahead(m, 0);
      if c == ']' {
        Closed(acc, m, depth);
        es := [Placed([], x, g)];
        LastFound(acc, l, m, g, x, depth);
      } else if c == ',' {
        var n := CommaFound(acc, m, depth);
        es, comma, last := FindElems(acc, n, depth);
        es, comma := JoinFound(acc, l, m, n, g, x, es, comma, last, depth);
      } else {
        CommaRejected(acc, m, depth);
      }
    }
  }

  lemma LastFound(acc: seq<Val>, l: Live, m: Live, g: Gap, x: Laid, depth: nat)
    requires InArrayAt(l, depth) && InArrayAt(m, depth) && InGap(l) && InGap(m) && IsLaid(x)
    requires GapFound(acc, l, depth, g, m) && A.Reads(m, "]")
    requires ParseArray(acc, m, depth).Ok? && ParseArray(acc, m, depth).lex == A.Done(m, 1)
    ensures RestFound(acc, l, depth, [Placed([], x, g)], false, []) == true
  {
    GapJoined(l, m, GapText(g), "]", BehindText([Placed([], x, g)], false, []));
  }

  lemma CommaFound(acc: seq<Val>, l: Live, depth: nat) returns (m: Live)
    requires InArrayAt(l, depth) && InGap(l) && l.state == ArrayValueEnd && Ahead(l, 0) == ','
    ensures m == Past(l, 1, ArrayValue) && InArrayAt(m, depth) && InGap(m) && Size(m) < Size(l) && A.Reads(l, ",")
    ensures ParseArray(acc, l, depth) == ParseArray(acc, m, depth)
  {
    SpaceAhead(l);
    assert "," + "" == ",";
    m := CommaRead(acc, l, "", depth);
  }

  /** One more element in front of those found behind the comma. */
  lemma JoinFound(acc: seq<Val>, l: Live, m: Live, n: Live, g: Gap, x: Laid, es: seq<Placed>, comma: bool, last: Gap,
        depth: nat) returns (all: seq<Placed>, more: bool)
    requires InArrayAt(l, depth) && InArrayAt(m, depth) && InArrayAt(n, depth) && InGap(l) && InGap(m) && InGap(n)
    requires IsLaid(x) && ParseArray(acc, l, depth).Ok? && GapFound(acc, l, depth, g, m) && A.Reads(m, ",")
    requires n == Past(m, 1, ArrayValue) && ParseArray(acc, m, depth) == ParseArray(acc, n, depth)
    requires TailFound(acc, n, depth, es, comma, last)
    ensures all != [] && all[0].item == x && all[0].before == [] && RestFound(acc, l, depth, all, more, last) == true
  {
    all, more := [Placed([], x, g)] + es, if es == [] then true else comma;
    JoinLaid(g, x, es, all);
    JoinText(g, es, comma, last, all, more);
    CommaJoined(l, m, n, GapText(g), TailText(es, comma, last), BehindText(all, more, last));
  }

  lemma JoinLaid(g: Gap, x: Laid, es: seq<Placed>, all: seq<Placed>)
    requires IsGap(g) && IsLaid(x) && AllLaid(es) && all == [Placed([], x, g)] + es
    ensures AllLaid(all) == true && all[1..] == es
  {
  }

  lemma CommaJoined(l: Lex, m: Lex, n: Lex, g: string, tail: string, text: string)
    requires l.stack != [] && m == Past(l, |g|, l.state) && n == Past(m, 1, ArrayValue)
    requires A.Reads(l, g) && A.Reads(m, ",") && A.Reads(n, tail) && text == g + ("," + tail)
    ensures A.Reads(l, text) && A.Done(n, |tail|) == A.Done(l, |text|)
  {
    ReadsJoin(m, ",", tail);
    ReadsJoin(l, g, "," + tail);
  }

  lemma JoinText(g: Gap, es: seq<Placed>, comma: bool, last: Gap, all: seq<Placed>, more: bool)
    requires all != [] && all[0].behind == g && all[1..] == es && more == (if es == [] then true else comma)
    ensures BehindText(all, more, last) == GapText(g) + ("," + TailText(es, comma, last))
  {
  }
}
