/** How parsing a document ends, and why: every ending that is not the parser's own comes from the
    last item that it asks the lexer for. */
module TomlEndings {
  import opened TomlData
  import opened TomlLexer
  import opened TomlEscapes
  import opened TomlLexerProofs
  import opened TomlValues
  import opened TomlDocument
  import opened TomlLoops
  import opened TomlCalm
  import C = TomlContext
  import T = TomlTables

  // ----- where the parser asks last -----

  /** In the value that starts with `it`, which was asked for at `at`. */
  function LastOfValue(at: Live, it: Item, l: Live, depth: nat): (m: Live)
    requires PhaseOf(at) != Done && ItemOk(it)
    requires IsScalarType(it.typ) || (it.typ == ItemArray && InArrayAt(l, depth))
    ensures PhaseOf(m) != Done
    decreases Measure(l), 1
  {
    if it.typ == ItemArray then LastOfArray([], l, depth) else at
  }

  function LastOfArray(acc: seq<Val>, l: Live, depth: nat): (m: Live)
    requires InArrayAt(l, depth)
    ensures PhaseOf(m) != Done
    decreases Measure(l), 0
  {
    FetchDelivers(l);
    LastOfElement(acc, l, Fetch(l), depth)
  }

  /** At the item `f`, which was asked for at `at`. */
  function LastOfElement(acc: seq<Val>, at: Live, f: Fetched, depth: nat): (m: Live)
    requires PhaseOf(at) != Done && depth > 0 && FitsArray(f, depth)
    ensures PhaseOf(m) != Done
    decreases if f.Got? then Measure(f.lex) else 0, 2
  {
    match f
    case Spins => at
    case Failed(_) => at
    case Got(it, n) =>
      if it.typ == ItemArrayEnd then at
      else if it.typ == ItemCommentStart then
        FetchDelivers(n);
        match Fetch(n) {
          case Got(text, m) => if text.typ != ItemText then n else LastOfArray(acc, m, depth)
          case _ => n
        }
      else
        match ParseValue(it, n, depth + 1) {
          case Ok(v, m) => LastOfArray(acc + [v], m, depth)
          case _ => LastOfValue(at, it, n, depth + 1)
        }
  }

  function LastOfHeader(l: Live, many: bool, key: T.Key): (m: Live)
    requires InHeader(l, many, key)
    ensures PhaseOf(m) != Done
    decreases Measure(l), 0
  {
    HeaderFetch(l, many, key);
    LastOfName(l, Fetch(l), many, key)
  }

  function LastOfName(at: Live, f: Fetched, many: bool, key: T.Key): (m: Live)
    requires PhaseOf(at) != Done && FitsHeader(f, many, key)
    ensures PhaseOf(m) != Done
    decreases if f.Got? then Measure(f.lex) else 0, 1
  {
    match f
    case Spins => at
    case Failed(_) => at
    case Got(it, n) =>
      if EndsHeader(it.typ) then at
      else
        KeyStringSafe(it);
        match KeyString(it) {
          case Good(v) => LastOfHeader(n, many, key + [v.s])
          case _ => at
        }
  }

  function LastOfAssign(l: Live): (m: Live)
    requires PhaseOf(l) == ValueNext
    ensures PhaseOf(m) != Done
  {
    FetchDelivers(l);
    match Fetch(l)
    case Got(it, n) => LastOfValue(l, it, n, 1)
    case _ => l
  }

  function LastOfKey(l: Live): (m: Live)
    requires PhaseOf(l) == KeyName
    ensures PhaseOf(m) != Done
  {
    FetchDelivers(l);
    match Fetch(l)
    case Got(it, n) => (match KeyString(it) case Good(_) => LastOfAssign(n) case _ => l)
    case _ => l
  }

  /** In one top-level item. */
  function LastOfTop(l: Live): (m: Live)
    requires PhaseOf(l) == AtTop
    ensures PhaseOf(m) != Done
  {
    FetchDelivers(l);
    match Fetch(l)
    case Got(it, n) =>
      if it.typ == ItemCommentStart then n
      else if it.typ == ItemTableStart then LastOfHeader(n, false, [])
      else if it.typ == ItemArrayTableStart then LastOfHeader(n, true, [])
      else if it.typ == ItemKeyStart then LastOfKey(n)
      else l
    case _ => l
  }

  /** In a document. */
  function LastAsk(l: Live): (m: Live)
    requires PhaseOf(l) == AtTop
    ensures PhaseOf(m) != Done
    decreases Measure(l)
  {
    match ReadTopLevel(l)
    case Stopped(_) => LastOfTop(l)
    case NoStatement(n) => LastAsk(n)
    case Statement(_, n) => LastAsk(n)
  }

  // ----- what it gets there -----

  /** The conversion of the item ends in a "BUG" exit. */
  predicate Offends(f: Fetched, kind: BugKind) {
    f.Got? && IsScalarType(f.item.typ) && ScalarValue(f.item) == Faulty(kind)
  }

  /** The last answer of the lexer tells loops and "BUG" exits from the other endings. */
  predicate Blames(how: Ending, m: Live)
    requires PhaseOf(m) != Done
  {
    && (how == BySpinning <==> Fetch(m).Spins?)
    && forall k :: how == ByBug(k) <==> Offends(Fetch(m), k)
  }

  /** The outcome of reading from `l`, where the parser asks last at `m`; quietness goes along. */
  predicate Explained<A>(l: Live, r: Outcome<A>, m: Live)
    requires PhaseOf(m) != Done
  {
    if r.Ok? then Quiet(l) ==> Quiet(r.lex) else Blames(Stopping(r), m) && (Quiet(l) ==> Quiet(m))
  }

  lemma Asks(l: Live)
    requires PhaseOf(l) != Done
    ensures Quiet(l) && Fetch(l).Got? ==> Quiet(Fetch(l).lex)
    ensures Fetch(l).Spins? ==> Blames(BySpinning, l) == true
    ensures Fetch(l).Failed? ==> Blames(ByUserError, l) == true
  {
    if Quiet(l) {
      QuietFetch(l);
    }
  }

  /** A scalar that was asked for at `at`. */
  lemma ScalarBlames(at: Live, it: Item, l: Live)
    requires PhaseOf(at) != Done && Gets(Fetch(at), it, l) && IsScalarType(it.typ)
    ensures ScalarValue(it).Refused? ==> Blames(ByUserError, at) == true
    ensures ScalarValue(it).Faulty? ==> Blames(ByBug(ScalarValue(it).kind), at) == true
  {
  }

  lemma OtherBlames(at: Live, it: Item, l: Live)
    requires PhaseOf(at) != Done && Gets(Fetch(at), it, l) && !IsScalarType(it.typ)
    ensures Blames(ByUserError, at) == true && Blames(AtEnd, at) == true
  {
  }

  lemma NameBlames(at: Live, it: Item, l: Live)
    requires PhaseOf(at) != Done && Gets(Fetch(at), it, l) && ItemOk(it) && IsNameType(it.typ)
    ensures !KeyString(it).Refused? && (KeyString(it).Good? ==> KeyString(it).value.Text?)
    ensures KeyString(it).Faulty? ==>
      KeyString(it).kind == BadMultilineEscape && Blames(ByBug(KeyString(it).kind), at) == true
  {
    KeyStringSafe(it);
    if it.typ != ItemText {
      ScalarBlames(at, it, l);
    }
  }

  lemma {:induction false} ValueExplained(at: Live, it: Item, l: Live, depth: nat)
    requires PhaseOf(at) != Done && ItemOk(it) && Gets(Fetch(at), it, l)
    requires IsScalarType(it.typ) || (it.typ == ItemArray && InArrayAt(l, depth))
    ensures Explained(at, ParseValue(it, l, depth), LastOfValue(at, it, l, depth)) == true
    decreases Measure(l), 1
  {
    Asks(at);
    if it.typ == ItemArray {
      ArrayExplained([], l, depth);
    } else {
      ScalarSafe(it);
      ScalarBlames(at, it, l);
    }
  }

  lemma {:induction false} ArrayExplained(acc: seq<Val>, l: Live, depth: nat)
    requires InArrayAt(l, depth)
    ensures Explained(l, ParseArray(acc, l, depth), LastOfArray(acc, l, depth)) == true
    decreases Measure(l), 0
  {
    FetchDelivers(l);
    ElementExplained(acc, l, Fetch(l), depth);
  }

  lemma {:induction false} ElementExplained(acc: seq<Val>, at: Live, f: Fetched, depth: nat)
    requires PhaseOf(at) != Done && depth > 0 && f == Fetch(at) && FitsArray(f, depth)
    ensures Explained(at, ArrayItem(acc, f, depth), LastOfElement(acc, at, f, depth)) == true
    decreases if f.Got? then Measure(f.lex) else 0, 3
  {
    if !f.Got? {
      NoneExplained(acc, at, f, depth);
    } else if f.item.typ == ItemArrayEnd {
      EndExplained(acc, at, f, depth);
    } else if f.item.typ == ItemCommentStart {
      CommentExplained(acc, at, f, f.lex, depth);
    } else {
      NextExplained(acc, at, f, f.item, f.lex, depth);
    }
  }

  lemma NoneExplained(acc: seq<Val>, at: Live, f: Fetched, depth: nat)
    requires PhaseOf(at) != Done && depth > 0 && f == Fetch(at) && FitsArray(f, depth) && !f.Got?
    ensures Explained(at, ArrayItem(acc, f, depth), LastOfElement(acc, at, f, depth)) == true
  {
    Asks(at);
  }

  lemma EndExplained(acc: seq<Val>, at: Live, f: Fetched, depth: nat)
    requires PhaseOf(at) != Done && depth > 0 && f == Fetch(at) && FitsArray(f, depth)
    requires f.Got? && f.item.typ == ItemArrayEnd
    ensures Explained(at, ArrayItem(acc, f, depth), LastOfElement(acc, at, f, depth)) == true
  {
    Asks(at);
    OtherBlames(at, f.item, f.lex);
  }

  lemma {:induction false} NextExplained(acc: seq<Val>, at: Live, f: Fetched, it: Item, n: Live, depth: nat)
    requires PhaseOf(at) != Done && depth > 0 && f == Fetch(at) && FitsArray(f, depth)
    requires f == Got(it, n) && it.typ != ItemArrayEnd && it.typ != ItemCommentStart
    ensures Explained(at, ArrayItem(acc, f, depth), LastOfElement(acc, at, f, depth)) == true
    decreases Measure(n), 2
  {
    Asks(at);
    ValueExplained(at, it, n, depth + 1);
    var r := ParseValue(it, n, depth + 1);
    if r.Ok? {
      ArrayExplained(acc + [r.value], r.lex, depth);
    }
  }

  /** What explains an outcome from `m` explains it from where the parser came from. */
  lemma ExplainedBefore<A>(at: Live, m: Live, r: Outcome<A>, x: Live)
    requires PhaseOf(x) != Done && Explained(m, r, x) && (Quiet(at) ==> Quiet(m))
    ensures Explained(at, r, x) == true
  {
  }

  lemma QuietTwice(at: Live, n: Live)
    requires PhaseOf(at) != Done && PhaseOf(n) != Done && Fetch(at).Got? && n == Fetch(at).lex && Fetch(n).Got?
    ensures Quiet(at) ==> Quiet(Fetch(n).lex)
  {
    Asks(at);
    Asks(n);
  }

  lemma {:induction false} CommentExplained(acc: seq<Val>, at: Live, f: Fetched, n: Live, depth: nat)
    requires PhaseOf(at) != Done && depth > 0 && f == Fetch(at) && FitsArray(f, depth)
    requires f.Got? && f.item.typ == ItemCommentStart && n == f.lex
    ensures Explained(at, ArrayItem(acc, f, depth), LastOfElement(acc, at, f, depth)) == true
    decreases Measure(n), 1
  {
    if Fetch(n).Got? {
      var m := CommentSkipped(acc, at, f, n, depth);
      QuietTwice(at, n);
      ArrayExplained(acc, m, depth);
      ExplainedBefore(at, m, ParseArray(acc, m, depth), LastOfArray(acc, m, depth));
    } else {
      CommentStops(acc, at, f, n, depth);
    }
  }

  /** A fetched comment mark, with its text behind it. */
  predicate AtComment(f: Fetched, n: Live, depth: nat) {
    && depth > 0 && FitsArray(f, depth) && f.Got? && f.item.typ == ItemCommentStart && n == f.lex
    && PhaseOf(n) != Done && Fetch(n).Got?
  }

  lemma CommentTaken(f: Fetched, n: Live, depth: nat)
    requires AtComment(f, n, depth)
    ensures InArrayAt(Fetch(n).lex, depth) && Measure(Fetch(n).lex) < Measure(n) && Fetch(n).item.typ == ItemText
  {
    FetchDelivers(n);
  }

  lemma CommentValue(acc: seq<Val>, f: Fetched, n: Live, m: Live, depth: nat)
    requires AtComment(f, n, depth) && m == Fetch(n).lex && InArrayAt(m, depth) && Fetch(n).item.typ == ItemText
    ensures ArrayItem(acc, f, depth) == ParseArray(acc, m, depth)
  {
  }

  lemma CommentLast(acc: seq<Val>, at: Live, f: Fetched, n: Live, m: Live, depth: nat)
    requires AtComment(f, n, depth) && m == Fetch(n).lex && InArrayAt(m, depth) && Fetch(n).item.typ == ItemText
    requires PhaseOf(at) != Done
    ensures LastOfElement(acc, at, f, depth) == LastOfArray(acc, m, depth)
  {
  }

  /** The text of a comment is skipped. */
  lemma CommentSkipped(acc: seq<Val>, at: Live, f: Fetched, n: Live, depth: nat) returns (m: Live)
    requires PhaseOf(at) != Done && AtComment(f, n, depth) == true
    ensures m == Fetch(n).lex && InArrayAt(m, depth) && Measure(m) < Measure(n)
    ensures ArrayItem(acc, f, depth) == ParseArray(acc, m, depth)
    ensures LastOfElement(acc, at, f, depth) == LastOfArray(acc, m, depth)
  {
    CommentTaken(f, n, depth);
    m := Fetch(n).lex;
    CommentValue(acc, f, n, m, depth);
    CommentLast(acc, at, f, n, m, depth);
  }

  lemma CommentStops(acc: seq<Val>, at: Live, f: Fetched, n: Live, depth: nat)
    requires PhaseOf(at) != Done && depth > 0 && f == Fetch(at) && FitsArray(f, depth)
    requires f.Got? && f.item.typ == ItemCommentStart && n == f.lex && PhaseOf(n) != Done && !Fetch(n).Got?
    ensures Explained(at, ArrayItem(acc, f, depth), LastOfElement(acc, at, f, depth)) == true
  {
    FetchDelivers(n);
    Asks(at);
    Asks(n);
  }

  lemma {:induction false} HeaderExplained(l: Live, many: bool, key: T.Key)
    requires InHeader(l, many, key)
    ensures Explained(l, ReadHeader(l, many, key), LastOfHeader(l, many, key)) == true
    decreases Measure(l), 1
  {
    HeaderFetch(l, many, key);
    Asks(l);
    if Fetch(l).Got? && !EndsHeader(Fetch(l).item.typ) {
      NameExplained(l, Fetch(l), Fetch(l).item, Fetch(l).lex, many, key);
    }
  }

  lemma {:induction false} NameExplained(at: Live, f: Fetched, it: Item, n: Live, many: bool, key: T.Key)
    requires PhaseOf(at) != Done && f == Fetch(at) == Got(it, n) && FitsHeader(f, many, key) && !EndsHeader(it.typ)
    ensures Explained(at, HeaderItem(f, many, key), LastOfName(at, f, many, key)) == true
    decreases Measure(n), 2
  {
    Asks(at);
    NameBlames(at, it, n);
    if KeyString(it).Good? {
      HeaderExplained(n, many, key + [KeyString(it).value.s]);
    }
  }

  /** The same for a top-level item. */
  predicate TopExplained(l: Live, r: Read, m: Live)
    requires PhaseOf(m) != Done
  {
    if r.Stopped? then Blames(r.how, m) && (Quiet(l) ==> Quiet(m)) else Quiet(l) ==> Quiet(r.lex)
  }

  lemma AssignExplained(l: Live, name: string)
    requires PhaseOf(l) == ValueNext
    ensures TopExplained(l, ReadValue(l, name), LastOfAssign(l)) == true
  {
    FetchDelivers(l);
    Asks(l);
    if Fetch(l).Got? {
      ValueExplained(l, Fetch(l).item, Fetch(l).lex, 1);
    }
  }

  lemma KeyExplained(l: Live)
    requires PhaseOf(l) == KeyName
    ensures TopExplained(l, ReadKey(l), LastOfKey(l)) == true
  {
    FetchDelivers(l);
    Asks(l);
    if Fetch(l).Got? {
      var it := Fetch(l).item;
      NameBlames(l, it, Fetch(l).lex);
      if KeyString(it).Good? {
        AssignExplained(Fetch(l).lex, KeyString(it).value.s);
      }
    }
  }

  lemma TableExplained(l: Live, many: bool)
    requires PhaseOf(l) == TableName(many)
    ensures TopExplained(l, ReadTable(l, many), LastOfHeader(l, many, [])) == true
  {
    HeaderExplained(l, many, []);
  }

  lemma CommentEnds(l: Live)
    requires PhaseOf(l) == InComment(AtTop)
    ensures TopExplained(l, ReadComment(l), l) == true
  {
    FetchDelivers(l);
    Asks(l);
  }

  lemma ItemExplained(l: Live)
    requires PhaseOf(l) == AtTop
    ensures TopExplained(l, ReadTopLevel(l), LastOfTop(l)) == true
  {
    FetchDelivers(l);
    if Fetch(l).Got? {
      TakenExplained(l, Fetch(l).item, Fetch(l).lex);
    } else {
      Asks(l);
    }
  }

  lemma TopBefore(l: Live, n: Live, r: Read, x: Live)
    requires PhaseOf(l) != Done && Fetch(l).Got? && n == Fetch(l).lex && PhaseOf(x) != Done && TopExplained(n, r, x)
    ensures TopExplained(l, r, x) == true
  {
    Asks(l);
  }

  lemma TakenExplained(l: Live, it: Item, n: Live)
    requires PhaseOf(l) == AtTop && Fetch(l) == Got(it, n) && FitsTop(Fetch(l))
    ensures TopExplained(l, TopItem(Fetch(l)), LastOfTop(l)) == true
  {
    if it.typ == ItemCommentStart {
      CommentEnds(n);
      TopBefore(l, n, ReadComment(n), n);
    } else if it.typ == ItemTableStart {
      TableExplained(n, false);
      TopBefore(l, n, ReadTable(n, false), LastOfHeader(n, false, []));
    } else if it.typ == ItemArrayTableStart {
      TableExplained(n, true);
      TopBefore(l, n, ReadTable(n, true), LastOfHeader(n, true, []));
    } else if it.typ == ItemKeyStart {
      KeyExplained(n);
      TopBefore(l, n, ReadKey(n), LastOfKey(n));
    } else {
      Asks(l);
      OtherBlames(l, it, n);
    }
  }

  /** Reading a document ends in a loop, or in a "BUG" exit, if and only if the last answer of the
      lexer is to blame. */
  lemma {:induction false} ReadingExplained(l: Live)
    requires PhaseOf(l) == AtTop
    ensures Blames(ReadAll(l).ending, LastAsk(l)) && (Quiet(l) ==> Quiet(LastAsk(l)))
    decreases Measure(l)
  {
    ItemExplained(l);
    match ReadTopLevel(l)
    case Stopped(_) =>
    case NoStatement(n) => ReadingExplained(n);
    case Statement(_, n) => ReadingExplained(n);
  }

  // ----- for every input -----

  /** A date that is not on the calendar. */
  predicate OffCalendar(f: Fetched) { f.Got? && f.item.typ == ItemDatetime && !OnCalendar(f.item.val) }

  /** A multi-line string that, trimmed, has an incomplete escape. */
  predicate BadlyEscaped(f: Fetched) {
    f.Got? && f.item.typ == ItemMultilineString
    && !WellEscaped(StripFirstNewline(StripEscapedWhitespace(f.item.val)))
  }

  lemma OffendsWhen(l: Live, kind: BugKind)
    requires PhaseOf(l) != Done
    ensures Offends(Fetch(l), kind) <==>
      (kind == BadDate && OffCalendar(Fetch(l))) || (kind == BadMultilineEscape && BadlyEscaped(Fetch(l)))
  {
    FetchDelivers(l);
    if Fetch(l).Got? && IsScalarType(Fetch(l).item.typ) {
      ScalarSafe(Fetch(l).item);
    }
  }

  /** For every input, where `d` is what is read and `m` where the parser asks the lexer last: parsing

      - never returns if and only if all statements read are accepted and the text ahead at `m` leads
        into one of the two loops, and never so for a calm text;
      - ends in a "BUG" exit for a date, or for an escape, if and only if all statements read are
        accepted and the item got at `m` is a date off the calendar, or a multi-line string with
        an incomplete escape, and in no other "BUG" exit of a value;
      - ends in the "BUG" exit for a context if and only if the statements hit a shadowed header;
      - otherwise ends with tables, none of them an empty array, or with an error for the user. */
  lemma EveryInput(data: string)
    ensures Inv(Init(data)) && PhaseOf(Init(data)) == AtTop
    ensures var r, d, m := Parse(Init(data), T.START), ReadAll(Init(data)), LastAsk(Init(data));
      var accepted := T.Replay(T.START, d.ss).Accepted?;
      && (r.NeverReturns? <==> accepted && Loops(m))
      && (Calm(data) ==> !r.NeverReturns?)
      && (r == Dies(BadDate) <==> accepted && OffCalendar(Fetch(m)))
      && (r == Dies(BadMultilineEscape) <==> accepted && BadlyEscaped(Fetch(m)))
      && (r.Dies? ==> r.kind == BadDate || r.kind == BadMultilineEscape)
      && (r.DiesInContext? <==> C.HitsShadow(T.START, d.ss))
      && (r.Parsed? ==> T.Written(r.p.root))
  {
    StartPhase(data);
    var l: Live := Init(data);
    var d, m := ReadAll(l), LastAsk(l);
    C.BugExactly(d.ss);
    C.DocumentWritten(T.START, d.ss);
    ReadingBlamed(l);
    Finished(l);
    if Calm(data) {
      InitQuiet(data);
      QuietFetch(m);
      SpinsExactly(m);
    }
  }

  /** What the ending of reading says, by the last answer of the lexer. */
  lemma ReadingBlamed(l: Live)
    requires PhaseOf(l) == AtTop
    ensures var d, m := ReadAll(l), LastAsk(l);
      && (d.ending == BySpinning <==> Loops(m))
      && (d.ending == ByBug(BadDate) <==> OffCalendar(Fetch(m)))
      && (d.ending == ByBug(BadMultilineEscape) <==> BadlyEscaped(Fetch(m)))
      && Fitting(d.ending) && (Quiet(l) ==> Quiet(m))
  {
    var m := LastAsk(l);
    ReadingExplained(l);
    SpinsExactly(m);
    OffendsWhen(m, BadDate);
    OffendsWhen(m, BadMultilineEscape);
  }

  /** The outcome of parsing, by the ending of reading. */
  lemma Finished(l: Live)
    requires PhaseOf(l) == AtTop
    ensures var r, d := Parse(l, T.START), ReadAll(l); var a := T.Replay(T.START, d.ss);
      && (r.NeverReturns? <==> a.Accepted? && d.ending == BySpinning)
      && (forall k :: r == Dies(k) <==> a.Accepted? && d.ending == ByBug(k))
      && (r.DiesInContext? <==> a.ContextBug?)
      && (r.Parsed? ==> a.Accepted? && r.p == a.p)
  {
    ParseReplays(l, T.START);
  }
}
