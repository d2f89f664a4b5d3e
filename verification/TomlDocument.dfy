/** Whole documents: topLevel reads statements item by item and the tables replay them. */
module TomlDocument {
  import opened TomlData
  import opened TomlLexer
  import opened TomlLexerProofs
  import opened TomlValues
  import T = TomlTables

  // ----- names -----

  /** keyString */
  function KeyString(it: Item): Scalar {
    if it.typ == ItemText then Good(Text(it.val))
    else if IsStringType(it.typ) then ScalarValue(it)
    else Faulty(UnexpectedItem)
  }

  lemma KeyStringSafe(it: Item)
    requires ItemOk(it) && IsNameType(it.typ)
    ensures KeyString(it).Good? ==> KeyString(it).value.Text?
    ensures !KeyString(it).Refused?
    ensures KeyString(it).Faulty? ==> KeyString(it).kind == BadMultilineEscape
  {
    if it.typ != ItemText {
      ScalarSafe(it);
    }
  }

  /** The parser has to see a name first, or may see the end of the header. */
  predicate InHeader(l: Live, many: bool, key: T.Key) {
    PhaseOf(l) == TableName(many) || (PhaseOf(l) == TableRest(many) && key != [])
  }

  predicate EndsHeader(t: ItemType) { t == ItemTableEnd || t == ItemArrayTableEnd }

  /** What comes next in a header: its end, once there is a name, or a name. */
  predicate FitsHeader(f: Fetched, many: bool, key: T.Key) {
    f.Got? ==>
      if EndsHeader(f.item.typ) then key != [] && PhaseOf(f.lex) == AtTop
      else ItemOk(f.item) && IsNameType(f.item.typ) && PhaseOf(f.lex) == TableRest(many)
  }

  lemma HeaderFetch(l: Live, many: bool, key: T.Key)
    requires InHeader(l, many, key)
    ensures FitsHeader(Fetch(l), many, key) == true
    ensures Fetch(l).Got? ==> Measure(Fetch(l).lex) < Measure(l)
  {
    FetchDelivers(l);
  }

  /** The loop of topLevel over the names of a header. */
  function ReadHeader(l: Live, many: bool, key: T.Key): (r: Outcome<T.Key>)
    requires InHeader(l, many, key)
    ensures Understood(r)
    ensures r.Ok? ==> r.value != [] && PhaseOf(r.lex) == AtTop && Measure(r.lex) < Measure(l)
    decreases Measure(l), 0
  {
    HeaderFetch(l, many, key);
    HeaderItem(Fetch(l), many, key)
  }

  /** That loop, standing at the fetched item. */
  function HeaderItem(f: Fetched, many: bool, key: T.Key): (r: Outcome<T.Key>)
    requires FitsHeader(f, many, key)
    ensures Understood(r)
    ensures r.Ok? ==> f.Got? && r.value != [] && PhaseOf(r.lex) == AtTop && Measure(r.lex) <= Measure(f.lex)
    decreases if f.Got? then Measure(f.lex) else 0, 1
  {
    match f
    case Spins => Spinning
    case Failed(_) => UserError
    case Got(it, n) =>
      if EndsHeader(it.typ) then Ok(key, n)
      else
        KeyStringSafe(it);
        match KeyString(it) {
          case Good(v) => ReadHeader(n, many, key + [v.s])
          case Refused => UserError
          case Faulty(k) => Bug(k)
        }
  }

  // ----- statements -----

  datatype Ending = AtEnd | ByUserError | BySpinning | ByBug(kind: BugKind)

  datatype Read = Statement(s: T.Stmt, lex: Live) | NoStatement(lex: Live) | Stopped(how: Ending)

  function Stopping<A>(r: Outcome<A>): Ending
    requires !r.Ok?
  {
    match r case UserError => ByUserError case Spinning => BySpinning case Bug(k) => ByBug(k)
  }

  predicate Fitting(e: Ending) { e.ByBug? ==> e.kind == BadDate || e.kind == BadMultilineEscape }

  predicate Reads(l: Live, r: Read) {
    match r
    case Statement(s, n) => (s.Header? ==> s.key != []) && PhaseOf(n) == AtTop && Measure(n) < Measure(l)
    case NoStatement(n) => PhaseOf(n) == AtTop && Measure(n) < Measure(l)
    case Stopped(how) => Fitting(how)
  }

  function ReadTable(l: Live, many: bool): (r: Read)
    requires PhaseOf(l) == TableName(many)
    ensures Reads(l, r)
  {
    match ReadHeader(l, many, [])
    case Ok(key, n) => Statement(T.Header(key, many), n)
    case other => Stopped(Stopping(other))
  }

  function ReadValue(l: Live, name: string): (r: Read)
    requires PhaseOf(l) == ValueNext
    ensures Reads(l, r)
  {
    FetchDelivers(l);
    match Fetch(l)
    case Spins => Stopped(BySpinning)
    case Failed(_) => Stopped(ByUserError)
    case Got(it, n) =>
      match ParseValue(it, n, 1)
      case Ok(v, m) => Statement(T.Assign(name, v), m)
      case other => Stopped(Stopping(other))
  }

  function ReadKey(l: Live): (r: Read)
    requires PhaseOf(l) == KeyName
    ensures Reads(l, r)
  {
    FetchDelivers(l);
    match Fetch(l)
    case Spins => Stopped(BySpinning)
    case Failed(_) => Stopped(ByUserError)
    case Got(it, n) =>
      KeyStringSafe(it);
      match KeyString(it)
      case Good(v) => ReadValue(n, v.s)
      case Refused => Stopped(ByUserError)
      case Faulty(k) => Stopped(ByBug(k))
  }

  function ReadComment(l: Live): (r: Read)
    requires PhaseOf(l) == InComment(AtTop)
    ensures Reads(l, r)
  {
    FetchDelivers(l);
    match Fetch(l)
    case Spins => Stopped(BySpinning)
    case Failed(_) => Stopped(ByUserError)
    case Got(it, n) => if it.typ == ItemText then NoStatement(n) else Stopped(ByBug(UnexpectedItem))
  }

  predicate FitsTop(f: Fetched) {
    f.Got? ==> Allowed(AtTop, f.item.typ) && PhaseOf(f.lex) == After(AtTop, f.item.typ)
  }

  /** topLevel */
  function TopItem(f: Fetched): (r: Read)
    requires FitsTop(f)
    ensures if f.Got? then Reads(f.lex, r) else r.Stopped? && Fitting(r.how)
  {
    match f
    case Spins => Stopped(BySpinning)
    case Failed(_) => Stopped(ByUserError)
    case Got(it, n) =>
      if it.typ == ItemEOF then Stopped(AtEnd)
      else if it.typ == ItemCommentStart then ReadComment(n)
      else if it.typ == ItemTableStart then ReadTable(n, false)
      else if it.typ == ItemArrayTableStart then ReadTable(n, true)
      else if it.typ == ItemKeyStart then ReadKey(n)
      else Stopped(ByBug(UnexpectedItem))
  }

  /** topLevel and the call of next before it. */
  function ReadTopLevel(l: Live): (r: Read)
    requires PhaseOf(l) == AtTop
    ensures Reads(l, r)
  {
    FetchDelivers(l);
    TopItem(Fetch(l))
  }

  /** The statements of a document up to where reading them ends. */
  datatype Document = Document(ss: seq<T.Stmt>, ending: Ending)

  function ReadAll(l: Live): (d: Document)
    requires PhaseOf(l) == AtTop
    ensures T.Named(d.ss) && Fitting(d.ending)
    decreases Measure(l)
  {
    match ReadTopLevel(l)
    case Stopped(how) => Document([], how)
    case NoStatement(n) => ReadAll(n)
    case Statement(s, n) => var rest := ReadAll(n); Document([s] + rest.ss, rest.ending)
  }

  // ----- parse -----

  datatype Parsed = Parsed(p: T.Parser) | Error | NeverReturns | Dies(kind: BugKind) | DiesInContext

  function Finish(ending: Ending, p: T.Parser): Parsed {
    match ending
    case AtEnd => Parsed(p)
    case ByUserError => Error
    case BySpinning => NeverReturns
    case ByBug(k) => Dies(k)
  }

  /** parse: every statement is applied when it is read, so the first refusal ends it. */
  function Parse(l: Live, p: T.Parser): Parsed
    requires PhaseOf(l) == AtTop
    decreases Measure(l)
  {
    match ReadTopLevel(l)
    case Stopped(how) => Finish(how, p)
    case NoStatement(n) => Parse(n, p)
    case Statement(s, n) =>
      match T.Apply(p, s)
      case Accepted(q) => Parse(n, q)
      case Refused => Error
      case ContextBug => DiesInContext
  }

  /** Parsing is reading all statements and replaying them. */
  lemma {:induction false} ParseReplays(l: Live, p: T.Parser)
    requires PhaseOf(l) == AtTop
    ensures var d := ReadAll(l);
      Parse(l, p) == (match T.Replay(p, d.ss)
                      case Accepted(q) => Finish(d.ending, q)
                      case Refused => Error
                      case ContextBug => DiesInContext)
    decreases Measure(l)
  {
    match ReadTopLevel(l)
    case Stopped(how) =>
    case NoStatement(n) => ParseReplays(n, p);
    case Statement(s, n) =>
      var rest := ReadAll(n);
      assert ([s] + rest.ss)[1..] == rest.ss;
      match T.Apply(p, s) {
        case Accepted(q) => ParseReplays(n, q);
        case _ =>
      }
  }

  lemma StartPhase(data: string)
    ensures Inv(Init(data)) && PhaseOf(Init(data)) == AtTop
  {
    InitKeeps(data);
  }
}
