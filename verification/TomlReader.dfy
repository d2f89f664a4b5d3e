/** The parser's reading half as the program has it: it asks the lexer object for items and
    loops over array elements, names and top-level items. */
module TomlReader {
  import opened TomlData
  import opened TomlLexer
  import opened TomlLexerProofs
  import opened TomlValues
  import opened TomlDocument
  import L = TomlLexerObject
  import P = TomlParser
  import T = TomlTables

  class Reader {
    const lx: L.Lexer

    constructor (lexer: L.Lexer)
      ensures lx == lexer
    {
      lx := lexer;
    }

    /** The lexer can be asked for an item. */
    predicate Running()
      reads lx
    { lx.Valid() && Inv(lx.View()) }

    /** parser.value */
    method Value(it: Item, depth: nat) returns (r: Outcome<Val>)
      requires Running() && ItemOk(it)
      requires IsScalarType(it.typ) || (it.typ == ItemArray && InArrayAt(lx.View(), depth))
      modifies lx
      ensures r == ParseValue(it, old(lx.View()), depth) && (r.Ok? ==> Running() && lx.View() == r.lex)
      decreases Measure(lx.View()), 2
    {
      if it.typ == ItemArray {
        r := ArrayLoop(depth);
        return;
      }
      ScalarSafe(it);
      match ScalarValue(it)
      case Good(v) => r := Ok(v, lx.View());
      case Refused => r := UserError;
      case Faulty(k) => r := Bug(k);
    }

    /** Its loop over the elements of an array. */
    method ArrayLoop(depth: nat) returns (r: Outcome<Val>)
      requires Running() && InArrayAt(lx.View(), depth)
      modifies lx
      ensures r == ParseArray([], old(lx.View()), depth) && (r.Ok? ==> Running() && lx.View() == r.lex)
      decreases Measure(lx.View()), 1
    {
      var elems, more := [], true;
      r := Spinning;
      ghost var whole := ParseArray([], lx.View(), depth);
      while more
        invariant more ==> Running() && InArrayAt(lx.View(), depth) && Measure(lx.View()) <= old(Measure(lx.View()))
        invariant more ==> ParseArray(elems, lx.View(), depth) == whole
        invariant !more ==> r == whole && (r.Ok? ==> Running() && lx.View() == r.lex)
        decreases more, if more then Measure(lx.View()) else 0
      {
        elems, more, r := ArrayStep(elems, depth);
      }
    }

    /** One round of that loop: `more` elements follow, or `r` is the outcome. */
    method ArrayStep(elems: seq<Val>, depth: nat) returns (next: seq<Val>, more: bool, r: Outcome<Val>)
      requires Running() && InArrayAt(lx.View(), depth)
      modifies lx
      ensures more ==> Running() && InArrayAt(lx.View(), depth) && Measure(lx.View()) < old(Measure(lx.View()))
      ensures more ==> ParseArray(next, lx.View(), depth) == ParseArray(elems, old(lx.View()), depth)
      ensures !more ==> r == ParseArray(elems, old(lx.View()), depth) && (r.Ok? ==> Running() && lx.View() == r.lex)
      decreases Measure(lx.View()), 0
    {
      FetchDelivers(lx.View());
      var f := lx.NextItem();
      if !f.Got? {
        return [], false, if f.Failed? then UserError else Spinning;
      }
      if f.item.typ == ItemArrayEnd {
        return [], false, if Homogeneous(elems) then Ok(Arr(elems), lx.View()) else UserError;
      }
      if f.item.typ != ItemCommentStart {
        var v := Value(f.item, depth + 1);
        return if v.Ok? then elems + [v.value] else [], v.Ok?, v;
      }
      FetchDelivers(f.lex);
      var text := lx.NextItem();
      if !text.Got? {
        return [], false, if text.Failed? then UserError else Spinning;
      }
      return elems, text.item.typ == ItemText, Bug(UnexpectedItem);
    }

    /** The loop of topLevel over the names of a header. */
    method HeaderKey(many: bool) returns (r: Outcome<T.Key>)
      requires Running() && PhaseOf(lx.View()) == TableName(many)
      modifies lx
      ensures r == ReadHeader(old(lx.View()), many, []) && (r.Ok? ==> Running() && lx.View() == r.lex)
    {
      var key: T.Key := [];
      ghost var whole := ReadHeader(lx.View(), many, []);
      while true
        invariant Running() && InHeader(lx.View(), many, key)
        invariant ReadHeader(lx.View(), many, key) == whole
        decreases Measure(lx.View())
      {
        ghost var l: Live := lx.View();
        HeaderFetch(l, many, key);
        var f := lx.NextItem();
        if !f.Got? {
          return if f.Failed? then UserError else Spinning;
        }
        if EndsHeader(f.item.typ) {
          return Ok(key, lx.View());
        }
        KeyStringSafe(f.item);
        match KeyString(f.item) {
          case Good(v) => key := key + [v.s];
          case Refused => return UserError;
          case Faulty(k) => return Bug(k);
        }
      }
    }

    method KeyLine() returns (r: Read)
      requires Running() && PhaseOf(lx.View()) == KeyName
      modifies lx
      ensures r == ReadKey(old(lx.View())) && (r.Statement? ==> Running() && lx.View() == r.lex)
    {
      FetchDelivers(lx.View());
      var kname := lx.NextItem();
      if !kname.Got? {
        return Stopped(if kname.Failed? then ByUserError else BySpinning);
      }
      KeyStringSafe(kname.item);
      var currentKey := KeyString(kname.item);
      if !currentKey.Good? {
        return Stopped(if currentKey.Refused? then ByUserError else ByBug(currentKey.kind));
      }
      FetchDelivers(kname.lex);
      var f := lx.NextItem();
      if !f.Got? {
        return Stopped(if f.Failed? then ByUserError else BySpinning);
      }
      var v := Value(f.item, 1);
      r := if v.Ok? then Statement(T.Assign(currentKey.value.s, v.value), v.lex) else Stopped(Stopping(v));
    }

    method Header(many: bool) returns (r: Read)
      requires Running() && PhaseOf(lx.View()) == TableName(many)
      modifies lx
      ensures r == ReadTable(old(lx.View()), many) && (r.Statement? ==> Running() && lx.View() == r.lex)
    {
      var key := HeaderKey(many);
      r := if key.Ok? then Statement(T.Header(key.value, many), key.lex) else Stopped(Stopping(key));
    }

    method CommentLine() returns (r: Read)
      requires Running() && PhaseOf(lx.View()) == InComment(AtTop)
      modifies lx
      ensures r == ReadComment(old(lx.View())) && (!r.Stopped? ==> Running() && lx.View() == r.lex)
    {
      FetchDelivers(lx.View());
      var text := lx.NextItem();
      if !text.Got? {
        return Stopped(if text.Failed? then ByUserError else BySpinning);
      }
      r := if text.item.typ == ItemText then NoStatement(text.lex) else Stopped(ByBug(UnexpectedItem));
    }

    /** topLevel, up to where it changes the tables. */
    method TopLevel() returns (r: Read)
      requires Running() && PhaseOf(lx.View()) == AtTop
      modifies lx
      ensures r == ReadTopLevel(old(lx.View())) && (!r.Stopped? ==> Running() && lx.View() == r.lex)
    {
      FetchDelivers(lx.View());
      var f := lx.NextItem();
      r := TopItemRead(f);
    }

    /** topLevel, standing at the fetched item. */
    method TopItemRead(f: Fetched) returns (r: Read)
      requires FitsTop(f) && (f.Got? ==> Running() && lx.View() == f.lex)
      modifies lx
      ensures r == TopItem(f) && (!r.Stopped? ==> Running() && lx.View() == r.lex)
    {
      if !f.Got? {
        return Stopped(if f.Failed? then ByUserError else BySpinning);
      }
      if f.item.typ == ItemEOF {
        r := Stopped(AtEnd);
      } else if f.item.typ == ItemCommentStart {
        r := CommentLine();
      } else if f.item.typ == ItemTableStart {
        r := Header(false);
      } else if f.item.typ == ItemArrayTableStart {
        r := Header(true);
      } else if f.item.typ == ItemKeyStart {
        r := KeyLine();
      } else {
        r := Stopped(ByBug(UnexpectedItem));
      }
    }

    /** parse */
    method ParseAll(tables: P.TableParser) returns (r: Parsed)
      requires Running() && PhaseOf(lx.View()) == AtTop
      modifies lx, tables
      ensures r == Parse(old(lx.View()), old(tables.View())) && (r.Parsed? ==> r.p == tables.View())
    {
      ghost var whole := Parse(lx.View(), tables.View());
      while true
        invariant Running() && PhaseOf(lx.View()) == AtTop
        invariant Parse(lx.View(), tables.View()) == whole
        decreases Measure(lx.View())
      {
        var next := TopLevel();
        match next
        case Stopped(how) => return Finish(how, tables.View());
        case NoStatement(_) =>
        case Statement(s, _) =>
          var done := tables.Statement(s);
          match done {
            case Done =>
            case UserError => return Error;
            case Crash => return DiesInContext;
          }
      }
    }
  }
}
