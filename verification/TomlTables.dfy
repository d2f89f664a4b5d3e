/** The parser's nested tables: how headers and key lines build them (establishContext,
    setValue, the implicit marks), what they keep and where the context goes wrong. */
module TomlTables {
  import opened TomlData

  type Key = seq<string>

  /** A value in a table.  `Tables` is an array of tables; `Nil` is a Go nil, which only the
      encoder meets. */
  datatype Node = Leaf(v: Val) | Sub(t: Tbl) | Tables(ts: seq<Tbl>) | Nil
  datatype Tbl = Tbl(m: map<string, Node>)

  const EMPTY := Tbl(map[])

  /** Key.String */
  function Joined(key: Key): string {
    if key == [] then "" else if |key| == 1 then key[0] else key[0] + "." + Joined(key[1..])
  }

  // ----- paths -----

  predicate IsTable(n: Node) { n.Sub? || (n.Tables? && n.ts != []) }

  /** The table a header descends into: of an array of tables the last one. */
  function TableIn(n: Node): Tbl
    requires IsTable(n)
  { if n.Sub? then n.t else n.ts[|n.ts| - 1] }

  function WithTable(n: Node, t: Tbl): Node
    requires IsTable(n)
  { if n.Sub? then Sub(t) else Tables(n.ts[..|n.ts| - 1] + [t]) }

  /** Every prefix of the path names a table. */
  predicate Leads(t: Tbl, path: Key) {
    path == [] || (path[0] in t.m && IsTable(t.m[path[0]]) && Leads(TableIn(t.m[path[0]]), path[1..]))
  }

  function Find(t: Tbl, path: Key): Tbl
    requires Leads(t, path)
  { if path == [] then t else Find(TableIn(t.m[path[0]]), path[1..]) }

  /** `t` with another table at the end of the path: an update in place of the map there. */
  function Graft(t: Tbl, path: Key, s: Tbl): Tbl
    requires Leads(t, path)
  {
    if path == [] then s
    else
      var n := t.m[path[0]];
      Tbl(t.m[path[0] := WithTable(n, Graft(TableIn(n), path[1..], s))])
  }

  function Put(t: Tbl, k: string, n: Node): Tbl { Tbl(t.m[k := n]) }

  lemma {:induction false} GraftFind(t: Tbl, path: Key, s: Tbl)
    requires Leads(t, path)
    ensures Leads(Graft(t, path, s), path) && Find(Graft(t, path, s), path) == s
    decreases |path|
  {
    if path != [] {
      GraftFind(TableIn(t.m[path[0]]), path[1..], s);
    }
  }

  lemma {:induction false} GraftSame(t: Tbl, path: Key)
    requires Leads(t, path)
    ensures Graft(t, path, Find(t, path)) == t
    decreases |path|
  {
    if path != [] {
      var n := t.m[path[0]];
      GraftSame(TableIn(n), path[1..]);
      assert WithTable(n, TableIn(n)) == n;
    }
  }

  lemma {:induction false} GraftTwice(t: Tbl, path: Key, s: Tbl, u: Tbl)
    requires Leads(t, path)
    ensures Leads(Graft(t, path, s), path)
    ensures Graft(Graft(t, path, s), path, u) == Graft(t, path, u)
    decreases |path|
  {
    GraftFind(t, path, s);
    if path != [] {
      GraftTwice(TableIn(t.m[path[0]]), path[1..], s, u);
    }
  }

  /** One step further along a path. */
  lemma {:induction false} LeadsOn(t: Tbl, path: Key, k: string)
    requires Leads(t, path)
    ensures Leads(t, path + [k]) <==> k in Find(t, path).m && IsTable(Find(t, path).m[k])
    ensures Leads(t, path + [k]) ==> Find(t, path + [k]) == TableIn(Find(t, path).m[k])
    decreases |path|
  {
    if path == [] {
      assert path + [k] == [k] && [k][1..] == [];
    } else {
      assert (path + [k])[1..] == path[1..] + [k];
      LeadsOn(TableIn(t.m[path[0]]), path[1..], k);
    }
  }

  lemma {:induction false} GraftOn(t: Tbl, path: Key, k: string, s: Tbl)
    requires Leads(t, path) && Leads(t, path + [k])
    ensures k in Find(t, path).m && IsTable(Find(t, path).m[k])
    ensures Graft(t, path + [k], s)
      == Graft(t, path, Put(Find(t, path), k, WithTable(Find(t, path).m[k], s)))
    decreases |path|
  {
    LeadsOn(t, path, k);
    if path == [] {
      assert path + [k] == [k] && [k][1..] == [];
    } else {
      assert (path + [k])[1..] == path[1..] + [k];
      GraftOn(TableIn(t.m[path[0]]), path[1..], k, s);
    }
  }

  lemma {:induction false} LeadsPrefix(t: Tbl, path: Key, j: nat)
    requires Leads(t, path) && j <= |path|
    ensures Leads(t, path[..j])
    decreases |path|
  {
    if j > 0 {
      LeadsPrefix(TableIn(t.m[path[0]]), path[1..], j - 1);
      assert path[..j][1..] == path[1..][..j - 1];
    }
  }

  /** Neither nils nor empty arrays of tables, at any depth. */
  predicate Written(t: Tbl)
    decreases t, 1
  {
    forall k | k in t.m :: WrittenNode(t.m[k])
  }

  predicate WrittenNode(n: Node)
    decreases n, 0
  {
    match n
    case Nil => false
    case Leaf(_) => true
    case Sub(t) => Written(t)
    case Tables(ts) => ts != [] && forall i | 0 <= i < |ts| :: Written(ts[i])
  }

  // ----- statements -----

  /** A header `[key]` or, with `many`, `[[key]]`; or a line `key = value`. */
  datatype Stmt = Header(key: Key, many: bool) | Assign(name: string, value: Val)

  /** The parser's tables, current context, implicit marks and the keys in order. */
  datatype Parser = Parser(root: Tbl, context: Key, implicits: set<string>, ordered: seq<Key>)

  const START := Parser(EMPTY, [], {}, [])

  /** A statement is accepted, refused with an error for the user, or ends the process in
      one of setValue's "BUG" branches. */
  datatype Applied = Accepted(p: Parser) | Refused | ContextBug

  /** The loop of establishContext: enters every table along the path, making and marking
      those that are missing. */
  datatype Walk = Walk(root: Tbl, implicits: set<string>) | Clash

  function NextTable(t: Tbl, k: string): Node {
    if k in t.m then t.m[k] else Sub(EMPTY)
  }

  function NextMarks(t: Tbl, path: Key, k: string, marks: set<string>): set<string> {
    if k in t.m then marks else marks + {Joined(path + [k])}
  }

  function Drill(t: Tbl, path: Key, rest: Key, marks: set<string>): Walk
    decreases |rest|
  {
    if rest == [] then Walk(t, marks)
    else
      var k := rest[0];
      var n := NextTable(t, k);
      if !IsTable(n) then Clash
      else
        match Drill(TableIn(n), path + [k], rest[1..], NextMarks(t, path, k, marks))
        case Clash => Clash
        case Walk(u, marks') => Walk(Put(t, k, WithTable(n, u)), marks')
  }

  /** setValue in the context of `p`. */
  function SetValue(p: Parser, k: string, n: Node): Applied {
    if !Leads(p.root, p.context) then ContextBug
    else
      var hash := Find(p.root, p.context);
      var full := Joined(p.context + [k]);
      if k !in hash.m then Accepted(p.(root := Graft(p.root, p.context, Put(hash, k, n))))
      else if full in p.implicits then Accepted(p.(implicits := p.implicits - {full}))
      else Refused
  }

  function Last(key: Key): string
    requires key != []
  { key[|key| - 1] }

  function Parents(key: Key): Key
    requires key != []
  { key[..|key| - 1] }

  /** The array-of-tables half of establishContext, in the table the parents lead to. */
  function AddTable(p: Parser, k: string): Applied
    requires Leads(p.root, p.context)
  {
    var hash := Find(p.root, p.context);
    if k !in hash.m then Accepted(p.(root := Graft(p.root, p.context, Put(hash, k, Tables([EMPTY])))))
    else if hash.m[k].Tables? then
      Accepted(p.(root := Graft(p.root, p.context, Put(hash, k, Tables(hash.m[k].ts + [EMPTY])))))
    else Refused
  }

  lemma {:induction false} DrillLeads(t: Tbl, path: Key, rest: Key, marks: set<string>)
    ensures var w := Drill(t, path, rest, marks); w.Walk? ==> Leads(w.root, rest)
    decreases |rest|
  {
    if rest != [] {
      var n := NextTable(t, rest[0]);
      if IsTable(n) {
        DrillLeads(TableIn(n), path + [rest[0]], rest[1..], NextMarks(t, path, rest[0], marks));
      }
    }
  }

  /** Walking along tables that are all there changes nothing. */
  lemma {:induction false} DrillExisting(t: Tbl, path: Key, rest: Key, marks: set<string>)
    requires Leads(t, rest)
    ensures Drill(t, path, rest, marks) == Walk(t, marks)
    decreases |rest|
  {
    if rest != [] {
      var n := t.m[rest[0]];
      DrillExisting(TableIn(n), path + [rest[0]], rest[1..], marks);
      assert WithTable(n, TableIn(n)) == n;
    }
  }

  function EstablishContext(p: Parser, key: Key, many: bool): Applied
    requires key != []
  {
    DrillLeads(p.root, [], Parents(key), p.implicits);
    match Drill(p.root, [], Parents(key), p.implicits)
    case Clash => Refused
    case Walk(root, marks) =>
      var q := p.(root := root, implicits := marks, context := Parents(key));
      match if many then AddTable(q, Last(key)) else SetValue(q, Last(key), Sub(EMPTY))
      case Accepted(r) => Accepted(r.(context := key))
      case other => other
  }

  function Apply(p: Parser, s: Stmt): Applied
    requires s.Header? ==> s.key != []
  {
    match s
    case Header(key, many) =>
      (match EstablishContext(p, key, many)
       case Accepted(q) => Accepted(q.(ordered := q.ordered + [key]))
       case other => other)
    case Assign(k, v) =>
      (match SetValue(p, k, Leaf(v))
       case Accepted(q) => Accepted(q.(ordered := q.ordered + [q.context + [k]]))
       case other => other)
  }

  /** Statements as the lexer lets them through: no header has an empty key. */
  predicate Named(ss: seq<Stmt>) { forall i | 0 <= i < |ss| && ss[i].Header? :: ss[i].key != [] }

  function Replay(p: Parser, ss: seq<Stmt>): Applied
    requires Named(ss)
    decreases |ss|
  {
    if ss == [] then Accepted(p)
    else
      match Apply(p, ss[0])
      case Accepted(q) => Replay(q, ss[1..])
      case other => other
  }

  lemma {:induction false} ReplayThen(p: Parser, a: seq<Stmt>, b: seq<Stmt>)
    requires Named(a) && Named(b)
    ensures Named(a + b)
    ensures Replay(p, a + b) == (match Replay(p, a) case Accepted(q) => Replay(q, b) case other => other)
    decreases |a|
  {
    if a == [] {
      assert a + b == b;
    } else {
      assert (a + b)[1..] == a[1..] + b;
      match Apply(p, a[0]) {
        case Accepted(q) => ReplayThen(q, a[1..], b);
        case _ =>
      }
    }
  }
}
