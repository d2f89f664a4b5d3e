/** Documents in which implicit marks go wrong: two reach setValue's "BUG" branch, because the mark of
    one table is taken for the mark of another, and in one a value is dropped. */
module TomlShadows {
  import opened TomlData
  import opened TomlTables
  import opened TomlContext

  // ----- single statements -----

  lemma OneName(t: Tbl, x: string, s: Tbl)
    requires x in t.m && IsTable(t.m[x])
    ensures Leads(t, [x]) && Find(t, [x]) == TableIn(t.m[x])
    ensures Graft(t, [x], s) == Put(t, x, WithTable(t.m[x], s))
  {
    assert [x][1..] == [];
  }

  /** A header with two names, in a table where the first is missing. */
  lemma FreshPair(p: Parser, x: string, y: string)
    requires x !in p.root.m
    ensures Apply(p, Header([x, y], false))
      == Accepted(Parser(Put(p.root, x, Sub(Put(EMPTY, y, Sub(EMPTY)))), [x, y], p.implicits + {x}, p.ordered + [[x, y]]))
  {
    var key := [x, y];
    assert Parents(key) == [x] && [] + [x] == [x] && [x][1..] == [] && [x] + [y] == key;
    var t := Put(p.root, x, Sub(EMPTY));
    assert Drill(p.root, [], [x], p.implicits) == Walk(t, p.implicits + {x});
    OneName(t, x, Put(EMPTY, y, Sub(EMPTY)));
  }

  /** A header with three names, where the first is an empty table and the others are missing: the
      second is marked. */
  lemma FreshTriple(p: Parser, x: string, y: string, w: string)
    requires x in p.root.m && IsTable(p.root.m[x]) && TableIn(p.root.m[x]) == EMPTY
    ensures var r := Apply(p, Header([x, y, w], false));
      && r.Accepted? && r.p.implicits == p.implicits + {x + "." + y}
      && r.p.root == Put(p.root, x, WithTable(p.root.m[x], Put(EMPTY, y, Sub(Put(EMPTY, w, Sub(EMPTY))))))
  {
    var key, n, mark := [x, y, w], p.root.m[x], x + "." + y;
    assert Parents(key) == [x, y] && [] + [x] == [x] && [x] + [y] == [x, y] && [x, y] + [w] == key;
    assert Joined([x, y]) == mark by { assert [x, y][1..] == [y]; }
    var h := Put(EMPTY, y, Sub(EMPTY));
    var t := Put(p.root, x, WithTable(n, h));
    DrillPair(p.root, x, y, p.implicits);
    TwoNames(t, x, y, Put(EMPTY, w, Sub(EMPTY)));
  }

  lemma DrillPair(t: Tbl, x: string, y: string, marks: set<string>)
    requires x in t.m && IsTable(t.m[x]) && TableIn(t.m[x]) == EMPTY
    ensures Drill(t, [], [x, y], marks) == Walk(Put(t, x, WithTable(t.m[x], Put(EMPTY, y, Sub(EMPTY)))), marks + {x + "." + y})
  {
    assert [x, y][1..] == [y] && [y][1..] == [] && [] + [x] == [x] && [x] + [y] == [x, y];
    assert Joined([x, y]) == x + "." + y;
    assert Drill(EMPTY, [x], [y], marks) == Walk(Put(EMPTY, y, Sub(EMPTY)), marks + {x + "." + y});
  }

  lemma TwoNames(t: Tbl, x: string, y: string, s: Tbl)
    requires x in t.m && IsTable(t.m[x]) && TableIn(t.m[x]) == Put(EMPTY, y, Sub(EMPTY))
    ensures Leads(t, [x, y]) && Find(t, [x, y]) == EMPTY
    ensures Graft(t, [x, y], s) == Put(t, x, WithTable(t.m[x], Put(EMPTY, y, Sub(s))))
  {
    var h := TableIn(t.m[x]);
    assert [x, y][1..] == [y];
    OneName(h, y, s);
    assert Put(h, y, Sub(s)) == Put(EMPTY, y, Sub(s));
  }

  lemma FreshName(p: Parser, x: string)
    requires x !in p.root.m
    ensures Apply(p, Header([x], false))
      == Accepted(p.(root := Put(p.root, x, Sub(EMPTY)), context := [x], ordered := p.ordered + [[x]]))
  {
    assert Parents([x]) == [];
  }

  /** A header of an array of tables appends a table. */
  lemma NextElement(p: Parser, x: string)
    requires x in p.root.m ==> p.root.m[x].Tables?
    ensures var ts := if x in p.root.m then p.root.m[x].ts else [];
      Apply(p, Header([x], true))
      == Accepted(p.(root := Put(p.root, x, Tables(ts + [EMPTY])), context := [x], ordered := p.ordered + [[x]]))
  {
    assert Parents([x]) == [] && [] + [EMPTY] == [EMPTY];
  }

  lemma FreshLine(p: Parser, x: string, y: string, v: Val)
    requires p.context == [x] && x in p.root.m && IsTable(p.root.m[x]) && y !in TableIn(p.root.m[x]).m
    ensures var n := p.root.m[x];
      Apply(p, Assign(y, v))
      == Accepted(p.(root := Put(p.root, x, WithTable(n, Put(TableIn(n), y, Leaf(v)))), ordered := p.ordered + [[x, y]]))
  {
    OneName(p.root, x, Put(TableIn(p.root.m[x]), y, Leaf(v)));
    assert [x] + [y] == [x, y];
  }

  lemma ShadowsPair(p: Parser, x: string, y: string)
    requires x in p.root.m && IsTable(p.root.m[x]) && y in TableIn(p.root.m[x]).m && TableIn(p.root.m[x]).m[y].Leaf?
    requires x + "." + y in p.implicits
    ensures Shadowed(p, Header([x, y], false)) && Apply(p, Header([x, y], false)).Accepted?
  {
    assert Parents([x, y]) == [x] && [] + [x] == [x] && [x] + [y] == [x, y];
    OneName(p.root, x, TableIn(p.root.m[x]));
    assert Joined([x, y]) == x + "." + y by { assert [x, y][1..] == [y]; }
    DrillExisting(p.root, [], [x], p.implicits);
  }

  /** In the table `x`, which has no `y`, while "x.y" is marked: a line for `y`, the header of x.y, and
      a line behind it. */
  lemma ShadowedPair(p: Parser, x: string, y: string, v: Val)
    requires p.context == [x] && x in p.root.m && IsTable(p.root.m[x]) && y !in TableIn(p.root.m[x]).m
    requires x + "." + y in p.implicits
    ensures var ss := [Assign(y, v), Header([x, y], false), Assign("z", v)]; Named(ss) && Replay(p, ss).ContextBug?
  {
    var line, again, last := Assign(y, v), Header([x, y], false), Assign("z", v);
    FreshLine(p, x, y, v);
    var q := Apply(p, line).p;
    ShadowsPair(q, x, y);
    assert HitsShadow(q, [again, last]);
    DocumentContext(q, [again, last]);
    assert [line, again, last][1..] == [again, last];
  }

  lemma AfterOne(p: Parser, s: Stmt, ss: seq<Stmt>, all: seq<Stmt>)
    requires (s.Header? ==> s.key != []) && Named(ss) && all == [s] + ss
    requires Apply(p, s).Accepted? && Replay(Apply(p, s).p, ss).ContextBug?
    ensures Named(all) && Replay(p, all).ContextBug?
  {
    assert all[1..] == ss;
  }

  // ----- two documents -----

  function DottedDocument(v: Val): seq<Stmt> {
    [Header(["a.b", "c"], false),
     Header(["a"], false), Assign("b", v), Header(["a", "b"], false), Assign("z", v)]
  }

  /** ["a.b".c], [a], b = v, [a.b], z = v: the mark of "a.b" is taken for another key's. */
  lemma DottedNameBreaksContext(v: Val)
    ensures Named(DottedDocument(v)) && Replay(START, DottedDocument(v)).ContextBug?
  {
    var ss := DottedDocument(v);
    FreshPair(START, "a.b", "c");
    var p := Apply(START, ss[0]).p;
    assert "a" + "." + "b" == "a.b" && "a" != "a.b";
    FreshName(p, "a");
    var q := Apply(p, ss[1]).p;
    ShadowedPair(q, "a", "b", v);
    AfterOne(p, ss[1], ss[2..], ss[1..]);
    AfterOne(START, ss[0], ss[1..], ss);
  }

  function ArrayDocument(v: Val): seq<Stmt> {
    [Header(["a"], true), Header(["a", "b", "c"], false), Header(["a"], true),
     Assign("b", v), Header(["a", "b"], false), Assign("z", v)]
  }

  /** [[x]], [x.y.w], [[x]] leave the mark of x.y behind, and an element without `y`. */
  lemma MarkOutlives(x: string, y: string, w: string) returns (p: Parser, q: Parser, r: Parser)
    ensures Apply(START, Header([x], true)) == Accepted(p) && Apply(p, Header([x, y, w], false)) == Accepted(q)
    ensures Apply(q, Header([x], true)) == Accepted(r) && x + "." + y in r.implicits
    ensures r.context == [x] && x in r.root.m && IsTable(r.root.m[x]) && y !in TableIn(r.root.m[x]).m
  {
    NextElement(START, x);
    p := Apply(START, Header([x], true)).p;
    FreshTriple(p, x, y, w);
    q := Apply(p, Header([x, y, w], false)).p;
    NextElement(q, x);
    r := Apply(q, Header([x], true)).p;
  }

  /** [[a]], [a.b.c], [[a]], b = v, [a.b], z = v: the mark of a.b outlives the element it was made
      in. */
  lemma ArrayBreaksContext(v: Val)
    ensures Named(ArrayDocument(v)) && Replay(START, ArrayDocument(v)).ContextBug?
  {
    var p, q, r := MarkOutlives("a", "b", "c");
    ShadowedPair(r, "a", "b", v);
    ArrayReplayed(ArrayDocument(v), p, q, r);
  }

  lemma ArrayReplayed(ss: seq<Stmt>, p: Parser, q: Parser, r: Parser)
    requires |ss| > 3 && (forall i | 0 <= i < 3 :: ss[i].Header? && ss[i].key != []) && Named(ss[3..])
    requires Apply(START, ss[0]) == Accepted(p) && Apply(p, ss[1]) == Accepted(q) && Apply(q, ss[2]) == Accepted(r)
    requires Replay(r, ss[3..]).ContextBug?
    ensures Named(ss) && Replay(START, ss).ContextBug?
  {
    AfterOne(q, ss[2], ss[3..], ss[2..]);
    AfterOne(p, ss[1], ss[2..], ss[1..]);
    AfterOne(START, ss[0], ss[1..], ss);
  }

  // ----- a dropped value -----

  function Nested(x: string, y: string, w: string): Tbl {
    Put(EMPTY, x, Sub(Put(EMPTY, y, Sub(Put(EMPTY, w, Sub(EMPTY))))))
  }

  lemma DrillFresh(x: string, y: string)
    ensures Drill(EMPTY, [], [x, y], {}) == Walk(Put(EMPTY, x, Sub(Put(EMPTY, y, Sub(EMPTY)))), {x, x + "." + y})
  {
    assert [x, y][1..] == [y] && [y][1..] == [] && [] + [x] == [x] && [x] + [y] == [x, y];
    assert Joined([x, y]) == x + "." + Joined([y]) && Joined([x]) == x;
    assert {x} + {x + "." + y} == {x, x + "." + y} && {} + {x} == {x};
    assert Drill(EMPTY, [x], [y], {x}) == Walk(Put(EMPTY, y, Sub(EMPTY)), {x, x + "." + y});
  }

  /** A header with three names at the start makes the table and marks its parents. */
  lemma FirstTriple(x: string, y: string, w: string)
    ensures Apply(START, Header([x, y, w], false))
      == Accepted(Parser(Nested(x, y, w), [x, y, w], {x, x + "." + y}, [[x, y, w]]))
  {
    var key, t := [x, y, w], Put(EMPTY, x, Sub(Put(EMPTY, y, Sub(EMPTY))));
    assert Parents(key) == [x, y] && [x, y] + [w] == key;
    DrillFresh(x, y);
    TwoNames(t, x, y, Put(EMPTY, w, Sub(EMPTY)));
    assert Put(t, x, Sub(Put(EMPTY, y, Sub(Put(EMPTY, w, Sub(EMPTY)))))) == Nested(x, y, w);
    assert [] + [key] == [key];
  }

  /** The header of a marked table removes the mark. */
  lemma MarkedName(p: Parser, x: string)
    requires x in p.root.m && x in p.implicits
    ensures Apply(p, Header([x], false))
      == Accepted(p.(context := [x], implicits := p.implicits - {x}, ordered := p.ordered + [[x]]))
  {
    assert Parents([x]) == [];
  }

  /** A line for the name of a marked table changes nothing but the mark. */
  lemma DroppedLine(p: Parser, x: string, y: string, v: Val)
    requires p.context == [x] && x in p.root.m && IsTable(p.root.m[x]) && y in TableIn(p.root.m[x]).m
    requires x + "." + y in p.implicits
    ensures Apply(p, Assign(y, v))
      == Accepted(p.(implicits := p.implicits - {x + "." + y}, ordered := p.ordered + [[x, y]]))
  {
    OneName(p.root, x, TableIn(p.root.m[x]));
    assert [x] + [y] == [x, y] && [x, y][1..] == [y];
    assert Joined([x, y]) == x + "." + Joined([y]);
  }

  lemma TripleThenLine(x: string, y: string, w: string, v: Val) returns (p: Parser, q: Parser)
    ensures Apply(START, Header([x, y, w], false)) == Accepted(p) && Apply(p, Header([x], false)) == Accepted(q)
    ensures var r := Apply(q, Assign(y, v)); r.Accepted? && r.p.root == Nested(x, y, w) && r.p.implicits == {}
  {
    FirstTriple(x, y, w);
    p := Apply(START, Header([x, y, w], false)).p;
    assert |x + "." + y| > |x|;
    MarkedName(p, x);
    q := Apply(p, Header([x], false)).p;
    assert q.implicits == {x + "." + y} && q.implicits - {x + "." + y} == {};
    DroppedLine(q, x, y, v);
  }

  function DroppedDocument(v: Val): seq<Stmt> {
    [Header(["a", "b", "c"], false), Header(["a"], false), Assign("b", v)]
  }

  /** [a.b.c], [a], b = v: accepted for any v, and `b` is still the table that the first header made. */
  lemma ValueDropped(v: Val)
    ensures Named(DroppedDocument(v))
    ensures var r := Replay(START, DroppedDocument(v));
      r.Accepted? && r.p.root == Nested("a", "b", "c") && r.p.implicits == {}
  {
    var ss := DroppedDocument(v);
    var p, q := TripleThenLine("a", "b", "c", v);
    ThreeReplayed(ss, p, q);
  }

  lemma ThreeReplayed(ss: seq<Stmt>, p: Parser, q: Parser)
    requires |ss| == 3 && Named(ss) && Apply(START, ss[0]) == Accepted(p) && Apply(p, ss[1]) == Accepted(q)
    requires Apply(q, ss[2]).Accepted?
    ensures Replay(START, ss) == Apply(q, ss[2])
  {
    assert ss[1..][0] == ss[1] && ss[1..][1..] == ss[2..] && ss[2..][0] == ss[2] && ss[2..][1..] == [];
    assert Replay(q, ss[2..]) == Apply(q, ss[2]);
    assert Replay(p, ss[1..]) == Replay(q, ss[2..]);
  }
}
