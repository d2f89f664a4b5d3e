/** What a document does to the tables: nothing is overwritten, and the "BUG" branches of
    setValue are reached exactly behind a header that an implicit mark lets through. */
module TomlContext {
  import opened TomlData
  import opened TomlTables

  // ----- nothing is overwritten -----

  /** Every binding of `t` is still in `u`: plain values unchanged, tables only extended,
      arrays of tables only extended in their last element or by new elements. */
  predicate Extends(t: Tbl, u: Tbl)
    decreases t, 1
  {
    forall k | k in t.m :: k in u.m && NodeExtends(t.m[k], u.m[k])
  }

  predicate NodeExtends(n: Node, o: Node)
    decreases n, 0
  {
    match n
    case Sub(t) => o.Sub? && Extends(t, o.t)
    case Tables(ts) =>
      && o.Tables? && |ts| <= |o.ts|
      && (forall i | 0 <= i < |ts| - 1 :: o.ts[i] == ts[i])
      && (ts != [] ==> Extends(ts[|ts| - 1], o.ts[|ts| - 1]))
    case _ => o == n
  }

  lemma {:induction false} ExtendsSelf(t: Tbl)
    ensures Extends(t, t)
    decreases t, 1
  {
    forall k | k in t.m ensures NodeExtends(t.m[k], t.m[k]) {
      NodeExtendsSelf(t.m[k]);
    }
  }

  lemma {:induction false} NodeExtendsSelf(n: Node)
    ensures NodeExtends(n, n)
    decreases n, 0
  {
    match n
    case Sub(t) => ExtendsSelf(t);
    case Tables(ts) => if ts != [] { ExtendsSelf(ts[|ts| - 1]); }
    case _ =>
  }

  lemma {:induction false} ExtendsOn(t: Tbl, u: Tbl, v: Tbl)
    requires Extends(t, u) && Extends(u, v)
    ensures Extends(t, v)
    decreases t, 1
  {
    forall k | k in t.m ensures k in v.m && NodeExtends(t.m[k], v.m[k]) {
      NodeExtendsOn(t.m[k], u.m[k], v.m[k]);
    }
  }

  lemma {:induction false} NodeExtendsOn(n: Node, o: Node, p: Node)
    requires NodeExtends(n, o) && NodeExtends(o, p)
    ensures NodeExtends(n, p)
    decreases n, 0
  {
    match n
    case Sub(t) => ExtendsOn(t, o.t, p.t);
    case Tables(ts) =>
      if ts != [] {
        var i := |ts| - 1;
        if i < |o.ts| - 1 {
          assert p.ts[i] == o.ts[i];
        } else {
          ExtendsOn(ts[i], o.ts[i], p.ts[i]);
        }
      }
    case _ =>
  }

  lemma PutExtends(t: Tbl, k: string, n: Node)
    requires k in t.m ==> NodeExtends(t.m[k], n)
    ensures Extends(t, Put(t, k, n))
  {
    forall j | j in t.m ensures NodeExtends(t.m[j], Put(t, k, n).m[j]) {
      NodeExtendsSelf(t.m[j]);
    }
  }

  lemma WithTableExtends(n: Node, s: Tbl)
    requires IsTable(n) && Extends(TableIn(n), s)
    ensures NodeExtends(n, WithTable(n, s))
  {
  }

  lemma {:induction false} GraftExtends(t: Tbl, path: Key, s: Tbl)
    requires Leads(t, path) && Extends(Find(t, path), s)
    ensures Extends(t, Graft(t, path, s))
    decreases |path|
  {
    if path != [] {
      var n := t.m[path[0]];
      GraftExtends(TableIn(n), path[1..], s);
      WithTableExtends(n, Graft(TableIn(n), path[1..], s));
      PutExtends(t, path[0], WithTable(n, Graft(TableIn(n), path[1..], s)));
    }
  }

  lemma {:induction false} DrillExtends(t: Tbl, path: Key, rest: Key, marks: set<string>)
    ensures var w := Drill(t, path, rest, marks); w.Walk? ==> Extends(t, w.root) && marks <= w.implicits
    decreases |rest|
  {
    if rest == [] {
      ExtendsSelf(t);
    } else {
      var k := rest[0];
      var n := NextTable(t, k);
      if IsTable(n) {
        var m := NextMarks(t, path, k, marks);
        DrillExtends(TableIn(n), path + [k], rest[1..], m);
        var w := Drill(TableIn(n), path + [k], rest[1..], m);
        if w.Walk? {
          WithTableExtends(n, w.root);
          PutExtends(t, k, WithTable(n, w.root));
        }
      }
    }
  }

  lemma SetValueExtends(p: Parser, k: string, n: Node)
    ensures var r := SetValue(p, k, n); r.Accepted? ==> Extends(p.root, r.p.root)
  {
    ExtendsSelf(p.root);
    if Leads(p.root, p.context) && k !in Find(p.root, p.context).m {
      PutExtends(Find(p.root, p.context), k, n);
      GraftExtends(p.root, p.context, Put(Find(p.root, p.context), k, n));
    }
  }

  lemma AddTableExtends(p: Parser, k: string)
    requires Leads(p.root, p.context)
    ensures var r := AddTable(p, k); r.Accepted? ==> Extends(p.root, r.p.root)
  {
    var hash := Find(p.root, p.context);
    if k !in hash.m {
      PutExtends(hash, k, Tables([EMPTY]));
      GraftExtends(p.root, p.context, Put(hash, k, Tables([EMPTY])));
    } else if hash.m[k].Tables? {
      var ts := hash.m[k].ts;
      if ts != [] {
        ExtendsSelf(ts[|ts| - 1]);
      }
      PutExtends(hash, k, Tables(ts + [EMPTY]));
      GraftExtends(p.root, p.context, Put(hash, k, Tables(ts + [EMPTY])));
    }
  }

  /** No accepted statement overwrites or removes an earlier binding. */
  lemma NothingOverwritten(p: Parser, s: Stmt)
    requires s.Header? ==> s.key != []
    ensures var r := Apply(p, s); r.Accepted? ==> Extends(p.root, r.p.root)
  {
    match s
    case Assign(k, v) => SetValueExtends(p, k, Leaf(v));
    case Header(key, many) =>
      DrillExtends(p.root, [], Parents(key), p.implicits);
      DrillLeads(p.root, [], Parents(key), p.implicits);
      var w := Drill(p.root, [], Parents(key), p.implicits);
      if w.Walk? {
        var q := p.(root := w.root, implicits := w.implicits, context := Parents(key));
        if many { AddTableExtends(q, Last(key)); } else { SetValueExtends(q, Last(key), Sub(EMPTY)); }
        var r := if many then AddTable(q, Last(key)) else SetValue(q, Last(key), Sub(EMPTY));
        if r.Accepted? {
          ExtendsOn(p.root, q.root, r.p.root);
        }
      }
  }

  /** Over a whole document. */
  lemma {:induction false} DocumentOnlyExtends(p: Parser, ss: seq<Stmt>)
    requires Named(ss)
    ensures Replay(p, ss).Accepted? ==> Extends(p.root, Replay(p, ss).p.root)
    decreases |ss|
  {
    if ss == [] {
      ExtendsSelf(p.root);
    } else {
      NothingOverwritten(p, ss[0]);
      var r := Apply(p, ss[0]);
      if r.Accepted? {
        DocumentOnlyExtends(r.p, ss[1..]);
        if Replay(p, ss).Accepted? {
          ExtendsOn(p.root, r.p.root, Replay(p, ss).p.root);
        }
      }
    }
  }

  /** An accepted line stores its value exactly when the key was free; otherwise the key was
      an implicit table, the value is dropped and the mark is removed. */
  lemma AcceptedLine(p: Parser, k: string, v: Val)
    requires Apply(p, Assign(k, v)).Accepted?
    ensures var q := Apply(p, Assign(k, v)).p;
      && Leads(p.root, p.context) && Leads(q.root, p.context) && q.context == p.context
      && var full := Joined(p.context + [k]);
      if k in Find(p.root, p.context).m then
        q.root == p.root && full in p.implicits && q.implicits == p.implicits - {full}
      else
        Find(q.root, p.context) == Put(Find(p.root, p.context), k, Leaf(v)) && q.implicits == p.implicits
  {
    if k !in Find(p.root, p.context).m {
      GraftFind(p.root, p.context, Put(Find(p.root, p.context), k, Leaf(v)));
    }
  }

  // ----- arrays of tables are never empty -----

  lemma PutWritten(t: Tbl, k: string, n: Node)
    requires Written(t) && WrittenNode(n)
    ensures Written(Put(t, k, n))
  {
  }

  lemma {:induction false} GraftWritten(t: Tbl, path: Key, s: Tbl)
    requires Leads(t, path) && Written(t)
    ensures Written(Find(t, path))
    ensures Written(s) ==> Written(Graft(t, path, s))
    decreases |path|
  {
    if path != [] {
      GraftWritten(TableIn(t.m[path[0]]), path[1..], s);
    }
  }

  lemma {:induction false} DrillWritten(t: Tbl, path: Key, rest: Key, marks: set<string>)
    requires Written(t)
    ensures var w := Drill(t, path, rest, marks); w.Walk? ==> Written(w.root)
    decreases |rest|
  {
    if rest != [] {
      var n := NextTable(t, rest[0]);
      if IsTable(n) {
        DrillWritten(TableIn(n), path + [rest[0]], rest[1..], NextMarks(t, path, rest[0], marks));
      }
    }
  }

  /** Every array of tables the parser makes has a last element to descend into. */
  lemma StaysWritten(p: Parser, s: Stmt)
    requires Written(p.root) && (s.Header? ==> s.key != [])
    ensures var r := Apply(p, s); r.Accepted? ==> Written(r.p.root)
  {
    match s
    case Assign(k, v) =>
      SetValueWritten(p, k, Leaf(v));
    case Header(key, many) =>
      DrillWritten(p.root, [], Parents(key), p.implicits);
      DrillLeads(p.root, [], Parents(key), p.implicits);
      var w := Drill(p.root, [], Parents(key), p.implicits);
      if w.Walk? {
        var q := p.(root := w.root, implicits := w.implicits, context := Parents(key));
        if many { AddTableWritten(q, Last(key)); } else { SetValueWritten(q, Last(key), Sub(EMPTY)); }
      }
  }

  lemma SetValueWritten(p: Parser, k: string, n: Node)
    requires Written(p.root) && WrittenNode(n)
    ensures var r := SetValue(p, k, n); r.Accepted? ==> Written(r.p.root)
  {
    if Leads(p.root, p.context) {
      var hash := Find(p.root, p.context);
      GraftWritten(p.root, p.context, Put(hash, k, n));
      PutWritten(hash, k, n);
    }
  }

  lemma AddTableWritten(p: Parser, k: string)
    requires Written(p.root) && Leads(p.root, p.context)
    ensures var r := AddTable(p, k); r.Accepted? ==> Written(r.p.root)
  {
    var hash := Find(p.root, p.context);
    var ts := if k in hash.m && hash.m[k].Tables? then hash.m[k].ts else [];
    assert [] + [EMPTY] == [EMPTY];
    GraftWritten(p.root, p.context, hash);
    if k in hash.m {
      assert WrittenNode(hash.m[k]);
    }
    GraftWritten(p.root, p.context, Put(hash, k, Tables(ts + [EMPTY])));
    PutWritten(hash, k, Tables(ts + [EMPTY]));
  }

  lemma {:induction false} DocumentWritten(p: Parser, ss: seq<Stmt>)
    requires Named(ss) && Written(p.root)
    ensures Replay(p, ss).Accepted? ==> Written(Replay(p, ss).p.root)
    decreases |ss|
  {
    if ss != [] {
      StaysWritten(p, ss[0]);
      if Apply(p, ss[0]).Accepted? {
        DocumentWritten(Apply(p, ss[0]).p, ss[1..]);
      }
    }
  }

  // ----- the context -----

  predicate Broken(p: Parser) { !Leads(p.root, p.context) }

  /** A header whose own name is taken by a plain value, but marked as an implicit table. */
  predicate Shadowed(p: Parser, s: Stmt) {
    && s.Header? && s.key != [] && !s.many
    && var w := Drill(p.root, [], Parents(s.key), p.implicits);
    && w.Walk? && Joined(s.key) in w.implicits
    && Leads(w.root, Parents(s.key))
    && var hash := Find(w.root, Parents(s.key));
    && Last(s.key) in hash.m && !IsTable(hash.m[Last(s.key)])
  }

  lemma HeaderContext(p: Parser, key: Key, many: bool)
    requires key != []
    ensures var r := EstablishContext(p, key, many);
      !r.ContextBug? && (r.Accepted? ==> (Broken(r.p) <==> Shadowed(p, Header(key, many))))
  {
    var w := Drill(p.root, [], Parents(key), p.implicits);
    DrillLeads(p.root, [], Parents(key), p.implicits);
    if w.Walk? {
      var hash, k := Find(w.root, Parents(key)), Last(key);
      assert Parents(key) + [k] == key;
      var ts := if k in hash.m && hash.m[k].Tables? then hash.m[k].ts else [];
      assert [] + [EMPTY] == [EMPTY];
      LeadsOn(w.root, Parents(key), k);
      GraftedContext(w.root, Parents(key), k, Sub(EMPTY));
      GraftedContext(w.root, Parents(key), k, Tables(ts + [EMPTY]));
    }
  }

  lemma GraftedContext(t: Tbl, path: Key, k: string, n: Node)
    requires Leads(t, path) && IsTable(n)
    ensures Leads(Graft(t, path, Put(Find(t, path), k, n)), path + [k])
  {
    var s := Put(Find(t, path), k, n);
    GraftFind(t, path, s);
    LeadsOn(Graft(t, path, s), path, k);
  }

  /** One statement: a line reaches the "BUG" branch exactly in a broken context, and only a
      shadowed header leaves a broken context behind. */
  lemma StatementContext(p: Parser, s: Stmt)
    requires s.Header? ==> s.key != []
    ensures var r := Apply(p, s);
      && (r.ContextBug? <==> s.Assign? && Broken(p))
      && (r.Accepted? ==> (Broken(r.p) <==> Shadowed(p, s)))
  {
    match s
    case Header(key, many) => HeaderContext(p, key, many);
    case Assign(k, v) =>
      if !Broken(p) {
        GraftFind(p.root, p.context, Put(Find(p.root, p.context), k, Leaf(v)));
      }
  }

  /** Somewhere in the statements a line follows directly on a shadowed header. */
  predicate HitsShadow(p: Parser, ss: seq<Stmt>)
    requires Named(ss)
    decreases |ss|
  {
    && |ss| >= 2 && Apply(p, ss[0]).Accepted?
    && ((Shadowed(p, ss[0]) && ss[1].Assign?) || HitsShadow(Apply(p, ss[0]).p, ss[1..]))
  }

  /** A document ends in setValue's "BUG" branch if and only if it hits a shadow. */
  lemma {:induction false} DocumentContext(p: Parser, ss: seq<Stmt>)
    requires Named(ss)
    ensures Replay(p, ss).ContextBug? <==> (Broken(p) && ss != [] && ss[0].Assign?) || HitsShadow(p, ss)
    decreases |ss|
  {
    if ss != [] {
      StatementContext(p, ss[0]);
      if Apply(p, ss[0]).Accepted? {
        DocumentContext(Apply(p, ss[0]).p, ss[1..]);
      }
    }
  }

  lemma BugExactly(ss: seq<Stmt>)
    requires Named(ss)
    ensures Replay(START, ss).ContextBug? <==> HitsShadow(START, ss)
  {
    DocumentContext(START, ss);
  }

  // ----- documents without arrays of tables and without dots in names -----

  predicate DotFree(key: Key) { forall i | 0 <= i < |key| :: '.' !in key[i] }

  predicate NoTables(t: Tbl)
    decreases t
  {
    forall k | k in t.m :: t.m[k].Leaf? || (t.m[k].Sub? && NoTables(t.m[k].t))
  }

  /** Every mark denotes a table. */
  ghost predicate Denotes(p: Parser, s: string) {
    exists key: Key :: key != [] && DotFree(key) && Joined(key) == s && Leads(p.root, key)
  }

  predicate Flat(s: Stmt) { s.Header? ==> s.key != [] && !s.many && DotFree(s.key) }

  ghost predicate Clean(p: Parser) {
    NoTables(p.root) && forall s | s in p.implicits :: Denotes(p, s)
  }

  lemma {:induction false} FirstDot(a: string, b: string, c: string, d: string)
    requires '.' !in a && '.' !in b && a + "." + c == b + "." + d
    ensures a == b && c == d
    decreases |a|
  {
    var l, r := a + "." + c, b + "." + d;
    assert l[0] == r[0];
    if a != "" && b != "" {
      assert l[1..] == a[1..] + "." + c && r[1..] == b[1..] + "." + d;
      FirstDot(a[1..], b[1..], c, d);
    } else if a == "" && b == "" {
      assert c == l[1..] && d == r[1..];
    }
  }

  lemma LongHasDot(key: Key)
    requires |key| >= 2
    ensures '.' in Joined(key)
  {
    assert Joined(key)[|key[0]|] == '.';
  }

  /** Without dots inside names, the joined form tells keys apart. */
  lemma {:induction false} JoinedInjective(a: Key, b: Key)
    requires a != [] && b != [] && DotFree(a) && DotFree(b) && Joined(a) == Joined(b)
    ensures a == b
    decreases |a|
  {
    if |a| == 1 && |b| == 1 {
      assert a == [a[0]] && b == [b[0]];
    } else if |a| == 1 || |b| == 1 {
      LongHasDot(if |a| == 1 then b else a);
      assert false;
    } else {
      FirstDot(a[0], b[0], Joined(a[1..]), Joined(b[1..]));
      JoinedInjective(a[1..], b[1..]);
      assert a == [a[0]] + a[1..] && b == [b[0]] + b[1..];
    }
  }

  lemma {:induction false} LeadsKept(t: Tbl, u: Tbl, path: Key)
    requires Leads(t, path) && NoTables(t) && Extends(t, u)
    ensures Leads(u, path)
    decreases |path|
  {
    if path != [] {
      LeadsKept(t.m[path[0]].t, TableIn(u.m[path[0]]), path[1..]);
    }
  }

  lemma {:induction false} GraftNoTables(t: Tbl, path: Key, s: Tbl)
    requires Leads(t, path) && NoTables(t)
    ensures NoTables(Find(t, path))
    ensures NoTables(s) ==> NoTables(Graft(t, path, s))
    decreases |path|
  {
    if path != [] {
      GraftNoTables(TableIn(t.m[path[0]]), path[1..], s);
    }
  }

  /** Walking along a path makes only plain tables, and marks only prefixes of it. */
  lemma {:induction false} DrillClean(t: Tbl, path: Key, rest: Key, marks: set<string>)
    requires NoTables(t)
    ensures var w := Drill(t, path, rest, marks);
      w.Walk? ==>
        && NoTables(w.root)
        && forall s | s in w.implicits && s !in marks :: exists j :: 1 <= j <= |rest| && s == Joined(path + rest[..j])
    decreases |rest|
  {
    if rest != [] {
      var k := rest[0];
      var n := NextTable(t, k);
      if IsTable(n) {
        var next := NextMarks(t, path, k, marks);
        DrillClean(TableIn(n), path + [k], rest[1..], next);
        var w := Drill(TableIn(n), path + [k], rest[1..], next);
        if w.Walk? {
          forall s | s in w.implicits && s !in marks
            ensures exists j :: 1 <= j <= |rest| && s == Joined(path + rest[..j])
          {
            if s in next {
              assert rest[..1] == [k];
            } else {
              var j :| 1 <= j <= |rest[1..]| && s == Joined(path + [k] + rest[1..][..j]);
              assert path + [k] + rest[1..][..j] == path + rest[..j + 1];
            }
          }
        }
      }
    }
  }

  /** The tables along a header, made and marked. */
  lemma DrillDenotes(p: Parser, path: Key)
    requires Clean(p) && DotFree(path)
    ensures var w := Drill(p.root, [], path, p.implicits);
      w.Walk? ==> Clean(p.(root := w.root, implicits := w.implicits))
  {
    var w := Drill(p.root, [], path, p.implicits);
    DrillClean(p.root, [], path, p.implicits);
    DrillLeads(p.root, [], path, p.implicits);
    DrillExtends(p.root, [], path, p.implicits);
    if w.Walk? {
      var q := p.(root := w.root, implicits := w.implicits);
      forall s | s in w.implicits ensures Denotes(q, s) {
        if s in p.implicits {
          var key: Key :| key != [] && DotFree(key) && Joined(key) == s && Leads(p.root, key);
          LeadsKept(p.root, w.root, key);
        } else {
          var j :| 1 <= j <= |path| && s == Joined([] + path[..j]);
          assert [] + path[..j] == path[..j];
          LeadsPrefix(w.root, path, j);
        }
      }
    }
  }

  lemma CleanExtends(p: Parser, q: Parser)
    requires Clean(p) && NoTables(q.root) && Extends(p.root, q.root) && q.implicits <= p.implicits
    ensures Clean(q)
  {
    forall s | s in q.implicits ensures Denotes(q, s) {
      var key: Key :| key != [] && DotFree(key) && Joined(key) == s && Leads(p.root, key);
      LeadsKept(p.root, q.root, key);
    }
  }

  lemma SetValueClean(p: Parser, k: string, n: Node)
    requires Clean(p) && (n.Leaf? || n == Sub(EMPTY))
    ensures var r := SetValue(p, k, n); r.Accepted? ==> Clean(r.p)
  {
    SetValueExtends(p, k, n);
    if Leads(p.root, p.context) {
      var hash := Find(p.root, p.context);
      GraftNoTables(p.root, p.context, Put(hash, k, n));
      assert NoTables(Put(hash, k, n)) by {
        assert NoTables(hash);
      }
      if SetValue(p, k, n).Accepted? {
        CleanExtends(p, SetValue(p, k, n).p);
      }
    }
  }

  lemma FlatClean(p: Parser, s: Stmt)
    requires Clean(p) && Flat(s)
    ensures !Shadowed(p, s)
    ensures var r := Apply(p, s); r.Accepted? ==> Clean(r.p)
  {
    match s
    case Assign(k, v) =>
      SetValueClean(p, k, Leaf(v));
    case Header(key, _) =>
      DrillDenotes(p, Parents(key));
      var w := Drill(p.root, [], Parents(key), p.implicits);
      DrillLeads(p.root, [], Parents(key), p.implicits);
      if w.Walk? {
        var q := p.(root := w.root, implicits := w.implicits, context := Parents(key));
        assert forall t | t in q.implicits :: Denotes(p.(root := w.root, implicits := w.implicits), t);
        assert Clean(q) by {
          ExtendsSelf(w.root);
          CleanExtends(p.(root := w.root, implicits := w.implicits), q);
        }
        SetValueClean(q, Last(key), Sub(EMPTY));
        if SetValue(q, Last(key), Sub(EMPTY)).Accepted? {
          var r := SetValue(q, Last(key), Sub(EMPTY)).p;
          ExtendsSelf(r.root);
          CleanExtends(r, Apply(p, s).p);
        }
        assert Parents(key) + [Last(key)] == key;
        LeadsOn(w.root, Parents(key), Last(key));
        if Joined(key) in w.implicits {
          var named: Key :| named != [] && DotFree(named) && Joined(named) == Joined(key) && Leads(q.root, named);
          JoinedInjective(named, key);
        }
      }
  }

  /** The context invariant: in documents without arrays of tables and without dots in header
      names, every mark denotes a table and the context always leads to one, so that
      setValue's "BUG" branches are out of reach. */
  lemma {:induction false} FlatDocuments(p: Parser, ss: seq<Stmt>)
    requires Clean(p) && !Broken(p) && forall i | 0 <= i < |ss| :: Flat(ss[i])
    ensures Named(ss) && !Replay(p, ss).ContextBug?
    ensures Replay(p, ss).Accepted? ==> Clean(Replay(p, ss).p) && !Broken(Replay(p, ss).p)
    decreases |ss|
  {
    if ss != [] {
      assert Flat(ss[0]);
      FlatClean(p, ss[0]);
      StatementContext(p, ss[0]);
      if Apply(p, ss[0]).Accepted? {
        FlatDocuments(Apply(p, ss[0]).p, ss[1..]);
      }
    }
  }
}
