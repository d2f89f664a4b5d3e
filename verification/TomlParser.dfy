/** The parser object: its tables, context and implicit marks are updated statement by
    statement, with the loops of establishContext and setValue. */
module TomlParser {
  import opened TomlData
  import opened TomlTables

  datatype Result = Done | UserError | Crash

  /** How a call ends when the specification says `r`. */
  function Ending(r: Applied): Result {
    match r case Accepted(_) => Done case Refused => UserError case ContextBug => Crash
  }

  lemma EntersNext(t: Tbl, g: Tbl, path: Key, rest: Key, marks: set<string>, more: set<string>)
    requires rest != [] && rest[0] in t.m && IsTable(t.m[rest[0]])
    requires Drill(g, path + [rest[0]], rest[1..], more)
      == Drill(TableIn(t.m[rest[0]]), path + [rest[0]], rest[1..], marks)
    ensures Drill(Put(t, rest[0], WithTable(t.m[rest[0]], g)), path, rest, more) == Drill(t, path, rest, marks)
  {
    var n := t.m[rest[0]];
    var u := Put(t, rest[0], WithTable(n, g));
    var w := Drill(g, path + [rest[0]], rest[1..], more);
    assert TableIn(WithTable(n, g)) == g;
    if w.Walk? {
      assert WithTable(WithTable(n, g), w.root) == WithTable(n, w.root);
      assert Put(u, rest[0], WithTable(n, w.root)) == Put(t, rest[0], WithTable(n, w.root));
    }
  }

  /** Making a missing table does not change where a walk leads. */
  lemma {:induction false} DrillStep(t: Tbl, path: Key, done: Key, k: string, more: Key, marks: set<string>)
    requires Leads(t, done) && k !in Find(t, done).m
    ensures Drill(Graft(t, done, Put(Find(t, done), k, Sub(EMPTY))), path, done + [k] + more,
                  marks + {Joined(path + done + [k])})
      == Drill(t, path, done + [k] + more, marks)
    decreases |done|
  {
    var rest := done + [k] + more;
    if done == [] {
      assert rest == [k] + more && path + done == path && rest[1..] == more;
    } else {
      DrillStep(TableIn(t.m[done[0]]), path + [done[0]], done[1..], k, more, marks);
      assert rest[1..] == done[1..] + [k] + more && path + [done[0]] + done[1..] == path + done;
      EntersNext(t, Graft(TableIn(t.m[done[0]]), done[1..], Put(Find(t, done), k, Sub(EMPTY))), path, rest,
                 marks, marks + {Joined(path + done + [k])});
    }
  }

  lemma {:induction false} DrillClash(t: Tbl, path: Key, done: Key, k: string, more: Key, marks: set<string>)
    requires Leads(t, done) && k in Find(t, done).m && !IsTable(Find(t, done).m[k])
    ensures Drill(t, path, done + [k] + more, marks) == Clash
    decreases |done|
  {
    var rest := done + [k] + more;
    if done != [] {
      DrillClash(TableIn(t.m[done[0]]), path + [done[0]], done[1..], k, more, marks);
      assert rest[1..] == done[1..] + [k] + more;
    }
  }

  class TableParser {
    var mapping: Tbl
    var context: Key
    var implicits: map<string, bool>
    var ordered: seq<Key>

    constructor ()
      ensures View() == START
    {
      mapping, context, implicits, ordered := EMPTY, [], map[], [];
    }

    function Marks(): set<string>
      reads this
    { set s | s in implicits && implicits[s] }

    function View(): Parser
      reads this
    { Parser(mapping, context, Marks(), ordered) }

    method AddImplicit(key: Key)
      modifies `implicits
      ensures Marks() == old(Marks()) + {Joined(key)}
    {
      implicits := implicits[Joined(key) := true];
    }

    method RemoveImplicit(key: Key)
      modifies `implicits
      ensures Marks() == old(Marks()) - {Joined(key)}
    {
      implicits := implicits[Joined(key) := false];
    }

    method IsImplicit(key: Key) returns (b: bool)
      ensures b <==> Joined(key) in Marks()
    {
      b := Joined(key) in implicits && implicits[Joined(key)];
    }

    method SetValue(key: string, value: Node) returns (r: Result)
      modifies this
      ensures var s := TomlTables.SetValue(old(View()), key, value);
        r == Ending(s) && (s.Accepted? ==> View() == s.p)
    {
      var hash := mapping;
      var i := 0;
      while i < |context|
        invariant 0 <= i <= |context|
        invariant View() == old(View())
        invariant Leads(mapping, context[..i]) && hash == Find(mapping, context[..i])
      {
        var k := context[i];
        LeadsOn(mapping, context[..i], k);
        assert context[..i] + [k] == context[..i + 1];
        if k !in hash.m || !IsTable(hash.m[k]) {
          if Leads(mapping, context) {
            LeadsPrefix(mapping, context, i + 1);
          }
          return Crash;
        }
        hash := TableIn(hash.m[k]);
        i := i + 1;
      }
      assert context[..i] == context;
      var keyContext := context + [key];
      if key in hash.m {
        var implicit := IsImplicit(keyContext);
        if implicit {
          RemoveImplicit(keyContext);
          return Done;
        }
        return UserError;
      }
      mapping := Graft(mapping, context, Put(hash, key, value));
      return Done;
    }

    /** The loop of establishContext: makes and marks the tables along `parents`. */
    method EnterParents(parents: Key) returns (ok: bool, hashContext: Tbl)
      modifies `mapping, `implicits
      ensures var w := Drill(old(mapping), [], parents, old(Marks()));
        ok == w.Walk? && (ok ==> w == Walk(mapping, Marks()) && Leads(mapping, parents) && hashContext == Find(mapping, parents))
    {
      hashContext := mapping;
      ghost var walk := Drill(mapping, [], parents, Marks());
      var i := 0;
      while i < |parents|
        invariant 0 <= i <= |parents|
        invariant Leads(mapping, parents[..i]) && hashContext == Find(mapping, parents[..i])
        invariant Drill(mapping, [], parents, Marks()) == walk
      {
        var k := parents[i];
        ghost var done, more := parents[..i], parents[i + 1..];
        assert done + [k] + more == parents && [] + done == done && done + [k] == parents[..i + 1];
        if k !in hashContext.m {
          DrillStep(mapping, [], done, k, more, Marks());
          GraftFind(mapping, done, Put(hashContext, k, Sub(EMPTY)));
          AddImplicit(parents[..i + 1]);
          hashContext := Put(hashContext, k, Sub(EMPTY));
          mapping := Graft(mapping, parents[..i], hashContext);
        }
        LeadsOn(mapping, done, k);
        if !IsTable(hashContext.m[k]) {
          DrillClash(mapping, [], done, k, more, Marks());
          return false, hashContext;
        }
        hashContext := TableIn(hashContext.m[k]);
        i := i + 1;
      }
      assert parents[..i] == parents;
      DrillExisting(mapping, [], parents, Marks());
      ok := true;
    }

    /** The array-of-tables branch of establishContext. */
    method AppendTable(k: string, table: Tbl) returns (r: Result)
      requires Leads(mapping, context) && table == Find(mapping, context)
      modifies `mapping
      ensures var s := AddTable(old(View()), k); r == Ending(s) && (s.Accepted? ==> View() == s.p)
    {
      var hashContext := table;
      if k !in hashContext.m {
        GraftFind(mapping, context, Put(table, k, Tables([])));
        GraftTwice(mapping, context, Put(table, k, Tables([])), Put(table, k, Tables([EMPTY])));
        hashContext := Put(table, k, Tables([]));
        mapping := Graft(mapping, context, hashContext);
      }
      if !hashContext.m[k].Tables? {
        return UserError;
      }
      ghost var ts := hashContext.m[k].ts;
      assert ts == [] ==> ts + [EMPTY] == [EMPTY];
      assert Put(hashContext, k, Tables(ts + [EMPTY])) == Put(table, k, Tables(ts + [EMPTY]));
      mapping := Graft(mapping, context, Put(hashContext, k, Tables(hashContext.m[k].ts + [EMPTY])));
      r := Done;
    }

    method EstablishContext(key: Key, many: bool) returns (r: Result)
      requires key != []
      modifies this
      ensures var s := TomlTables.EstablishContext(old(View()), key, many);
        r == Ending(s) && (s.Accepted? ==> View() == s.p)
    {
      var k := key[|key| - 1];
      assert Parents(key) + [k] == key;
      var ok, hashContext := EnterParents(key[..|key| - 1]);
      if !ok {
        return UserError;
      }
      context := key[..|key| - 1];
      if many {
        r := AppendTable(k, hashContext);
      } else {
        r := SetValue(k, Sub(EMPTY));
      }
      if r == Done {
        context := context + [k];
      }
    }

    /** A table header or a key line, as topLevel handles it once it is read. */
    method Statement(s: Stmt) returns (r: Result)
      requires s.Header? ==> s.key != []
      modifies this
      ensures var a := Apply(old(View()), s); r == Ending(a) && (a.Accepted? ==> View() == a.p)
    {
      match s
      case Header(key, many) =>
        r := EstablishContext(key, many);
        if r == Done {
          ordered := ordered + [key];
        }
      case Assign(k, v) =>
        r := SetValue(k, Leaf(v));
        if r == Done {
          ordered := ordered + [context + [k]];
        }
    }

    /** The loop of parse over the statements of a document. */
    method Run(ss: seq<Stmt>) returns (r: Result)
      requires Named(ss)
      modifies this
      ensures var a := Replay(old(View()), ss); r == Ending(a) && (a.Accepted? ==> View() == a.p)
    {
      var i := 0;
      while i < |ss|
        invariant 0 <= i <= |ss|
        invariant Replay(View(), ss[i..]) == Replay(old(View()), ss)
      {
        assert ss[i] in ss;
        r := Statement(ss[i]);
        if r != Done {
          return;
        }
        assert ss[i..][1..] == ss[i + 1..];
        i := i + 1;
      }
      r := Done;
    }
  }
}
