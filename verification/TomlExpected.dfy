/** The layout of the encoder on the shapes of documents that its own tests expect: blank lines, indentation
    and headers, whatever the names, the numbers and the indentation. */
module TomlExpected {
  import opened Decimal
  import opened TomlData
  import opened TomlTables
  import opened TomlLayout
  import A = TomlArrayText

  lemma NextLine(tab: string, s: Stmt, rest: seq<Stmt>, depth: nat, written: bool, line: string, more: string)
    requires (s.Header? ==> s.key != []) && Named(rest) && LineOf(tab, s, depth, written) == line
    requires Render(tab, rest, NextDepth(s, depth), true) == more
    ensures Named([s] + rest) && Render(tab, [s] + rest, depth, written) == line + more
  {
    RenderStart(tab, s, rest, depth, written);
  }

  function NumberText(k: string, n: int): string { k + " = " + FormatInt(n) + "\n" }

  lemma Plain(k: string)
    requires BareText(k)
    ensures MaybeQuoted(k) == k && Joined(QuotedAll([k])) == k
  {
  }

  lemma Two(a: string, b: string)
    requires BareText(a) && BareText(b)
    ensures Joined(QuotedAll([a, b])) == a + "." + b
  {
    var q := QuotedAll([a, b]);
    assert q == [a, b] && q[1..] == [b];
  }

  lemma NumberAt(tab: string, k: string, n: int, depth: nat)
    requires BareText(k) && (depth == 1 || depth == 2)
    ensures var indent := if depth == 1 then tab else tab + tab;
      LineOf(tab, Assign(k, Integer(n)), depth, true) == indent + NumberText(k, n)
  {
    Plain(k);
    assert tab + "" == tab && Repeat(tab, 0) == "" && Repeat(tab, 1) == tab && Repeat(tab, 2) == tab + tab;
    var i := Repeat(tab, depth);
    assert i + (k + " = " + FormatInt(n)) + "\n" == i + (k + " = " + FormatInt(n) + "\n");
  }

  lemma TopAt(tab: string, a: string, depth: nat, written: bool)
    requires BareText(a)
    ensures LineOf(tab, Header([a], false), depth, written) == (if written then "\n" else "") + ("[" + a + "]\n")
  {
    Plain(a);
    var start := if written then "\n" else "";
    assert start + "" == start;
    assert start + "" + ("[" + a + "]") + "\n" == start + ("[" + a + "]\n");
  }

  lemma InnerAt(tab: string, a: string, b: string, many: bool, depth: nat)
    requires BareText(a) && BareText(b)
    ensures LineOf(tab, Header([a, b], many), depth, true)
         == (if many then "\n" else "") + (tab + (Opening(many) + (a + "." + b) + Closing(many) + "\n"))
  {
    Two(a, b);
    var start, text := if many then "\n" else "", Opening(many) + (a + "." + b) + Closing(many);
    assert tab + "" == tab && Repeat(tab, 0) == "" && Repeat(tab, 1) == tab;
    assert start + tab + text + "\n" == start + (tab + (text + "\n"));
  }

  lemma LastLine(tab: string, s: Stmt, depth: nat, line: string)
    requires (s.Header? ==> s.key != []) && LineOf(tab, s, depth, true) == line
    ensures Named([s]) && Render(tab, [s], depth, true) == line
  {
    assert [s] == [s] + [] && line + "" == line;
    NextLine(tab, s, [], depth, true, line, "");
  }

  /** Two lines in the middle of a document. */
  lemma TwoLines(tab: string, s: Stmt, u: Stmt, depth: nat, a: string, b: string)
    requires (s.Header? ==> s.key != []) && (u.Header? ==> u.key != [])
    requires LineOf(tab, s, depth, true) == a && LineOf(tab, u, NextDepth(s, depth), true) == b
    ensures Named([s, u]) && Render(tab, [s, u], depth, true) == a + b
  {
    assert [s, u] == [s] + [u];
    LastLine(tab, u, NextDepth(s, depth), b);
    NextLine(tab, s, [u], depth, true, a, b);
  }

  /** A document of four lines. */
  lemma FourLines(tab: string, s: Stmt, u: Stmt, v: Stmt, w: Stmt, a: string, b: string, rest: string)
    requires (s.Header? ==> s.key != []) && (u.Header? ==> u.key != []) && Named([v, w])
    requires LineOf(tab, s, 0, false) == a && LineOf(tab, u, NextDepth(s, 0), true) == b
    requires Render(tab, [v, w], NextDepth(u, NextDepth(s, 0)), true) == rest
    ensures Named([s, u, v, w]) && Render(tab, [s, u, v, w], 0, false) == a + (b + rest)
  {
    assert [u, v, w] == [u] + [v, w] && [s, u, v, w] == [s] + [u, v, w];
    NextLine(tab, u, [v, w], NextDepth(s, 0), true, b, rest);
    NextLine(tab, s, [u, v, w], 0, false, a, b + rest);
  }

  function TopText(a: string): string { "[" + a + "]\n" }

  function InnerText(a: string, b: string, many: bool): string { Opening(many) + (a + "." + b) + Closing(many) + "\n" }

  /** A number in a table, and an array of tables in it: a blank line sets off the array, whose numbers are
      indented once more. */
  lemma ArrayExpected(tab: string, a: string, k: string, n: int, b: string, l: string, m: int)
    requires BareText(a) && BareText(k) && BareText(b) && BareText(l)
    ensures var ss := [Header([a], false), Assign(k, Integer(n)), Header([a, b], true), Assign(l, Integer(m))];
      Named(ss) && Render(tab, ss, 0, false) ==
        TopText(a) + ((tab + NumberText(k, n))
          + (("\n" + (tab + InnerText(a, b, true))) + (tab + tab + NumberText(l, m))))
  {
    TopAt(tab, a, 0, false);
    assert "" + ("[" + a + "]\n") == TopText(a);
    NumberAt(tab, k, n, 1);
    InnerAt(tab, a, b, true, 1);
    NumberAt(tab, l, m, 2);
    var s, u, v, w := Header([a], false), Assign(k, Integer(n)), Header([a, b], true), Assign(l, Integer(m));
    var third, fourth := "\n" + (tab + InnerText(a, b, true)), tab + tab + NumberText(l, m);
    TwoLines(tab, v, w, 1, third, fourth);
    FourLines(tab, s, u, v, w, TopText(a), tab + NumberText(k, n), third + fourth);
  }

  /** A table in a table, and one behind them: only the last is set off by a blank line. */
  lemma TablesExpected(tab: string, a: string, b: string, k: string, n: int, c: string)
    requires BareText(a) && BareText(b) && BareText(k) && BareText(c)
    ensures var ss := [Header([a], false), Header([a, b], false), Assign(k, Integer(n)), Header([c], false)];
      Named(ss) && Render(tab, ss, 0, false) ==
        TopText(a) + ((tab + InnerText(a, b, false)) + ((tab + tab + NumberText(k, n)) + ("\n" + TopText(c))))
  {
    TopAt(tab, a, 0, false);
    assert "" + ("[" + a + "]\n") == TopText(a);
    InnerAt(tab, a, b, false, 1);
    assert "" + (tab + InnerText(a, b, false)) == tab + InnerText(a, b, false);
    NumberAt(tab, k, n, 2);
    TopAt(tab, c, 2, true);
    var s, u, v, w := Header([a], false), Header([a, b], false), Assign(k, Integer(n)), Header([c], false);
    var third, fourth := tab + tab + NumberText(k, n), "\n" + TopText(c);
    TwoLines(tab, v, w, 2, third, fourth);
    FourLines(tab, s, u, v, w, TopText(a), tab + InnerText(a, b, false), third + fourth);
  }
}
