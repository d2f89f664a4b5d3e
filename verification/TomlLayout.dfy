/** How the encoder lays its statements out as text: keys are quoted where they have to be,
    lines are indented by depth, and tables are set apart by blank lines. */
module TomlLayout {
  import opened Sequences
  import opened TomlData
  import opened TomlTables
  import L = TomlLexer
  import A = TomlArrayText

  predicate BareText(k: string) { forall i | 0 <= i < |k| :: L.IsBareKeyChar(k[i]) }

  function QuoteChar(c: char): string { if c == '"' then "\\\"" else [c] }

  function EscapeQuotes(k: string): string {
    if k == "" then "" else QuoteChar(k[0]) + EscapeQuotes(k[1..])
  }

  /** Key.maybeQuoted */
  function MaybeQuoted(k: string): string { if BareText(k) then k else "\"" + EscapeQuotes(k) + "\"" }

  function QuotedAll(key: Key): Key { seq(|key|, i requires 0 <= i < |key| => MaybeQuoted(key[i])) }

  function Opening(many: bool): string { if many then "[[" else "[" }
  function Closing(many: bool): string { if many then "]]" else "]" }

  function StmtText(s: Stmt): string {
    match s
    case Header(key, many) => Opening(many) + Joined(QuotedAll(key)) + Closing(many)
    case Assign(name, v) => MaybeQuoted(name) + " = " + A.EncodeVal(v)
  }

  function Repeat(tab: string, n: nat): string { if n == 0 then "" else tab + Repeat(tab, n - 1) }

  /** The length of the key that the lines behind a statement belong to. */
  function NextDepth(s: Stmt, depth: nat): nat { if s.Header? then |s.key| else depth }

  function DepthAfter(ss: seq<Stmt>, depth: nat): nat {
    if ss == [] then depth else DepthAfter(ss[1..], NextDepth(ss[0], depth))
  }

  /** The text of one statement, where the last header had `depth` names. */
  function LineOf(tab: string, s: Stmt, depth: nat, written: bool): string
    requires s.Header? ==> s.key != []
  {
    match s
    case Header(key, many) =>
      (if written && (many || |key| == 1) then "\n" else "") + Repeat(tab, |key| - 1) + StmtText(s) + "\n"
    case Assign(_, _) => Repeat(tab, depth) + StmtText(s) + "\n"
  }

  function Render(tab: string, ss: seq<Stmt>, depth: nat, written: bool): string
    requires Named(ss)
  {
    if ss == [] then ""
    else LineOf(tab, ss[0], depth, written) + Render(tab, ss[1..], NextDepth(ss[0], depth), true)
  }

  lemma RenderStart(tab: string, s: Stmt, rest: seq<Stmt>, depth: nat, written: bool)
    requires (s.Header? ==> s.key != []) && Named(rest)
    ensures Named([s] + rest)
    ensures DepthAfter([s] + rest, depth) == DepthAfter(rest, NextDepth(s, depth))
    ensures Render(tab, [s] + rest, depth, written) ==
      LineOf(tab, s, depth, written) + Render(tab, rest, NextDepth(s, depth), true)
  {
    assert ([s] + rest)[1..] == rest;
  }

  /** Writing one more statement appends its line. */
  lemma {:induction false} RenderAppend(tab: string, ss: seq<Stmt>, s: Stmt, depth: nat, written: bool)
    requires Named(ss) && (s.Header? ==> s.key != [])
    ensures Named(ss + [s])
    ensures DepthAfter(ss + [s], depth) == NextDepth(s, DepthAfter(ss, depth))
    ensures Render(tab, ss + [s], depth, written) ==
      Render(tab, ss, depth, written) + LineOf(tab, s, DepthAfter(ss, depth), written || ss != [])
  {
    if ss == [] {
      assert ss + [s] == [s] + [];
      RenderStart(tab, s, [], depth, written);
    } else {
      var d, more := NextDepth(ss[0], depth), ss[1..] + [s];
      assert ss + [s] == [ss[0]] + more && ss == [ss[0]] + ss[1..];
      RenderAppend(tab, ss[1..], s, d, true);
      RenderStart(tab, ss[0], more, depth, written);
      Assoc(LineOf(tab, ss[0], depth, written), Render(tab, ss[1..], d, true),
            LineOf(tab, s, DepthAfter(ss[1..], d), true));
    }
  }
}
