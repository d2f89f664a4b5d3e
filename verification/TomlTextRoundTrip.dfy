/** The text the encoder writes for a table with readable keys parses to that table. */
module TomlTextRoundTrip {
  import opened TomlData
  import opened TomlTables
  import opened TomlReplay
  import opened TomlLayout
  import opened TomlKeyText
  import opened TomlText
  import opened TomlDocumentText
  import A = TomlArrayText
  import L = TomlLexer
  import F = TomlLexerProofs
  import D = TomlDocument

  /** Every written key is readable, and every value is one whose text the lexer and the parser
      read back: a string, a boolean, a 64-bit integer, a finite float, a datetime on the calendar
      or a homogeneous array of such. */
  predicate Plain(t: Tbl)
    decreases t, 1
  {
    forall k | k in t.m :: t.m[k].Nil? || (Readable(k) && PlainNode(t.m[k]))
  }

  predicate PlainNode(n: Node)
    decreases n, 0
  {
    match n
    case Nil => true
    case Leaf(v) => A.Supported(v)
    case Sub(t) => Plain(t)
    case Tables(ts) => forall i | 0 <= i < |ts| :: Plain(ts[i])
  }

  /** What the encoder accepts, with values that are read back. */
  predicate Storable(t: Tbl)
    decreases t, 1
  {
    forall k | k in t.m :: t.m[k].Nil? || (k != "" && StorableNode(t.m[k]))
  }

  predicate StorableNode(n: Node)
    decreases n, 0
  {
    match n
    case Nil => true
    case Leaf(v) => A.Supported(v)
    case Sub(t) => Storable(t)
    case Tables(ts) => forall i | 0 <= i < |ts| :: Storable(ts[i])
  }

  lemma {:induction false} PlainStorable(t: Tbl)
    requires Plain(t)
    ensures Storable(t)
    decreases t
  {
    forall k | k in t.m && !t.m[k].Nil? ensures k != "" && StorableNode(t.m[k]) {
      match t.m[k]
      case Nil =>
      case Leaf(_) =>
      case Sub(s) => PlainStorable(s);
      case Tables(ts) =>
        forall i | 0 <= i < |ts| ensures Storable(ts[i]) {
          PlainStorable(ts[i]);
        }
    }
  }

  /** The encoder accepts, and when the names before are readable, all its statements can be
      printed exactly if `good`. */
  predicate WritesOut(e: Encoded, readable: bool, good: bool) {
    e.Lines? && AllWritable(e.ss) && (readable ==> (AllPrintable(e.ss) <==> good))
  }

  lemma ThenWrites(a: Encoded, b: Encoded, readable: bool, good: bool, fine: bool)
    requires WritesOut(a, readable, good) && WritesOut(b, readable && good, fine)
    ensures WritesOut(Then(a, b), readable, good && fine)
  {
    var both := a.ss + b.ss;
    assert forall i | 0 <= i < |a.ss| :: both[i] == a.ss[i];
    assert forall i | 0 <= i < |b.ss| :: both[|a.ss| + i] == b.ss[i];
  }

  lemma {:induction false} SupportedUniform(v: Val)
    requires A.Supported(v)
    ensures Uniform(v)
  {
    if v.Arr? {
      forall i | 0 <= i < |v.elems| ensures Uniform(v.elems[i]) {
        SupportedUniform(v.elems[i]);
      }
    }
  }

  lemma KeyExtends(key: Key, k: string)
    ensures ValidKey(key + [k]) <==> ValidKey(key) && k != ""
    ensures ReadableKeys(key + [k]) <==> ReadableKeys(key) && Readable(k)
  {
    var all := key + [k];
    assert all[|key|] == k && forall i | 0 <= i < |key| :: all[i] == key[i];
  }

  lemma LineWrites(key: Key, k: string, v: Val)
    requires ValidKey(key) && k != "" && A.Supported(v)
    ensures WritesOut(Line(key + [k], v), ReadableKeys(key), Readable(k))
  {
    KeyExtends(key, k);
    SupportedUniform(v);
    OneWrites(Assign(k, v));
    assert Last(key + [k]) == k;
  }

  lemma OneWrites(s: Stmt)
    requires Writable(s)
    ensures AllWritable([s]) && (AllPrintable([s]) <==> Printable(s))
  {
    assert [s][0] == s;
  }

  lemma TitleWrites(key: Key, many: bool)
    requires key != [] && ValidKey(key)
    ensures WritesOut(Title(key, many), true, ReadableKeys(key))
  {
    OneWrites(Header(key, many));
  }

  lemma {:induction false} MapWrites(key: Key, t: Tbl)
    requires ValidKey(key) && Storable(t)
    ensures WritesOut(EncodeMap(key, t), ReadableKeys(key), Plain(t))
    decreases t, 2, 0
  {
    SortedKeys(DirectKeys(t));
    SortedKeys(SubKeys(t));
    var direct, sub := Sorted(DirectKeys(t)), Sorted(SubKeys(t));
    KeysWrite(key, t, direct);
    KeysWrite(key, t, sub);
    ThenWrites(EncodeKeys(key, t, direct), EncodeKeys(key, t, sub), ReadableKeys(key),
               PlainKeys(t, direct), PlainKeys(t, sub));
    assert forall k | k in t.m :: k in direct || k in sub;
  }

  predicate PlainAt(k: string, n: Node) { n.Nil? || (Readable(k) && PlainNode(n)) }

  predicate PlainKeys(t: Tbl, ks: seq<string>)
    requires forall k | k in ks :: k in t.m
  { forall k | k in ks :: PlainAt(k, t.m[k]) }

  lemma {:induction false} KeysWrite(key: Key, t: Tbl, ks: seq<string>)
    requires ValidKey(key) && Storable(t) && forall k | k in ks :: k in t.m
    ensures WritesOut(EncodeKeys(key, t, ks), ReadableKeys(key), PlainKeys(t, ks))
    decreases t, 1, |ks|
  {
    if ks != [] {
      var k := ks[0];
      assert k in t.m;
      NodeWrites(key, k, t.m[k]);
      KeysWrite(key, t, ks[1..]);
      ThenWrites(EncodeNode(key + [k], t.m[k]), EncodeKeys(key, t, ks[1..]), ReadableKeys(key),
                 PlainAt(k, t.m[k]), PlainKeys(t, ks[1..]));
    }
  }

  lemma {:induction false} NodeWrites(key: Key, k: string, n: Node)
    requires ValidKey(key) && (n.Nil? || (k != "" && StorableNode(n)))
    ensures WritesOut(EncodeNode(key + [k], n), ReadableKeys(key), PlainAt(k, n))
    decreases n, 3, 0
  {
    KeyExtends(key, k);
    match n
    case Nil =>
    case Leaf(v) => LineWrites(key, k, v);
    case Sub(t) => TableWrites(key + [k], t, false);
    case Tables(ts) =>
      if ts == [] { LineWrites(key, k, Arr([])); } else { TablesWrite(key + [k], ts); }
  }

  /** A table with its header. */
  lemma {:induction false} TableWrites(key: Key, t: Tbl, many: bool)
    requires key != [] && ValidKey(key) && Storable(t)
    ensures WritesOut(Then(Title(key, many), EncodeMap(key, t)), true, ReadableKeys(key) && Plain(t))
    decreases t, 3, 0
  {
    TitleWrites(key, many);
    MapWrites(key, t);
    ThenWrites(Title(key, many), EncodeMap(key, t), true, ReadableKeys(key), Plain(t));
  }

  predicate AllPlain(ts: seq<Tbl>) { forall i | 0 <= i < |ts| :: Plain(ts[i]) }

  lemma {:induction false} TablesWrite(key: Key, ts: seq<Tbl>)
    requires key != [] && ValidKey(key) && forall i | 0 <= i < |ts| :: Storable(ts[i])
    ensures WritesOut(EncodeTables(key, ts), true, ts == [] || (ReadableKeys(key) && AllPlain(ts)))
    decreases ts, 0, 0
  {
    if ts != [] {
      TableWrites(key, ts[0], true);
      TablesWrite(key, ts[1..]);
      ThenWrites(Then(Title(key, true), EncodeMap(key, ts[0])), EncodeTables(key, ts[1..]), true,
                 ReadableKeys(key) && Plain(ts[0]), ts[1..] == [] || AllPlain(ts[1..]));
      assert forall i | 1 <= i < |ts| :: ts[i] == ts[1..][i - 1];
    }
  }

  /** The document the encoder writes. */
  function Text(t: Tbl, tab: string): string
    requires Encode(t).Lines? && Named(Encode(t).ss)
  { Render(tab, Encode(t).ss, 0, false) }

  lemma DocumentRead(doc: string, tab: string, ss: seq<Stmt>)
    requires AllPrintable(ss) && AllBlank(tab) && Named(ss) && doc == Render(tab, ss, 0, false)
    ensures F.Inv(L.Init(doc)) && F.PhaseOf(L.Init(doc)) == F.AtTop
    ensures D.ReadAll(L.Init(doc)) == D.Document(ss, D.AtEnd)
  {
    D.StartPhase(doc);
    var l: F.Live := L.Init(doc);
    RenderRead(l, tab, ss, 0, false);
  }

  /** From table to text to table: with readable keys and any blank indentation, the lexer and the
      parser accept the text of every such table and rebuild it, up to nils and empty arrays
      of tables. */
  lemma TextRoundTrip(t: Tbl, tab: string)
    requires Plain(t) && AllBlank(tab)
    ensures Encode(t).Lines? && Named(Encode(t).ss)
    ensures F.Inv(L.Init(Text(t, tab))) && F.PhaseOf(L.Init(Text(t, tab))) == F.AtTop
    ensures var r := D.Parse(L.Init(Text(t, tab)), START);
      r.Parsed? && r.p.root == Normal(t) && r.p.implicits == {} && (r.p.root == t <==> Written(t))
  {
    PlainStorable(t);
    MapWrites([], t);
    EncodeThenParse(t);
    DocumentRead(Text(t, tab), tab, Encode(t).ss);
    D.ParseReplays(L.Init(Text(t, tab)), START);
    NormalIsSame(t);
  }
}
