/** The encoder's statements for a nested table (eTable, eMap, eArrayOfTables), and the
    proof that the parser rebuilds the table from them. */
module TomlReplay {
  import opened Ordering
  import opened TomlData
  import opened TomlTables

  // ----- sort.Strings -----

  predicate IsFirst(k: string, ks: set<string>) {
    k in ks && forall j | j in ks :: j == k || Before(k, j)
  }

  lemma {:induction false} FirstExists(ks: set<string>)
    requires ks != {}
    ensures exists k :: IsFirst(k, ks)
    decreases |ks|
  {
    var k :| k in ks;
    var rest := ks - {k};
    if rest == {} {
      assert forall j | j in ks :: j == k by {
        forall j | j in ks ensures j == k { assert j == k || j in rest; }
      }
      assert IsFirst(k, ks);
    } else {
      FirstExists(rest);
      var j :| IsFirst(j, rest);
      forall i | i in ks ensures i == j || i == k || (Before(j, i) && (Before(k, j) ==> Before(k, i))) {
        BeforeOrder(k, j, i);
      }
      BeforeOrder(k, j, j);
      assert IsFirst(j, ks) || IsFirst(k, ks);
    }
  }

  lemma FirstUnique(ks: set<string>)
    ensures forall i, j | IsFirst(i, ks) && IsFirst(j, ks) :: i == j
  {
    forall i, j | IsFirst(i, ks) && IsFirst(j, ks) ensures i == j {
      BeforeOrder(i, j, i);
    }
  }

  function First(ks: set<string>): (k: string)
    requires ks != {}
    ensures IsFirst(k, ks)
  {
    FirstExists(ks);
    FirstUnique(ks);
    var k :| k in ks && IsFirst(k, ks);
    k
  }

  /** The keys in ascending order, each once. */
  function Sorted(ks: set<string>): seq<string>
    decreases |ks|
  {
    if ks == {} then [] else [First(ks)] + Sorted(ks - {First(ks)})
  }

  /** Sorting neither loses, repeats nor invents keys, and it sorts. */
  lemma {:induction false} SortedKeys(ks: set<string>)
    ensures forall k :: k in Sorted(ks) <==> k in ks
    ensures forall i, j | 0 <= i < j < |Sorted(ks)| :: Before(Sorted(ks)[i], Sorted(ks)[j])
    decreases |ks|
  {
    if ks != {} {
      SortedKeys(ks - {First(ks)});
    }
  }

  // ----- the encoder -----

  datatype Encoded = Lines(ss: seq<Stmt>) | EncodeError

  function Then(a: Encoded, b: Encoded): Encoded {
    if a.EncodeError? || b.EncodeError? then EncodeError else Lines(a.ss + b.ss)
  }

  predicate ValidKey(key: Key) { forall i | 0 <= i < |key| :: key[i] != "" }

  /** Arrays mix no types, at any depth; anything else is refused by tomlTypeOfGo. */
  predicate Uniform(v: Val) {
    v.Arr? ==> Homogeneous(v.elems) && forall i | 0 <= i < |v.elems| :: Uniform(v.elems[i])
  }

  function Line(key: Key, v: Val): Encoded
    requires key != []
  {
    if ValidKey(key) && Uniform(v) then Lines([Assign(Last(key), v)]) else EncodeError
  }

  function Title(key: Key, many: bool): Encoded {
    if !ValidKey(key) then EncodeError else if key == [] then Lines([]) else Lines([Header(key, many)])
  }

  function DirectKeys(t: Tbl): set<string> { set k | k in t.m && !IsTable(t.m[k]) }
  function SubKeys(t: Tbl): set<string> { set k | k in t.m && IsTable(t.m[k]) }

  /** eMap: keys with plain values first, then the keys of tables, each in order. */
  function EncodeMap(key: Key, t: Tbl): Encoded
    decreases t, 2, 0
  {
    SortedKeys(DirectKeys(t));
    SortedKeys(SubKeys(t));
    Then(EncodeKeys(key, t, Sorted(DirectKeys(t))), EncodeKeys(key, t, Sorted(SubKeys(t))))
  }

  /** writeMapKeys */
  function EncodeKeys(key: Key, t: Tbl, ks: seq<string>): Encoded
    requires forall k | k in ks :: k in t.m
    decreases t, 1, |ks|
  {
    if ks == [] then Lines([])
    else Then(EncodeNode(key + [ks[0]], t.m[ks[0]]), EncodeKeys(key, t, ks[1..]))
  }

  function EncodeNode(key: Key, n: Node): Encoded
    requires key != []
    decreases n, 3, 0
  {
    match n
    case Nil => Lines([])
    case Leaf(v) => Line(key, v)
    case Sub(t) => Then(Title(key, false), EncodeMap(key, t))
    case Tables(ts) => if ts == [] then Line(key, Arr([])) else EncodeTables(key, ts)
  }

  /** eArrayOfTables */
  function EncodeTables(key: Key, ts: seq<Tbl>): Encoded
    requires key != []
    decreases ts, 0, 0
  {
    if ts == [] then Lines([])
    else Then(Then(Title(key, true), EncodeMap(key, ts[0])), EncodeTables(key, ts[1..]))
  }

  function Encode(t: Tbl): Encoded { EncodeMap([], t) }

  // ----- what comes back -----

  /** A nil is not written, and an empty array of tables is written as an empty array. */
  function Normal(t: Tbl): Tbl
    decreases t, 1
  {
    Tbl(map k | k in t.m && !t.m[k].Nil? :: NormalNode(t.m[k]))
  }

  function NormalNode(n: Node): Node
    decreases n, 0
  {
    match n
    case Sub(t) => Sub(Normal(t))
    case Tables(ts) => if ts == [] then Leaf(Arr([])) else Tables(NormalAll(ts))
    case other => other
  }

  function NormalAll(ts: seq<Tbl>): (r: seq<Tbl>)
    ensures |r| == |ts|
    decreases ts, 0
  {
    if ts == [] then [] else [Normal(ts[0])] + NormalAll(ts[1..])
  }

  // ----- replaying -----

  /** `p` is `root` with the table `h` at the end of `key`, and marks nothing. */
  predicate Holds(p: Parser, root: Tbl, key: Key, h: Tbl) {
    Leads(root, key) && p.root == Graft(root, key, h) && p.implicits == {}
  }

  /** The statements of `e`, started in `p`, leave `h` at the end of `key`. */
  predicate Makes(p: Parser, e: Encoded, root: Tbl, key: Key, h: Tbl) {
    e.Lines? ==> Named(e.ss) && Replay(p, e.ss).Accepted? && Holds(Replay(p, e.ss).p, root, key, h)
  }

  lemma Split(key: Key, k: string)
    ensures Parents(key + [k]) == key && Last(key + [k]) == k
  {
  }

  lemma LineMakes(p: Parser, root: Tbl, key: Key, h: Tbl, k: string, v: Val)
    requires Holds(p, root, key, h) && k !in h.m && p.context == key
    ensures Makes(p, Line(key + [k], v), root, key, Put(h, k, Leaf(v)))
    ensures Line(key + [k], v).Lines? ==> Replay(p, Line(key + [k], v).ss).p.context == key
  {
    Split(key, k);
    GraftFind(root, key, h);
    GraftTwice(root, key, h, Put(h, k, Leaf(v)));
    if Line(key + [k], v).Lines? {
      assert Line(key + [k], v).ss[1..] == [];
    }
  }

  /** The node that a header puts at `k` in `h`: an empty table, in an array of tables
      behind the tables that are there. */
  predicate Opens(h: Tbl, k: string, many: bool, n: Node) {
    if many && k in h.m then h.m[k].Tables? && n == Tables(h.m[k].ts + [EMPTY])
    else k !in h.m && n == (if many then Tables([EMPTY]) else Sub(EMPTY))
  }

  lemma HeaderAccepted(p: Parser, root: Tbl, key: Key, h: Tbl, k: string, many: bool, n: Node)
    requires Holds(p, root, key, h) && Opens(h, k, many, n)
    ensures var q := EstablishContext(p, key + [k], many);
      q.Accepted? && Holds(q.p, root, key, Put(h, k, n)) && q.p.context == key + [k]
  {
    Split(key, k);
    GraftFind(root, key, h);
    DrillExisting(p.root, [], key, {});
    GraftTwice(root, key, h, Put(h, k, n));
  }

  lemma TitleMakes(p: Parser, root: Tbl, key: Key, h: Tbl, k: string, many: bool, n: Node)
    requires Holds(p, root, key, h) && Opens(h, k, many, n)
    ensures Makes(p, Title(key + [k], many), root, key, Put(h, k, n))
    ensures Title(key + [k], many).Lines? ==> Replay(p, Title(key + [k], many).ss).p.context == key + [k]
  {
    HeaderAccepted(p, root, key, h, k, many, n);
    if Title(key + [k], many).Lines? {
      assert Title(key + [k], many).ss[1..] == [];
    }
  }

  lemma EntersTable(root: Tbl, key: Key, h: Tbl, k: string, n: Node, p: Parser)
    requires Holds(p, root, key, Put(h, k, n)) && IsTable(n) && TableIn(n) == EMPTY
    ensures Holds(p, p.root, key + [k], EMPTY)
  {
    GraftFind(root, key, Put(h, k, n));
    LeadsOn(p.root, key, k);
    GraftSame(p.root, key + [k]);
  }

  /** Filling the table a header has just made. */
  lemma FillsTable(root: Tbl, key: Key, h: Tbl, k: string, n: Node, p: Parser, q: Parser, s: Tbl)
    requires Holds(p, root, key, Put(h, k, n)) && IsTable(n)
    requires Holds(q, p.root, key + [k], s)
    ensures Holds(q, root, key, Put(h, k, WithTable(n, s)))
  {
    var g := Put(h, k, n);
    GraftFind(root, key, g);
    GraftOn(p.root, key, k, s);
    GraftTwice(root, key, g, Put(g, k, WithTable(n, s)));
    assert Put(g, k, WithTable(n, s)) == Put(h, k, WithTable(n, s));
  }

  lemma ThenMakes(p: Parser, a: Encoded, b: Encoded, root: Tbl, key: Key, g: Tbl, h: Tbl)
    requires Makes(p, a, root, key, g)
    requires a.Lines? ==> Makes(Replay(p, a.ss).p, b, root, key, h)
    ensures Makes(p, Then(a, b), root, key, h)
    ensures Then(a, b).Lines? ==> Replay(p, Then(a, b).ss) == Replay(Replay(p, a.ss).p, b.ss)
  {
    if a.Lines? && b.Lines? {
      ReplayThen(p, a.ss, b.ss);
    }
  }

  function Entry(key: Key, many: bool, t: Tbl): Encoded { Then(Title(key, many), EncodeMap(key, t)) }

  /** A header and the table below it. */
  lemma {:induction false} TableMakes(p: Parser, root: Tbl, key: Key, h: Tbl, k: string, many: bool, n: Node, t: Tbl)
    requires Holds(p, root, key, h) && Opens(h, k, many, n)
    ensures Makes(p, Entry(key + [k], many, t), root, key, Put(h, k, WithTable(n, Normal(t))))
    decreases t, 5, 0
  {
    var title, body := Title(key + [k], many), EncodeMap(key + [k], t);
    if title.Lines? && body.Lines? {
      TitleMakes(p, root, key, h, k, many, n);
      var q := Replay(p, title.ss).p;
      EntersTable(root, key, h, k, n, q);
      MapMakes(q, q.root, key + [k], t);
      FillsTable(root, key, h, k, n, q, Replay(q, body.ss).p, Normal(t));
      ThenMakes(p, title, body, root, key, Put(h, k, n), Put(h, k, WithTable(n, Normal(t))));
    }
  }

  lemma PutTwice(h: Tbl, k: string, m: Node, n: Node)
    ensures Put(Put(h, k, m), k, n) == Put(h, k, n)
  {
  }

  lemma {:induction false} TablesMake(p: Parser, root: Tbl, key: Key, h: Tbl, k: string, acc: seq<Tbl>, ts: seq<Tbl>)
    requires Holds(p, root, key, h)
    requires if acc == [] then k !in h.m else k in h.m && h.m[k] == Tables(acc)
    ensures ts != [] ==> Makes(p, EncodeTables(key + [k], ts), root, key, Put(h, k, Tables(acc + NormalAll(ts))))
    ensures ts == [] && acc != [] ==> Makes(p, EncodeTables(key + [k], ts), root, key, Put(h, k, Tables(acc)))
    decreases ts, 0, 0
  {
    if ts == [] {
      assert acc != [] ==> Put(h, k, Tables(acc)) == h;
    } else {
      var more := acc + [Normal(ts[0])];
      assert WithTable(Tables(acc + [EMPTY]), Normal(ts[0])) == Tables(more);
      TableMakes(p, root, key, h, k, true, Tables(acc + [EMPTY]), ts[0]);
      var first := Entry(key + [k], true, ts[0]);
      if first.Lines? {
        RestMakes(Replay(p, first.ss).p, root, key, h, k, acc, ts);
        ThenMakes(p, first, EncodeTables(key + [k], ts[1..]), root, key,
                  Put(h, k, Tables(more)), Put(h, k, Tables(acc + NormalAll(ts))));
      }
    }
  }

  lemma {:induction false} RestMakes(p: Parser, root: Tbl, key: Key, h: Tbl, k: string, acc: seq<Tbl>, ts: seq<Tbl>)
    requires ts != [] && Holds(p, root, key, Put(h, k, Tables(acc + [Normal(ts[0])])))
    ensures Makes(p, EncodeTables(key + [k], ts[1..]), root, key, Put(h, k, Tables(acc + NormalAll(ts))))
    decreases ts[1..], 1, 0
  {
    var more := acc + [Normal(ts[0])];
    TablesMake(p, root, key, Put(h, k, Tables(more)), k, more, ts[1..]);
    assert more + NormalAll(ts[1..]) == acc + NormalAll(ts);
    PutTwice(h, k, Tables(more), Tables(acc + NormalAll(ts)));
    PutTwice(h, k, Tables(more), Tables(more));
    assert ts[1..] == [] ==> more == acc + NormalAll(ts);
  }

  function WithNode(h: Tbl, k: string, n: Node): Tbl {
    if n.Nil? then h else Put(h, k, NormalNode(n))
  }

  lemma {:induction false} NodeMakes(p: Parser, root: Tbl, key: Key, h: Tbl, k: string, n: Node)
    requires Holds(p, root, key, h) && k !in h.m
    requires IsTable(n) || p.context == key
    ensures Makes(p, EncodeNode(key + [k], n), root, key, WithNode(h, k, n))
    ensures EncodeNode(key + [k], n).Lines? && !IsTable(n) ==>
      Replay(p, EncodeNode(key + [k], n).ss).p.context == key
    decreases n, 6, 0
  {
    match n
    case Nil =>
    case Leaf(v) => LineMakes(p, root, key, h, k, v);
    case Sub(t) => TableMakes(p, root, key, h, k, false, Sub(EMPTY), t);
    case Tables(ts) =>
      if ts == [] {
        LineMakes(p, root, key, h, k, Arr([]));
      } else {
        TablesMake(p, root, key, h, k, [], ts);
        assert [] + NormalAll(ts) == NormalAll(ts);
      }
  }

  /** What is rebuilt once the keys `done` are written. */
  function Rebuilt(t: Tbl, done: set<string>): Tbl {
    Tbl(map k | k in t.m && k in done && !t.m[k].Nil? :: NormalNode(t.m[k]))
  }

  function KeySet(ks: seq<string>): set<string> { set k | k in ks }

  predicate Distinct(ks: seq<string>) { forall i, j | 0 <= i < j < |ks| :: ks[i] != ks[j] }

  /** Keys of one kind: in the table being written, not written yet, each once. */
  predicate ToWrite(t: Tbl, done: set<string>, ks: seq<string>, tables: bool) {
    Distinct(ks) && forall k | k in ks :: k in t.m && k !in done && IsTable(t.m[k]) == tables
  }

  lemma RebuiltNext(t: Tbl, done: set<string>, k: string)
    requires k in t.m && k !in done
    ensures k !in Rebuilt(t, done).m
    ensures WithNode(Rebuilt(t, done), k, t.m[k]) == Rebuilt(t, done + {k})
  {
  }

  lemma {:induction false} KeysMake(p: Parser, root: Tbl, key: Key, t: Tbl, done: set<string>, ks: seq<string>, tables: bool)
    requires Holds(p, root, key, Rebuilt(t, done)) && ToWrite(t, done, ks, tables)
    requires tables || p.context == key
    ensures Makes(p, EncodeKeys(key, t, ks), root, key, Rebuilt(t, done + KeySet(ks)))
    decreases t, 1, |ks|
  {
    if ks == [] {
      assert done + KeySet(ks) == done;
    } else {
      var k, rest := ks[0], ks[1..];
      var next := done + {k};
      RebuiltNext(t, done, k);
      NodeMakes(p, root, key, Rebuilt(t, done), k, t.m[k]);
      var first := EncodeNode(key + [k], t.m[k]);
      if first.Lines? {
        assert forall j | j in rest :: j != k by {
          forall i | 0 <= i < |rest| ensures rest[i] != k { assert ks[i + 1] == rest[i]; }
        }
        KeysMake(Replay(p, first.ss).p, root, key, t, next, rest, tables);
        assert next + KeySet(rest) == done + KeySet(ks);
        ThenMakes(p, first, EncodeKeys(key, t, rest), root, key, Rebuilt(t, next), Rebuilt(t, done + KeySet(ks)));
      }
    }
  }

  lemma SortedToWrite(t: Tbl, done: set<string>, ks: set<string>, tables: bool)
    requires forall k | k in ks :: k in t.m && k !in done && IsTable(t.m[k]) == tables
    ensures ToWrite(t, done, Sorted(ks), tables) && KeySet(Sorted(ks)) == ks
  {
    SortedKeys(ks);
    forall i, j | 0 <= i < j < |Sorted(ks)| ensures Sorted(ks)[i] != Sorted(ks)[j] {
      BeforeOrder(Sorted(ks)[i], Sorted(ks)[j], "");
    }
  }

  /** The statements below a header, replayed with that header's table empty and current,
      fill it with exactly the table they were made from. */
  lemma {:induction false} MapMakes(p: Parser, root: Tbl, key: Key, t: Tbl)
    requires Holds(p, root, key, EMPTY) && p.context == key
    ensures Makes(p, EncodeMap(key, t), root, key, Normal(t))
    decreases t, 2, 0
  {
    var direct, sub := DirectKeys(t), SubKeys(t);
    SortedToWrite(t, {}, direct, false);
    SortedToWrite(t, direct, sub, true);
    assert Rebuilt(t, {}) == EMPTY;
    KeysMake(p, root, key, t, {}, Sorted(direct), false);
    assert {} + direct == direct;
    var first := EncodeKeys(key, t, Sorted(direct));
    assert direct + sub == t.m.Keys;
    assert Rebuilt(t, direct + sub) == Normal(t);
    if first.Lines? {
      KeysMake(Replay(p, first.ss).p, root, key, t, direct, Sorted(sub), true);
      ThenMakes(p, first, EncodeKeys(key, t, Sorted(sub)), root, key, Rebuilt(t, direct), Normal(t));
    }
  }

  // ----- when it is the identity -----

  lemma {:induction false} NormalIsSame(t: Tbl)
    ensures Normal(t) == t <==> Written(t)
    decreases t, 1
  {
    forall k | k in t.m ensures (!t.m[k].Nil? && NormalNode(t.m[k]) == t.m[k]) <==> WrittenNode(t.m[k]) {
      NormalNodeIsSame(t.m[k]);
    }
    if Normal(t) == t {
      forall k | k in t.m ensures WrittenNode(t.m[k]) {
        assert k in Normal(t).m;
      }
    }
    if Written(t) {
      assert Normal(t).m == t.m;
    }
  }

  lemma {:induction false} NormalNodeIsSame(n: Node)
    ensures (!n.Nil? && NormalNode(n) == n) <==> WrittenNode(n)
    decreases n, 0
  {
    match n
    case Sub(t) => NormalIsSame(t);
    case Tables(ts) => NormalAllIsSame(ts);
    case _ =>
  }

  lemma {:induction false} NormalAllIsSame(ts: seq<Tbl>)
    ensures NormalAll(ts) == ts <==> forall i | 0 <= i < |ts| :: Written(ts[i])
    decreases ts, 0
  {
    if ts != [] {
      NormalIsSame(ts[0]);
      NormalAllIsSame(ts[1..]);
      assert ts == [ts[0]] + ts[1..];
      if forall i | 0 <= i < |ts[1..]| :: Written(ts[1..][i]) {
        assert forall i | 1 <= i < |ts| :: ts[i] == ts[1..][i - 1];
      }
    }
  }

  // ----- when the encoder refuses -----

  /** No written key is empty and no written array mixes types, at any depth. */
  predicate Encodable(t: Tbl)
    decreases t, 1
  {
    forall k | k in t.m :: t.m[k].Nil? || (k != "" && EncodableNode(t.m[k]))
  }

  predicate EncodableNode(n: Node)
    decreases n, 0
  {
    match n
    case Nil => true
    case Leaf(v) => Uniform(v)
    case Sub(t) => Encodable(t)
    case Tables(ts) => forall i | 0 <= i < |ts| :: Encodable(ts[i])
  }

  lemma ValidExtends(key: Key, k: string)
    requires ValidKey(key)
    ensures ValidKey(key + [k]) <==> k != ""
  {
    if ValidKey(key + [k]) {
      assert (key + [k])[|key|] == k;
    }
  }

  lemma {:induction false} EncodesExactly(key: Key, t: Tbl)
    requires ValidKey(key)
    ensures EncodeMap(key, t).Lines? <==> Encodable(t)
    decreases t, 2, 0
  {
    var direct, sub := Sorted(DirectKeys(t)), Sorted(SubKeys(t));
    SortedKeys(DirectKeys(t));
    SortedKeys(SubKeys(t));
    KeysEncode(key, t, direct);
    KeysEncode(key, t, sub);
    assert forall k | k in t.m :: k in direct || k in sub;
  }

  lemma {:induction false} KeysEncode(key: Key, t: Tbl, ks: seq<string>)
    requires ValidKey(key) && forall k | k in ks :: k in t.m
    ensures EncodeKeys(key, t, ks).Lines? <==>
      forall k | k in ks :: t.m[k].Nil? || (k != "" && EncodableNode(t.m[k]))
    decreases t, 1, |ks|
  {
    if ks != [] {
      NodeEncodes(key, ks[0], t.m[ks[0]]);
      KeysEncode(key, t, ks[1..]);
      assert forall k :: k in ks <==> k == ks[0] || k in ks[1..];
    }
  }

  lemma {:induction false} NodeEncodes(key: Key, k: string, n: Node)
    requires ValidKey(key)
    ensures EncodeNode(key + [k], n).Lines? <==> n.Nil? || (k != "" && EncodableNode(n))
    decreases n, 3, 0
  {
    ValidExtends(key, k);
    if k != "" {
      match n
      case Sub(t) => EncodesExactly(key + [k], t);
      case Tables(ts) => TablesEncode(key + [k], ts);
      case _ =>
    } else if n.Tables? && n.ts != [] {
      assert EncodeTables(key + [k], n.ts).EncodeError?;
    }
  }

  lemma {:induction false} TablesEncode(key: Key, ts: seq<Tbl>)
    requires key != [] && ValidKey(key)
    ensures EncodeTables(key, ts).Lines? <==> forall i | 0 <= i < |ts| :: Encodable(ts[i])
    decreases ts, 0, 0
  {
    if ts != [] {
      EncodesExactly(key, ts[0]);
      TablesEncode(key, ts[1..]);
      if EncodeTables(key, ts[1..]).Lines? {
        forall i | 1 <= i < |ts| ensures Encodable(ts[i]) { assert ts[i] == ts[1..][i - 1]; }
      }
    }
  }

  // ----- the round trip -----

  /** Encode then parse, for every table, at any depth: the encoder accepts exactly the
      encodable tables; the parser accepts all its statements, ends with exactly that table
      up to nils and empty arrays of tables, and has no implicit table left. */
  lemma EncodeThenParse(t: Tbl)
    ensures Encode(t).Lines? <==> Encodable(t)
    ensures Encode(t).Lines? ==>
      && Named(Encode(t).ss) && Replay(START, Encode(t).ss).Accepted?
      && Replay(START, Encode(t).ss).p.root == Normal(t)
      && Replay(START, Encode(t).ss).p.implicits == {}
  {
    EncodesExactly([], t);
    MapMakes(START, EMPTY, [], t);
  }

  /** It is the identity exactly on tables without nils and empty arrays of tables. */
  lemma IdentityExactly(t: Tbl)
    requires Encodable(t)
    ensures Encode(t).Lines? && Named(Encode(t).ss)
    ensures Replay(START, Encode(t).ss).Accepted?
    ensures Replay(START, Encode(t).ss).p.root == t <==> Written(t)
  {
    EncodeThenParse(t);
    NormalIsSame(t);
  }
}
