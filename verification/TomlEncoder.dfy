/** The encoder object: it writes the text of headers and key lines into its buffer, in loops
    over sorted keys and over array elements.  The ghost field `out` holds the statements the
    text spells. */
module TomlEncoder {
  import opened TomlData
  import opened TomlTables
  import opened TomlReplay
  import opened TomlLayout
  import A = TomlArrayText
  import E = TomlEscapes
  import Decimal

  class Encoder {
    const indent: string
    var w: string
    var hasWritten: bool
    ghost var out: seq<Stmt>
    ghost var depth: nat

    constructor (tab: string)
      ensures Valid() && indent == tab && out == [] && depth == 0
    {
      indent := tab;
      w, hasWritten, out, depth := "", false, [], 0;
    }

    /** The buffer holds the text of the statements written so far; `depth` is the number of
        names in the last header. */
    ghost predicate Valid()
      reads this
    { Spelled(indent, w, hasWritten, out, depth) }

    method Wf(text: string)
      modifies this`w, this`hasWritten
      ensures w == old(w) + text && hasWritten
    {
      w, hasWritten := w + text, true;
    }

    method Newline()
      modifies this`w, this`hasWritten
      ensures w == old(w) + (if old(hasWritten) then "\n" else "") && hasWritten == old(hasWritten)
    {
      if hasWritten {
        Wf("\n");
      }
    }

    /** eElement */
    method EElement(v: Val)
      modifies this`w, this`hasWritten
      ensures w == old(w) + A.EncodeVal(v) && hasWritten
      decreases v, 1
    {
      match v
      case Text(s) => Wf(E.Quote(s));
      case Boolean(b) => Wf(if b then "true" else "false");
      case Integer(n) => Wf(Decimal.FormatInt(n));
      case FloatNum(t) => Wf(t);
      case Datetime(t) => Wf(t);
      case Arr(vs) => EArrayOrSliceElement(vs);
    }

    /** eArrayOrSliceElement */
    method EArrayOrSliceElement(vs: seq<Val>)
      modifies this`w, this`hasWritten
      ensures w == old(w) + A.EncodeVal(Arr(vs)) && hasWritten
      decreases vs, 0
    {
      Wf("[");
      ghost var start := w;
      var i := 0;
      while i < |vs|
        invariant 0 <= i <= |vs| && hasWritten
        invariant w + A.EncodeElems(vs[i..]) == start + A.EncodeElems(vs)
      {
        ghost var before, rest := w, vs[i..];
        assert rest[0] == vs[i] && rest[1..] == vs[i + 1..];
        EElement(vs[i]);
        if i != |vs| - 1 {
          Wf(", ");
        }
        ElementWritten(before, w, vs[i], rest);
        i := i + 1;
      }
      Wf("]");
      ArrayWritten(old(w), w, vs);
    }

    /** keyEqElement */
    method KeyEqElement(key: Key, v: Val) returns (ok: bool)
      requires key != [] && Valid() && depth == |key| - 1
      modifies this
      ensures Wrote(ok, old(out), Line(key, v)) == true && (ok ==> depth == |key| - 1)
    {
      ok := ValidKey(key) && Uniform(v);
      if ok {
        var name := key[|key| - 1];
        Wf(Repeat(indent, |key| - 1) + MaybeQuoted(name) + " = ");
        EElement(v);
        Newline();
        LineText(Repeat(indent, |key| - 1), MaybeQuoted(name), A.EncodeVal(v));
        Record(Assign(name, v), old(w), old(hasWritten));
      }
    }

    method EncodeValue(key: Key, n: Node) returns (ok: bool)
      requires key != [] && Valid() && (!IsTable(n) ==> depth == |key| - 1)
      modifies this
      ensures Wrote(ok, old(out), EncodeNode(key, n)) == true && (ok && !IsTable(n) ==> depth == |key| - 1)
      decreases n, 3, 0
    {
      match n
      case Nil => ok := true;
      case Leaf(v) => ok := KeyEqElement(key, v);
      case Sub(t) => ok := ETable(key, t);
      case Tables(ts) =>
        if ts == [] {
          ok := KeyEqElement(key, Arr([]));
        } else {
          ok := EArrayOfTables(key, ts);
        }
    }

    /** The header of a table, with a blank line before a top-level one. */
    method TableHeader(key: Key)
      requires key != [] && Valid()
      modifies this
      ensures Valid() == true && out == old(out) + [Header(key, false)] && depth == |key|
    {
      ghost var gap := if hasWritten && |key| == 1 then "\n" else "";
      if |key| == 1 {
        Newline();
      }
      assert w == old(w) + gap;
      Wf(Repeat(indent, |key| - 1) + "[" + Joined(QuotedAll(key)) + "]");
      Newline();
      HeaderLine(old(w), gap, indent, key, false, depth, old(hasWritten));
      Record(Header(key, false), old(w), old(hasWritten));
    }

    /** The header of one element of an array of tables. */
    method ArrayTableHeader(key: Key)
      requires key != [] && Valid()
      modifies this
      ensures Valid() == true && out == old(out) + [Header(key, true)] && depth == |key|
    {
      ghost var gap := if hasWritten then "\n" else "";
      Newline();
      Wf(Repeat(indent, |key| - 1) + "[[" + Joined(QuotedAll(key)) + "]]");
      Newline();
      HeaderLine(old(w), gap, indent, key, true, depth, old(hasWritten));
      Record(Header(key, true), old(w), old(hasWritten));
    }

    method ETable(key: Key, t: Tbl) returns (ok: bool)
      requires Valid() && (key == [] ==> depth == 0)
      modifies this
      ensures Wrote(ok, old(out), Entry(key, false, t)) == true
      decreases t, 4, 0
    {
      if !ValidKey(key) {
        return false;
      }
      if |key| > 0 {
        TableHeader(key);
      }
      assert out == old(out) + Title(key, false).ss;
      ok := EMap(key, t);
      WroteBoth(old(out), Title(key, false), EncodeMap(key, t));
    }

    method EArrayOfTables(key: Key, ts: seq<Tbl>) returns (ok: bool)
      requires key != [] && Valid()
      modifies this
      ensures Wrote(ok, old(out), EncodeTables(key, ts)) == true
      decreases ts, 0, 0
    {
      var i := 0;
      while i < |ts|
        invariant 0 <= i <= |ts| && Valid() == true
        invariant Remains(out, EncodeTables(key, ts[i..]), old(out), EncodeTables(key, ts)) == true
      {
        TablesNext(key, ts, i);
        WroteNext(out, Entry(key, true, ts[i]), EncodeTables(key, ts[i + 1..]), old(out), EncodeTables(key, ts));
        ok := EArrayElement(key, ts[i]);
        if !ok {
          return;
        }
        i := i + 1;
      }
      ok := true;
    }

    /** One round of that loop. */
    method EArrayElement(key: Key, t: Tbl) returns (ok: bool)
      requires key != [] && Valid()
      modifies this
      ensures Wrote(ok, old(out), Entry(key, true, t)) == true
      decreases t, 4, 0
    {
      if !ValidKey(key) {
        return false;
      }
      ArrayTableHeader(key);
      ok := EMap(key, t);
      WroteBoth(old(out), Title(key, true), EncodeMap(key, t));
    }

    /** The keys of plain values and the keys of tables. */
    static method SplitKeys(t: Tbl) returns (mapKeysDirect: set<string>, mapKeysSub: set<string>)
      ensures mapKeysDirect == DirectKeys(t) && mapKeysSub == SubKeys(t)
    {
      mapKeysDirect, mapKeysSub := {}, {};
      var keys := t.m.Keys;
      while keys != {}
        invariant keys <= t.m.Keys
        invariant mapKeysDirect == set k | k in t.m && k !in keys && !IsTable(t.m[k])
        invariant mapKeysSub == set k | k in t.m && k !in keys && IsTable(t.m[k])
        decreases |keys|
      {
        var k :| k in keys;
        if IsTable(t.m[k]) {
          mapKeysSub := mapKeysSub + {k};
        } else {
          mapKeysDirect := mapKeysDirect + {k};
        }
        keys := keys - {k};
      }
    }

    method EMap(key: Key, t: Tbl) returns (ok: bool)
      requires Valid() && depth == |key|
      modifies this
      ensures Wrote(ok, old(out), EncodeMap(key, t)) == true
      decreases t, 2, 0
    {
      var mapKeysDirect, mapKeysSub := SplitKeys(t);
      SortedKeys(mapKeysDirect);
      SortedKeys(mapKeysSub);
      ok := WriteMapKeys(key, t, Sorted(mapKeysDirect), false);
      if ok {
        ok := WriteMapKeys(key, t, Sorted(mapKeysSub), true);
      }
      WroteBoth(old(out), EncodeKeys(key, t, Sorted(DirectKeys(t))), EncodeKeys(key, t, Sorted(SubKeys(t))));
    }

    method WriteMapKeys(key: Key, t: Tbl, ks: seq<string>, tables: bool) returns (ok: bool)
      requires forall k | k in ks :: k in t.m && IsTable(t.m[k]) == tables
      requires Valid() && (!tables ==> depth == |key|)
      modifies this
      ensures Wrote(ok, old(out), EncodeKeys(key, t, ks)) == true && (ok && !tables ==> depth == |key|)
      decreases t, 1, |ks|
    {
      var i := 0;
      while i < |ks|
        invariant 0 <= i <= |ks| && Valid() == true && (!tables ==> depth == |key|)
        invariant Remains(out, EncodeKeys(key, t, ks[i..]), old(out), EncodeKeys(key, t, ks)) == true
      {
        KeysNext(key, t, ks, i);
        WroteNext(out, EncodeNode(key + [ks[i]], t.m[ks[i]]), EncodeKeys(key, t, ks[i + 1..]),
                  old(out), EncodeKeys(key, t, ks));
        ok := EncodeValue(key + [ks[i]], t.m[ks[i]]);
        if !ok {
          return;
        }
        i := i + 1;
      }
      ok := true;
    }

    /** The call succeeded exactly if `e` has lines, and then wrote them. */
    ghost predicate Wrote(ok: bool, before: seq<Stmt>, e: Encoded)
      reads this
    { ok == e.Lines? && (ok ==> Valid() && out == before + e.ss) }

    /** The text written since `before` is the line of the statement `s`. */
    ghost method Record(s: Stmt, before: string, written: bool)
      requires s.Header? ==> s.key != []
      requires Spelled(indent, before, written, out, depth) && hasWritten
      requires w == before + LineOf(indent, s, depth, written)
      modifies this`out, this`depth
      ensures Valid() && out == old(out) + [s] && depth == NextDepth(s, old(depth))
    {
      RenderAppend(indent, out, s, 0, false);
      out, depth := out + [s], NextDepth(s, depth);
    }
  }

  /** Encode: the text of a whole table, or an error where the encoder refuses. */
  method EncodeTable(t: Tbl, tab: string) returns (ok: bool, text: string)
    ensures ok <==> Encodable(t)
    ensures ok ==> Encode(t).Lines? && Named(Encode(t).ss) && text == Render(tab, Encode(t).ss, 0, false)
  {
    EncodesExactly([], t);
    RootEntry(t);
    var enc := new Encoder(tab);
    ok := enc.ETable([], t);
    text := enc.w;
    assert ok ==> enc.out == Encode(t).ss;
  }

  lemma RootEntry(t: Tbl)
    ensures Entry([], false, t) == Encode(t)
    ensures Encode(t).Lines? ==> [] + Encode(t).ss == Encode(t).ss
  {
    assert Title([], false) == Lines([]);
    var e := Encode(t);
    if e.Lines? {
      assert [] + e.ss == e.ss;
    }
  }

  /** The text `w` spells the statements `ss`, the last header among them having `depth` names. */
  ghost predicate Spelled(indent: string, w: string, written: bool, ss: seq<Stmt>, depth: nat) {
    Named(ss) && w == Render(indent, ss, 0, false) && written == (ss != []) && depth == DepthAfter(ss, 0)
  }

  lemma WroteBoth(before: seq<Stmt>, a: Encoded, b: Encoded)
    ensures a.Lines? && b.Lines? ==> before + a.ss + b.ss == before + Then(a, b).ss
  {
  }

  /** Where `rest` is still to be written behind `out`, for `all` to follow `before`. */
  ghost predicate Remains(out: seq<Stmt>, rest: Encoded, before: seq<Stmt>, all: Encoded) {
    all.Lines? == rest.Lines? && (all.Lines? ==> out + rest.ss == before + all.ss)
  }

  lemma WroteNext(out: seq<Stmt>, e: Encoded, rest: Encoded, before: seq<Stmt>, all: Encoded)
    requires Remains(out, Then(e, rest), before, all)
    ensures e.Lines? ==> Remains(out + e.ss, rest, before, all) == true
    ensures e.EncodeError? ==> all.EncodeError?
  {
    WroteBoth(out, e, rest);
  }

  lemma TablesNext(key: Key, ts: seq<Tbl>, i: nat)
    requires key != [] && i < |ts|
    ensures EncodeTables(key, ts[i..]) == Then(Entry(key, true, ts[i]), EncodeTables(key, ts[i + 1..]))
  {
    assert ts[i..][0] == ts[i] && ts[i..][1..] == ts[i + 1..];
  }

  lemma KeysNext(key: Key, t: Tbl, ks: seq<string>, i: nat)
    requires i < |ks| && forall k | k in ks :: k in t.m
    ensures EncodeKeys(key, t, ks[i..]) ==
      Then(EncodeNode(key + [ks[i]], t.m[ks[i]]), EncodeKeys(key, t, ks[i + 1..]))
  {
    assert ks[i..][0] == ks[i] && ks[i..][1..] == ks[i + 1..];
  }

  // ----- concatenations -----

  lemma ElementWritten(before: string, after: string, v: Val, rest: seq<Val>)
    requires rest != [] && rest[0] == v
    requires after == if |rest| > 1 then before + A.EncodeVal(v) + ", " else before + A.EncodeVal(v)
    ensures after + A.EncodeElems(rest[1..]) == before + A.EncodeElems(rest)
  {
    if |rest| > 1 {
      var a, b := A.EncodeVal(v), A.EncodeElems(rest[1..]);
      assert before + a + ", " + b == before + (a + ", " + b);
    }
  }

  lemma ArrayWritten(before: string, after: string, vs: seq<Val>)
    requires after == before + "[" + A.EncodeElems(vs) + "]"
    ensures after == before + A.EncodeVal(Arr(vs))
  {
    var b := A.EncodeElems(vs);
    assert before + "[" + b + "]" == before + ("[" + b + "]");
  }

  lemma LineText(margin: string, name: string, value: string)
    ensures forall before: string ::
      before + (margin + name + " = ") + value + "\n" == before + (margin + (name + " = " + value) + "\n")
  {
  }

  lemma HeaderLine(before: string, gap: string, indent: string, key: Key, many: bool, depth: nat, written: bool)
    requires key != [] && gap == if written && (many || |key| == 1) then "\n" else ""
    ensures before + gap + (Repeat(indent, |key| - 1) + Opening(many) + Joined(QuotedAll(key)) + Closing(many)) + "\n" ==
      before + LineOf(indent, Header(key, many), depth, written)
  {
    HeaderParts(before, gap, Repeat(indent, |key| - 1), Opening(many), Joined(QuotedAll(key)), Closing(many), "\n");
  }

  lemma HeaderParts(before: string, gap: string, margin: string, opening: string, names: string, closing: string, end: string)
    ensures before + gap + (margin + opening + names + closing) + end ==
      before + (gap + margin + (opening + names + closing) + end)
  {
  }
}
