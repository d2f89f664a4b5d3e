/** The second half of typeFields: of the candidates with one name at most one survives. */
module TypeFieldRules {
  import opened Ordering
  import opened TypeFields

  // ----- sort.Sort -----

  predicate ByName(f: Field, g: Field) {
    if f.name != g.name then Before(f.name, g.name)
    else if |f.index| != |g.index| then |f.index| < |g.index|
    else if f.tag != g.tag then f.tag
    else LexBefore(f.index, g.index)
  }

  predicate ByIndex(f: Field, g: Field) { LexBefore(f.index, g.index) }

  predicate Sorted(less: (Field, Field) -> bool, s: seq<Field>) {
    forall i, j | 0 <= i < j < |s| :: !less(s[j], s[i])
  }

  function Insert(less: (Field, Field) -> bool, s: seq<Field>, f: Field): seq<Field> {
    if s == [] || !less(s[0], f) then [f] + s else [s[0]] + Insert(less, s[1..], f)
  }

  function Sort(less: (Field, Field) -> bool, s: seq<Field>): seq<Field> {
    if s == [] then [] else Insert(less, Sort(less, s[1..]), s[0])
  }

  /** What sort.Sort asks of an order. */
  ghost predicate IsOrder(less: (Field, Field) -> bool) {
    && (forall f, g :: !(less(f, g) && less(g, f)))
    && forall f, g, h :: !less(g, f) && !less(h, g) ==> !less(h, f)
  }

  lemma ByNameOrder()
    ensures IsOrder(ByName)
  {
    forall f, g ensures !(ByName(f, g) && ByName(g, f)) {
      BeforeOrder(f.name, g.name, "");
      LexOrder(f.index, g.index, []);
    }
    forall f, g, h | !ByName(g, f) && !ByName(h, g) ensures !ByName(h, f) {
      BeforeOrder(f.name, g.name, h.name);
      BeforeOrder(h.name, g.name, f.name);
      BeforeOrder(h.name, f.name, g.name);
      LexOrder(h.index, f.index, g.index);
      LexOrder(g.index, f.index, h.index);
      LexOrder(h.index, g.index, f.index);
      LexOrder(f.index, h.index, g.index);
      LexOrder(f.index, g.index, h.index);
    }
  }

  lemma ByIndexOrder()
    ensures IsOrder(ByIndex)
  {
    forall f, g ensures !(ByIndex(f, g) && ByIndex(g, f)) { LexOrder(f.index, g.index, []); }
    forall f, g, h | !ByIndex(g, f) && !ByIndex(h, g) ensures !ByIndex(h, f) {
      LexOrder(h.index, f.index, g.index);
      LexOrder(f.index, g.index, h.index);
      LexOrder(g.index, h.index, f.index);
      LexOrder(g.index, f.index, h.index);
    }
  }

  lemma {:induction false} InsertSorts(less: (Field, Field) -> bool, s: seq<Field>, f: Field)
    requires IsOrder(less) && Sorted(less, s)
    ensures Sorted(less, Insert(less, s, f)) && multiset(Insert(less, s, f)) == multiset(s) + multiset{f}
    ensures Insert(less, s, f)[0] == f || (s != [] && Insert(less, s, f)[0] == s[0])
  {
    if s == [] {
    } else if !less(s[0], f) {
      forall j | 0 <= j < |s| ensures !less(s[j], f) {
        if j > 0 { assert !less(s[j], s[0]); }
      }
      assert forall j | 1 <= j < |[f] + s| :: ([f] + s)[j] == s[j - 1];
    } else {
      var r := Insert(less, s[1..], f);
      InsertSorts(less, s[1..], f);
      assert s == [s[0]] + s[1..];
      assert !less(r[0], s[0]) by { if r[0] == f { assert less(s[0], f); } else { assert r[0] == s[1]; } }
      forall j | 0 <= j < |r| ensures !less(r[j], s[0]) {
        if j > 0 { assert !less(r[j], r[0]); }
      }
      assert forall j | 1 <= j < |[s[0]] + r| :: ([s[0]] + r)[j] == r[j - 1];
    }
  }

  lemma {:induction false} SortSorts(less: (Field, Field) -> bool, s: seq<Field>)
    requires IsOrder(less)
    ensures Sorted(less, Sort(less, s)) && multiset(Sort(less, s)) == multiset(s)
  {
    if s != [] {
      SortSorts(less, s[1..]);
      InsertSorts(less, Sort(less, s[1..]), s[0]);
      assert s == [s[0]] + s[1..];
    }
  }

  // ----- dominance -----

  /** `f` is less deep than `g`, or as deep and tagged while `g` is not. */
  predicate Beats(f: Field, g: Field) {
    |f.index| < |g.index| || (|f.index| == |g.index| && f.tag && !g.tag)
  }

  predicate Wins(g: seq<Field>, k: nat)
    requires k < |g|
  { forall j | 0 <= j < |g| && j != k :: Beats(g[k], g[j]) }

  lemma OneWinner(g: seq<Field>)
    ensures forall j, k | 0 <= j < |g| && 0 <= k < |g| && Wins(g, j) && Wins(g, k) :: j == k
  {
    forall j, k | 0 <= j < |g| && 0 <= k < |g| && Wins(g, j) && Wins(g, k) ensures j == k {
      assert j != k ==> Beats(g[k], g[j]) && Beats(g[j], g[k]);
    }
  }

  /** The winner among candidates of one name, if there is one. */
  function Winner(g: seq<Field>): seq<Field> {
    OneWinner(g);
    if exists k | 0 <= k < |g| :: Wins(g, k) then var k :| 0 <= k < |g| && Wins(g, k); [g[k]] else []
  }

  predicate DepthAscends(g: seq<Field>) { forall i, j | 0 <= i < j < |g| :: |g[i].index| <= |g[j].index| }

  /** dominantField */
  method DominantField(fields: seq<Field>) returns (dominant: seq<Field>)
    requires fields != [] && DepthAscends(fields)
    ensures dominant == Winner(fields)
  {
    OneWinner(fields);
    var length := |fields[0].index|;
    var tagged := -1;
    var i := 0;
    while i < |fields| && |fields[i].index| <= length
      invariant 0 <= i <= |fields|
      invariant forall j | 0 <= j < i :: |fields[j].index| == length
      invariant if tagged < 0 then forall j | 0 <= j < i :: !fields[j].tag
        else tagged < i && fields[tagged].tag && forall j | 0 <= j < i && j != tagged :: !fields[j].tag
    {
      if fields[i].tag {
        if tagged >= 0 {
          forall k | 0 <= k < |fields| ensures !Wins(fields, k) {
            assert !Beats(fields[k], fields[if k == i then tagged else i]);
          }
          return [];
        }
        tagged := i;
      }
      i := i + 1;
    }
    assert forall j | i <= j < |fields| :: |fields[j].index| > length;
    if tagged >= 0 {
      assert Wins(fields, tagged);
      return [fields[tagged]];
    }
    if i > 1 {
      forall k | 0 <= k < |fields| ensures !Wins(fields, k) {
        assert !Beats(fields[k], fields[if k == 0 then 1 else 0]);
      }
      return [];
    }
    assert Wins(fields, 0);
    dominant := [fields[0]];
  }

  // ----- one field for each name -----

  function GroupLength(fs: seq<Field>, n: nat): (r: nat)
    requires 0 < n <= |fs|
    ensures n <= r <= |fs|
    decreases |fs| - n
  {
    if n < |fs| && fs[n].name == fs[0].name then GroupLength(fs, n + 1) else n
  }

  /** The loop over groups of candidates with the same name. */
  function Compacted(fs: seq<Field>): seq<Field> {
    if fs == [] then []
    else var n := GroupLength(fs, 1); Winner(fs[..n]) + Compacted(fs[n..])
  }

  /** Its candidate `f` survives: it is there once and beats all others of its name. */
  predicate Survivor(m: multiset<Field>, f: Field) {
    m[f] == 1 && forall g | g in m && g != f && g.name == f.name :: Beats(f, g)
  }

  lemma {:induction false} GroupNames(fs: seq<Field>, n: nat)
    requires 0 < n <= |fs| && forall i | 0 <= i < n :: fs[i].name == fs[0].name
    ensures var r := GroupLength(fs, n);
      && (forall i | 0 <= i < r :: fs[i].name == fs[0].name)
      && (r < |fs| ==> fs[r].name != fs[0].name)
    decreases |fs| - n
  {
    if n < |fs| && fs[n].name == fs[0].name {
      GroupNames(fs, n + 1);
    }
  }

  /** In a list sorted by name, a group holds every candidate of its name, in ascending depth. */
  lemma GroupSplits(fs: seq<Field>)
    requires Sorted(ByName, fs) && fs != []
    ensures var n := GroupLength(fs, 1);
      && (forall i | 0 <= i < n :: fs[i].name == fs[0].name)
      && (forall i | n <= i < |fs| :: Before(fs[0].name, fs[i].name))
      && DepthAscends(fs[..n]) && Sorted(ByName, fs[n..])
  {
    var n := GroupLength(fs, 1);
    GroupNames(fs, 1);
    forall i | n <= i < |fs| ensures Before(fs[0].name, fs[i].name) {
      assert !ByName(fs[n], fs[0]) && (i > n ==> !ByName(fs[i], fs[n]));
      BeforeOrder(fs[0].name, fs[n].name, fs[i].name);
      BeforeOrder(fs[n].name, fs[i].name, "");
    }
    forall i, j | 0 <= i < j < n ensures |fs[i].index| <= |fs[j].index| {
      assert !ByName(fs[j], fs[i]);
    }
  }

  lemma CountOne(g: seq<Field>, k: nat)
    requires k < |g|
    ensures multiset(g)[g[k]] == 1 <==> forall j | 0 <= j < |g| && j != k :: g[j] != g[k]
  {
    var a, b := g[..k], g[k + 1..];
    assert g == a + [g[k]] + b;
    assert multiset(g) == multiset(a) + multiset{g[k]} + multiset(b);
    assert multiset(g)[g[k]] == 1 <==> g[k] !in a && g[k] !in b;
    if multiset(g)[g[k]] == 1 {
      forall j | 0 <= j < |g| && j != k ensures g[j] != g[k] {
        if j < k { assert a[j] == g[j]; } else { assert b[j - k - 1] == g[j]; }
      }
    }
  }

  lemma WinnerSurvives(g: seq<Field>, f: Field)
    requires forall i, j | 0 <= i < |g| && 0 <= j < |g| :: g[i].name == g[j].name
    ensures f in Winner(g) <==> Survivor(multiset(g), f)
  {
    OneWinner(g);
    if f in Winner(g) {
      var k :| 0 <= k < |g| && Wins(g, k);
      assert f == g[k];
      CountOne(g, k);
    }
    if Survivor(multiset(g), f) {
      assert f in g;
      var k :| 0 <= k < |g| && g[k] == f;
      CountOne(g, k);
      assert Wins(g, k);
    }
  }

  lemma {:induction false} CompactedFrom(fs: seq<Field>)
    ensures forall f | f in Compacted(fs) :: f in fs
  {
    if fs != [] {
      var n := GroupLength(fs, 1);
      CompactedFrom(fs[n..]);
      assert forall f | f in Winner(fs[..n]) :: f in fs[..n];
    }
  }

  /** Of the candidates with one name, the other names do not matter. */
  lemma SurvivorIn(g: seq<Field>, rest: seq<Field>, f: Field)
    requires forall h | h in rest :: h.name != f.name
    ensures Survivor(multiset(g + rest), f) <==> Survivor(multiset(g), f)
  {
    assert f !in rest && multiset(g + rest) == multiset(g) + multiset(rest);
    assert forall h | h in multiset(g + rest) && h.name == f.name :: h in multiset(g);
    assert forall h | h in multiset(g) :: h in multiset(g + rest);
  }

  /** A candidate is kept exactly when it survives. */
  lemma {:induction false} CompactedExactly(fs: seq<Field>, f: Field)
    requires Sorted(ByName, fs)
    ensures f in Compacted(fs) <==> Survivor(multiset(fs), f)
    decreases |fs|
  {
    if fs != [] {
      var n := GroupLength(fs, 1);
      var g, rest := fs[..n], fs[n..];
      GroupSplits(fs);
      assert fs == g + rest && multiset(g + rest) == multiset(rest + g);
      CompactedFrom(rest);
      BeforeOrder(fs[0].name, fs[0].name, "");
      if f.name == fs[0].name {
        assert forall h | h in rest :: h.name != f.name;
        SurvivorIn(g, rest, f);
        WinnerSurvives(g, f);
      } else {
        assert forall h | h in g :: h.name != f.name;
        SurvivorIn(rest, g, f);
        CompactedExactly(rest, f);
        assert forall h | h in Winner(g) :: h in g;
      }
    }
  }

  predicate NamesAscend(fs: seq<Field>) { forall i, j | 0 <= i < j < |fs| :: Before(fs[i].name, fs[j].name) }

  lemma {:induction false} CompactedNames(fs: seq<Field>)
    requires Sorted(ByName, fs)
    ensures NamesAscend(Compacted(fs))
    decreases |fs|
  {
    if fs != [] {
      var n := GroupLength(fs, 1);
      GroupSplits(fs);
      CompactedNames(fs[n..]);
      CompactedFrom(fs[n..]);
      var w, rest := Winner(fs[..n]), Compacted(fs[n..]);
      assert |w| <= 1 && forall h | h in w :: h in fs[..n];
      forall i, j | 0 <= i < |w| && 0 <= j < |rest| ensures Before(w[i].name, rest[j].name) {
        assert w[i] in fs[..n] && rest[j] in fs[n..];
      }
    }
  }

  // ----- typeFields -----

  function TypeFieldsOf(fam: Family, t: nat): seq<Field> {
    Sort(ByIndex, Compacted(Sort(ByName, Candidates(fam, t))))
  }

  lemma NamesDiffer(c: seq<Field>, r: seq<Field>)
    requires NamesAscend(c) && multiset(r) == multiset(c)
    ensures forall i, j | 0 <= i < j < |r| :: r[i].name != r[j].name
  {
    forall i, j | 0 <= i < j < |r| ensures r[i].name != r[j].name {
      assert r[i] in multiset(c) && r[j] in multiset(c);
      var x :| 0 <= x < |c| && c[x] == r[i];
      var y :| 0 <= y < |c| && c[y] == r[j];
      forall z | 0 <= z < |c| && z != x ensures c[z].name != c[x].name {
        BeforeOrder(c[z].name, c[x].name, "");
      }
      CountOne(c, x);
      CountOne(r, i);
    }
  }

  /** For any family of struct types, recursive or not: a name survives exactly when, among its
      candidates of least depth, exactly one is tagged, or none is tagged and there is just
      one; names are distinct, indexes strictly ascend, and each index leads to its field. */
  lemma TypeFieldsExactly(fam: Family, t: nat)
    ensures var r := TypeFieldsOf(fam, t); var m := multiset(Candidates(fam, t));
      && (forall f :: f in r <==> Survivor(m, f))
      && (forall i, j | 0 <= i < j < |r| :: r[i].name != r[j].name && ByIndex(r[i], r[j]))
      && (forall f | f in r :: Denotes(fam, t, f))
  {
    var c := Candidates(fam, t);
    var s := Sort(ByName, c);
    var k := Compacted(s);
    var r := Sort(ByIndex, k);
    ByNameOrder();
    ByIndexOrder();
    SortSorts(ByName, c);
    SortSorts(ByIndex, k);
    CompactedNames(s);
    NamesDiffer(k, r);
    CandidatesDenote(fam, t);
    forall f ensures f in r <==> Survivor(multiset(c), f) {
      CompactedExactly(s, f);
      assert f in r <==> f in multiset(k);
    }
    forall f | f in r ensures f in c { assert f in multiset(c); }
    forall i, j | 0 <= i < j < |r| ensures ByIndex(r[i], r[j]) {
      assert r[i] in c && r[j] in c && !ByIndex(r[j], r[i]);
      LexOrder(r[i].index, r[j].index, []);
    }
  }

  /** The next group of candidates, starting at `i`, in an array. */
  method Advance(fields: array<Field>, i: nat, ghost now: seq<Field>) returns (advance: nat)
    requires now == fields[..] && i < |now|
    ensures 0 < advance <= |now| - i && advance == GroupLength(now[i..], 1)
  {
    advance := 1;
    while i + advance < fields.Length && fields[i + advance].name == fields[i].name
      invariant 0 < advance <= fields.Length - i
      invariant GroupLength(now[i..], 1) == GroupLength(now[i..], advance)
    {
      advance := advance + 1;
    }
  }

  /** The winner of the group is moved to the end of what is kept. */
  method KeepWinner(fields: array<Field>, kept: nat, i: nat, advance: nat, ghost now: seq<Field>)
    returns (out: nat, ghost w: seq<Field>)
    requires now == fields[..] && kept <= i && 0 < advance <= |now| - i && DepthAscends(now[i..i + advance])
    modifies fields
    ensures w == Winner(now[i..i + advance]) && out == kept + |w| <= i + advance
    ensures fields[..][..out] == now[..kept] + w
    ensures fields[..][i + advance..] == now[i + advance..]
  {
    out := kept;
    var group := fields[i..i + advance];
    assert group == now[i..i + advance];
    OneWinner(group);
    var dominant: seq<Field>;
    if advance == 1 {
      dominant := [fields[i]];
      assert Wins(group, 0) && group[0] == fields[i];
    } else {
      dominant := DominantField(group);
    }
    w := dominant;
    assert w == Winner(group);
    if |dominant| > 0 {
      fields[out] := dominant[0];
      out := out + 1;
    }
  }

  /** Where the loop stands: `was` are the candidates, `now` is the array; what the groups before
      `i` kept fills the first `out` places, and the rest is untouched. */
  ghost predicate Compacting(was: seq<Field>, now: seq<Field>, kept: seq<Field>, i: nat, out: nat) {
    && out <= i <= |was| == |now| && now[..out] == kept && now[i..] == was[i..]
    && Sorted(ByName, was[i..]) && kept + Compacted(was[i..]) == Compacted(was)
  }

  lemma CompactingStarts(was: seq<Field>)
    requires Sorted(ByName, was)
    ensures Compacting(was, was, [], 0, 0) == true
  {
    assert was[0..] == was && was[..0] == [] && [] + Compacted(was) == Compacted(was);
  }

  lemma CompactingEnds(was: seq<Field>, now: seq<Field>, kept: seq<Field>, out: nat)
    requires Compacting(was, now, kept, |was|, out)
    ensures out <= |now| && now[..out] == Compacted(was)
  {
    assert was[|was|..] == [] && kept + [] == kept;
  }

  /** The group at `i` ends at `next`. */
  lemma GroupAt(was: seq<Field>, now: seq<Field>, i: nat, next: int)
    requires i < |was| == |now| && now[i..] == was[i..] && Sorted(ByName, was[i..])
    requires next == i + GroupLength(now[i..], 1)
    ensures i < next <= |now| && DepthAscends(now[i..next]) == true && Sorted(ByName, was[next..]) == true
    ensures Compacted(was[i..]) == Winner(now[i..next]) + Compacted(was[next..])
  {
    GroupSplits(was[i..]);
    Slices(was, i, next - i, next);
    Slices(now, i, next - i, next);
  }

  lemma Slices(s: seq<Field>, i: nat, n: nat, j: nat)
    requires i + n == j <= |s|
    ensures s[i..][..n] == s[i..j] && s[i..][n..] == s[j..]
  {
  }

  lemma KeptSoFar(kept: seq<Field>, w: seq<Field>, rest: seq<Field>, more: seq<Field>, all: seq<Field>)
    requires kept + rest == all && rest == w + more
    ensures kept + w + more == all
  {
  }

  /** From `now` to `later` one round handles the group at `i`, which ends at `next`: its winner
      goes behind what is kept, and what is behind it is left alone. */
  ghost predicate GroupKept(now: seq<Field>, i: nat, out: nat, later: seq<Field>, next: nat, filled: nat, w: seq<Field>) {
    && i < |now| == |later| && next == i + GroupLength(now[i..], 1) <= |now|
    && w == Winner(now[i..next]) && filled == out + |w| <= next
    && later[..filled] == now[..out] + w && later[next..] == now[next..]
  }

  lemma CompactingOn(was: seq<Field>, now: seq<Field>, kept: seq<Field>, i: nat, out: nat,
                     later: seq<Field>, next: nat, filled: nat, w: seq<Field>)
    requires Compacting(was, now, kept, i, out) && out <= |now| && GroupKept(now, i, out, later, next, filled, w)
    ensures Compacting(was, later, kept + w, next, filled) == true
  {
    GroupAt(was, now, i, next);
    SameBehind(was, now, later, i, next);
    KeptSoFar(kept, w, Compacted(was[i..]), Compacted(was[next..]), Compacted(was));
  }

  lemma SameBehind(was: seq<Field>, now: seq<Field>, later: seq<Field>, i: nat, next: nat)
    requires i <= next <= |was| == |now| == |later| && now[i..] == was[i..] && later[next..] == now[next..]
    ensures later[next..] == was[next..]
  {
    Slices(was, i, next - i, next);
    Slices(now, i, next - i, next);
  }

  /** The group at `i` is in order of depth. */
  predicate Ready(now: seq<Field>, i: nat)
    requires i < |now|
  { var n := GroupLength(now[i..], 1); i + n <= |now| && DepthAscends(now[i..i + n]) }

  lemma GroupReady(was: seq<Field>, now: seq<Field>, kept: seq<Field>, i: nat, out: nat)
    requires Compacting(was, now, kept, i, out) && i < |now|
    ensures Ready(now, i) == true
  {
    GroupOrdered(now, i);
  }

  lemma GroupOrdered(now: seq<Field>, i: nat)
    requires i < |now| && Sorted(ByName, now[i..])
    ensures Ready(now, i) == true
  {
    var n := GroupLength(now[i..], 1);
    GroupSplits(now[i..]);
    Slices(now, i, n, i + n);
  }

  /** One round of the loop. */
  method CompactGroup(fields: array<Field>, i: nat, out: nat, ghost now: seq<Field>)
    returns (next: nat, filled: nat, ghost w: seq<Field>)
    requires now == fields[..] && out <= i < |now| && Ready(now, i)
    modifies fields
    ensures i < next <= |now| && GroupKept(now, i, out, fields[..], next, filled, w) == true
  {
    var advance := Advance(fields, i, now);
    filled, w := KeepWinner(fields, out, i, advance, now);
    next := i + advance;
  }

  /** Compacts the candidates in place: what survives is moved to the front. */
  method CompactInPlace(fields: array<Field>) returns (out: nat)
    requires Sorted(ByName, fields[..])
    modifies fields
    ensures out <= fields.Length && fields[..out] == Compacted(old(fields[..]))
  {
    ghost var was, kept := fields[..], [];
    CompactingStarts(was);
    out := 0;
    var i := 0;
    while i < fields.Length
      invariant out <= i <= fields.Length && Compacting(was, fields[..], kept, i, out) == true
    {
      ghost var now, w := fields[..], [];
      GroupReady(was, now, kept, i, out);
      ghost var j, o := i, out;
      i, out, w := CompactGroup(fields, i, out, now);
      CompactingOn(was, now, kept, j, o, fields[..], i, out, w);
      kept := kept + w;
    }
    CompactingEnds(was, fields[..], kept, out);
    assert fields[..][..out] == fields[..out];
  }

  /** typeFields */
  method FieldsForType(fam: Family, t: nat) returns (r: seq<Field>)
    ensures r == TypeFieldsOf(fam, t)
  {
    var s := Begin(t);
    while s.next != []
      invariant Bfs(fam, s) == Candidates(fam, t)
      decreases |Unvisited(fam, s)|, |s.next|
    {
      var current, count := s.next, s.nextCount;
      RoundVisits(fam, s);
      ghost var round := Round(fam, s);
      s := s.(next := [], nextCount := map[]);
      var k := 0;
      while k < |current|
        invariant 0 <= k <= |current|
        invariant ScanLevel(fam, s, current, k, count) == round
      {
        var f := current[k];
        if f.id !in s.visited {
          ghost var scanned := ScanEntry(fam, s, f, count);
          s := s.(visited := s.visited + {f.id});
          var sfs := FieldsOf(fam, f.id);
          var i := 0;
          while i < |sfs|
            invariant 0 <= i <= |sfs|
            invariant ScanFields(s, f, sfs, i, CountOf(count, f.id) > 1) == scanned
          {
            s := ScanField(s, f, sfs[i], i, CountOf(count, f.id) > 1);
            i := i + 1;
          }
        }
        k := k + 1;
      }
    }
    var sorted := Sort(ByName, s.fields);
    ByNameOrder();
    SortSorts(ByName, s.fields);
    var fields := new Field[|sorted|](i requires 0 <= i < |sorted| => sorted[i]);
    assert fields[..] == sorted;
    var out := CompactInPlace(fields);
    r := Sort(ByIndex, fields[..out]);
  }
}
