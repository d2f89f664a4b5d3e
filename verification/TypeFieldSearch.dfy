/** What the breadth-first search records, said without the search: every known field of every struct
    that embedding reaches, once, under an index of least length, or twice if the struct is
    embedded more than once where it is first reached. */
module TypeFieldSearch {
  import opened TypeFields

  // ----- the structs that embedding reaches -----

  predicate Leads(fam: Family, t: nat, p: seq<nat>, id: nat) { Reached(fam, t, p) == [id] }

  /** The struct is first reached behind `d` embedded structs. */
  ghost predicate AtFirst(fam: Family, t: nat, id: nat, d: nat) {
    (exists p :: |p| == d && Leads(fam, t, p, id)) && forall p | Leads(fam, t, p, id) :: d <= |p|
  }

  predicate Embeds(fam: Family, q: nat, i: nat, id: nat) {
    i < |FieldsOf(fam, q)| && IsPassed(FieldsOf(fam, q)[i]) && FieldsOf(fam, q)[i].target.id == id
  }

  /** Two fields of structs that are first reached behind `d` others embed the struct. */
  ghost predicate Twice(fam: Family, t: nat, id: nat, d: nat) {
    exists q, i, r, j :: AtFirst(fam, t, q, d) && AtFirst(fam, t, r, d) && Embeds(fam, q, i, id) && Embeds(fam, r, j, id)
      && (q != r || i != j)
  }

  /** It is embedded more than once where it is first reached. */
  ghost predicate Shared(fam: Family, t: nat, id: nat, d: nat) { d > 0 && Twice(fam, t, id, d - 1) }

  lemma LeadsOn(fam: Family, t: nat, p: seq<nat>, q: nat, i: nat, id: nat)
    requires Leads(fam, t, p, q) && Embeds(fam, q, i, id)
    ensures Leads(fam, t, p + [i], id)
  {
    assert (p + [i])[..|p|] == p;
  }

  lemma LastStep(fam: Family, t: nat, p: seq<nat>, id: nat) returns (q: nat)
    requires p != [] && Leads(fam, t, p, id)
    ensures Leads(fam, t, p[..|p| - 1], q) && Embeds(fam, q, p[|p| - 1], id)
  {
    q := Reached(fam, t, p[..|p| - 1])[0];
  }

  // ----- the fields of one struct -----

  /** What scanning a struct adds to the fields. */
  function Added(e: Entry, sfs: seq<StructField>, i: nat, twice: bool): seq<Field>
    decreases |sfs| - i
  {
    if i >= |sfs| then []
    else
      var f := MakeField(sfs[i], e.index + [i]);
      (if !IsKnown(sfs[i]) then [] else if twice then [f, f] else [f]) + Added(e, sfs, i + 1, twice)
  }

  lemma {:induction false} FieldsAdded(s: Search, e: Entry, sfs: seq<StructField>, i: nat, twice: bool)
    ensures ScanFields(s, e, sfs, i, twice).fields == s.fields + Added(e, sfs, i, twice)
    decreases |sfs| - i
  {
    if i < |sfs| {
      KindMeans(sfs[i], e.index + [i]);
      FieldsAdded(ScanField(s, e, sfs[i], i, twice), e, sfs, i + 1, twice);
    }
  }

  lemma {:induction false} AddedFrom(e: Entry, sfs: seq<StructField>, i: nat, twice: bool, f: Field)
    requires f in Added(e, sfs, i, twice)
    ensures f.index != [] && f.index[..|f.index| - 1] == e.index && i <= f.index[|f.index| - 1] < |sfs|
    ensures var sf := sfs[f.index[|f.index| - 1]]; IsKnown(sf) && f == MakeField(sf, f.index)
    decreases |sfs| - i
  {
    if f in Added(e, sfs, i + 1, twice) {
      AddedFrom(e, sfs, i + 1, twice, f);
    }
  }

  lemma {:induction false} AddedCount(e: Entry, sfs: seq<StructField>, i: nat, twice: bool, j: nat)
    requires j < |sfs|
    ensures multiset(Added(e, sfs, i, twice))[MakeField(sfs[j], e.index + [j])] ==
      if i <= j && IsKnown(sfs[j]) then if twice then 2 else 1 else 0
    decreases |sfs| - i
  {
    if i < |sfs| {
      var f, g := MakeField(sfs[i], e.index + [i]), MakeField(sfs[j], e.index + [j]);
      AddedCount(e, sfs, i + 1, twice, j);
      assert i != j ==> f.index[|e.index|] != g.index[|e.index|];
    }
  }

  // ----- what it embeds -----

  /** A field of a struct, by its place. */
  type Place = (nat, nat)

  function Embedding(fam: Family, ps: set<Place>, id: nat): set<Place> {
    set x | x in ps && Embeds(fam, x.0, x.1, id)
  }

  /** The counts are those of the places scanned, and what has a count is queued, once. */
  ghost predicate Counts(fam: Family, s: Search, ps: set<Place>) {
    && (forall id: nat :: CountOf(s.nextCount, id) == |Embedding(fam, ps, id)|)
    && (forall id: nat :: Queued(s, id) <==> CountOf(s.nextCount, id) > 0)
  }

  predicate Queued(s: Search, id: nat) { exists e :: e in s.next && e.id == id }

  /** Where the queued structs are. */
  predicate Queue(fam: Family, t: nat, s: Search, d: nat) {
    forall e | e in s.next :: Leads(fam, t, e.index, e.id) && |e.index| == d
  }

  lemma EmbeddingMore(fam: Family, ps: set<Place>, x: Place, id: nat)
    requires x !in ps
    ensures |Embedding(fam, ps + {x}, id)| == |Embedding(fam, ps, id)| + if Embeds(fam, x.0, x.1, id) then 1 else 0
  {
    if Embeds(fam, x.0, x.1, id) {
      assert Embedding(fam, ps + {x}, id) == Embedding(fam, ps, id) + {x};
    } else {
      assert Embedding(fam, ps + {x}, id) == Embedding(fam, ps, id);
    }
  }

  lemma QueuedMore(s: Search, r: Search, e: Entry)
    requires r.next == s.next + [e]
    ensures forall id: nat :: Queued(r, id) <==> Queued(s, id) || id == e.id
  {
    forall id: nat ensures Queued(r, id) <==> Queued(s, id) || id == e.id {
      assert e in r.next;
      if Queued(s, id) {
        var x :| x in s.next && x.id == id;
        assert x in r.next;
      }
    }
  }

  lemma FieldCounts(fam: Family, t: nat, s: Search, ps: set<Place>, e: Entry, i: nat, twice: bool)
    requires Counts(fam, s, ps) && Queue(fam, t, s, |e.index| + 1) && Leads(fam, t, e.index, e.id)
    requires i < |FieldsOf(fam, e.id)| && (e.id, i) !in ps
    ensures var r := ScanField(s, e, FieldsOf(fam, e.id)[i], i, twice);
      Counts(fam, r, ps + {(e.id, i)}) && Queue(fam, t, r, |e.index| + 1) && r.visited == s.visited
  {
    var sf := FieldsOf(fam, e.id)[i];
    var r := ScanField(s, e, sf, i, twice);
    KindMeans(sf, e.index + [i]);
    forall id: nat ensures CountOf(r.nextCount, id) == |Embedding(fam, ps + {(e.id, i)}, id)| {
      EmbeddingMore(fam, ps, (e.id, i), id);
    }
    if IsPassed(sf) {
      LeadsOn(fam, t, e.index, e.id, i, sf.target.id);
      if CountOf(s.nextCount, sf.target.id) == 0 {
        QueuedMore(s, r, Entry(sf.target.id, e.index + [i]));
      } else {
        assert r.next == s.next && forall id: nat :: Queued(r, id) <==> Queued(s, id);
      }
    }
  }

  function Places(fam: Family, id: nat, i: nat): set<Place> {
    set k | i <= k < |FieldsOf(fam, id)| :: (id, k)
  }

  lemma {:induction false} FieldsCount(fam: Family, t: nat, s: Search, ps: set<Place>, e: Entry, i: nat, twice: bool)
    requires Counts(fam, s, ps) && Queue(fam, t, s, |e.index| + 1) && Leads(fam, t, e.index, e.id)
    requires forall k | k >= i :: (e.id, k) !in ps
    ensures var r := ScanFields(s, e, FieldsOf(fam, e.id), i, twice);
      Counts(fam, r, ps + Places(fam, e.id, i)) && Queue(fam, t, r, |e.index| + 1) && r.visited == s.visited
    decreases |FieldsOf(fam, e.id)| - i
  {
    if i < |FieldsOf(fam, e.id)| {
      FieldCounts(fam, t, s, ps, e, i, twice);
      FieldsCount(fam, t, ScanField(s, e, FieldsOf(fam, e.id)[i], i, twice), ps + {(e.id, i)}, e, i + 1, twice);
      assert ps + {(e.id, i)} + Places(fam, e.id, i + 1) == ps + Places(fam, e.id, i);
    } else {
      assert ps + Places(fam, e.id, i) == ps;
    }
  }

  // ----- what is recorded of the structs visited -----

  /** A field of this struct. */
  predicate OwnedBy(fam: Family, t: nat, f: Field, id: nat) {
    f.index != [] && Leads(fam, t, f.index[..|f.index| - 1], id)
  }

  /** The known fields of the struct are recorded behind the index `q`, which is of least length, and
      only there: twice if the struct is embedded more than once, and once otherwise. */
  ghost predicate Home(fam: Family, t: nat, fields: seq<Field>, id: nat, q: seq<nat>) {
    && Leads(fam, t, q, id) && AtFirst(fam, t, id, |q|)
    && (forall f | f in fields && OwnedBy(fam, t, f, id) :: f.index[..|f.index| - 1] == q)
    && forall j | 0 <= j < |FieldsOf(fam, id)| ::
      multiset(fields)[MakeField(FieldsOf(fam, id)[j], q + [j])] ==
        if !IsKnown(FieldsOf(fam, id)[j]) then 0 else if Shared(fam, t, id, |q|) then 2 else 1
  }

  ghost predicate Recorded(fam: Family, t: nat, s: Search) {
    && (forall f, id | f in s.fields && OwnedBy(fam, t, f, id) :: id in s.visited)
    && forall id | id in s.visited :: exists q :: Home(fam, t, s.fields, id, q)
  }

  lemma MadeOwned(fam: Family, t: nat, sf: StructField, q: seq<nat>, j: nat, id: nat)
    requires Leads(fam, t, q, id)
    ensures OwnedBy(fam, t, MakeField(sf, q + [j]), id)
    ensures forall other | OwnedBy(fam, t, MakeField(sf, q + [j]), other) :: other == id
  {
    assert (q + [j])[..|q|] == q;
  }

  /** The fields of another struct leave a home alone. */
  lemma HomeStays(fam: Family, t: nat, fields: seq<Field>, more: seq<Field>, id: nat, other: nat, q: seq<nat>)
    requires Home(fam, t, fields, id, q) && id != other && forall f | f in more :: OwnedBy(fam, t, f, other)
    ensures Home(fam, t, fields + more, id, q)
  {
    forall f | f in fields + more && OwnedBy(fam, t, f, id) ensures f.index[..|f.index| - 1] == q {
      assert f !in more;
    }
    forall j | 0 <= j < |FieldsOf(fam, id)|
      ensures MakeField(FieldsOf(fam, id)[j], q + [j]) !in more
    {
      MadeOwned(fam, t, FieldsOf(fam, id)[j], q, j, id);
    }
  }

  /** The struct that is scanned. */
  lemma HomeNew(fam: Family, t: nat, fields: seq<Field>, e: Entry, twice: bool)
    requires Leads(fam, t, e.index, e.id) && AtFirst(fam, t, e.id, |e.index|)
    requires twice <==> Shared(fam, t, e.id, |e.index|)
    requires forall f | f in fields :: !OwnedBy(fam, t, f, e.id)
    ensures Home(fam, t, fields + Added(e, FieldsOf(fam, e.id), 0, twice), e.id, e.index)
  {
    var sfs := FieldsOf(fam, e.id);
    var more := Added(e, sfs, 0, twice);
    forall f | f in fields + more && OwnedBy(fam, t, f, e.id) ensures f.index[..|f.index| - 1] == e.index {
      AddedFrom(e, sfs, 0, twice, f);
    }
    forall j | 0 <= j < |sfs|
      ensures multiset(fields + more)[MakeField(sfs[j], e.index + [j])]
              == if !IsKnown(sfs[j]) then 0 else if twice then 2 else 1
    {
      MadeOwned(fam, t, sfs[j], e.index, j, e.id);
      AddedCount(e, sfs, 0, twice, j);
      assert MakeField(sfs[j], e.index + [j]) !in fields;
    }
  }

  lemma AddedOwned(fam: Family, t: nat, e: Entry, twice: bool)
    requires Leads(fam, t, e.index, e.id)
    ensures forall f | f in Added(e, FieldsOf(fam, e.id), 0, twice) :: OwnedBy(fam, t, f, e.id)
  {
    forall f | f in Added(e, FieldsOf(fam, e.id), 0, twice) ensures OwnedBy(fam, t, f, e.id) {
      AddedFrom(e, FieldsOf(fam, e.id), 0, twice, f);
    }
  }

  lemma EntryRecords(fam: Family, t: nat, s: Search, r: Search, e: Entry, twice: bool)
    requires Recorded(fam, t, s) && e.id !in s.visited && Leads(fam, t, e.index, e.id)
    requires AtFirst(fam, t, e.id, |e.index|) && (twice <==> Shared(fam, t, e.id, |e.index|))
    requires r.visited == s.visited + {e.id} && r.fields == s.fields + Added(e, FieldsOf(fam, e.id), 0, twice)
    ensures Recorded(fam, t, r)
  {
    var more := Added(e, FieldsOf(fam, e.id), 0, twice);
    AddedOwned(fam, t, e, twice);
    forall f, id | f in r.fields && OwnedBy(fam, t, f, id) ensures id in r.visited {
      assert f in more ==> id == e.id;
    }
    forall id | id in r.visited ensures exists q :: Home(fam, t, r.fields, id, q) {
      if id == e.id {
        HomeNew(fam, t, s.fields, e, twice);
      } else {
        var q :| Home(fam, t, s.fields, id, q);
        HomeStays(fam, t, s.fields, more, id, e.id, q);
      }
    }
  }

  // ----- one level -----

  function AllPlaces(fam: Family, ids: set<nat>): set<Place> {
    set q, i | q in ids && 0 <= i < |FieldsOf(fam, q)| :: (q, i)
  }

  function Ids(es: seq<Entry>): set<nat> { set e | e in es :: e.id }

  /** Inside the level at depth `d`, which started with the structs `was` visited. */
  ghost predicate During(fam: Family, t: nat, was: set<nat>, s: Search, d: nat) {
    && was <= s.visited && Counts(fam, s, AllPlaces(fam, s.visited - was))
    && Queue(fam, t, s, d + 1) && Recorded(fam, t, s)
  }

  /** What the entries of a level are: structs visited before, or first reached at this depth, with
      counts that tell whether they are shared. */
  ghost predicate Entries(fam: Family, t: nat, was: set<nat>, es: seq<Entry>, count: map<nat, nat>, d: nat) {
    forall e | e in es ::
      && Leads(fam, t, e.index, e.id) && |e.index| == d
      && (e.id !in was ==> AtFirst(fam, t, e.id, d) && (CountOf(count, e.id) > 1 <==> Shared(fam, t, e.id, d)))
  }

  lemma EntryCounts(fam: Family, t: nat, was: set<nat>, s: Search, r: Search, e: Entry, twice: bool)
    requires was <= s.visited && Counts(fam, s, AllPlaces(fam, s.visited - was)) && Queue(fam, t, s, |e.index| + 1)
    requires Leads(fam, t, e.index, e.id) && e.id !in s.visited
    requires r == ScanFields(s.(visited := s.visited + {e.id}), e, FieldsOf(fam, e.id), 0, twice)
    ensures r.visited == s.visited + {e.id}
    ensures (Counts(fam, r, AllPlaces(fam, r.visited - was)) && Queue(fam, t, r, |e.index| + 1)) == true
  {
    var v, ps := s.(visited := s.visited + {e.id}), AllPlaces(fam, s.visited - was);
    SameQueue(fam, s, v, ps);
    FieldsCount(fam, t, v, ps, e, 0, twice);
    PlacesMore(fam, s.visited, was, e.id);
  }

  lemma SameQueue(fam: Family, s: Search, v: Search, ps: set<Place>)
    requires Counts(fam, s, ps) && v.next == s.next && v.nextCount == s.nextCount
    ensures Counts(fam, v, ps) == true
  {
    assert forall id: nat :: Queued(v, id) <==> Queued(s, id);
  }

  lemma PlacesMore(fam: Family, visited: set<nat>, was: set<nat>, id: nat)
    requires was <= visited && id !in visited
    ensures AllPlaces(fam, visited + {id} - was) == AllPlaces(fam, visited - was) + Places(fam, id, 0)
  {
    assert visited + {id} - was == (visited - was) + {id};
  }

  lemma EntryDuring(fam: Family, t: nat, was: set<nat>, s: Search, e: Entry, count: map<nat, nat>, d: nat)
    requires During(fam, t, was, s, d) && Entries(fam, t, was, [e], count, d)
    ensures var r := ScanEntry(fam, s, e, count); During(fam, t, was, r, d) == true && r.visited == s.visited + {e.id}
  {
    assert e in [e];
    if e.id !in s.visited {
      var twice := CountOf(count, e.id) > 1;
      var r := ScanEntry(fam, s, e, count);
      EntryCounts(fam, t, was, s, r, e, twice);
      FieldsAdded(s.(visited := s.visited + {e.id}), e, FieldsOf(fam, e.id), 0, twice);
      EntryRecords(fam, t, s, r, e, twice);
    }
  }

  /** Scanning the entries from `k` on keeps the level going and visits their structs. */
  ghost predicate Scans(fam: Family, t: nat, was: set<nat>, s: Search, r: Search, ids: set<nat>, d: nat) {
    During(fam, t, was, r, d) && r.visited == s.visited + ids
  }

  lemma ScansThen(fam: Family, t: nat, was: set<nat>, s: Search, m: Search, r: Search, id: nat, ids: set<nat>, d: nat)
    requires m.visited == s.visited + {id} && Scans(fam, t, was, m, r, ids, d)
    ensures Scans(fam, t, was, s, r, {id} + ids, d) == true
  {
  }

  lemma {:induction false} LevelDuring(fam: Family, t: nat, was: set<nat>, s: Search, es: seq<Entry>, k: nat,
        count: map<nat, nat>, d: nat)
    requires k <= |es| && During(fam, t, was, s, d) && Entries(fam, t, was, es, count, d)
    ensures Scans(fam, t, was, s, ScanLevel(fam, s, es, k, count), Ids(es[k..]), d) == true
    decreases |es| - k
  {
    IdsFrom(es, k);
    if k < |es| {
      var m := ScanEntry(fam, s, es[k], count);
      OneEntry(fam, t, was, es, k, count, d);
      EntryDuring(fam, t, was, s, es[k], count, d);
      LevelDuring(fam, t, was, m, es, k + 1, count, d);
      ScansThen(fam, t, was, s, m, ScanLevel(fam, m, es, k + 1, count), es[k].id, Ids(es[k + 1..]), d);
    }
  }

  lemma OneEntry(fam: Family, t: nat, was: set<nat>, es: seq<Entry>, k: nat, count: map<nat, nat>, d: nat)
    requires Entries(fam, t, was, es, count, d) && k < |es|
    ensures Entries(fam, t, was, [es[k]], count, d) == true
  {
    assert es[k] in es;
  }

  lemma IdsFrom(es: seq<Entry>, k: nat)
    requires k <= |es|
    ensures Ids(es[k..]) == if k < |es| then {es[k].id} + Ids(es[k + 1..]) else {}
  {
    if k < |es| {
      assert es[k..] == [es[k]] + es[k + 1..];
    }
  }

  // ----- one round after another -----

  /** Before the round at depth `d`: visited are the structs first reached before, queued are those first
      reached here (and some visited ones), with counts that tell which are shared. */
  ghost predicate Level(fam: Family, t: nat, s: Search, d: nat) {
    && (forall id | id in s.visited :: exists k: nat :: k < d && AtFirst(fam, t, id, k))
    && (forall p, id | Leads(fam, t, p, id) && |p| < d :: id in s.visited)
    && Queue(fam, t, s, d)
    && (forall p, id | Leads(fam, t, p, id) && |p| == d :: id in s.visited || Queued(s, id))
    && (forall id | id !in s.visited && Queued(s, id) :: CountOf(s.nextCount, id) > 1 <==> Shared(fam, t, id, d))
    && Recorded(fam, t, s)
  }

  lemma FirstHere(fam: Family, t: nat, s: Search, id: nat, d: nat)
    requires Level(fam, t, s, d)
    ensures id !in s.visited && Queued(s, id) ==> AtFirst(fam, t, id, d)
    ensures AtFirst(fam, t, id, d) ==> id !in s.visited && Queued(s, id)
  {
    if id !in s.visited && Queued(s, id) {
      var e :| e in s.next && e.id == id;
      assert Leads(fam, t, e.index, id);
    }
    if id in s.visited {
      var k: nat :| k < d && AtFirst(fam, t, id, k);
      NotLater(fam, t, id, k, d);
    }
  }

  lemma NotLater(fam: Family, t: nat, id: nat, k: nat, d: nat)
    requires AtFirst(fam, t, id, k) && k < d
    ensures !AtFirst(fam, t, id, d)
  {
    var p :| |p| == k && Leads(fam, t, p, id);
  }

  lemma LevelEntries(fam: Family, t: nat, s: Search, d: nat)
    requires Level(fam, t, s, d)
    ensures Entries(fam, t, s.visited, s.next, s.nextCount, d) == true
  {
    forall e | e in s.next && e.id !in s.visited
      ensures AtFirst(fam, t, e.id, d) && (CountOf(s.nextCount, e.id) > 1 <==> Shared(fam, t, e.id, d))
    {
      assert Queued(s, e.id);
      FirstHere(fam, t, s, e.id, d);
    }
  }

  lemma RoundDuring(fam: Family, t: nat, s: Search, d: nat)
    requires Level(fam, t, s, d)
    ensures During(fam, t, s.visited, Round(fam, s), d) == true
    ensures Round(fam, s).visited == s.visited + Ids(s.next)
  {
    var b := s.(next := [], nextCount := map[]);
    LevelEntries(fam, t, s, d);
    assert b.visited - s.visited == {} && AllPlaces(fam, {}) == {};
    assert forall id: nat :: Embedding(fam, {}, id) == {};
    assert forall id: nat :: !Queued(b, id);
    LevelDuring(fam, t, s.visited, b, s.next, 0, s.nextCount, d);
    assert s.next[0..] == s.next;
  }

  /** The structs that a round visits are those first reached at its depth. */
  lemma NewlyVisited(fam: Family, t: nat, s: Search, r: Search, d: nat)
    requires Level(fam, t, s, d) && r.visited == s.visited + Ids(s.next)
    ensures forall id: nat :: id in r.visited - s.visited <==> AtFirst(fam, t, id, d)
  {
    forall id: nat ensures id in r.visited - s.visited <==> AtFirst(fam, t, id, d) {
      FirstHere(fam, t, s, id, d);
      assert id in Ids(s.next) <==> Queued(s, id);
    }
  }

  lemma TwoPlaces(ps: set<Place>)
    ensures |ps| > 1 <==> exists x, y :: x in ps && y in ps && x != y
  {
    if |ps| > 1 {
      var x :| x in ps;
      assert |ps - {x}| > 0;
      var y :| y in ps - {x};
    } else if |ps| == 1 {
      var x :| x in ps;
      assert |ps - {x}| == 0;
      assert ps == {x};
    }
  }

  lemma InPlaces(fam: Family, ids: set<nat>, q: nat, i: nat, id: nat)
    requires q in ids && Embeds(fam, q, i, id)
    ensures (q, i) in Embedding(fam, AllPlaces(fam, ids), id)
  {
  }

  lemma SharedCounts(fam: Family, t: nat, ids: set<nat>, id: nat, d: nat)
    requires forall q: nat :: q in ids <==> AtFirst(fam, t, q, d)
    ensures Twice(fam, t, id, d) ==> |Embedding(fam, AllPlaces(fam, ids), id)| > 1
  {
    TwoPlaces(Embedding(fam, AllPlaces(fam, ids), id));
    if Twice(fam, t, id, d) {
      var q: nat, i: nat, u: nat, j: nat :| AtFirst(fam, t, q, d) && AtFirst(fam, t, u, d)
        && Embeds(fam, q, i, id) && Embeds(fam, u, j, id) && (q != u || i != j);
      InPlaces(fam, ids, q, i, id);
      InPlaces(fam, ids, u, j, id);
    }
  }

  lemma CountsTwice(fam: Family, t: nat, ids: set<nat>, id: nat, d: nat)
    requires forall q: nat :: q in ids <==> AtFirst(fam, t, q, d)
    ensures |Embedding(fam, AllPlaces(fam, ids), id)| > 1 ==> Twice(fam, t, id, d)
  {
    var es := Embedding(fam, AllPlaces(fam, ids), id);
    TwoPlaces(es);
    if |es| > 1 {
      var x, y :| x in es && y in es && x != y;
      assert x.0 in ids && y.0 in ids && Embeds(fam, x.0, x.1, id) && Embeds(fam, y.0, y.1, id);
    }
  }

  lemma CountsShared(fam: Family, t: nat, s: Search, r: Search, id: nat, d: nat)
    requires Counts(fam, r, AllPlaces(fam, r.visited - s.visited))
    requires forall q: nat :: q in r.visited - s.visited <==> AtFirst(fam, t, q, d)
    ensures CountOf(r.nextCount, id) > 1 <==> Shared(fam, t, id, d + 1)
  {
    SharedCounts(fam, t, r.visited - s.visited, id, d);
    CountsTwice(fam, t, r.visited - s.visited, id, d);
  }

  lemma Scanned(fam: Family, s: Search, r: Search, q: nat, i: nat, id: nat)
    requires Counts(fam, r, AllPlaces(fam, r.visited - s.visited)) && q in r.visited - s.visited && Embeds(fam, q, i, id)
    ensures Queued(r, id)
  {
    InPlaces(fam, r.visited - s.visited, q, i, id);
  }

  lemma RoundReaches(fam: Family, t: nat, s: Search, r: Search, d: nat, p: seq<nat>, id: nat)
    requires Level(fam, t, s, d) && During(fam, t, s.visited, r, d) && r.visited == s.visited + Ids(s.next)
    requires Leads(fam, t, p, id)
    ensures |p| <= d ==> id in r.visited
    ensures |p| == d + 1 ==> id in r.visited || Queued(r, id)
  {
    if |p| <= d {
      Nearer(fam, t, s, r, d, p, id);
    } else if |p| == d + 1 {
      var q := LastStep(fam, t, p, id);
      Nearer(fam, t, s, r, d, p[..d], q);
      if q in s.visited {
        var k: nat :| k < d && AtFirst(fam, t, q, k);
        var u :| |u| == k && Leads(fam, t, u, q);
        LeadsOn(fam, t, u, q, p[d], id);
        Nearer(fam, t, s, r, d, u + [p[d]], id);
      } else {
        Scanned(fam, s, r, q, p[d], id);
      }
    }
  }

  lemma Nearer(fam: Family, t: nat, s: Search, r: Search, d: nat, p: seq<nat>, id: nat)
    requires Level(fam, t, s, d) && r.visited == s.visited + Ids(s.next) && Leads(fam, t, p, id) && |p| <= d
    ensures id in r.visited
  {
    assert id in Ids(s.next) <==> Queued(s, id);
  }

  lemma RoundLevel(fam: Family, t: nat, s: Search, d: nat)
    requires Level(fam, t, s, d)
    ensures Level(fam, t, Round(fam, s), d + 1) == true
  {
    var r := Round(fam, s);
    RoundDuring(fam, t, s, d);
    NewlyVisited(fam, t, s, r, d);
    forall id | id in r.visited ensures exists k: nat :: k < d + 1 && AtFirst(fam, t, id, k) {
      if id in s.visited {
        var k: nat :| k < d && AtFirst(fam, t, id, k);
      } else {
        assert AtFirst(fam, t, id, d);
      }
    }
    forall p, id | Leads(fam, t, p, id) && |p| <= d + 1
      ensures |p| < d + 1 ==> id in r.visited
      ensures |p| == d + 1 ==> id in r.visited || Queued(r, id)
    {
      RoundReaches(fam, t, s, r, d, p, id);
    }
    forall id | id !in r.visited && Queued(r, id) ensures CountOf(r.nextCount, id) > 1 <==> Shared(fam, t, id, d + 1) {
      CountsShared(fam, t, s, r, id, d);
    }
  }

  // ----- the whole search -----

  lemma BeginLevel(fam: Family, t: nat)
    ensures Level(fam, t, Begin(t), 0) == true
  {
    var s := Begin(t);
    assert s.next[0] == Entry(t, []) && Queued(s, t);
    forall p, id | Leads(fam, t, p, id) && |p| == 0 ensures Queued(s, id) {
      assert p == [];
    }
  }

  lemma {:induction false} AllVisited(fam: Family, t: nat, s: Search, d: nat, p: seq<nat>, id: nat)
    requires Level(fam, t, s, d) && s.next == [] && Leads(fam, t, p, id)
    ensures id in s.visited
    decreases |p|
  {
    if |p| >= d {
      assert !Queued(s, id);
      if |p| > d {
        var q := LastStep(fam, t, p, id);
        AllVisited(fam, t, s, d, p[..|p| - 1], q);
        var k: nat :| k < d && AtFirst(fam, t, q, k);
        var u :| |u| == k && Leads(fam, t, u, q);
        LeadsOn(fam, t, u, q, p[|p| - 1], id);
        AllVisited(fam, t, s, d, u + [p[|p| - 1]], id);
      }
    }
  }

  lemma {:induction false} BfsRecords(fam: Family, t: nat, s: Search, d: nat, p: seq<nat>, id: nat) returns (q: seq<nat>)
    requires Level(fam, t, s, d) && Leads(fam, t, p, id)
    ensures Home(fam, t, Bfs(fam, s), id, q) == true
    decreases |Unvisited(fam, s)|, |s.next|
  {
    if s.next == [] {
      AllVisited(fam, t, s, d, p, id);
      q :| Home(fam, t, s.fields, id, q);
    } else {
      RoundVisits(fam, s);
      RoundLevel(fam, t, s, d);
      q := BfsRecords(fam, t, Round(fam, s), d + 1, p, id);
    }
  }

  /** For every struct that embedding reaches: its known fields, and no others, are candidates, all behind
      one index `q` of least length; once, or twice if the struct is embedded more than once where
      it is first reached; each with its tag or else its name, the flag and the type. */
  lemma CandidatesExactly(fam: Family, t: nat, p: seq<nat>, id: nat) returns (q: seq<nat>)
    requires Leads(fam, t, p, id)
    ensures Leads(fam, t, q, id) && AtFirst(fam, t, id, |q|)
    ensures forall f | f in Candidates(fam, t) && OwnedBy(fam, t, f, id) :: f.index[..|f.index| - 1] == q
    ensures forall f: Field, j | 0 <= j < |FieldsOf(fam, id)| && f.index == q + [j] && IsFieldOf(f, FieldsOf(fam, id)[j]) ::
      multiset(Candidates(fam, t))[f] ==
        if !IsKnown(FieldsOf(fam, id)[j]) then 0 else if Shared(fam, t, id, |q|) then 2 else 1
  {
    BeginLevel(fam, t);
    q := BfsRecords(fam, t, Begin(t), 0, p, id);
    forall f: Field, j | 0 <= j < |FieldsOf(fam, id)| && f.index == q + [j] && IsFieldOf(f, FieldsOf(fam, id)[j])
      ensures f == MakeField(FieldsOf(fam, id)[j], q + [j])
    {
      KindMeans(FieldsOf(fam, id)[j], q + [j]);
    }
  }

  /** A declared field of a struct that embedding reaches is a candidate if and only if it is known:
      exported, not tagged "-", and tagged, not anonymous, or no struct. */
  lemma CandidateExactly(fam: Family, t: nat, p: seq<nat>, id: nat, j: nat)
    requires Leads(fam, t, p, id) && j < |FieldsOf(fam, id)|
    ensures (exists f :: f in Candidates(fam, t) && OwnedBy(fam, t, f, id) && f.index[|f.index| - 1] == j)
      <==> IsKnown(FieldsOf(fam, id)[j])
  {
    var q := CandidatesExactly(fam, t, p, id);
    var sf := FieldsOf(fam, id)[j];
    var made := MakeField(sf, q + [j]);
    KindMeans(sf, q + [j]);
    MadeOwned(fam, t, sf, q, j, id);
    if IsKnown(sf) {
      assert multiset(Candidates(fam, t))[made] > 0;
    }
    CandidatesDenote(fam, t);
  }
}
