/** Which fields of a struct TOML knows (typeFields): a breadth-first search through embedded
    structs, and the rule that picks one field for each name. */
module TypeFields {
  import opened Ordering

  /** The type of a field behind one pointer: a struct type or anything else. */
  datatype Target = Struct(id: nat) | Other

  /** A declared field; `tag` is its toml tag, which may be empty. */
  datatype StructField = StructField(name: string, exported: bool, tag: string, anonymous: bool, target: Target)

  /** Struct types by number; they may refer to each other in cycles. */
  type Family = map<nat, seq<StructField>>

  datatype Field = Field(name: string, tag: bool, index: seq<nat>, typ: Target)

  datatype Kind = Ignored | Leaf | Embedded

  function KindOf(sf: StructField): Kind {
    if !sf.exported || sf.tag == "-" then Ignored
    else if sf.tag != "" || !sf.anonymous || !sf.target.Struct? then Leaf
    else Embedded
  }

  function MakeField(sf: StructField, index: seq<nat>): Field {
    Field(if sf.tag == "" then sf.name else sf.tag, sf.tag != "", index, sf.target)
  }

  /** A declared field that is known to TOML: exported, not tagged "-", and with a tag, or not anonymous,
      or not a struct. */
  predicate IsKnown(sf: StructField) {
    sf.exported && sf.tag != "-" && (sf.tag != "" || !sf.anonymous || !sf.target.Struct?)
  }

  /** One whose own fields are taken up instead: an exported anonymous struct without a tag. */
  predicate IsPassed(sf: StructField) { sf.exported && sf.tag == "" && sf.anonymous && sf.target.Struct? }

  /** What is recorded of a declared field: its tag or else its name, whether it has a tag, and its type. */
  predicate IsFieldOf(f: Field, sf: StructField) {
    && f.name == (if sf.tag != "" then sf.tag else sf.name)
    && (f.tag <==> sf.tag != "") && f.typ == sf.target
  }

  lemma KindMeans(sf: StructField, index: seq<nat>)
    ensures KindOf(sf).Leaf? <==> IsKnown(sf)
    ensures KindOf(sf).Embedded? <==> IsPassed(sf)
    ensures IsFieldOf(MakeField(sf, index), sf) && MakeField(sf, index).index == index
    ensures forall f | IsFieldOf(f, sf) && f.index == index :: f == MakeField(sf, index)
  {
  }

  function FieldsOf(fam: Family, id: nat): seq<StructField> { if id in fam then fam[id] else [] }

  // ----- breadth-first search -----

  /** An anonymous struct to explore, and where it is. */
  datatype Entry = Entry(id: nat, index: seq<nat>)

  datatype Search = Search(visited: set<nat>, next: seq<Entry>, nextCount: map<nat, nat>, fields: seq<Field>)

  function CountOf(count: map<nat, nat>, id: nat): nat { if id in count then count[id] else 0 }

  /** One declared field; `twice` says that the struct is embedded more than once. */
  function ScanField(s: Search, e: Entry, sf: StructField, i: nat, twice: bool): Search {
    var index := e.index + [i];
    match KindOf(sf)
    case Ignored => s
    case Leaf =>
      var f := MakeField(sf, index);
      s.(fields := s.fields + (if twice then [f, f] else [f]))
    case Embedded =>
      var id := sf.target.id;
      var n := CountOf(s.nextCount, id) + 1;
      s.(nextCount := s.nextCount[id := n], next := if n == 1 then s.next + [Entry(id, index)] else s.next)
  }

  function ScanFields(s: Search, e: Entry, sfs: seq<StructField>, i: nat, twice: bool): Search
    decreases |sfs| - i
  {
    if i >= |sfs| then s else ScanFields(ScanField(s, e, sfs[i], i, twice), e, sfs, i + 1, twice)
  }

  function ScanEntry(fam: Family, s: Search, e: Entry, count: map<nat, nat>): Search {
    if e.id in s.visited then s
    else ScanFields(s.(visited := s.visited + {e.id}), e, FieldsOf(fam, e.id), 0, CountOf(count, e.id) > 1)
  }

  function ScanLevel(fam: Family, s: Search, current: seq<Entry>, k: nat, count: map<nat, nat>): Search
    decreases |current| - k
  {
    if k >= |current| then s else ScanLevel(fam, ScanEntry(fam, s, current[k], count), current, k + 1, count)
  }

  function Begin(t: nat): Search { Search({}, [Entry(t, [])], map[], []) }

  function Round(fam: Family, s: Search): Search {
    ScanLevel(fam, s.(next := [], nextCount := map[]), s.next, 0, s.nextCount)
  }

  /** The struct types not visited yet. */
  function Unvisited(fam: Family, s: Search): set<nat> { fam.Keys - s.visited }

  lemma {:induction false} ScanFieldsVisits(s: Search, e: Entry, sfs: seq<StructField>, i: nat, twice: bool)
    ensures ScanFields(s, e, sfs, i, twice).visited == s.visited
    ensures i >= |sfs| ==> ScanFields(s, e, sfs, i, twice) == s
    decreases |sfs| - i
  {
    if i < |sfs| {
      ScanFieldsVisits(ScanField(s, e, sfs[i], i, twice), e, sfs, i + 1, twice);
    }
  }

  /** A level either visits a new type of the family or finds nothing to explore. */
  lemma {:induction false} ScanLevelVisits(fam: Family, s: Search, current: seq<Entry>, k: nat, count: map<nat, nat>)
    ensures var r := ScanLevel(fam, s, current, k, count);
      Unvisited(fam, r) < Unvisited(fam, s) || (Unvisited(fam, r) == Unvisited(fam, s) && r.next == s.next)
    decreases |current| - k
  {
    if k < |current| {
      var e := current[k];
      var t := ScanEntry(fam, s, e, count);
      ScanFieldsVisits(s.(visited := s.visited + {e.id}), e, FieldsOf(fam, e.id), 0, CountOf(count, e.id) > 1);
      ScanLevelVisits(fam, t, current, k + 1, count);
      if e.id in fam && e.id !in s.visited {
        assert e.id in Unvisited(fam, s) && e.id !in Unvisited(fam, t);
      } else {
        assert Unvisited(fam, t) == Unvisited(fam, s);
      }
    }
  }

  lemma RoundVisits(fam: Family, s: Search)
    requires s.next != []
    ensures var r := Round(fam, s);
      |Unvisited(fam, r)| < |Unvisited(fam, s)| || (|Unvisited(fam, r)| == |Unvisited(fam, s)| && |r.next| < |s.next|)
  {
    var b := s.(next := [], nextCount := map[]);
    ScanLevelVisits(fam, b, s.next, 0, s.nextCount);
    var r := Round(fam, s);
    assert Unvisited(fam, b) == Unvisited(fam, s);
    if Unvisited(fam, r) < Unvisited(fam, s) {
      SmallerSet(Unvisited(fam, r), Unvisited(fam, s));
    }
  }

  lemma SmallerSet(a: set<nat>, b: set<nat>)
    requires a < b
    ensures |a| < |b|
  {
    var x :| x in b && x !in a;
    assert a <= b - {x};
    SubsetSize(a, b - {x});
  }

  lemma {:induction false} SubsetSize(a: set<nat>, b: set<nat>)
    requires a <= b
    ensures |a| <= |b|
    decreases |a|
  {
    if a != {} {
      var x :| x in a;
      SubsetSize(a - {x}, b - {x});
    }
  }

  /** The search ends because every round visits a new type or finds nothing to explore. */
  function Bfs(fam: Family, s: Search): seq<Field>
    decreases |Unvisited(fam, s)|, |s.next|
  {
    if s.next == [] then s.fields
    else
      RoundVisits(fam, s);
      Bfs(fam, Round(fam, s))
  }

  /** Every candidate the search records for the struct `t`. */
  function Candidates(fam: Family, t: nat): seq<Field> { Bfs(fam, Begin(t)) }

  // ----- what is recorded is really there -----

  /** The struct that an index reaches through embedded structs. */
  function Reached(fam: Family, t: nat, path: seq<nat>): (r: seq<nat>)
    ensures |r| <= 1
    decreases |path|
  {
    if path == [] then [t]
    else
      var up, i := Reached(fam, t, path[..|path| - 1]), path[|path| - 1];
      if up != [] && i < |FieldsOf(fam, up[0])| && IsPassed(FieldsOf(fam, up[0])[i])
      then [FieldsOf(fam, up[0])[i].target.id]
      else []
  }

  predicate Denotes(fam: Family, t: nat, f: Field) {
    && f.index != []
    && var up, i := Reached(fam, t, f.index[..|f.index| - 1]), f.index[|f.index| - 1];
    && up != [] && i < |FieldsOf(fam, up[0])|
    && IsKnown(FieldsOf(fam, up[0])[i]) && IsFieldOf(f, FieldsOf(fam, up[0])[i])
  }

  predicate Sound(fam: Family, t: nat, s: Search) {
    && (forall f | f in s.fields :: Denotes(fam, t, f))
    && forall e | e in s.next :: Reached(fam, t, e.index) == [e.id]
  }

  lemma LeafDenotes(fam: Family, t: nat, e: Entry, i: nat)
    requires Reached(fam, t, e.index) == [e.id] && i < |FieldsOf(fam, e.id)|
    ensures var sf := FieldsOf(fam, e.id)[i]; var index := e.index + [i];
      && (KindOf(sf).Leaf? ==> Denotes(fam, t, MakeField(sf, index)))
      && (KindOf(sf).Embedded? ==> Reached(fam, t, index) == [sf.target.id])
  {
    var index := e.index + [i];
    assert index[..|index| - 1] == e.index;
    KindMeans(FieldsOf(fam, e.id)[i], index);
  }

  lemma ScanFieldSound(fam: Family, t: nat, s: Search, e: Entry, i: nat, twice: bool)
    requires Sound(fam, t, s) && Reached(fam, t, e.index) == [e.id] && i < |FieldsOf(fam, e.id)|
    ensures Sound(fam, t, ScanField(s, e, FieldsOf(fam, e.id)[i], i, twice))
  {
    LeafDenotes(fam, t, e, i);
    var r := ScanField(s, e, FieldsOf(fam, e.id)[i], i, twice);
    var f := MakeField(FieldsOf(fam, e.id)[i], e.index + [i]);
    assert forall g | g in r.fields :: g in s.fields || (KindOf(FieldsOf(fam, e.id)[i]).Leaf? && g == f);
  }

  lemma {:induction false} ScanFieldsSound(fam: Family, t: nat, s: Search, e: Entry, i: nat, twice: bool)
    requires Sound(fam, t, s) && Reached(fam, t, e.index) == [e.id]
    ensures Sound(fam, t, ScanFields(s, e, FieldsOf(fam, e.id), i, twice))
    decreases |FieldsOf(fam, e.id)| - i
  {
    var sfs := FieldsOf(fam, e.id);
    if i < |sfs| {
      ScanFieldSound(fam, t, s, e, i, twice);
      ScanFieldsSound(fam, t, ScanField(s, e, sfs[i], i, twice), e, i + 1, twice);
    }
  }

  lemma {:induction false} ScanLevelSound(fam: Family, t: nat, s: Search, current: seq<Entry>, k: nat, count: map<nat, nat>)
    requires Sound(fam, t, s) && forall e | e in current :: Reached(fam, t, e.index) == [e.id]
    ensures Sound(fam, t, ScanLevel(fam, s, current, k, count))
    decreases |current| - k
  {
    if k < |current| {
      var e := current[k];
      assert e in current;
      if e.id !in s.visited {
        ScanFieldsSound(fam, t, s.(visited := s.visited + {e.id}), e, 0, CountOf(count, e.id) > 1);
      }
      ScanLevelSound(fam, t, ScanEntry(fam, s, e, count), current, k + 1, count);
    }
  }

  lemma {:induction false} BfsSound(fam: Family, t: nat, s: Search)
    requires Sound(fam, t, s)
    ensures forall f | f in Bfs(fam, s) :: Denotes(fam, t, f)
    decreases |Unvisited(fam, s)|, |s.next|
  {
    if s.next != [] {
      RoundVisits(fam, s);
      ScanLevelSound(fam, t, s.(next := [], nextCount := map[]), s.next, 0, s.nextCount);
      BfsSound(fam, t, Round(fam, s));
    }
  }

  /** The index of every candidate leads, through embedded structs, to the declared field it
      was made from; so candidates with the same index are the same. */
  lemma CandidatesDenote(fam: Family, t: nat)
    ensures forall f | f in Candidates(fam, t) :: Denotes(fam, t, f)
    ensures forall f, g | f in Candidates(fam, t) && g in Candidates(fam, t) && f.index == g.index :: f == g
  {
    assert Begin(t).next[0].index == [];
    BfsSound(fam, t, Begin(t));
  }
}
