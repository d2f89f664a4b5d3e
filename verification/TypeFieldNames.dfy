/** Which declared fields typeFields returns, said without the search, and how that compares with Go's
    rule for embedded fields. */
module TypeFieldNames {
  import opened TypeFields
  import opened TypeFieldSearch
  import opened TypeFieldRules

  function NameOf(sf: StructField): string { if sf.tag != "" then sf.tag else sf.name }

  /** Field `j` of the struct is known, and has this name. */
  predicate Named(fam: Family, id: nat, j: nat, name: string) {
    j < |FieldsOf(fam, id)| && IsKnown(FieldsOf(fam, id)[j]) && NameOf(FieldsOf(fam, id)[j]) == name
  }

  predicate Tagged(fam: Family, id: nat, j: nat)
    requires j < |FieldsOf(fam, id)|
  { FieldsOf(fam, id)[j].tag != "" }

  /** The result holds this declared field. */
  predicate Returned(fam: Family, t: nat, id: nat, j: nat) {
    exists f :: f in TypeFieldsOf(fam, t) && IsPlace(fam, t, f, id, j)
  }

  predicate IsPlace(fam: Family, t: nat, f: Field, id: nat, j: nat) {
    OwnedBy(fam, t, f, id) && f.index[|f.index| - 1] == j
  }

  /** Nothing of the same name is first reached as early, but for an untagged field beside a tagged
      one. */
  ghost predicate Hides(fam: Family, t: nat, id: nat, j: nat, d: nat)
    requires j < |FieldsOf(fam, id)|
  {
    forall k, i, e | AtFirst(fam, t, k, e) && Named(fam, k, i, NameOf(FieldsOf(fam, id)[j])) && (k != id || i != j) ::
      d < e || (d == e && Tagged(fam, id, j) && !Tagged(fam, k, i))
  }

  ghost predicate Dominates(fam: Family, t: nat, id: nat, j: nat, d: nat) {
    && j < |FieldsOf(fam, id)| && IsKnown(FieldsOf(fam, id)[j])
    && AtFirst(fam, t, id, d) && !Shared(fam, t, id, d) && Hides(fam, t, id, j, d)
  }

  lemma SamePlace(fam: Family, t: nat, f: Field, id: nat, j: nat, q: seq<nat>)
    requires j < |FieldsOf(fam, id)| && Leads(fam, t, q, id)
    requires f in Candidates(fam, t) && IsPlace(fam, t, f, id, j) && f.index[..|f.index| - 1] == q
    ensures f == MakeField(FieldsOf(fam, id)[j], q + [j]) && IsKnown(FieldsOf(fam, id)[j])
  {
    CandidatesDenote(fam, t);
    assert f.index == q + [j];
    KindMeans(FieldsOf(fam, id)[j], q + [j]);
  }

  lemma SurvivorBeats(fam: Family, t: nat, id: nat, j: nat, q: seq<nat>, k: nat, i: nat, e: nat)
    requires j < |FieldsOf(fam, id)| && Leads(fam, t, q, id) && AtFirst(fam, t, k, e)
    requires Named(fam, k, i, NameOf(FieldsOf(fam, id)[j])) && (k != id || i != j)
    requires Survivor(multiset(Candidates(fam, t)), MakeField(FieldsOf(fam, id)[j], q + [j]))
    ensures |q| < e || (|q| == e && Tagged(fam, id, j) && !Tagged(fam, k, i))
  {
    var p :| |p| == e && Leads(fam, t, p, k);
    var u := CandidatesExactly(fam, t, p, k);
    assert |u| == e;
    var f, g := MakeField(FieldsOf(fam, id)[j], q + [j]), MakeField(FieldsOf(fam, k)[i], u + [i]);
    KindMeans(FieldsOf(fam, k)[i], u + [i]);
    MadeOwned(fam, t, FieldsOf(fam, k)[i], u, i, k);
    MadeOwned(fam, t, FieldsOf(fam, id)[j], q, j, id);
    assert multiset(Candidates(fam, t))[g] > 0;
    assert f.index[|q|] == j && g.index[|u|] == i;
    assert Beats(f, g);
  }

  /** Where a candidate comes from. */
  predicate ComesFrom(fam: Family, t: nat, g: Field, k: nat, i: nat) {
    && IsPlace(fam, t, g, k, i) && Named(fam, k, i, g.name) && (g.tag <==> Tagged(fam, k, i))
  }

  lemma CandidatePlace(fam: Family, t: nat, g: Field) returns (k: nat, i: nat)
    requires g in Candidates(fam, t)
    ensures ComesFrom(fam, t, g, k, i) && AtFirst(fam, t, k, |g.index| - 1)
  {
    CandidatesDenote(fam, t);
    var p := g.index[..|g.index| - 1];
    i := g.index[|g.index| - 1];
    k := Reached(fam, t, p)[0];
    assert Leads(fam, t, p, k) && OwnedBy(fam, t, g, k);
    var u := CandidatesExactly(fam, t, p, k);
    assert p == u;
  }

  lemma DominantSurvives(fam: Family, t: nat, id: nat, j: nat, q: seq<nat>, g: Field)
    requires Dominates(fam, t, id, j, |q|) && Leads(fam, t, q, id)
    requires g in Candidates(fam, t) && g != MakeField(FieldsOf(fam, id)[j], q + [j])
    requires g.name == NameOf(FieldsOf(fam, id)[j])
    requires forall f | f in Candidates(fam, t) && OwnedBy(fam, t, f, id) :: f.index[..|f.index| - 1] == q
    ensures Beats(MakeField(FieldsOf(fam, id)[j], q + [j]), g)
  {
    var k, i := CandidatePlace(fam, t, g);
    if k == id && i == j {
      SamePlace(fam, t, g, id, j, q);
    } else {
      DominantBeats(fam, t, id, j, q, g, k, i);
    }
  }

  lemma DominantBeats(fam: Family, t: nat, id: nat, j: nat, q: seq<nat>, g: Field, k: nat, i: nat)
    requires j < |FieldsOf(fam, id)| && Hides(fam, t, id, j, |q|)
    requires ComesFrom(fam, t, g, k, i) && AtFirst(fam, t, k, |g.index| - 1) && (k != id || i != j)
    requires g.name == NameOf(FieldsOf(fam, id)[j])
    ensures Beats(MakeField(FieldsOf(fam, id)[j], q + [j]), g)
  {
  }

  /** For any family of struct types: a declared field is returned if and only if it is known, its struct is
      embedded just once where it is first reached, and no other known field of its name is first
      reached as early, but for untagged ones beside it if it is tagged. */
  lemma ReturnedExactly(fam: Family, t: nat, p: seq<nat>, id: nat, j: nat)
    requires Leads(fam, t, p, id) && j < |FieldsOf(fam, id)|
    ensures Returned(fam, t, id, j) <==> exists d :: Dominates(fam, t, id, j, d)
  {
    var q := CandidatesExactly(fam, t, p, id);
    var sf := FieldsOf(fam, id)[j];
    var made, m := MakeField(sf, q + [j]), multiset(Candidates(fam, t));
    KindMeans(sf, q + [j]);
    MadeOwned(fam, t, sf, q, j, id);
    TypeFieldsExactly(fam, t);
    if Returned(fam, t, id, j) {
      var f :| f in TypeFieldsOf(fam, t) && IsPlace(fam, t, f, id, j);
      assert f in Candidates(fam, t);
      SamePlace(fam, t, f, id, j, q);
      forall k, i, e | AtFirst(fam, t, k, e) && Named(fam, k, i, NameOf(sf)) && (k != id || i != j)
        ensures |q| < e || (|q| == e && Tagged(fam, id, j) && !Tagged(fam, k, i))
      {
        SurvivorBeats(fam, t, id, j, q, k, i, e);
      }
      assert Dominates(fam, t, id, j, |q|);
    }
    if exists d :: Dominates(fam, t, id, j, d) {
      var d :| Dominates(fam, t, id, j, d);
      assert d == |q|;
      forall g | g in m && g != made && g.name == made.name ensures Beats(made, g) {
        DominantSurvives(fam, t, id, j, q, g);
      }
      assert made in TypeFieldsOf(fam, t) && IsPlace(fam, t, made, id, j);
    }
  }

  // ----- Go's rule -----

  /** Go's rule for embedded fields, with tags, over all the ways that lead to a field: nothing of the same
      name is reached as early in any other way, but for an untagged field beside a tagged one. */
  ghost predicate GoSees(fam: Family, t: nat, p: seq<nat>, id: nat, j: nat) {
    && Leads(fam, t, p, id) && j < |FieldsOf(fam, id)| && IsKnown(FieldsOf(fam, id)[j])
    && forall u, k, i | Leads(fam, t, u, k) && Named(fam, k, i, NameOf(FieldsOf(fam, id)[j])) && (u != p || i != j) ::
      |p| < |u| || (|p| == |u| && Tagged(fam, id, j) && !Tagged(fam, k, i))
  }

  /** There is only one way of this length to the struct. */
  ghost predicate OneWay(fam: Family, t: nat, p: seq<nat>, id: nat) {
    forall u | Leads(fam, t, u, id) && |u| == |p| :: u == p
  }

  lemma SeenOnce(fam: Family, t: nat, p: seq<nat>, id: nat, j: nat, u: seq<nat>)
    requires GoSees(fam, t, p, id, j) && Leads(fam, t, u, id) && u != p
    ensures |p| < |u|
  {
    assert Named(fam, id, j, NameOf(FieldsOf(fam, id)[j]));
  }

  /** A struct that is embedded twice can be reached in two ways. */
  lemma SharedTwoWays(fam: Family, t: nat, id: nat, d: nat) returns (u: seq<nat>, v: seq<nat>)
    requires Shared(fam, t, id, d)
    ensures Leads(fam, t, u, id) && Leads(fam, t, v, id) && |u| == |v| == d && u != v
  {
    var q: nat, i: nat, r: nat, j: nat :| AtFirst(fam, t, q, d - 1) && AtFirst(fam, t, r, d - 1)
      && Embeds(fam, q, i, id) && Embeds(fam, r, j, id) && (q != r || i != j);
    var a :| |a| == d - 1 && Leads(fam, t, a, q);
    var b :| |b| == d - 1 && Leads(fam, t, b, r);
    LeadsOn(fam, t, a, q, i, id);
    LeadsOn(fam, t, b, r, j, id);
    u, v := a + [i], b + [j];
    assert u[d - 1] == i && v[d - 1] == j && u[..d - 1] == a && v[..d - 1] == b;
  }

  lemma SeenFirst(fam: Family, t: nat, p: seq<nat>, id: nat, j: nat)
    requires GoSees(fam, t, p, id, j)
    ensures AtFirst(fam, t, id, |p|) == true
  {
    forall u | Leads(fam, t, u, id) ensures |p| <= |u| {
      if u != p {
        SeenOnce(fam, t, p, id, j, u);
      }
    }
  }

  lemma SeenUnshared(fam: Family, t: nat, p: seq<nat>, id: nat, j: nat)
    requires GoSees(fam, t, p, id, j)
    ensures !Shared(fam, t, id, |p|)
  {
    if Shared(fam, t, id, |p|) {
      var u, v := SharedTwoWays(fam, t, id, |p|);
      SeenOnce(fam, t, p, id, j, if u != p then u else v);
    }
  }

  lemma SeenBeats(fam: Family, t: nat, p: seq<nat>, id: nat, j: nat, u: seq<nat>, k: nat, i: nat)
    requires GoSees(fam, t, p, id, j) && Leads(fam, t, u, k) && Named(fam, k, i, NameOf(FieldsOf(fam, id)[j]))
    requires k != id || i != j
    ensures |p| < |u| || (|p| == |u| && Tagged(fam, id, j) && !Tagged(fam, k, i))
  {
    assert u == p ==> k == id;
  }

  lemma SeenHides(fam: Family, t: nat, p: seq<nat>, id: nat, j: nat)
    requires GoSees(fam, t, p, id, j)
    ensures Hides(fam, t, id, j, |p|) == true
  {
    var name, tagged := NameOf(FieldsOf(fam, id)[j]), Tagged(fam, id, j);
    forall k, i, e | AtFirst(fam, t, k, e) && Named(fam, k, i, name) && (k != id || i != j)
      ensures |p| < e || (|p| == e && tagged && !Tagged(fam, k, i))
    {
      var u :| |u| == e && Leads(fam, t, u, k);
      SeenBeats(fam, t, p, id, j, u, k, i);
    }
  }

  /** What Go's rule sees is returned. */
  lemma SeenReturned(fam: Family, t: nat, p: seq<nat>, id: nat, j: nat)
    requires GoSees(fam, t, p, id, j)
    ensures AtFirst(fam, t, id, |p|) && Returned(fam, t, id, j)
  {
    SeenFirst(fam, t, p, id, j);
    SeenUnshared(fam, t, p, id, j);
    SeenHides(fam, t, p, id, j);
    assert Dominates(fam, t, id, j, |p|);
    ReturnedExactly(fam, t, p, id, j);
  }

  lemma FirstBefore(fam: Family, t: nat, u: seq<nat>, k: nat) returns (e: nat)
    requires Leads(fam, t, u, k)
    ensures AtFirst(fam, t, k, e) && e <= |u|
  {
    var q := CandidatesExactly(fam, t, u, k);
    e := |q|;
  }

  /** Of what is returned, Go's rule sees exactly the fields whose struct can be reached in one way of least
      length: the search counts how often a struct is embedded, not in how many ways it is reached. */
  lemma GoExactly(fam: Family, t: nat, p: seq<nat>, id: nat, j: nat)
    requires Leads(fam, t, p, id) && j < |FieldsOf(fam, id)| && AtFirst(fam, t, id, |p|)
    ensures GoSees(fam, t, p, id, j) <==> Returned(fam, t, id, j) && OneWay(fam, t, p, id)
  {
    if GoSees(fam, t, p, id, j) {
      SeenReturned(fam, t, p, id, j);
      forall u | Leads(fam, t, u, id) && |u| == |p| ensures u == p {
        if u != p {
          SeenOnce(fam, t, p, id, j, u);
        }
      }
    }
    if Returned(fam, t, id, j) && OneWay(fam, t, p, id) {
      ReturnedExactly(fam, t, p, id, j);
      var d :| Dominates(fam, t, id, j, d);
      assert d == |p|;
      forall u, k, i | Leads(fam, t, u, k) && Named(fam, k, i, NameOf(FieldsOf(fam, id)[j])) && (u != p || i != j)
        ensures |p| < |u| || (|p| == |u| && Tagged(fam, id, j) && !Tagged(fam, k, i))
      {
        var e := FirstBefore(fam, t, u, k);
      }
    }
  }

  // ----- where they differ -----

  function Embedded(name: string, id: nat): StructField { StructField(name, true, "", true, Struct(id)) }

  /** A and B embed X, which embeds Y, which declares F. */
  function Diamond(): Family {
    map[0 := [Embedded("A", 1), Embedded("B", 2)], 1 := [Embedded("X", 3)], 2 := [Embedded("X", 3)],
        3 := [Embedded("Y", 4)], 4 := [StructField("F", true, "", false, Other)]]
  }

  lemma DiamondWays(fam: Family)
    requires fam == Diamond()
    ensures Leads(fam, 0, [0, 0, 0], 4) && Leads(fam, 0, [1, 0, 0], 4)
  {
    assert Leads(fam, 0, [], 0);
    LeadsOn(fam, 0, [], 0, 0, 1);
    LeadsOn(fam, 0, [], 0, 1, 2);
    assert [] + [0] == [0] && [] + [1] == [1];
    LeadsOn(fam, 0, [0], 1, 0, 3);
    LeadsOn(fam, 0, [1], 2, 0, 3);
    assert [0] + [0] == [0, 0] && [1] + [0] == [1, 0];
    LeadsOn(fam, 0, [0, 0], 3, 0, 4);
    LeadsOn(fam, 0, [1, 0], 3, 0, 4);
    assert [0, 0] + [0] == [0, 0, 0] && [1, 0] + [0] == [1, 0, 0];
  }

  lemma DiamondDeep(fam: Family, p: seq<nat>)
    requires fam == Diamond() && Leads(fam, 0, p, 4)
    ensures |p| >= 3
  {
    var q := LastStep(fam, 0, p, 4);
    var u := p[..|p| - 1];
    var r := LastStep(fam, 0, u, q);
    assert r == 1 || r == 2;
    var _ := LastStep(fam, 0, u[..|u| - 1], r);
  }

  lemma DiamondEmbeds(fam: Family, q: nat, i: nat)
    requires fam == Diamond() && Embeds(fam, q, i, 4)
    ensures q == 3 && i == 0
  {
  }

  lemma DiamondNamed(fam: Family, k: nat, i: nat)
    requires fam == Diamond() && Named(fam, k, i, "F")
    ensures k == 4 && i == 0
  {
  }

  lemma DiamondUnshared(fam: Family)
    requires fam == Diamond()
    ensures !Shared(fam, 0, 4, 3)
  {
    forall q: nat, i: nat | Embeds(fam, q, i, 4) ensures q == 3 && i == 0 { DiamondEmbeds(fam, q, i); }
  }

  lemma DiamondHides(fam: Family)
    requires fam == Diamond()
    ensures Hides(fam, 0, 4, 0, 3) == true
  {
    forall k: nat, i: nat | Named(fam, k, i, "F") ensures k == 4 && i == 0 { DiamondNamed(fam, k, i); }
  }

  lemma DiamondDominates(fam: Family)
    requires fam == Diamond() && AtFirst(fam, 0, 4, 3)
    ensures Dominates(fam, 0, 4, 0, 3) == true
  {
    DiamondUnshared(fam);
    DiamondHides(fam);
  }

  lemma DiamondFirst(fam: Family)
    requires fam == Diamond()
    ensures AtFirst(fam, 0, 4, 3) == true
  {
    DiamondWays(fam);
    var p := [0, 0, 0];
    assert |p| == 3 && Leads(fam, 0, p, 4);
    forall u | Leads(fam, 0, u, 4) ensures |u| >= 3 { DiamondDeep(fam, u); }
  }

  lemma TwoWays(fam: Family, t: nat, p: seq<nat>, u: seq<nat>, id: nat, j: nat)
    requires Leads(fam, t, u, id) && u != p && |u| == |p|
    ensures !GoSees(fam, t, p, id, j)
  {
    if GoSees(fam, t, p, id, j) {
      SeenOnce(fam, t, p, id, j, u);
    }
  }

  /** F can be reached in two ways of the same length, so Go's rule leaves it out; it is returned. */
  lemma AmbiguousReturned(fam: Family, p: seq<nat>, q: seq<nat>)
    requires fam == Diamond() && p == [0, 0, 0] && q == [1, 0, 0]
    ensures Returned(fam, 0, 4, 0) && !GoSees(fam, 0, p, 4, 0) && !GoSees(fam, 0, q, 4, 0)
  {
    DiamondWays(fam);
    DiamondFirst(fam);
    DiamondDominates(fam);
    ReturnedExactly(fam, 0, p, 4, 0);
    assert p[0] != q[0];
    TwoWays(fam, 0, p, q, 4, 0);
    TwoWays(fam, 0, q, p, 4, 0);
  }
}
