/** What the rolling writer keeps: the newest part of the stream, no overwritten file, a
    bounded history, and with an archive every byte. */
module RollingProofs {
  import opened Decimal
  import opened RollingFiles
  import opened Sequences

  // ----- the new roll -----

  lemma NewNumber(c: Config, n: int)
    requires IsInt64(n) && n < MAX_INT64
    ensures var f := NewName(c, n); f != c.name && IsRoll(c, f) && Number(c, f) == n + 1
  {
    RollNameOf(c, FormatInt(n + 1));
    FormatParse(n + 1);
  }

  lemma NumberFits(c: Config, f: string)
    requires IsRoll(c, f)
    ensures IsInt64(Number(c, f))
  {
  }

  lemma LastIsNewest(c: Config, h: seq<string>, f: string)
    requires Ascending(c, h) && f in Files(h)
    ensures Number(c, f) <= Newest(c, h)
  {
    var i :| 0 <= i < |h| && h[i] == f;
    assert i < |h| - 1 ==> Number(c, h[i]) <= Number(c, h[|h| - 1]);
  }

  lemma HigherLast(c: Config, h: seq<string>, f: string)
    requires Ascending(c, h) && IsRoll(c, f) && Newest(c, h) < Number(c, f)
    ensures Ascending(c, h + [f]) == true && f !in h
  {
    forall i | 0 <= i < |h| ensures Number(c, h[i]) < Number(c, f) {
      assert h[i] in Files(h);
      LastIsNewest(c, h, h[i]);
    }
  }

  /** The name for the new roll is not taken, so the rename overwrites nothing. */
  lemma NewNameFresh(c: Config, dir: map<string, Bytes>, h: seq<string>, f: string)
    requires Lists(c, dir, h) && Newest(c, h) < MAX_INT64 && f == NewName(c, Newest(c, h))
    ensures f !in dir && f != c.name && Ascending(c, h + [f]) == true && IsRoll(c, f) && Number(c, f) == Newest(c, h) + 1
  {
    if h != [] {
      NumberFits(c, h[|h| - 1]);
    }
    NewNumber(c, Newest(c, h));
    HigherLast(c, h, f);
    NotThere(c, dir, h, f);
  }

  lemma NotThere(c: Config, dir: map<string, Bytes>, h: seq<string>, f: string)
    requires Lists(c, dir, h) && IsRoll(c, f) && f !in h
    ensures f !in dir
  {
    assert f in dir <==> f in Rolls(c, dir);
    assert f !in Files(h);
  }

  // ----- one roll -----

  /** How many rolls deleteOldRolls removes from a history. */
  function Excess(c: Config, h: seq<string>): (k: nat)
    ensures k <= |h|
  { if c.maxRolls <= 0 || |h| <= c.maxRolls then 0 else |h| - c.maxRolls }

  lemma SplitFiles(c: Config, h: seq<string>, k: nat)
    requires Ascending(c, h) && k <= |h|
    ensures Files(h[..k]) + Files(h[k..]) == Files(h) && Files(h[..k]) !! Files(h[k..])
    ensures Ascending(c, h[..k]) == true && Ascending(c, h[k..]) == true
  {
    assert h == h[..k] + h[k..];
    forall i, j | 0 <= i < k && 0 <= j < |h| - k ensures h[..k][i] != h[k..][j] {
      assert h[i] != h[k + j];
    }
  }

  lemma MinusNothing(m: map<string, Bytes>)
    ensures Minus(m, []) == m && Picked(m, []) == map[]
  {
  }

  /** The directory and the archive after a roll. */
  lemma RolledDir(c: Config, d: Disk, h: seq<string>, f: string)
    requires c.name in d.dir && (h != [] ==> IsRoll(c, h[|h| - 1]))
    requires f == NewName(c, Newest(c, h)) && f != c.name
    ensures var k := Excess(c, h + [f]); var r := Roll(c, d, h); var m := Rename(d.dir, c.name, f);
      && r.dir == Minus(m, (h + [f])[..k])[c.name := ""] && r.open && r.size == 0
      && r.archive == (if c.zip then d.archive + Picked(m, (h + [f])[..k]) else d.archive)
  {
    MinusNothing(Rename(d.dir, c.name, f));
    assert (h + [f])[..0] == [];
    assert d.archive + map[] == d.archive;
  }

  lemma SameBehind(h: seq<string>, f: string, k: nat)
    requires k <= |h|
    ensures (h + [f])[..k] == h[..k] && (h + [f])[k..] == h[k..] + [f]
  {
  }

  /** A directory after a roll: the current file has become the roll `f`, behind those of `kept`,
      which are untouched, and a new current file is empty. */
  predicate Rolled(c: Config, d: Disk, r: Disk, kept: seq<string>, f: string)
    requires c.name in d.dir
  {
    && Lists(c, r.dir, kept + [f]) && r.open && r.size == 0
    && c.name in r.dir && r.dir[c.name] == "" && f in r.dir && r.dir[f] == d.dir[c.name]
    && forall g | g in kept :: g in d.dir && g in r.dir && r.dir[g] == d.dir[g]
  }

  /** One roll: the current file's contents move to the end of the history under a new, higher
      number, the oldest rolls over the limit, which are others, fall out, and the current file is
      empty. */
  lemma RollHistory(c: Config, d: Disk, h: seq<string>, f: string, k: nat)
    requires Lists(c, d.dir, h) && Newest(c, h) < MAX_INT64 && c.name in d.dir
    requires f == NewName(c, Newest(c, h)) && k == Excess(c, h + [f])
    ensures f !in d.dir && k <= |h| && IsRoll(c, f) && Number(c, f) == Newest(c, h) + 1
    ensures Rolled(c, d, Roll(c, d, h), h[k..], f)
    ensures c.maxRolls > 0 ==> |h[k..]| < c.maxRolls
  {
    NewNameFresh(c, d.dir, h, f);
    RolledDir(c, d, h, f);
    SameBehind(h, f, k);
    SplitFiles(c, h, k);
    RolledFiles(c, d.dir, h, f, k);
    RollsKept(c, h, f, k);
  }

  lemma RollsKept(c: Config, h: seq<string>, f: string, k: nat)
    requires Ascending(c, h + [f]) && k <= |h|
    ensures Ascending(c, h[k..] + [f])
  {
    SameBehind(h, f, k);
    SplitFiles(c, h + [f], k);
  }

  lemma RolledFiles(c: Config, m: map<string, Bytes>, h: seq<string>, f: string, k: nat)
    requires Lists(c, m, h) && k <= |h| && c.name in m && f !in m && IsRoll(c, f)
    ensures var n := Minus(Rename(m, c.name, f), h[..k])[c.name := ""];
      && Files(h[k..] + [f]) == Rolls(c, n) && f in n && n[f] == m[c.name]
      && forall g | g in h[k..] :: g in m && g in n && n[g] == m[g]
  {
    SplitFiles(c, h, k);
    assert f !in Files(h);
    assert Files(h[k..] + [f]) == Files(h[k..]) + {f};
    forall g | g in h[k..] ensures g in Files(h) && g !in Files(h[..k]) { assert g in Files(h[k..]); }
  }

  // ----- backwards over a roll -----

  /** The highest number stands last in every order. */
  lemma HighestLast(c: Config, kept: seq<string>, f: string, n: seq<string>)
    requires Ascending(c, kept) && IsRoll(c, f) && forall i | 0 <= i < |kept| :: Number(c, kept[i]) < Number(c, f)
    requires Ascending(c, n) && Files(n) == Files(kept) + {f}
    ensures n != [] && n[|n| - 1] == f
  {
    assert f in Files(n);
    LastIsNewest(c, n, f);
    var newest := n[|n| - 1];
    assert newest in Files(n);
    forall i | 0 <= i < |kept| ensures kept[i] != newest { assert Number(c, kept[i]) < Number(c, f); }
  }

  lemma WithoutLast(c: Config, n: seq<string>, f: string)
    requires Ascending(c, n) && n != [] && n[|n| - 1] == f
    ensures var front := n[..|n| - 1]; n == front + [f] && Ascending(c, front) && Files(front) == Files(n) - {f}
  {
    var last := |n| - 1;
    SplitFiles(c, n, last);
    assert n[last..] == [f] && Files([f]) == {f};
  }

  /** The rolls that stay may be met in another order. */
  lemma Rejoined(c: Config, h: seq<string>, k: nat, kept: seq<string>)
    requires Ascending(c, h) && k <= |h| && Ascending(c, kept) && Files(kept) == Files(h[k..])
    ensures Ascending(c, h[..k] + kept) && Files(h[..k] + kept) == Files(h)
  {
    SplitFiles(c, h, k);
    forall i, j | 0 <= i < k && 0 <= j < |kept| ensures Number(c, h[i]) <= Number(c, kept[j]) && h[i] != kept[j] {
      assert kept[j] in Files(h[k..]);
      var p :| 0 <= p < |h[k..]| && h[k..][p] == kept[j];
      assert h[k + p] == kept[j];
    }
    assert Files(h[..k] + kept) == Files(h[..k]) + Files(kept);
  }

  lemma OneContents(m: map<string, Bytes>, f: string)
    requires f in m
    ensures Contents(m, [f]) == m[f]
  {
    assert [f][1..] == [];
  }

  /** What a directory spells after a roll: what stayed, and what was current. */
  lemma RolledSpells(c: Config, d: Disk, r: Disk, kept: seq<string>, f: string, n: seq<string>)
    requires c.name in d.dir && Rolled(c, d, r, kept, f) && Files(n) == Files(kept)
    ensures Spell(c, r, n + [f]) == Contents(d.dir, n) + Current(c, d)
  {
    forall g | g in n ensures g in d.dir && g in r.dir && r.dir[g] == d.dir[g] {
      assert g in Files(n);
      assert g in kept;
    }
    ContentsSame(r.dir, d.dir, n);
    ContentsAppend(r.dir, n, [f]);
    OneContents(r.dir, f);
    assert Spell(c, r, n + [f]) == Contents(r.dir, n + [f]) + "" == Contents(r.dir, n + [f]);
  }

  lemma NewestApart(c: Config, m: map<string, Bytes>, h: seq<string>, k: nat, f: string)
    requires Lists(c, m, h) && k <= |h| && f !in m
    ensures Files(h[k..] + [f]) == Files(h[k..]) + {f} && f !in Files(h[k..])
  {
    SplitFiles(c, h, k);
    assert f !in Files(h);
  }

  /** Any order after a roll is one of the rolls that stayed, and then the new one. */
  lemma NewestSplit(c: Config, m: map<string, Bytes>, h: seq<string>, k: nat, f: string, next: seq<string>)
    requires Lists(c, m, h) && k <= |h| && f !in m && IsRoll(c, f) && Number(c, f) == Newest(c, h) + 1
    requires Ascending(c, next) && Files(next) == Files(h[k..] + [f])
    ensures next != [] && var kept := next[..|next| - 1];
      next == kept + [f] && Ascending(c, kept) == true && Files(kept) == Files(h[k..])
  {
    SplitFiles(c, h, k);
    forall i | 0 <= i < |h[k..]| ensures Number(c, h[k..][i]) < Number(c, f) {
      assert h[k + i] in Files(h);
      LastIsNewest(c, h, h[k + i]);
    }
    NewestApart(c, m, h, k, f);
    HighestLast(c, h[k..], f, next);
    WithoutLast(c, next, f);
  }

  /** In whatever order `next` the history stands after a roll, it stood before it in an order that
      spells the same, behind the contents of the rolls that fell out. */
  lemma RollBack(c: Config, d: Disk, h: seq<string>, next: seq<string>, f: string, k: nat) returns (was: seq<string>)
    requires Lists(c, d.dir, h) && Newest(c, h) < MAX_INT64 && c.name in d.dir && Lists(c, Roll(c, d, h).dir, next)
    requires f == NewName(c, Newest(c, h)) && k == Excess(c, h + [f])
    ensures k <= |h| && Lists(c, d.dir, was) == true
    ensures Spell(c, d, was) == Contents(d.dir, h[..k]) + Spell(c, Roll(c, d, h), next)
  {
    RollHistory(c, d, h, f, k);
    NewestSplit(c, d.dir, h, k, f, next);
    var kept := next[..|next| - 1];
    Rejoined(c, h, k, kept);
    was := h[..k] + kept;
    RolledSpells(c, d, Roll(c, d, h), h[k..], f, kept);
    JoinedSpells(c, d, h[..k], kept, Spell(c, Roll(c, d, h), next));
  }

  lemma JoinedSpells(c: Config, d: Disk, a: seq<string>, b: seq<string>, s: Bytes)
    requires s == Contents(d.dir, b) + Current(c, d)
    ensures Spell(c, d, a + b) == Contents(d.dir, a) + s
  {
    ContentsAppend(d.dir, a, b);
    Assoc(Contents(d.dir, a), Contents(d.dir, b), Current(c, d));
  }

  // ----- one write -----

  /** Creating the current file, or writing to it, leaves the history alone. */
  lemma CurrentSpells(c: Config, m: map<string, Bytes>, h: seq<string>, b: Bytes)
    ensures Rolls(c, m[c.name := b]) == Rolls(c, m)
    ensures Lists(c, m, h) ==> Contents(m[c.name := b], h) == Contents(m, h)
  {
    var p := m[c.name := b];
    assert forall f :: f in Rolls(c, p) <==> f in Rolls(c, m);
    if Lists(c, m, h) {
      forall g | g in h ensures g in p && g in m && p[g] == m[g] { assert g in Files(h); }
      ContentsSame(p, m, h);
    }
  }

  /** Opening or creating the current file. */
  lemma PreparedSpells(c: Config, d: Disk, h: seq<string>)
    requires Ready(c, d)
    ensures var o := Prepared(c, d);
      && c.name in o.dir && o.archive == d.archive && Rolls(c, o.dir) == Rolls(c, d.dir)
      && (Lists(c, d.dir, h) ==> Spell(c, o, h) == Spell(c, d, h))
  {
    if !d.open && c.name !in d.dir {
      CurrentSpells(c, d.dir, h, "");
    }
  }

  lemma AppendSpells(c: Config, d: Disk, h: seq<string>, b: Bytes)
    ensures Rolls(c, Append(c, d, b).dir) == Rolls(c, d.dir)
    ensures Lists(c, d.dir, h) ==> Spell(c, Append(c, d, b), h) == Spell(c, d, h) + b
  {
    CurrentSpells(c, d.dir, h, Current(c, d) + b);
    Assoc(Contents(d.dir, h), Current(c, d), b);
  }

  /** `n` more rolls fit an int. */
  predicate Room(c: Config, dir: map<string, Bytes>, n: nat) {
    n <= MAX_INT64 && forall f | f in Rolls(c, dir) :: Number(c, f) + n <= MAX_INT64
  }

  lemma RoomNext(c: Config, dir: map<string, Bytes>, h: seq<string>, n: nat)
    requires Lists(c, dir, h) && Room(c, dir, n)
    ensures Newest(c, h) + n <= MAX_INT64
  {
    assert h != [] ==> h[|h| - 1] in Files(h);
  }

  /** The oldest rolls, which a write that rolls takes out of the directory. */
  function Dropped(c: Config, d: Disk, h: seq<string>): seq<string>
    requires Ready(c, d) && Ordered(c, d, h)
  {
    if !Rolling(c, d) then []
    else var k := Excess(c, h + [NewName(c, Newest(c, h))]); if k <= |h| then h[..k] else h
  }

  /** One write appends its bytes: in whatever order `next` the history stands afterwards, it stood
      before it in an order so that the files spell the same, behind what was dropped. */
  lemma WriteSpells(c: Config, d: Disk, b: Bytes, h: seq<string>, next: seq<string>)
    returns (was: seq<string>, dropped: Bytes)
    requires Ready(c, d) && Ordered(c, d, h) && Room(c, d.dir, 1) && Lists(c, Write(c, d, b, h).dir, next)
    ensures Lists(c, d.dir, was) && Spell(c, d, was) + b == dropped + Spell(c, Write(c, d, b, h), next)
    ensures dropped == Contents(Prepared(c, d).dir, Dropped(c, d, h)) && (c.maxRolls <= 0 ==> dropped == "")
  {
    var o, r := Prepared(c, d), RollIfFull(c, d, h);
    PreparedSpells(c, d, next);
    AppendSpells(c, r, next, b);
    was, dropped := next, "";
    if Rolling(c, d) {
      RoomNext(c, o.dir, h, 1);
      var f := NewName(c, Newest(c, h));
      was := RollBack(c, o, h, next, f, Excess(c, h + [f]));
      dropped := Contents(o.dir, Dropped(c, d, h));
      PreparedSpells(c, d, was);
      Assoc(dropped, Spell(c, r, next), b);
    }
  }

  lemma RollRoom(c: Config, d: Disk, h: seq<string>, n: nat)
    requires c.name in d.dir && Lists(c, d.dir, h) && n > 0 && Room(c, d.dir, n)
    ensures Room(c, Roll(c, d, h).dir, n - 1) == true
  {
    RoomNext(c, d.dir, h, n);
    var f := NewName(c, Newest(c, h));
    var k := Excess(c, h + [f]);
    RollHistory(c, d, h, f, k);
    NewestApart(c, d.dir, h, k, f);
    SplitFiles(c, h, k);
    forall g | g in Rolls(c, Roll(c, d, h).dir) ensures Number(c, g) + (n - 1) <= MAX_INT64 {
      assert g != f ==> g in Files(h);
    }
  }

  lemma RoomAfter(c: Config, d: Disk, b: Bytes, h: seq<string>, n: nat)
    requires Ready(c, d) && Ordered(c, d, h) && n > 0 && Room(c, d.dir, n)
    ensures Room(c, Write(c, d, b, h).dir, n - 1) == true
  {
    PreparedSpells(c, d, h);
    AppendSpells(c, RollIfFull(c, d, h), h, b);
    if Rolling(c, d) {
      RollRoom(c, Prepared(c, d), h, n);
    }
  }

  // ----- when a write rolls -----

  /** The size that the writer keeps is that of the current file. */
  lemma FullBySize(c: Config, d: Disk)
    requires Ready(c, d)
    ensures Rolling(c, d) <==> |Current(c, d)| >= c.maxSize
    ensures Current(c, Prepared(c, d)) == Current(c, d)
  {
  }

  /** The current file behind a write. */
  lemma WriteLast(c: Config, d: Disk, b: Bytes, h: seq<string>)
    requires Ready(c, d) && Ordered(c, d, h)
    ensures Current(c, Write(c, d, b, h)) == if |Current(c, d)| < c.maxSize then Current(c, d) + b else b
  {
    FullBySize(c, d);
    var r := RollIfFull(c, d, h);
    if Rolling(c, d) {
      StartsEmpty(c, Prepared(c, d), h);
    }
    assert Current(c, Append(c, r, b)) == Current(c, r) + b;
    assert "" + b == b;
  }

  lemma StartsEmpty(c: Config, o: Disk, h: seq<string>)
    requires c.name in o.dir && (h != [] ==> IsRoll(c, h[|h| - 1]))
    ensures Current(c, Roll(c, o, h)) == ""
  {
    var n := FormatInt(Next(Newest(c, h)));
    RollNameOf(c, n);
    RolledDir(c, o, h, FullName(c, n));
  }

  // ----- a bounded history -----

  lemma FilesAtMost(h: seq<string>)
    ensures |Files(h)| <= |h|
  {
    if h != [] {
      FilesAtMost(h[1..]);
      assert Files(h) == Files(h[1..]) + {h[0]};
    }
  }

  /** After a write that meets a full current file, with a limit on the rolls, the directory holds no more
      history files than that, and the new one, which holds what was current, is among them. */
  lemma HistoryBounded(c: Config, d: Disk, b: Bytes, h: seq<string>)
    requires Ready(c, d) && Ordered(c, d, h) && Room(c, d.dir, 1) && c.maxRolls > 0
    requires |Current(c, d)| >= c.maxSize
    ensures var w := Write(c, d, b, h); var f := NewName(c, Newest(c, h));
      && |Rolls(c, w.dir)| <= c.maxRolls && f !in d.dir
      && f in Rolls(c, w.dir) && w.dir[f] == Current(c, d)
  {
    FullBySize(c, d);
    var o, r := Prepared(c, d), RollIfFull(c, d, h);
    var f := NewName(c, Newest(c, h));
    var k := Excess(c, h + [f]);
    PreparedSpells(c, d, h);
    RoomNext(c, o.dir, h, 1);
    RollHistory(c, o, h, f, k);
    AppendSpells(c, r, h, b);
    FilesAtMost(h[k..] + [f]);
    assert (h[k..] + [f])[|h[k..]|] == f;
    assert f in Files(h[k..] + [f]) && f != c.name;
  }

  function Max(m: int, n: int): int { if m < n then n else m }

  /** Over any sequence of writes and closes the history never grows over the limit, or over what
      was there before. */
  lemma {:induction false} RunBounded(c: Config, d: Disk, ops: seq<Op>)
    requires Ready(c, d) && IsRun(c, d, ops) && Room(c, d.dir, |ops|) && c.maxRolls > 0
    ensures |Rolls(c, Run(c, d, ops).dir)| <= Max(|Rolls(c, d.dir)|, c.maxRolls)
    decreases |ops|
  {
    if ops != [] {
      var r := Step(c, d, ops[0]);
      if ops[0].Writes? {
        var b, h := ops[0].b, ops[0].order;
        RoomAfter(c, d, b, h, |ops|);
        FullBySize(c, d);
        if Rolling(c, d) {
          HistoryBounded(c, d, b, h);
        } else {
          PreparedSpells(c, d, h);
          AppendSpells(c, RollIfFull(c, d, h), h, b);
        }
        assert |Rolls(c, r.dir)| <= Max(|Rolls(c, d.dir)|, c.maxRolls);
      }
      RunBounded(c, r, ops[1..]);
    }
  }

  // ----- whole runs -----

  predicate IsSuffix(s: Bytes, t: Bytes) { |s| <= |t| && t[|t| - |s|..] == s }

  lemma IsBehind(front: Bytes, s: Bytes)
    ensures IsSuffix(s, front + s)
  {
  }

  /** A write that appends `b` to `s` and drops a front of it, before a run that leaves a suffix `r`. */
  lemma SuffixOn(s: Bytes, dropped: Bytes, u: Bytes, b: Bytes, rest: Bytes, r: Bytes)
    requires s + b == dropped + u && IsSuffix(r, u + rest)
    ensures IsSuffix(r, s + (b + rest)) && (dropped == "" && r == u + rest ==> r == s + (b + rest))
  {
    Assoc(s, b, rest);
    Assoc(dropped, u, rest);
    var front := (u + rest)[..|u + rest| - |r|];
    assert u + rest == front + r;
    Assoc(dropped, front, r);
    IsBehind(dropped + front, r);
    assert "" + (u + rest) == u + rest;
  }

  /** Over any sequence of writes and closes: in whatever ascending order `last` the history stands in
      the end, it stood in the beginning in an ascending order so that history and current file
      spell in the end a suffix of everything stored before and written since, and all of it if
      there is no limit on the rolls. */
  lemma {:induction false} KeepsSuffix(c: Config, d: Disk, ops: seq<Op>, last: seq<string>) returns (first: seq<string>)
    requires Ready(c, d) && IsRun(c, d, ops) && Room(c, d.dir, |ops|) && Lists(c, Run(c, d, ops).dir, last)
    ensures Lists(c, d.dir, first)
    ensures var r, stream := Run(c, d, ops), Spell(c, d, first) + Written(ops);
      && IsSuffix(Spell(c, r, last), stream)
      && (c.maxRolls <= 0 ==> Spell(c, r, last) == stream)
    decreases |ops|
  {
    if ops == [] {
      first := last;
      assert Spell(c, d, first) + "" == Spell(c, d, first);
    } else {
      match ops[0]
      case Closes =>
        first := KeepsSuffix(c, Close(d), ops[1..], last);
        assert "" + Written(ops[1..]) == Written(ops[1..]);
      case Writes(b, h) =>
        var w := Write(c, d, b, h);
        RoomAfter(c, d, b, h, |ops|);
        var next := KeepsSuffix(c, w, ops[1..], last);
        var dropped: Bytes;
        first, dropped := WriteSpells(c, d, b, h, next);
        SuffixOn(Spell(c, d, first), dropped, Spell(c, w, next), b, Written(ops[1..]), Spell(c, Run(c, d, ops), last));
    }
  }

  /** When the roll numbers differ, as canonical decimal names do, there is one such order, in the
      beginning and in the end. */
  lemma KeepsSuffixDistinct(c: Config, d: Disk, ops: seq<Op>, first: seq<string>, last: seq<string>)
    requires Ready(c, d) && IsRun(c, d, ops) && Room(c, d.dir, |ops|) && Distinct(c, Rolls(c, d.dir))
    requires Lists(c, d.dir, first) && Lists(c, Run(c, d, ops).dir, last)
    ensures IsSuffix(Spell(c, Run(c, d, ops), last), Spell(c, d, first) + Written(ops))
    ensures c.maxRolls <= 0 ==> Spell(c, Run(c, d, ops), last) == Spell(c, d, first) + Written(ops)
  {
    var h := KeepsSuffix(c, d, ops, last);
    OneOrder(c, first, h);
  }

  // ----- the archive -----

  /** `a` lists the archive, all of it older than the history. */
  predicate Stored(c: Config, d: Disk, a: seq<string>) {
    && Ascending(c, a) && Files(a) == d.archive.Keys && (a != [] ==> Rolls(c, d.dir) != {})
    && forall x, g | x in Files(a) && g in Rolls(c, d.dir) :: Number(c, x) <= Number(c, g) && x != g
  }

  lemma Joined(c: Config, a: seq<string>, h: seq<string>)
    requires Ascending(c, a) && Ascending(c, h)
    requires forall x, g | x in Files(a) && g in Files(h) :: Number(c, x) <= Number(c, g) && x != g
    ensures Ascending(c, a + h) && Files(a + h) == Files(a) + Files(h)
  {
    forall i, j | 0 <= i < |a| && 0 <= j < |h| ensures Number(c, a[i]) <= Number(c, h[j]) && a[i] != h[j] {
      assert a[i] in Files(a) && h[j] in Files(h);
    }
  }

  lemma PickedContents(m: map<string, Bytes>, fs: seq<string>)
    requires forall f | f in fs :: f in m
    ensures Picked(m, fs).Keys == Files(fs) && Contents(Picked(m, fs), fs) == Contents(m, fs)
  {
    ContentsSame(Picked(m, fs), m, fs);
  }

  /** Every entry is still there with its contents. */
  predicate Kept(z: map<string, Bytes>, y: map<string, Bytes>) { forall f | f in z :: f in y && y[f] == z[f] }

  /** Adding other rolls to the archive overwrites no entry of it. */
  lemma Archived(c: Config, z: map<string, Bytes>, a: seq<string>, m: map<string, Bytes>, fs: seq<string>)
    requires Files(a) == z.Keys && Files(a) !! Files(fs) && forall f | f in fs :: f in m
    ensures (z + Picked(m, fs)).Keys == Files(a) + Files(fs) && Kept(z, z + Picked(m, fs))
    ensures Contents(z + Picked(m, fs), a + fs) == Contents(z, a) + Contents(m, fs)
  {
    var y := z + Picked(m, fs);
    PickedContents(m, fs);
    ContentsAppend(y, a, fs);
    forall f | f in a ensures f in y && f in z && y[f] == z[f] { assert f in Files(a); }
    ContentsSame(y, z, a);
    forall f | f in fs ensures f in y && f in m && y[f] == m[f] { assert f in Files(fs); }
    ContentsSame(y, m, fs);
  }

  lemma RenamedFiles(c: Config, m: map<string, Bytes>, h: seq<string>, f: string, k: nat)
    requires Lists(c, m, h) && c.name in m && k <= |h| && f !in m
    ensures var old_ := h[..k]; var n := Rename(m, c.name, f);
      (forall g | g in old_ :: g in n) && Contents(n, old_) == Contents(m, old_)
  {
    forall g | g in h[..k] ensures g in Rename(m, c.name, f) && g in m && Rename(m, c.name, f)[g] == m[g] {
      assert g in Files(h);
    }
    ContentsSame(Rename(m, c.name, f), m, h[..k]);
  }

  /** The archive takes the rolls that fall out, and nothing else changes in it. */
  lemma RollArchives(c: Config, d: Disk, a: seq<string>, h: seq<string>, f: string, k: nat)
    requires c.zip && Stored(c, d, a) && Lists(c, d.dir, h) && Newest(c, h) < MAX_INT64 && c.name in d.dir
    requires f == NewName(c, Newest(c, h)) && k == Excess(c, h + [f])
    ensures k <= |h| && Stored(c, Roll(c, d, h), a + h[..k]) == true && Kept(d.archive, Roll(c, d, h).archive)
    ensures Contents(Roll(c, d, h).archive, a + h[..k]) == Contents(d.archive, a) + Contents(d.dir, h[..k])
  {
    RollHistory(c, d, h, f, k);
    RolledDir(c, d, h, f);
    SameBehind(h, f, k);
    RenamedFiles(c, d.dir, h, f, k);
    ArchiveApart(c, d, a, h, k);
    Archived(c, d.archive, a, Rename(d.dir, c.name, f), h[..k]);
    StillOlder(c, d, a, h, f, k, Roll(c, d, h));
  }

  lemma ArchiveApart(c: Config, d: Disk, a: seq<string>, h: seq<string>, k: nat)
    requires Stored(c, d, a) && Lists(c, d.dir, h) && k <= |h|
    ensures Ascending(c, a + h[..k]) == true && Files(a + h[..k]) == Files(a) + Files(h[..k]) && Files(a) !! Files(h[..k])
  {
    SplitFiles(c, h, k);
    Joined(c, a, h[..k]);
  }

  lemma StillOlder(c: Config, d: Disk, a: seq<string>, h: seq<string>, f: string, k: nat, r: Disk)
    requires Stored(c, d, a) && Lists(c, d.dir, h) && k <= |h| && f !in d.dir && IsRoll(c, f)
    requires Number(c, f) == Newest(c, h) + 1 && Rolls(c, r.dir) == Files(h[k..] + [f])
    requires r.archive.Keys == Files(a) + Files(h[..k])
    ensures Stored(c, r, a + h[..k]) == true
  {
    ArchiveApart(c, d, a, h, k);
    assert f in Rolls(c, r.dir) by { assert (h[k..] + [f])[|h[k..]|] == f; }
    forall x, g | x in Files(a + h[..k]) && g in Rolls(c, r.dir)
      ensures IsRoll(c, x) && Number(c, x) <= Number(c, g) && x != g
    {
      OlderStill(c, d, a, h, f, k, x, g);
    }
  }

  lemma OlderStill(c: Config, d: Disk, a: seq<string>, h: seq<string>, f: string, k: nat, x: string, g: string)
    requires Stored(c, d, a) && Lists(c, d.dir, h) && k <= |h| && f !in d.dir && IsRoll(c, f)
    requires Number(c, f) == Newest(c, h) + 1
    requires x in Files(a) + Files(h[..k]) && g in Files(h[k..] + [f])
    ensures IsRoll(c, x) && IsRoll(c, g) && Number(c, x) <= Number(c, g) && x != g
  {
    SplitFiles(c, h, k);
    assert g == f || g in Files(h[k..]);
    if x in Files(h[..k]) {
      var i :| 0 <= i < |h[..k]| && h[..k][i] == x;
      assert x in Files(h) && h[i] == x;
      LastIsNewest(c, h, x);
      if g != f {
        var j :| 0 <= j < |h[k..]| && h[k..][j] == g;
        assert h[k + j] == g;
      }
    } else if g == f {
      assert Rolls(c, d.dir) != {};
      EmptyFiles(h);
      assert h[|h| - 1] in Files(h);
      OlderArchive(c, d, a, x, h[|h| - 1]);
      NotArchived(c, d, a, h, f, x);
    } else {
      OlderArchive(c, d, a, x, g);
    }
  }

  lemma OlderArchive(c: Config, d: Disk, a: seq<string>, x: string, g: string)
    requires Stored(c, d, a) && x in Files(a) && g in Rolls(c, d.dir)
    ensures IsRoll(c, x) && Number(c, x) <= Number(c, g) && x != g
  {
  }

  lemma NotArchived(c: Config, d: Disk, a: seq<string>, h: seq<string>, f: string, x: string)
    requires IsRoll(c, x) && IsRoll(c, f) && h != [] && IsRoll(c, h[|h| - 1])
    requires Number(c, x) <= Number(c, h[|h| - 1]) && Number(c, f) == Newest(c, h) + 1
    ensures x != f
  {
  }

  lemma StoredSame(c: Config, d: Disk, r: Disk, a: seq<string>)
    requires Stored(c, d, a) && r.archive == d.archive && Rolls(c, r.dir) == Rolls(c, d.dir)
    ensures Stored(c, r, a) == true
  {
  }

  /** What a write drops from the directory goes to the archive. */
  lemma WriteArchives(c: Config, d: Disk, a: seq<string>, b: Bytes, h: seq<string>)
    requires c.zip && Ready(c, d) && Ordered(c, d, h) && Room(c, d.dir, 1) && Stored(c, d, a)
    ensures var w, moved := Write(c, d, b, h), Dropped(c, d, h);
      && Stored(c, w, a + moved) == true && Kept(d.archive, w.archive)
      && Contents(w.archive, a + moved) == Contents(d.archive, a) + Contents(Prepared(c, d).dir, moved)
  {
    PreparedSpells(c, d, h);
    StoredSame(c, d, Prepared(c, d), a);
    RollIfFullArchives(c, d, a, h);
    AppendSpells(c, RollIfFull(c, d, h), h, b);
    StoredSame(c, RollIfFull(c, d, h), Write(c, d, b, h), a + Dropped(c, d, h));
  }

  lemma RollIfFullArchives(c: Config, d: Disk, a: seq<string>, h: seq<string>)
    requires c.zip && Ready(c, d) && Ordered(c, d, h) && Room(c, d.dir, 1) && Stored(c, Prepared(c, d), a)
    ensures var r, moved := RollIfFull(c, d, h), Dropped(c, d, h);
      && Stored(c, r, a + moved) == true && Kept(Prepared(c, d).archive, r.archive)
      && Contents(r.archive, a + moved) == Contents(Prepared(c, d).archive, a) + Contents(Prepared(c, d).dir, moved)
  {
    var o := Prepared(c, d);
    PreparedSpells(c, d, h);
    if Rolling(c, d) {
      var f := NewName(c, Newest(c, h));
      RoomNext(c, o.dir, h, 1);
      RollArchives(c, o, a, h, f, Excess(c, h + [f]));
    } else {
      assert a + [] == a && Contents(o.archive, a) + "" == Contents(o.archive, a);
    }
  }

  lemma ArchivedSpells(z: Bytes, moved: Bytes, y: Bytes, s: Bytes, b: Bytes, u: Bytes, rest: Bytes, all: Bytes)
    requires y == z + moved && s + b == moved + u && all == y + u + rest
    ensures all == z + s + (b + rest)
  {
    assert z + s + (b + rest) == z + (s + b) + rest;
    assert z + (moved + u) + rest == z + moved + u + rest;
  }

  /** What archive entries, history and current file spell. */
  function SpellAll(c: Config, d: Disk, a: seq<string>, h: seq<string>): Bytes { Contents(d.archive, a) + Spell(c, d, h) }

  lemma WriteKeepsAll(c: Config, d: Disk, a: seq<string>, x: Bytes, h: seq<string>, next: seq<string>, rest: Bytes)
    returns (first: seq<string>)
    requires c.zip && Ready(c, d) && Ordered(c, d, h) && Room(c, d.dir, 1) && Stored(c, d, a)
    requires Lists(c, Write(c, d, x, h).dir, next)
    ensures Lists(c, d.dir, first) == true
    ensures SpellAll(c, Write(c, d, x, h), a + Dropped(c, d, h), next) + rest == SpellAll(c, d, a, first) + (x + rest)
  {
    var w := Write(c, d, x, h);
    WriteArchives(c, d, a, x, h);
    var dropped: Bytes;
    first, dropped := WriteSpells(c, d, x, h, next);
    ArchivedSpells(Contents(d.archive, a), dropped, Contents(w.archive, a + Dropped(c, d, h)), Spell(c, d, first), x,
      Spell(c, w, next), rest, SpellAll(c, w, a + Dropped(c, d, h), next) + rest);
  }

  /** The archive after an operation. */
  function Entries(c: Config, d: Disk, a: seq<string>, op: Op): seq<string>
    requires Ready(c, d) && Can(c, d, op)
  { match op case Closes => a case Writes(_, h) => a + Dropped(c, d, h) }

  lemma StepArchives(c: Config, d: Disk, a: seq<string>, op: Op, n: nat)
    requires c.zip && Ready(c, d) && Can(c, d, op) && n > 0 && Room(c, d.dir, n) && Stored(c, d, a)
    ensures Room(c, Step(c, d, op).dir, n - 1) == true && Stored(c, Step(c, d, op), Entries(c, d, a, op)) == true
    ensures Kept(d.archive, Step(c, d, op).archive) == true
  {
    match op
    case Closes => StoredSame(c, d, Close(d), a);
    case Writes(x, h) =>
      RoomAfter(c, d, x, h, n);
      WriteArchives(c, d, a, x, h);
  }

  lemma StepSpells(c: Config, d: Disk, a: seq<string>, op: Op, next: seq<string>, ops: seq<Op>) returns (first: seq<string>)
    requires c.zip && Ready(c, d) && Can(c, d, op) && Room(c, d.dir, 1) && Stored(c, d, a)
    requires ops != [] && ops[0] == op && Lists(c, Step(c, d, op).dir, next)
    ensures Lists(c, d.dir, first) == true
    ensures SpellAll(c, Step(c, d, op), Entries(c, d, a, op), next) + Written(ops[1..])
      == SpellAll(c, d, a, first) + Written(ops)
  {
    var rest := Written(ops[1..]);
    match op
    case Closes =>
      first := next;
      assert "" + rest == rest;
    case Writes(x, h) => first := WriteKeepsAll(c, d, a, x, h, next, rest);
  }

  /** No archive entry is overwritten or removed: as long as the archive is older than the history,
      what is in it before any operations is in it, with the same contents, after them. */
  lemma {:induction false} ArchiveKept(c: Config, d: Disk, a: seq<string>, ops: seq<Op>)
    requires c.zip && Ready(c, d) && IsRun(c, d, ops) && Room(c, d.dir, |ops|) && Stored(c, d, a)
    ensures Kept(d.archive, Run(c, d, ops).archive) && exists b :: Stored(c, Run(c, d, ops), b)
    decreases |ops|
  {
    if ops != [] {
      var r := Step(c, d, ops[0]);
      StepArchives(c, d, a, ops[0], |ops|);
      ArchiveKept(c, r, Entries(c, d, a, ops[0]), ops[1..]);
      KeptOn(d.archive, r.archive, Run(c, r, ops[1..]).archive);
    }
  }

  lemma KeptOn(x: map<string, Bytes>, y: map<string, Bytes>, z: map<string, Bytes>)
    requires Kept(x, y) && Kept(y, z)
    ensures Kept(x, z)
  {
  }

  /** Over any sequence of writes and closes from an archive `a` older than the history: in whatever
      ascending order `last` the history stands in the end, it stood in the beginning in an
      ascending order so that archive entries, history and current file spell in the end what
      they spelled then and what was written since. */
  lemma {:induction false} RunKeepsAll(c: Config, d: Disk, a: seq<string>, ops: seq<Op>, last: seq<string>)
    returns (b: seq<string>, first: seq<string>)
    requires c.zip && Ready(c, d) && IsRun(c, d, ops) && Room(c, d.dir, |ops|) && Stored(c, d, a)
    requires Lists(c, Run(c, d, ops).dir, last)
    ensures Lists(c, d.dir, first) == true && Stored(c, Run(c, d, ops), b) == true
    ensures SpellAll(c, Run(c, d, ops), b, last) == SpellAll(c, d, a, first) + Written(ops)
    decreases |ops|
  {
    if ops == [] {
      b, first := a, last;
      assert SpellAll(c, d, a, last) + "" == SpellAll(c, d, a, last);
    } else {
      StepArchives(c, d, a, ops[0], |ops|);
      b, first := RunKeepsAll(c, Step(c, d, ops[0]), Entries(c, d, a, ops[0]), ops[1..], last);
      first := StepSpells(c, d, a, ops[0], first, ops);
    }
  }

  /** Zip archiving loses nothing: started with an empty archive, in whatever ascending order `last` the
      history stands in the end, archive entries, history and current file spell, in ascending
      order of their numbers, everything stored before and written since. */
  lemma ZipLosesNothing(c: Config, d: Disk, ops: seq<Op>, last: seq<string>)
    returns (entries: seq<string>, first: seq<string>)
    requires c.zip && Ready(c, d) && d.archive == map[] && IsRun(c, d, ops) && Room(c, d.dir, |ops|)
    requires Lists(c, Run(c, d, ops).dir, last)
    ensures Lists(c, d.dir, first)
    ensures var r := Run(c, d, ops);
      && Files(entries) == r.archive.Keys && Ascending(c, entries + last)
      && Contents(r.archive, entries) + Spell(c, r, last) == Spell(c, d, first) + Written(ops)
  {
    assert Files([]) == {};
    entries, first := RunKeepsAll(c, d, [], ops, last);
    Joined(c, entries, last);
    assert "" + Spell(c, d, first) == Spell(c, d, first);
  }
}
