/** When the rolling writer rolls, seen on the contents of the files: a write that meets a current
    file of the limit or more starts a new one, and no other write does. */
module RollingSizes {
  import opened Decimal
  import opened RollingFiles
  import opened RollingProofs

  /** The directory behind a roll: the `k` oldest files of the history are gone, the contents that
      were current stand under the new name, and the current file holds only what is written. */
  function RolledOver(c: Config, d: Disk, h: seq<string>, k: nat, f: string, b: Bytes): map<string, Bytes>
    requires k <= |h|
  {
    Minus(d.dir - {c.name}, h[..k])[f := Current(c, d)][c.name := b]
  }

  /** A write to a file below the limit appends, and changes nothing else in directory and archive. */
  lemma WriteAppends(c: Config, d: Disk, b: Bytes, h: seq<string>)
    requires Ready(c, d) && Ordered(c, d, h) && |Current(c, d)| < c.maxSize
    ensures var w := Write(c, d, b, h);
      w.dir == d.dir[c.name := Current(c, d) + b] && w.archive == d.archive && Rolls(c, w.dir) == Rolls(c, d.dir)
  {
    FullBySize(c, d);
    CurrentSpells(c, d.dir, h, Current(c, d) + b);
  }

  /** A write to a file of the limit or more: what was current becomes the newest roll, under a name that
      was free; the oldest rolls over the limit on their number go, and nothing else changes. */
  lemma WriteRolls(c: Config, d: Disk, b: Bytes, h: seq<string>) returns (f: string)
    requires Ready(c, d) && Ordered(c, d, h) && Room(c, d.dir, 1) && |Current(c, d)| >= c.maxSize
    ensures Rolls(c, Prepared(c, d).dir) == Rolls(c, d.dir) && Lists(c, d.dir, h)
    ensures f !in d.dir && f != c.name && IsRoll(c, f) && Number(c, f) == Newest(c, h) + 1
    ensures var k := if 0 < c.maxRolls <= |h| then |h| + 1 - c.maxRolls else 0;
      Write(c, d, b, h).dir == RolledOver(c, d, h, k, f, b)
  {
    FullBySize(c, d);
    PreparedSpells(c, d, h);
    var o := Prepared(c, d);
    f := NewName(c, Newest(c, h));
    RoomNext(c, o.dir, h, 1);
    NewNameFresh(c, o.dir, h, f);
    RolledDir(c, o, h, f);
    var k := Excess(c, h + [f]);
    SameBehind(h, f, k);
    RolledMap(c, d, o, h, k, f, b);
    Emptied(c, Roll(c, o, h), Minus(Rename(o.dir, c.name, f), h[..k]), b);
  }

  lemma Emptied(c: Config, r: Disk, m: map<string, Bytes>, b: Bytes)
    requires r.dir == m[c.name := ""]
    ensures Append(c, r, b).dir == m[c.name := ""][c.name := b]
  {
    assert "" + b == b;
  }

  lemma RolledMap(c: Config, d: Disk, o: Disk, h: seq<string>, k: nat, f: string, b: Bytes)
    requires Ready(c, d) && o == Prepared(c, d) && k <= |h| && f !in o.dir && f != c.name && Lists(c, o.dir, h)
    ensures Minus(Rename(o.dir, c.name, f), h[..k])[c.name := ""][c.name := b] == RolledOver(c, d, h, k, f, b)
  {
    assert Current(c, d) == o.dir[c.name] && d.dir - {c.name} == o.dir - {c.name};
    forall g | g in h[..k] ensures g != f && g != c.name { assert g in Files(h); }
    assert f !in Files(h[..k]);
  }

  // ----- over runs -----

  /** Contents that were there before the run, or fill a file. */
  predicate Filled(c: Config, first: Disk, f: string, x: Bytes) {
    (f in first.dir && first.dir[f] == x) || (f in first.archive && first.archive[f] == x) || |x| >= c.maxSize
  }

  /** Every roll in the directory and every archive entry was there before the run or fills a file. */
  predicate AllFilled(c: Config, first: Disk, d: Disk) {
    && (forall f | f in Rolls(c, d.dir) :: Filled(c, first, f, d.dir[f]))
    && forall f | f in d.archive :: Filled(c, first, f, d.archive[f])
  }

  lemma OneRoll(c: Config, first: Disk, d: Disk, b: Bytes, h: seq<string>)
    requires Ready(c, d) && Ordered(c, d, h) && Room(c, d.dir, 1) && |Current(c, d)| >= c.maxSize
    requires AllFilled(c, first, d)
    ensures AllFilled(c, first, Write(c, d, b, h))
  {
    var f := WriteRolls(c, d, b, h);
    var w := Write(c, d, b, h);
    forall g | g in Rolls(c, w.dir) ensures Filled(c, first, g, w.dir[g]) {
      assert g != f ==> g in Rolls(c, d.dir) && w.dir[g] == d.dir[g];
    }
    RollArchive(c, d, b, h, f);
    forall g | g in w.archive ensures Filled(c, first, g, w.archive[g]) {
      assert g !in d.archive || w.archive[g] != d.archive[g] ==> g in Rolls(c, d.dir) && w.archive[g] == d.dir[g];
    }
  }

  /** What comes into the archive are rolls of the directory. */
  lemma RollArchive(c: Config, d: Disk, b: Bytes, h: seq<string>, f: string)
    requires Ready(c, d) && Ordered(c, d, h) && Room(c, d.dir, 1) && |Current(c, d)| >= c.maxSize
    ensures var w := Write(c, d, b, h);
      forall g | g in w.archive && (g !in d.archive || w.archive[g] != d.archive[g]) ::
        g in Rolls(c, d.dir) && w.archive[g] == d.dir[g]
  {
    FullBySize(c, d);
    PreparedSpells(c, d, h);
    var o, n := Prepared(c, d), NewName(c, Newest(c, h));
    RoomNext(c, o.dir, h, 1);
    NewNameFresh(c, o.dir, h, n);
    RolledDir(c, o, h, n);
    var k := Excess(c, h + [n]);
    SameBehind(h, n, k);
    forall g | g in h[..k]
      ensures g in Rolls(c, d.dir) && g != n && g != c.name && Rename(o.dir, c.name, n)[g] == d.dir[g]
    {
      assert g in h && g in Files(h);
    }
  }

  lemma OneWrite(c: Config, first: Disk, d: Disk, b: Bytes, h: seq<string>)
    requires Ready(c, d) && Ordered(c, d, h) && Room(c, d.dir, 1) && AllFilled(c, first, d)
    ensures AllFilled(c, first, Write(c, d, b, h)) == true
  {
    if |Current(c, d)| >= c.maxSize {
      OneRoll(c, first, d, b, h);
    } else {
      WriteAppends(c, d, b, h);
    }
  }

  lemma {:induction false} RunFills(c: Config, first: Disk, d: Disk, ops: seq<Op>)
    requires Ready(c, d) && IsRun(c, d, ops) && Room(c, d.dir, |ops|) && AllFilled(c, first, d)
    ensures AllFilled(c, first, Run(c, d, ops)) == true
    decreases |ops|
  {
    if ops != [] {
      if ops[0].Writes? {
        RoomAfter(c, d, ops[0].b, ops[0].order, |ops|);
        OneWrite(c, first, d, ops[0].b, ops[0].order);
      }
      RunFills(c, first, Step(c, d, ops[0]), ops[1..]);
    }
  }

  lemma {:induction false} RunLast(c: Config, d: Disk, ops: seq<Op>, op: Op) returns (m: Disk)
    requires Ready(c, d) && IsRun(c, d, ops + [op])
    ensures IsRun(c, d, ops) && m == Run(c, d, ops) && Can(c, m, op) && Run(c, d, ops + [op]) == Step(c, m, op)
    decreases |ops|
  {
    if ops == [] {
      m := d;
      assert ops + [op] == [op];
    } else {
      assert (ops + [op])[1..] == ops[1..] + [op];
      m := RunLast(c, Step(c, d, ops[0]), ops[1..], op);
    }
  }

  /** Over any run that ends in a write: the current file holds what was written last behind something
      shorter than the limit, or nothing else; and every roll that the run made, in the directory or
      in the archive, is of the limit or longer. */
  lemma RunRolls(c: Config, d: Disk, ops: seq<Op>, b: Bytes, h: seq<string>) returns (x: Bytes)
    requires Ready(c, d) && IsRun(c, d, ops + [Writes(b, h)]) && Room(c, d.dir, |ops| + 1)
    ensures var r := Run(c, d, ops + [Writes(b, h)]);
      && Current(c, r) == x + b && (|x| < c.maxSize || x == "")
      && AllFilled(c, d, r)
  {
    var all := ops + [Writes(b, h)];
    RunFills(c, d, d, all);
    var m := RunLast(c, d, ops, Writes(b, h));
    WriteLast(c, m, b, h);
    x := if |Current(c, m)| < c.maxSize then Current(c, m) else "";
    assert "" + b == b;
  }
}
