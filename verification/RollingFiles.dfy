/** The files of the size-rolling writer: names, roll numbers, history, and what one Write or
    Close does to the directory and the archive.  Directory and archive are maps from
    file names to contents; file operations succeed. */
module RollingFiles {
  import opened Decimal
  import opened Sequences

  type Bytes = string

  /** The writer's settings; `postfix` is the name mode, `zip` the archive type. */
  datatype Config = Config(name: string, postfix: bool, maxSize: int, maxRolls: int, zip: bool)

  /** `open` says that currentFile is not nil; `size` is currentFileSize. */
  datatype Disk = Disk(dir: map<string, Bytes>, archive: map<string, Bytes>, open: bool, size: int)

  // ----- names -----

  /** createFullFileName */
  function FullName(c: Config, roll: string): string {
    if c.postfix then c.name + "." + roll else roll + "." + c.name
  }

  /** hasRollName */
  predicate HasRollName(c: Config, file: string) {
    if c.postfix then c.name + "." <= file
    else |file| > |c.name| && file[|file| - |c.name| - 1..] == "." + c.name
  }

  /** getFileRollName */
  function RollName(c: Config, file: string): string
    requires HasRollName(c, file)
  {
    if c.postfix then file[|c.name| + 1..] else file[..|file| - |c.name| - 1]
  }

  lemma RollNameOf(c: Config, roll: string)
    ensures HasRollName(c, FullName(c, roll)) && RollName(c, FullName(c, roll)) == roll
    ensures FullName(c, roll) != c.name
  {
    var f := FullName(c, roll);
    if c.postfix {
      assert f == (c.name + ".") + roll;
    } else {
      assert f == roll + ("." + c.name);
    }
    assert |f| > |c.name|;
  }

  lemma FullNameOf(c: Config, file: string)
    requires HasRollName(c, file)
    ensures FullName(c, RollName(c, file)) == file
  {
    var r := RollName(c, file);
    if c.postfix {
      assert file == (c.name + ".") + r;
    } else {
      assert file == r + file[|file| - |c.name| - 1..];
      assert r + "." + c.name == r + ("." + c.name);
    }
  }

  /** A history file: its roll name is a number that fits an int. */
  predicate IsRoll(c: Config, file: string) {
    file != c.name && HasRollName(c, file) && ParseInt(RollName(c, file)).Exact?
  }

  function Number(c: Config, file: string): int
    requires IsRoll(c, file)
  { ParseInt(RollName(c, file)).n }

  // ----- history -----

  function Rolls(c: Config, dir: map<string, Bytes>): set<string> { set f | f in dir && IsRoll(c, f) }

  function Files(fs: seq<string>): set<string> { set f | f in fs }

  /** Sorted by number, each file once.  Files of one number, such as 1 and 01, may stand in either
      order: sort.Sort says nothing about them. */
  predicate Ascending(c: Config, fs: seq<string>) {
    && (forall i | 0 <= i < |fs| :: IsRoll(c, fs[i]))
    && forall i, j | 0 <= i < j < |fs| :: Number(c, fs[i]) <= Number(c, fs[j]) && fs[i] != fs[j]
  }

  /** `h` is a sorted history of the directory, as getSortedLogHistory may return it. */
  predicate Lists(c: Config, dir: map<string, Bytes>, h: seq<string>) {
    Ascending(c, h) && Files(h) == Rolls(c, dir)
  }

  predicate Distinct(c: Config, fs: set<string>) {
    forall f, g | f in fs && g in fs && IsRoll(c, f) && IsRoll(c, g) && Number(c, f) == Number(c, g) :: f == g
  }

  lemma EmptyFiles(a: seq<string>)
    ensures Files(a) == {} <==> a == []
  {
    if a != [] {
      assert a[0] in Files(a);
    }
  }

  /** When the numbers differ, there is only one sorted history. */
  lemma {:induction false} OneOrder(c: Config, a: seq<string>, b: seq<string>)
    requires Ascending(c, a) && Ascending(c, b) && Files(a) == Files(b) && Distinct(c, Files(a))
    ensures a == b
    decreases |a|
  {
    EmptyFiles(a);
    EmptyFiles(b);
    if a != [] {
      SameFirst(c, a, b);
      TailFiles(c, a);
      TailFiles(c, b);
      OneOrder(c, a[1..], b[1..]);
      FirstAndRest(a);
      FirstAndRest(b);
    }
  }

  lemma SameFirst(c: Config, a: seq<string>, b: seq<string>)
    requires Ascending(c, a) && Ascending(c, b) && Files(a) == Files(b) && Distinct(c, Files(a))
    requires a != [] && b != []
    ensures a[0] == b[0]
  {
    assert a[0] in Files(b) && b[0] in Files(a);
    var i :| 0 <= i < |b| && b[i] == a[0];
    var j :| 0 <= j < |a| && a[j] == b[0];
    assert Number(c, b[0]) <= Number(c, b[i]) && Number(c, a[0]) <= Number(c, a[j]);
  }

  lemma FirstAndRest(a: seq<string>)
    requires a != []
    ensures a == [a[0]] + a[1..]
  {
  }

  lemma TailFiles(c: Config, a: seq<string>)
    requires Ascending(c, a) && a != []
    ensures Ascending(c, a[1..]) == true && Files(a[1..]) == Files(a) - {a[0]}
  {
    forall f | f in Files(a) - {a[0]} ensures f in Files(a[1..]) {
      var i :| 0 <= i < |a| && a[i] == f;
      assert f == a[1..][i - 1];
    }
    forall i | 0 <= i < |a[1..]| ensures a[1..][i] != a[0] {
      assert a[1..][i] == a[i + 1];
    }
  }

  // ----- contents -----

  function Contents(m: map<string, Bytes>, fs: seq<string>): Bytes {
    if fs == [] then "" else (if fs[0] in m then m[fs[0]] else "") + Contents(m, fs[1..])
  }

  function Current(c: Config, d: Disk): Bytes { if c.name in d.dir then d.dir[c.name] else "" }

  /** What the files of the history `h` and then the current file spell. */
  function Spell(c: Config, d: Disk, h: seq<string>): Bytes { Contents(d.dir, h) + Current(c, d) }

  lemma {:induction false} ContentsAppend(m: map<string, Bytes>, a: seq<string>, b: seq<string>)
    ensures Contents(m, a + b) == Contents(m, a) + Contents(m, b)
  {
    if a == [] {
      assert a + b == b;
    } else {
      ContentsAppend(m, a[1..], b);
      RestOfSum(a, b);
      Assoc(if a[0] in m then m[a[0]] else "", Contents(m, a[1..]), Contents(m, b));
    }
  }

  lemma RestOfSum(a: seq<string>, b: seq<string>)
    requires a != []
    ensures (a + b)[0] == a[0] && (a + b)[1..] == a[1..] + b
  {
  }

  lemma {:induction false} ContentsSame(m: map<string, Bytes>, n: map<string, Bytes>, fs: seq<string>)
    requires forall f | f in fs :: f in m && f in n && m[f] == n[f]
    ensures Contents(m, fs) == Contents(n, fs)
  {
    if fs != [] {
      assert fs[0] in fs && forall f | f in fs[1..] :: f in fs;
      ContentsSame(m, n, fs[1..]);
    }
  }

  // ----- one write -----

  /** createFileAndFolderIfNeeded */
  function OpenFile(c: Config, d: Disk): Disk {
    if c.name in d.dir then d.(open := true, size := |d.dir[c.name]|)
    else d.(dir := d.dir[c.name := ""], open := true, size := 0)
  }

  function Minus(m: map<string, Bytes>, fs: seq<string>): map<string, Bytes> { m - Files(fs) }

  function Picked(m: map<string, Bytes>, fs: seq<string>): map<string, Bytes> {
    map f | f in Files(fs) && f in m :: m[f]
  }

  /** deleteOldRolls */
  function DeleteOldRolls(c: Config, d: Disk, history: seq<string>): Disk {
    var toDelete := |history| - c.maxRolls;
    if c.maxRolls <= 0 || toDelete <= 0 then d
    else
      var old_ := history[..toDelete];
      d.(dir := Minus(d.dir, old_), archive := if c.zip then d.archive + Picked(d.dir, old_) else d.archive)
  }

  /** Addition on int wraps around. */
  function Next(n: int): int { if n == MAX_INT64 then MIN_INT64 else n + 1 }

  /** getNewHistoryRollFileName, behind the number of the newest roll. */
  function NewName(c: Config, newest: int): string { FullName(c, FormatInt(Next(newest))) }

  /** The first roll is number 1, behind the name or in front of it. */
  lemma FirstName(c: Config)
    ensures NewName(c, 0) == if c.postfix then c.name + ".1" else "1." + c.name
  {
    assert FormatInt(1) == "1";
    assert "." + "1" == ".1" && c.name + "." + "1" == c.name + ".1" && "1" + "." == "1.";
  }

  function Newest(c: Config, history: seq<string>): int
    requires history != [] ==> IsRoll(c, history[|history| - 1])
  { if history == [] then 0 else Number(c, history[|history| - 1]) }

  function Rename(m: map<string, Bytes>, from: string, to: string): map<string, Bytes>
    requires from in m
  { (m - {from})[to := m[from]] }

  /** The rolling half of Write, given the sorted history. */
  function Roll(c: Config, d: Disk, history: seq<string>): Disk
    requires c.name in d.dir && (history != [] ==> IsRoll(c, history[|history| - 1]))
  {
    var name := NewName(c, Newest(c, history));
    var r := d.(dir := Rename(d.dir, c.name, name));
    var h := history + [name];
    OpenFile(c, if |h| > c.maxRolls then DeleteOldRolls(c, r, h) else r)
  }

  /** While the current file is open, it exists and its size is known. */
  predicate Ready(c: Config, d: Disk) {
    d.open ==> c.name in d.dir && d.size == |d.dir[c.name]|
  }

  function Prepared(c: Config, d: Disk): Disk { if d.open then d else OpenFile(c, d) }

  function Append(c: Config, d: Disk, b: Bytes): Disk {
    d.(dir := d.dir[c.name := Current(c, d) + b], size := d.size + |b|)
  }

  /** needsToRoll, once the current file is open. */
  predicate Rolling(c: Config, d: Disk) { Prepared(c, d).size >= c.maxSize }

  /** A write that rolls meets the history in the order `h`. */
  predicate Ordered(c: Config, d: Disk, h: seq<string>) { Rolling(c, d) ==> Lists(c, Prepared(c, d).dir, h) }

  function RollIfFull(c: Config, d: Disk, h: seq<string>): Disk
    requires Ready(c, d) && Ordered(c, d, h)
  { if Rolling(c, d) then Roll(c, Prepared(c, d), h) else Prepared(c, d) }

  function Write(c: Config, d: Disk, b: Bytes, h: seq<string>): (w: Disk)
    requires Ready(c, d) && Ordered(c, d, h)
    ensures Ready(c, w)
  { Append(c, RollIfFull(c, d, h), b) }

  function Close(d: Disk): Disk { d.(open := false) }

  /** `order` is the order in which a write that rolls meets the history. */
  datatype Op = Writes(b: Bytes, order: seq<string>) | Closes

  predicate Can(c: Config, d: Disk, op: Op) { op.Writes? ==> Ordered(c, d, op.order) }

  function Step(c: Config, d: Disk, op: Op): (r: Disk)
    requires Ready(c, d) && Can(c, d, op)
    ensures Ready(c, r)
  { match op case Writes(b, order) => Write(c, d, b, order) case Closes => Close(d) }

  predicate IsRun(c: Config, d: Disk, ops: seq<Op>)
    requires Ready(c, d)
    decreases |ops|
  {
    ops == [] || (Can(c, d, ops[0]) && IsRun(c, Step(c, d, ops[0]), ops[1..]))
  }

  function Run(c: Config, d: Disk, ops: seq<Op>): (r: Disk)
    requires Ready(c, d) && IsRun(c, d, ops)
    ensures Ready(c, r)
    decreases |ops|
  {
    if ops == [] then d else Run(c, Step(c, d, ops[0]), ops[1..])
  }

  function Written(ops: seq<Op>): Bytes {
    if ops == [] then "" else (if ops[0].Writes? then ops[0].b else "") + Written(ops[1..])
  }
}
