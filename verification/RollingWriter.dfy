/** The rolling writer object, with the loops of getSortedLogHistory and deleteOldRolls. */
module RollingWriter {
  import opened Decimal
  import opened RollingFiles
  import opened RollingProofs

  /** Puts a roll in its place in an ascending list; sort.Sort repeats this. */
  function Inserted(c: Config, h: seq<string>, f: string): seq<string>
    requires Ascending(c, h) && IsRoll(c, f)
  {
    if h == [] || Number(c, f) < Number(c, h[0]) then [f] + h else [h[0]] + Inserted(c, h[1..], f)
  }

  lemma AscendingFirst(c: Config, f: string, h: seq<string>)
    requires IsRoll(c, f) && Ascending(c, h) && f !in h && (h != [] ==> Number(c, f) <= Number(c, h[0]))
    ensures Ascending(c, [f] + h) == true && Files([f] + h) == {f} + Files(h)
  {
    var r := [f] + h;
    forall j | 0 <= j < |h| ensures Number(c, f) <= Number(c, h[j]) && f != h[j] {
      assert j > 0 ==> Number(c, h[0]) <= Number(c, h[j]);
    }
    assert forall j | 1 <= j < |r| :: r[j] == h[j - 1];
  }

  lemma AscendingRest(c: Config, h: seq<string>)
    requires Ascending(c, h) && h != []
    ensures Ascending(c, h[1..]) == true && (|h| > 1 ==> Number(c, h[0]) <= Number(c, h[1])) && h[0] !in h[1..]
    ensures Files(h) == {h[0]} + Files(h[1..])
  {
    assert h == [h[0]] + h[1..];
    FilesJoin([h[0]], h[1..]);
  }

  lemma {:induction false} InsertedAscends(c: Config, h: seq<string>, f: string)
    requires Ascending(c, h) && IsRoll(c, f) && f !in h
    ensures Ascending(c, Inserted(c, h, f)) && Files(Inserted(c, h, f)) == Files(h) + {f}
    ensures Inserted(c, h, f) != [] && (Inserted(c, h, f)[0] == f || (h != [] && Inserted(c, h, f)[0] == h[0]))
  {
    if h == [] || Number(c, f) < Number(c, h[0]) {
      AscendingFirst(c, f, h);
    } else {
      AscendingRest(c, h);
      InsertedAscends(c, h[1..], f);
      var g := Inserted(c, h[1..], f);
      assert h[0] !in g by { assert h[0] !in Files(h[1..]) + {f}; }
      AscendingFirst(c, h[0], g);
      FilesMoved(h[0], Files(h[1..]), f);
    }
  }

  lemma FilesMoved(first: string, rest: set<string>, f: string)
    ensures {first} + (rest + {f}) == {first} + rest + {f}
  {
  }

  lemma FilesJoin(a: seq<string>, b: seq<string>)
    ensures Files(a + b) == Files(a) + Files(b)
  {
  }

  lemma DeletedDisk(c: Config, d: Disk, history: seq<string>, oldest: seq<string>)
    requires 0 < c.maxRolls < |history| && oldest == history[..|history| - c.maxRolls]
    ensures DeleteOldRolls(c, d, history) ==
      Disk(Minus(d.dir, oldest), if c.zip then d.archive + Picked(d.dir, oldest) else d.archive, d.open, d.size)
  {
  }

  lemma FrontIn(m: map<string, Bytes>, fs: seq<string>, k: nat)
    requires k <= |fs| && forall f | f in fs :: f in m
    ensures forall f | f in fs[..k] :: f in m
  {
    forall f | f in fs[..k] ensures f in m { assert f in fs; }
  }

  class RollingFileWriter {
    const c: Config
    var dir: map<string, Bytes>
    var archive: map<string, Bytes>
    var currentFile: bool
    var currentFileSize: int

    constructor (config: Config, files: map<string, Bytes>, archived: map<string, Bytes>)
      ensures c == config && View() == Disk(files, archived, false, 0)
    {
      c := config;
      dir, archive, currentFile, currentFileSize := files, archived, false, 0;
    }

    function View(): Disk
      reads this
    { Disk(dir, archive, currentFile, currentFileSize) }

    method GetSortedLogHistory() returns (h: seq<string>)
      ensures Lists(c, dir, h)
    {
      h := [];
      var files := dir.Keys;
      while files != {}
        invariant files <= dir.Keys
        invariant Ascending(c, h) && Files(h) == set f | f in dir && f !in files && IsRoll(c, f)
        decreases |files|
      {
        var file :| file in files;
        if IsRoll(c, file) {
          assert file in Rolls(c, dir) && file !in Files(h);
          InsertedAscends(c, h, file);
          h := Inserted(c, h, file);
        }
        files := files - {file};
      }
    }

    method CreateFileAndFolderIfNeeded()
      modifies `dir, `currentFile, `currentFileSize
      ensures View() == OpenFile(c, old(View()))
    {
      if c.name in dir {
        currentFileSize := |dir[c.name]|;
      } else {
        dir := dir[c.name := ""];
        currentFileSize := 0;
      }
      currentFile := true;
    }

    method DeleteRolls(history: seq<string>)
      requires forall f | f in history :: f in dir
      modifies `dir, `archive
      ensures View() == RollingFiles.DeleteOldRolls(c, old(View()), history)
    {
      if c.maxRolls <= 0 {
        return;
      }
      var rollsToDelete := |history| - c.maxRolls;
      if rollsToDelete <= 0 {
        return;
      }
      var oldest := history[..rollsToDelete];
      if c.zip {
        FrontIn(dir, history, rollsToDelete);
        ArchiveFiles(oldest);
      }
      RemoveFiles(oldest);
      DeletedDisk(c, old(View()), history, oldest);
    }

    /** Puts the files into the archive. */
    method ArchiveFiles(oldest: seq<string>)
      requires forall f | f in oldest :: f in dir
      modifies `archive
      ensures archive == old(archive) + Picked(dir, oldest)
    {
      var files := archive;
      var i := 0;
      while i < |oldest|
        invariant 0 <= i <= |oldest| && archive == old(archive)
        invariant files == archive + Picked(dir, oldest[..i])
      {
        assert oldest[..i + 1] == oldest[..i] + [oldest[i]];
        files := files[oldest[i] := dir[oldest[i]]];
        i := i + 1;
      }
      assert oldest[..i] == oldest;
      archive := files;
    }

    /** Removes the files from the directory. */
    method RemoveFiles(oldest: seq<string>)
      modifies `dir
      ensures dir == Minus(old(dir), oldest)
    {
      var i := 0;
      while i < |oldest|
        invariant 0 <= i <= |oldest|
        invariant dir == Minus(old(dir), oldest[..i])
      {
        assert oldest[..i + 1] == oldest[..i] + [oldest[i]];
        dir := dir - {oldest[i]};
        i := i + 1;
      }
      assert oldest[..i] == oldest;
    }

    /** Renames the current file; `history` is the sorted history before. */
    method RenameCurrent(history: seq<string>) returns (longer: seq<string>)
      requires c.name in dir && Lists(c, dir, history)
      modifies `dir
      ensures var name := NewName(c, Newest(c, history));
        longer == history + [name] && View() == old(View()).(dir := Rename(old(dir), c.name, name))
      ensures forall f | f in longer :: f in dir
    {
      var newest := 0;
      if |history| > 0 {
        newest := Number(c, history[|history| - 1]);
      }
      var newHistoryName := FullName(c, FormatInt(Next(newest)));
      RollNameOf(c, FormatInt(Next(newest)));
      forall f | f in history ensures f in dir && f != c.name { assert f in Files(history); }
      dir := Rename(dir, c.name, newHistoryName);
      longer := history + [newHistoryName];
    }

    /** The rolling half of Write. */
    method RollOver() returns (ghost history: seq<string>)
      requires c.name in dir
      modifies `dir, `archive, `currentFile, `currentFileSize
      ensures Lists(c, old(dir), history) && View() == Roll(c, old(View()), history)
    {
      var h := GetSortedLogHistory();
      history := h;
      h := RenameCurrent(h);
      if |h| > c.maxRolls {
        DeleteRolls(h);
      }
      CreateFileAndFolderIfNeeded();
    }

    method Write(bytes: Bytes) returns (n: nat, ghost order: seq<string>)
      requires Ready(c, View())
      modifies `dir, `archive, `currentFile, `currentFileSize
      ensures Ordered(c, old(View()), order)
      ensures View() == RollingFiles.Write(c, old(View()), bytes, order) && n == |bytes|
      ensures var was := old(Current(c, View()));
        Current(c, View()) == if |was| < c.maxSize then was + bytes else bytes
    {
      if !currentFile {
        CreateFileAndFolderIfNeeded();
      }
      assert View() == Prepared(c, old(View()));
      order := [];
      if currentFileSize >= c.maxSize {
        order := RollOver();
      }
      currentFileSize := currentFileSize + |bytes|;
      dir := dir[c.name := dir[c.name] + bytes];
      n := |bytes|;
      WriteLast(c, old(View()), bytes, order);
    }

    method Close()
      modifies `currentFile
      ensures View() == RollingFiles.Close(old(View()))
    {
      currentFile := false;
    }
  }
}
