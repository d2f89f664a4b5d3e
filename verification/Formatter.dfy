/** The formatter object and the loops of the format compiler. */
module Formatter {
  import opened FormatCompiler
  import opened GoFormat

  /** findFormatterFunc's loop: shortens the letters until they are a registered name. */
  method FindName(letters: string, names: set<string>) returns (length: nat)
    ensures length == Longest(letters, names)
  {
    var currentVerb := letters;
    var i := 0;
    while i < |letters|
      invariant 0 <= i <= |letters| && |currentVerb| == |letters| - i
      invariant Longest(letters, names) == Longest(currentVerb, names)
    {
      if currentVerb in names {
        return |currentVerb|;
      }
      currentVerb := currentVerb[..|currentVerb| - 1];
      i := i + 1;
    }
    length := 0;
  }

  class FormatterObject {
    const fmtStringOriginal: string
    const registry: Registry
    var fmtString: string
    var formatterFuncs: seq<Fn>

    constructor (formatString: string, r: Registry)
      ensures fmtStringOriginal == formatString && registry == r && fmtString == "" && formatterFuncs == []
    {
      fmtStringOriginal, registry, fmtString, formatterFuncs := formatString, r, "", [];
    }

    method ExtractLetterSequence(index: nat) returns (letters: string)
      requires index <= |fmtStringOriginal|
      ensures letters == Letters(registry, fmtStringOriginal[index..])
    {
      letters := "";
      var i := index;
      while i < |fmtStringOriginal|
        invariant index <= i <= |fmtStringOriginal|
        invariant letters + Letters(registry, fmtStringOriginal[i..]) == Letters(registry, fmtStringOriginal[index..])
      {
        assert fmtStringOriginal[i..][1..] == fmtStringOriginal[i + 1..];
        if !IsLetter(registry, fmtStringOriginal[i]) {
          return;
        }
        letters := letters + [fmtStringOriginal[i]];
        i := i + 1;
      }
      assert fmtStringOriginal[i..] == "";
    }

    method FindParameterAt(startIndex: nat) returns (p: Parameter)
      requires startIndex <= |fmtStringOriginal|
      ensures p == FindParameter(fmtStringOriginal[startIndex..])
    {
      if |fmtStringOriginal| == startIndex || fmtStringOriginal[startIndex] != '(' {
        return NoParameter;
      }
      var endIndex := IndexOf(fmtStringOriginal[startIndex..], ')');
      if endIndex == |fmtStringOriginal| - startIndex {
        return Unmatched;
      }
      p := Parameter(fmtStringOriginal[startIndex + 1..startIndex + endIndex], endIndex + 1);
      assert fmtStringOriginal[startIndex..][1..endIndex] == p.text;
    }

    method ExtractFormatterFunc(index: nat) returns (found: Found)
      requires index <= |fmtStringOriginal|
      ensures found == FindVerb(registry, fmtStringOriginal[index..])
    {
      var letterSequence := ExtractLetterSequence(index);
      if |letterSequence| == 0 {
        return NotFound;
      }
      var length := FindName(letterSequence, registry.plain);
      if length > 0 {
        return Found(Plain(letterSequence[..length]), length);
      }
      length := FindName(letterSequence, registry.parameterized);
      if length == 0 {
        return NotFound;
      }
      if length < |letterSequence| {
        return Found(Created(letterSequence[..length], ""), length);
      }
      assert fmtStringOriginal[index..][length..] == fmtStringOriginal[index + length..];
      var p := FindParameterAt(index + length);
      match p
      case NoParameter => found := Found(Created(letterSequence, ""), length);
      case Parameter(text, n) => found := Found(Created(letterSequence, text), length + n);
      case Unmatched => found := NotFound;
    }

    /** buildFormatterFuncs */
    method BuildFormatterFuncs() returns (ok: bool)
      modifies this
      ensures var c := Compile(registry, fmtStringOriginal);
        ok == c.Compiled? && (ok ==> c == Compiled(fmtString, formatterFuncs))
    {
      var fsbuf := "";
      formatterFuncs := [];
      var i := 0;
      Begins(registry, fmtStringOriginal);
      while i < |fmtStringOriginal|
        invariant 0 <= i <= |fmtStringOriginal|
        invariant Compiling(registry, fmtStringOriginal, i, fsbuf, formatterFuncs) == true
      {
        var symbol := fmtStringOriginal[i];
        if symbol != SYMBOL {
          CharCompiled(registry, fmtStringOriginal, i, fsbuf, formatterFuncs);
          fsbuf := fsbuf + [symbol];
          i := i + 1;
        } else if i == |fmtStringOriginal| - 1 {
          Dangling(registry, fmtStringOriginal, i, fsbuf, formatterFuncs);
          return false;
        } else if fmtStringOriginal[i + 1] == SYMBOL {
          DoubleCompiled(registry, fmtStringOriginal, i, fsbuf, formatterFuncs);
          fsbuf := fsbuf + [SYMBOL];
          i := i + 2;
        } else {
          var found := ExtractFormatterFunc(i + 1);
          VerbCompiled(registry, fmtStringOriginal, i, fsbuf, formatterFuncs);
          if found.NotFound? {
            return false;
          }
          fsbuf := fsbuf + "%v";
          i := i + 1 + found.length;
          formatterFuncs := formatterFuncs + [found.fn];
        }
      }
      fmtString := fsbuf;
      Finishes(registry, fmtStringOriginal, fsbuf, formatterFuncs);
      ok := true;
    }

    method FormatMessage(value: Fn -> string) returns (p: Printed)
      ensures p == Format(Compiled(fmtString, formatterFuncs), value)
    {
      if |formatterFuncs| == 0 {
        return Clean(fmtString);
      }
      var params: seq<string> := [];
      var i := 0;
      while i < |formatterFuncs|
        invariant 0 <= i <= |formatterFuncs|
        invariant params + Values(formatterFuncs[i..], value) == Values(formatterFuncs, value)
      {
        assert formatterFuncs[i..][1..] == formatterFuncs[i + 1..];
        params := params + [value(formatterFuncs[i])];
        i := i + 1;
      }
      assert formatterFuncs[i..] == [] && params + [] == params;
      p := Sprintf(fmtString, params, 0, false);
    }
  }

  // ----- the loop of the compiler -----

  /** The part of `f` before `i` has been compiled to `text` and `fns`. */
  predicate Compiling(r: Registry, f: string, i: nat, text: string, fns: seq<Fn>) {
    i <= |f| && Emit(text, fns, Compile(r, f[i..])) == Compile(r, f)
  }

  lemma Emitted(text: string, fns: seq<Fn>, t: string, f: seq<Fn>, c: Compiled)
    ensures Emit(text, fns, Emit(t, f, c)) == Emit(text + t, fns + f, c)
  {
    if c.Compiled? {
      assert text + (t + c.fmtString) == text + t + c.fmtString;
      assert fns + (f + c.functions) == fns + f + c.functions;
    }
  }

  lemma Begins(r: Registry, f: string)
    ensures Compiling(r, f, 0, "", []) == true
  {
    var c := Compile(r, f);
    assert f[0..] == f;
    if c.Compiled? {
      assert "" + c.fmtString == c.fmtString && [] + c.functions == c.functions;
    }
  }

  lemma Finishes(r: Registry, f: string, text: string, fns: seq<Fn>)
    requires Compiling(r, f, |f|, text, fns)
    ensures Compile(r, f) == Compiled(text, fns)
  {
    assert f[|f|..] == "" && text + "" == text && fns + [] == fns;
  }

  lemma CompilingOn(r: Registry, f: string, i: nat, k: nat, text: string, fns: seq<Fn>, t: string, g: seq<Fn>)
    requires Compiling(r, f, i, text, fns) && i + k <= |f|
    requires Compile(r, f[i..]) == Emit(t, g, Compile(r, f[i + k..]))
    ensures Compiling(r, f, i + k, text + t, fns + g) == true
  {
    Emitted(text, fns, t, g, Compile(r, f[i + k..]));
  }

  lemma Dropped(f: string, i: nat, k: nat)
    requires i + k <= |f|
    ensures f[i..][k..] == f[i + k..]
  {
  }

  lemma NoFunction(fns: seq<Fn>)
    ensures fns + [] == fns
  {
  }

  lemma CharCompiled(r: Registry, f: string, i: nat, text: string, fns: seq<Fn>)
    requires Compiling(r, f, i, text, fns) && i < |f| && f[i] != SYMBOL
    ensures Compiling(r, f, i + 1, text + [f[i]], fns) == true
  {
    Dropped(f, i, 1);
    CompilingOn(r, f, i, 1, text, fns, [f[i]], []);
    NoFunction(fns);
  }

  lemma DoubleCompiled(r: Registry, f: string, i: nat, text: string, fns: seq<Fn>)
    requires Compiling(r, f, i, text, fns) && i + 1 < |f| && f[i] == SYMBOL && f[i + 1] == SYMBOL
    ensures Compiling(r, f, i + 2, text + [SYMBOL], fns) == true
  {
    Dropped(f, i, 2);
    CompilingOn(r, f, i, 2, text, fns, [SYMBOL], []);
    NoFunction(fns);
  }

  lemma Dangling(r: Registry, f: string, i: nat, text: string, fns: seq<Fn>)
    requires Compiling(r, f, i, text, fns) && i + 1 == |f| && f[i] == SYMBOL
    ensures Compile(r, f).FormatError?
  {
  }

  lemma VerbCompiled(r: Registry, f: string, i: nat, text: string, fns: seq<Fn>)
    requires Compiling(r, f, i, text, fns) && i + 1 < |f| && f[i] == SYMBOL && f[i + 1] != SYMBOL
    ensures FindVerb(r, f[i + 1..]).NotFound? ==> Compile(r, f).FormatError?
    ensures FindVerb(r, f[i + 1..]).Found? ==>
      var v := FindVerb(r, f[i + 1..]);
      i + 1 + v.length <= |f| && v.length > 0
      && Compiling(r, f, i + 1 + v.length, text + "%v", fns + [v.fn]) == true
  {
    Dropped(f, i, 1);
    var v := FindVerb(r, f[i + 1..]);
    if v.Found? {
      Dropped(f, i, 1 + v.length);
      CompilingOn(r, f, i, 1 + v.length, text, fns, "%v", [v.fn]);
    }
  }
}
