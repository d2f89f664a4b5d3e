/** The format compiler: a format string becomes a Sprintf string and a list of functions.
    Characters have width one.  The registries of verbs, and the letters that unicode.IsLetter
    knows beyond a-z and A-Z, are parameters. */
module FormatCompiler {
  import opened GoFormat
  import opened Sequences

  datatype Registry = Registry(plain: set<string>, parameterized: set<string>, letters: set<char>)

  /** A stored function: a registered one, or one that a registered creator makes. */
  datatype Fn = Plain(name: string) | Created(name: string, parameter: string)

  predicate IsLetter(r: Registry, c: char) { 'A' <= c <= 'Z' || 'a' <= c <= 'z' || (c > '~' && c in r.letters) }

  // ----- finding a verb -----

  function Letters(r: Registry, s: string): (t: string)
    ensures |t| <= |s|
  {
    if s == "" || !IsLetter(r, s[0]) then "" else [s[0]] + Letters(r, s[1..])
  }

  /** Length of the longest non-empty prefix that is a registered name, or 0. */
  function Longest(letters: string, names: set<string>): (k: nat)
    ensures k <= |letters|
    ensures k > 0 ==> letters[..k] in names
    ensures forall j | k < j <= |letters| :: letters[..j] !in names
  {
    if letters == "" then 0
    else if letters in names then assert letters[..|letters|] == letters; |letters|
    else
      var shorter := letters[..|letters| - 1];
      assert letters[..|letters|] == letters;
      assert forall j | 0 <= j < |letters| :: letters[..j] == shorter[..j];
      Longest(shorter, names)
  }

  function IndexOf(s: string, c: char): (i: nat)
    ensures i <= |s| && (i < |s| ==> s[i] == c) && c !in s[..i]
  {
    if s == "" || s[0] == c then 0 else 1 + IndexOf(s[1..], c)
  }

  datatype Parameter = NoParameter | Parameter(text: string, length: nat) | Unmatched

  function FindParameter(s: string): Parameter {
    if s == "" || s[0] != '(' then NoParameter
    else
      var end := IndexOf(s, ')');
      if end == |s| then Unmatched else Parameter(s[1..end], end + 1)
  }

  datatype Found = Found(fn: Fn, length: nat) | NotFound

  /** The verb at the start of `s`, which is the text behind a formatter symbol: the longest
      registered parameterless prefix of its letters; failing that the longest
      registered parameterized one, with its argument if it is followed by one. */
  function FindVerb(r: Registry, s: string): (f: Found)
    ensures f.Found? ==> 0 < f.length <= |s|
  {
    var letters := Letters(r, s);
    var k := Longest(letters, r.plain);
    var p := Longest(letters, r.parameterized);
    if k > 0 then Found(Plain(letters[..k]), k)
    else if p == 0 then NotFound
    else if p < |letters| then Found(Created(letters[..p], ""), p)
    else
      match FindParameter(s[p..])
      case NoParameter => Found(Created(letters, ""), p)
      case Parameter(text, n) => Found(Created(letters, text), p + n)
      case Unmatched => NotFound
  }

  // ----- what a format string means -----

  datatype Meaning = Meaning(text: string) | Rejected

  /** The direct left-to-right interpretation, given the value of each function for the message. */
  function Interpret(r: Registry, f: string, value: Fn -> string): Meaning
    decreases |f|
  {
    if f == "" then Meaning("")
    else if f[0] != SYMBOL then Put([f[0]], Interpret(r, f[1..], value))
    else if |f| == 1 then Rejected
    else if f[1] == SYMBOL then Put([SYMBOL], Interpret(r, f[2..], value))
    else
      match FindVerb(r, f[1..])
      case NotFound => Rejected
      case Found(fn, n) => Put(value(fn), Interpret(r, f[1 + n..], value))
  }

  function Put(text: string, m: Meaning): Meaning {
    match m case Meaning(rest) => Meaning(text + rest) case Rejected => Rejected
  }

  // ----- the compiler -----

  datatype Compiled = Compiled(fmtString: string, functions: seq<Fn>) | FormatError

  function Emit(text: string, fns: seq<Fn>, c: Compiled): Compiled {
    match c case Compiled(rest, more) => Compiled(text + rest, fns + more) case FormatError => FormatError
  }

  /** buildFormatterFuncs */
  function Compile(r: Registry, f: string): Compiled
    decreases |f|
  {
    if f == "" then Compiled("", [])
    else if f[0] != SYMBOL then Emit([f[0]], [], Compile(r, f[1..]))
    else if |f| == 1 then FormatError
    else if f[1] == SYMBOL then Emit([SYMBOL], [], Compile(r, f[2..]))
    else
      match FindVerb(r, f[1..])
      case NotFound => FormatError
      case Found(fn, n) => Emit("%v", [fn], Compile(r, f[1 + n..]))
  }

  /** How many doubled symbols the scan meets. */
  function Doubled(r: Registry, f: string): nat
    decreases |f|
  {
    if |f| < 2 then 0
    else if f[0] != SYMBOL then Doubled(r, f[1..])
    else if f[1] == SYMBOL then 1 + Doubled(r, f[2..])
    else
      match FindVerb(r, f[1..])
      case NotFound => 0
      case Found(_, n) => Doubled(r, f[1 + n..])
  }

  // ----- Format -----

  function Values(fns: seq<Fn>, value: Fn -> string): (r: seq<string>)
    ensures |r| == |fns|
  {
    if fns == [] then [] else [value(fns[0])] + Values(fns[1..], value)
  }

  function Format(c: Compiled, value: Fn -> string): Printed
    requires c.Compiled?
  {
    if c.functions == [] then Clean(c.fmtString) else Sprintf(c.fmtString, Values(c.functions, value), 0, false)
  }

  // ----- the compiler against the meaning -----

  lemma {:induction false} SameRejections(r: Registry, f: string, value: Fn -> string)
    ensures Compile(r, f).Compiled? <==> Interpret(r, f, value).Meaning?
    decreases |f|
  {
    if f != "" {
      if f[0] != SYMBOL {
        SameRejections(r, f[1..], value);
      } else if |f| > 1 {
        if f[1] == SYMBOL {
          SameRejections(r, f[2..], value);
        } else {
          var v := FindVerb(r, f[1..]);
          if v.Found? {
            SameRejections(r, f[1 + v.length..], value);
          }
        }
      }
    }
  }

  function Symbols(s: string): nat {
    if s == "" then 0 else (if s[0] == SYMBOL then 1 else 0) + Symbols(s[1..])
  }

  lemma {:induction false} SymbolsAppend(a: string, b: string)
    ensures Symbols(a + b) == Symbols(a) + Symbols(b)
  {
    if a == "" {
      assert a + b == b;
    } else {
      SymbolsAppend(a[1..], b);
      assert (a + b)[1..] == a[1..] + b;
    }
  }

  lemma SymbolsVerb(rest: string)
    ensures Symbols("%v" + rest) == 1 + Symbols(rest)
  {
    SymbolsAppend("%v", rest);
    assert "%v"[1..] == "v";
  }

  lemma SymbolsChar(c: char, rest: string)
    ensures Symbols([c] + rest) == (if c == SYMBOL then 1 else 0) + Symbols(rest)
  {
    assert ([c] + rest)[1..] == rest;
  }

  lemma OneMore(fn: Fn, fns: seq<Fn>)
    ensures |[fn] + fns| == 1 + |fns|
  {
  }

  /** The compiled string holds one %v for each function and one symbol for each doubled one. */
  lemma {:induction false} CompiledSymbols(r: Registry, f: string)
    requires Compile(r, f).Compiled?
    ensures Symbols(Compile(r, f).fmtString) == |Compile(r, f).functions| + Doubled(r, f)
    decreases |f|
  {
    if f != "" {
      if f[0] != SYMBOL {
        CompiledSymbols(r, f[1..]);
        SymbolsChar(f[0], Compile(r, f[1..]).fmtString);
      } else if f[1] == SYMBOL {
        CompiledSymbols(r, f[2..]);
        SymbolsChar(SYMBOL, Compile(r, f[2..]).fmtString);
      } else {
        var v := FindVerb(r, f[1..]);
        var c := Compile(r, f[1 + v.length..]);
        CompiledSymbols(r, f[1 + v.length..]);
        SymbolsVerb(c.fmtString);
        OneMore(v.fn, c.functions);
      }
    }
  }

  lemma NoFunction(text: string, c: Compiled)
    requires c.Compiled?
    ensures Emit(text, [], c) == Compiled(text + c.fmtString, c.functions)
  {
    assert [] + c.functions == c.functions;
  }

  /** A prefix of the compiled string is dropped. */
  lemma Behind(text: string, rest: string)
    ensures (text + rest)[|text|..] == rest
  {
  }

  lemma ValuesAt(fns: seq<Fn>, value: Fn -> string, k: nat)
    requires k < |fns|
    ensures Values(fns, value)[k] == value(fns[k])
  {
    if k > 0 {
      ValuesAt(fns[1..], value, k - 1);
    }
  }

  lemma VerbArgument(fn: Fn, more: seq<Fn>, value: Fn -> string, args: seq<string>, next: nat)
    requires next <= |args| && args[next..] == Values([fn] + more, value)
    ensures next < |args| && args[next] == value(fn) && args[next + 1..] == Values(more, value)
  {
    assert ([fn] + more)[1..] == more;
    assert args[next..][0] == args[next] && args[next..][1..] == args[next + 1..];
  }

  // ----- literal pieces -----

  function Before(text: string, pieces: seq<string>): seq<string>
    requires pieces != []
  { [text + pieces[0]] + pieces[1..] }

  /** The literal text in front of, between and behind the verbs, a doubled symbol being one. */
  function Pieces(r: Registry, f: string): (p: seq<string>)
    ensures p != []
    decreases |f|
  {
    if f == "" || (f[0] == SYMBOL && |f| == 1) then [""]
    else if f[0] != SYMBOL then Before([f[0]], Pieces(r, f[1..]))
    else if f[1] == SYMBOL then Before([SYMBOL], Pieces(r, f[2..]))
    else match FindVerb(r, f[1..]) case NotFound => [""] case Found(_, n) => [""] + Pieces(r, f[1 + n..])
  }

  /** The pieces with the arguments between them. */
  function Woven(pieces: seq<string>, args: seq<string>): string
    requires |pieces| == |args| + 1
    decreases |args|
  {
    if args == [] then pieces[0] else pieces[0] + (args[0] + Woven(pieces[1..], args[1..]))
  }

  lemma WovenBefore(text: string, pieces: seq<string>, args: seq<string>)
    requires |pieces| == |args| + 1
    ensures Woven(Before(text, pieces), args) == text + Woven(pieces, args)
  {
    assert Before(text, pieces)[1..] == pieces[1..];
    if args != [] {
      Assoc(text, pieces[0], args[0] + Woven(pieces[1..], args[1..]));
    }
  }

  lemma WovenVerb(pieces: seq<string>, arg: string, args: seq<string>)
    requires |pieces| == |args| + 1
    ensures Woven([""] + pieces, [arg] + args) == arg + Woven(pieces, args)
  {
    assert ([""] + pieces)[1..] == pieces && ([arg] + args)[1..] == args;
    assert "" + (arg + Woven(pieces, args)) == arg + Woven(pieces, args);
  }

  lemma ValuesFirst(fn: Fn, more: seq<Fn>, value: Fn -> string)
    ensures Values([fn] + more, value) == [value(fn)] + Values(more, value)
  {
    assert ([fn] + more)[1..] == more;
  }

  /** The interpretation is the pieces with what the functions say between them, in their order. */
  lemma {:induction false} MeaningWoven(r: Registry, f: string, value: Fn -> string)
    requires Compile(r, f).Compiled?
    ensures |Pieces(r, f)| == |Compile(r, f).functions| + 1
    ensures Interpret(r, f, value) == Meaning(Woven(Pieces(r, f), Values(Compile(r, f).functions, value)))
    decreases |f|
  {
    if f != "" && f[0] == SYMBOL && f[1] != SYMBOL {
      var v := FindVerb(r, f[1..]);
      var rest := f[1 + v.length..];
      MeaningWoven(r, rest, value);
      ValuesFirst(v.fn, Compile(r, rest).functions, value);
      WovenVerb(Pieces(r, rest), value(v.fn), Values(Compile(r, rest).functions, value));
    } else if f != "" {
      var rest := if f[0] == SYMBOL then f[2..] else f[1..];
      MeaningWoven(r, rest, value);
      NoFunction([f[0]], Compile(r, rest));
      WovenBefore([f[0]], Pieces(r, rest), Values(Compile(r, rest).functions, value));
    }
  }

  /** The compiled string is what the format string means when every function says "%v". */
  lemma {:induction false} CompiledMeans(r: Registry, f: string, value: Fn -> string)
    requires Compile(r, f).Compiled? && forall fn :: value(fn) == "%v"
    ensures Interpret(r, f, value) == Meaning(Compile(r, f).fmtString)
    decreases |f|
  {
    if f != "" && f[0] == SYMBOL && f[1] != SYMBOL {
      CompiledMeans(r, f[1 + FindVerb(r, f[1..]).length..], value);
    } else if f != "" {
      CompiledMeans(r, if f[0] == SYMBOL then f[2..] else f[1..], value);
    }
  }

  /** The compiled string is the literal pieces with one %v between them for each stored function, and
      the interpretation is the same pieces with what the functions say, in their order. */
  lemma CompiledPieces(r: Registry, f: string, value: Fn -> string)
    requires Compile(r, f).Compiled?
    ensures var c, p := Compile(r, f), Pieces(r, f);
      && |p| == |c.functions| + 1
      && c.fmtString == Woven(p, seq(|c.functions|, i => "%v"))
      && Interpret(r, f, value) == Meaning(Woven(p, Values(c.functions, value)))
  {
    var verb := (fn: Fn) => "%v";
    CompiledMeans(r, f, verb);
    MeaningWoven(r, f, verb);
    MeaningWoven(r, f, value);
    VerbValues(Compile(r, f).functions, verb);
  }

  lemma {:induction false} VerbValues(fns: seq<Fn>, value: Fn -> string)
    requires forall fn :: value(fn) == "%v"
    ensures Values(fns, value) == seq(|fns|, i => "%v")
  {
    if fns != [] {
      VerbValues(fns[1..], value);
    }
  }

  /** Without doubled symbols, Sprintf on the compiled string gives the interpretation; `args` may
      hold more arguments in front, which have been printed. */
  lemma {:induction false} CompiledPrints(r: Registry, f: string, value: Fn -> string, args: seq<string>, next: nat)
    requires Compile(r, f).Compiled? && Doubled(r, f) == 0
    requires next <= |args| && args[next..] == Values(Compile(r, f).functions, value)
    ensures var m := Interpret(r, f, value);
      m.Meaning? && Sprintf(Compile(r, f).fmtString, args, next, false) == Clean(m.text)
    decreases |f|
  {
    if |f| >= 2 && f[0] == SYMBOL {
      var v := FindVerb(r, f[1..]);
      var rest := f[1 + v.length..];
      var c := Compile(r, rest);
      VerbArgument(v.fn, c.functions, value, args, next);
      CompiledPrints(r, rest, value, args, next + 1);
      Behind("%v", c.fmtString);
    } else if f != "" {
      var c := Compile(r, f[1..]);
      NoFunction([f[0]], c);
      CompiledPrints(r, f[1..], value, args, next);
      Behind([f[0]], c.fmtString);
    }
  }

  /** Without functions the compiled string is the interpretation. */
  lemma {:induction false} CompiledText(r: Registry, f: string, value: Fn -> string)
    requires Compile(r, f).Compiled? && Compile(r, f).functions == []
    ensures Interpret(r, f, value) == Meaning(Compile(r, f).fmtString)
    decreases |f|
  {
    if f != "" {
      if f[0] != SYMBOL {
        CompiledText(r, f[1..], value);
      } else if f[1] == SYMBOL {
        CompiledText(r, f[2..], value);
      }
    }
  }

  /** Compilation preserves meaning: a format string that does not mix doubled symbols with verbs
      prints its interpretation, whatever the functions say. */
  lemma FormatMeans(r: Registry, f: string, value: Fn -> string)
    requires Compile(r, f).Compiled? && (Compile(r, f).functions == [] || Doubled(r, f) == 0)
    ensures Interpret(r, f, value).Meaning?
    ensures Format(Compile(r, f), value) == Clean(Interpret(r, f, value).text)
  {
    var c := Compile(r, f);
    if c.functions == [] {
      CompiledText(r, f, value);
    } else {
      assert Values(c.functions, value)[0..] == Values(c.functions, value);
      CompiledPrints(r, f, value, Values(c.functions, value), 0);
    }
  }
}
