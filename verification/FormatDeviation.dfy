/** When Format does not print the interpretation: as soon as doubled symbols and verbs are mixed
    there is a message for which it prints something else. */
module FormatDeviation {
  import opened FormatCompiler
  import opened GoFormat
  import opened Sequences

  /** Every function says "z". */
  ghost predicate SaysZ(value: Fn -> string) { forall fn :: value(fn) == "z" }

  predicate AllZ(args: seq<string>) { forall i | 0 <= i < |args| :: args[i] == "z" }

  /** Text that is still owed: symbols and flags. */
  predicate Owed(w: string) { forall i | 0 <= i < |w| :: w[i] == SYMBOL || IsFlag(w[i]) }

  predicate StartsDoubled(f: string) { |f| > 1 && f[0] == SYMBOL && f[1] == SYMBOL }

  /** The text that is wanted, where `w` is still owed. */
  function Wanted(r: Registry, f: string, value: Fn -> string, w: string): string
    requires Interpret(r, f, value).Meaning?
  { w + Interpret(r, f, value).text }

  // ----- how the wanted text and the output start -----

  /** The wanted text of a format that starts with a verb, a pair or a plain character. */
  lemma WantedFirst(r: Registry, f: string, value: Fn -> string)
    requires SaysZ(value) && Interpret(r, f, value).Meaning? && f != ""
    ensures Interpret(r, f, value).text != ""
    ensures Interpret(r, f, value).text[0] == if f[0] == SYMBOL && f[1] != SYMBOL then 'z' else f[0]
  {
  }

  /** So does the compiled string. */
  lemma CompiledFirst(r: Registry, f: string)
    requires Compile(r, f).Compiled?
    ensures var c := Compile(r, f).fmtString;
      && (c == "" <==> f == "") && (f != "" ==> c[0] == f[0])
      && (f != "" && f[0] == SYMBOL && !StartsDoubled(f) ==> |c| > 1 && c[1] == 'v')
      && (StartsDoubled(f) ==> Compile(r, f[2..]).Compiled? && c == [SYMBOL] + Compile(r, f[2..]).fmtString)
  {
  }

  /** What is printed for a verb of the compiled string is "z" or an error note. */
  lemma VerbFirst(fmt: string, args: seq<string>, next: nat, reordered: bool, t: string)
    requires AllZ(args) && |fmt| > 1 && fmt[0] == SYMBOL && (fmt[1] == 'v' || IndexedLength(fmt) > 0)
    requires MayBe(Sprintf(fmt, args, next, reordered), t)
    ensures t != "" && (t[0] == 'z' || IsNote(t))
  {
    if fmt[1] == 'v' {
      if next < |args| {
        FirstOfOutput("z", Sprintf(fmt[2..], args, next + 1, reordered), t);
      } else {
        FirstOfOutput("%!v(MISSING)", Sprintf(fmt[2..], args, next, reordered), t);
      }
    } else {
      var n, rest := Index(fmt), fmt[IndexedLength(fmt)..];
      if 1 <= n <= |args| {
        FirstOfOutput("z", Sprintf(rest, args, n, true), t);
      } else {
        FirstOfOutput("%!v(BADINDEX)", Sprintf(rest, args, next, true), t);
      }
    }
  }

  lemma EndFirst(args: seq<string>, next: nat, reordered: bool, t: string)
    requires MayBe(Sprintf("", args, next, reordered), t)
    ensures t == "" || IsNote(t)
  {
    if !reordered && next < |args| {
      assert "" + EXTRA_NOTE == EXTRA_NOTE;
      assert t[..|EXTRA_NOTE|] == EXTRA_NOTE;
    }
  }

  /** The first `k` characters of `g`, before `h`, are flags, which are copied into the compiled string
      and into the meaning. */
  predicate Copied(r: Registry, g: string, h: string, value: Fn -> string, k: nat) {
    && Compile(r, g).Compiled? && Interpret(r, g, value).Meaning?
    && Compile(r, h).Compiled? && Interpret(r, h, value).Meaning?
    && k <= |g| && h == g[k..] && Owed(g[..k])
    && Compile(r, g).fmtString == g[..k] + Compile(r, h).fmtString
    && Interpret(r, g, value).text == g[..k] + Interpret(r, h, value).text
  }

  lemma CopiedOn(r: Registry, g: string, h: string, value: Fn -> string, k: nat)
    requires g != "" && IsFlag(g[0]) && Copied(r, g[1..], h, value, k)
    ensures Copied(r, g, h, value, k + 1) == true
  {
    OneFurther(g, k);
    Assoc([g[0]], g[1..][..k], Interpret(r, h, value).text);
    Assoc([g[0]], g[1..][..k], Compile(r, h).fmtString);
  }

  lemma NoneCopied(r: Registry, g: string, value: Fn -> string)
    requires Compile(r, g).Compiled? && Interpret(r, g, value).Meaning?
    ensures Copied(r, g, g, value, 0)
  {
    assert g[0..] == g && "" + Compile(r, g).fmtString == Compile(r, g).fmtString;
    assert "" + Interpret(r, g, value).text == Interpret(r, g, value).text;
  }

  lemma {:induction false} FlagsCopied(r: Registry, g: string, value: Fn -> string) returns (h: string)
    requires Compile(r, g).Compiled? && Interpret(r, g, value).Meaning?
    ensures Copied(r, g, h, value, Flags(Compile(r, g).fmtString)) == true
    decreases |g|
  {
    CompiledFirst(r, g);
    if Flags(Compile(r, g).fmtString) == 0 {
      h := g;
      NoneCopied(r, g, value);
    } else {
      Behind([g[0]], Compile(r, g[1..]).fmtString);
      h := FlagsCopied(r, g[1..], value);
      CopiedOn(r, g, h, value, Flags(Compile(r, g[1..]).fmtString));
    }
  }

  lemma OneFurther(s: string, k: nat)
    requires k < |s|
    ensures s[..k + 1] == [s[0]] + s[1..][..k] && s[k + 1..] == s[1..][k..]
  {
  }

  // ----- behind the first doubled symbol -----

  /** Where something is owed and a verb or the end follows. */
  lemma OwedBreaks(r: Registry, f: string, value: Fn -> string, w: string, args: seq<string>, next: nat, reordered: bool)
    requires SaysZ(value) && AllZ(args) && w != "" && Owed(w) && !StartsDoubled(f) && (f == "" || f[0] == SYMBOL)
    requires Compile(r, f).Compiled? && Interpret(r, f, value).Meaning?
    ensures !MayBe(Sprintf(Compile(r, f).fmtString, args, next, reordered), Wanted(r, f, value, w))
  {
    var c, t := Compile(r, f).fmtString, Wanted(r, f, value, w);
    CompiledFirst(r, f);
    if f != "" {
      WantedFirst(r, f, value);
    }
    assert t[0] == w[0] && !IsNote(t);
    if MayBe(Sprintf(c, args, next, reordered), t) {
      if f == "" {
        EndFirst(args, next, reordered, t);
      } else {
        VerbFirst(c, args, next, reordered, t);
      }
    }
  }

  /** A plain character can only be the first one that is owed, and is then owed in its place. */
  lemma PlainOwes(r: Registry, f: string, value: Fn -> string, w: string, args: seq<string>, next: nat, reordered: bool)
    requires f != "" && f[0] != SYMBOL && w != "" && Owed(w) && Compile(r, f).Compiled? && Interpret(r, f, value).Meaning?
    requires MayBe(Sprintf(Compile(r, f).fmtString, args, next, reordered), Wanted(r, f, value, w))
    ensures Owed(w[1..] + [w[0]])
    ensures MayBe(Sprintf(Compile(r, f[1..]).fmtString, args, next, reordered), Wanted(r, f[1..], value, w[1..] + [w[0]]))
  {
    var c, t := Compile(r, f).fmtString, Wanted(r, f, value, w);
    var rest := Compile(r, f[1..]).fmtString;
    Behind([f[0]], rest);
    PrintMayBe([f[0]], Sprintf(rest, args, next, reordered), t);
    assert f[0] == t[..1][0];
    Rotated(w, f[0], Interpret(r, f[1..], value).text, t);
  }

  lemma Rotated(w: string, c: char, rest: string, t: string)
    requires w != "" && t == w + ([c] + rest) && t[0] == c && Owed(w)
    ensures t[1..] == w[1..] + [w[0]] + rest && Owed(w[1..] + [w[0]])
  {
    Assoc(w[1..], [w[0]], rest);
  }

  /** How the wanted text of a doubled symbol starts, behind which `g` follows. */
  lemma DoubledWanted(r: Registry, f: string, g: string, value: Fn -> string, w: string)
    requires SaysZ(value) && StartsDoubled(f) && g == f[2..] && Owed(w) && Interpret(r, f, value).Meaning?
    ensures Interpret(r, g, value).Meaning?
    ensures Wanted(r, f, value, w) == w + [SYMBOL] + Interpret(r, g, value).text
    ensures var t := Wanted(r, f, value, w); t != "" && (t[0] == SYMBOL || (IsFlag(t[0]) && |t| > 1))
    ensures var t := Wanted(r, f, value, w); w != "" ==> |t| > 1 && (t[1] == SYMBOL || IsFlag(t[1]))
    ensures var t := Wanted(r, f, value, w); w == "" ==> (|t| == 1 <==> g == "")
    ensures var t := Wanted(r, f, value, w);
      w == "" && g != "" ==> t[1] == if g[0] == SYMBOL && g[1] != SYMBOL then 'z' else g[0]
  {
    Assoc(w, [SYMBOL], Interpret(r, g, value).text);
    if g != "" {
      WantedFirst(r, g, value);
    }
  }

  /** A doubled symbol that the compiled string reads as the start of another verb, or that ends it. */
  lemma VerbBehind(c: string, k: nat, args: seq<string>, next: nat, reordered: bool, t: string)
    requires c != "" && c[0] == SYMBOL && k == 1 + Flags(c[1..]) && AllZ(args) && Known(c)
    requires k < |c| ==> c[k] != SYMBOL
    requires MayBe(Sprintf(c, args, next, reordered), t)
    ensures t != "" && (!(t[0] == SYMBOL || IsFlag(t[0])) || IsNote(t) || IsHex(t))
  {
    if |c| > 1 && (c[1] == 'v' || IndexedLength(c) > 0) {
      VerbFirst(c, args, next, reordered, t);
    } else if k == |c| {
      FirstOfOutput("%!(NOVERB)", Sprintf("", args, next, reordered), t);
    } else if next < |args| {
      assert Sprintf(c, args, next, reordered) == Other("", args[next]);
      assert t[0..] == t;
    } else {
      FirstOfOutput("%!" + [c[k]] + "(MISSING)", Sprintf(c[k + 1..], args, next, reordered), t);
    }
  }

  /** A doubled symbol, behind which `g` follows and is not read as a pair with flags between. */
  lemma SingleBreaks(r: Registry, f: string, g: string, value: Fn -> string, w: string,
        args: seq<string>, next: nat, reordered: bool)
    requires SaysZ(value) && AllZ(args) && StartsDoubled(f) && g == f[2..] && Owed(w)
    requires Compile(r, f).Compiled? && Interpret(r, f, value).Meaning? && Known(Compile(r, f).fmtString)
    requires var s := Compile(r, f).fmtString; var k := 1 + Flags(s[1..]); k < |s| ==> s[k] != SYMBOL
    ensures !MayBe(Sprintf(Compile(r, f).fmtString, args, next, reordered), Wanted(r, f, value, w))
  {
    var c, t := Compile(r, f).fmtString, Wanted(r, f, value, w);
    var k := 1 + Flags(c[1..]);
    CompiledFirst(r, f);
    CompiledFirst(r, g);
    DoubledWanted(r, f, g, value, w);
    assert g != "" ==> c[1] == g[0];
    assert k < |c| && IndexedLength(c) == 0 ==> c[k] != '!';
    if MayBe(Sprintf(c, args, next, reordered), t) {
      VerbBehind(c, k, args, next, reordered, t);
    }
  }

  /** Two doubled symbols with flags between them print one symbol and owe flags and another. */
  lemma PairOwes(r: Registry, f: string, g: string, h: string, k: nat, value: Fn -> string, w: string, owed: string)
    requires StartsDoubled(f) && g == f[2..] && Interpret(r, f, value).Meaning? && Owed(w)
    requires Copied(r, g, h, value, k) && StartsDoubled(h) && owed == w + [SYMBOL] + g[..k] + [SYMBOL]
    ensures owed != "" && Owed(owed[1..]) && owed[1..] != "" && Interpret(r, h[2..], value).Meaning?
    ensures Wanted(r, f, value, w) == [owed[0]] + Wanted(r, h[2..], value, owed[1..])
  {
    var u := Interpret(r, h[2..], value).text;
    assert Interpret(r, h, value).text == [SYMBOL] + u;
    assert owed == [owed[0]] + owed[1..];
    Pieced(w, [SYMBOL], g[..k], [SYMBOL], u);
    Assoc([owed[0]], owed[1..], u);
  }

  lemma Pieced(a: string, b: string, c: string, d: string, e: string)
    ensures a + (b + (c + (d + e))) == a + b + c + d + e
  {
    Assoc(a + b + c, d, e);
    Assoc(a + b, c, d + e);
    Assoc(a, b, c + (d + e));
  }

  lemma NotV(r: Registry, f: string, g: string, value: Fn -> string, w: string)
    requires SaysZ(value) && StartsDoubled(f) && g == f[2..] && Owed(w) && Interpret(r, f, value).Meaning?
    requires g != "" && (g[0] == SYMBOL || IsFlag(g[0]))
    ensures var t := Wanted(r, f, value, w); |t| > 1 ==> t[1] != 'v'
  {
    DoubledWanted(r, f, g, value, w);
  }

  /** The compiled string of a doubled symbol, flags and another symbol: that symbol is printed. */
  lemma FlaggedPrints(c: string, flags: string, e: string, args: seq<string>, next: nat, reordered: bool)
    requires c == [SYMBOL] + (flags + ([SYMBOL] + e)) && |flags| == Flags(c[1..])
    ensures Sprintf(c, args, next, reordered) == Print([SYMBOL], Sprintf(e, args, next, reordered))
    ensures Known(c) ==> Known(e)
  {
    var k := |flags|;
    assert c[1..] == flags + ([SYMBOL] + e) && c[k + 1] == SYMBOL && c[k + 2..] == e;
    assert k > 0 ==> IsFlag(c[1..][0]);
  }

  /** A doubled symbol whose pair, behind flags, is the symbol of a %v. */
  lemma PairTakesVerb(r: Registry, f: string, g: string, h: string, k: nat, value: Fn -> string, w: string,
        args: seq<string>, next: nat, reordered: bool)
    requires SaysZ(value) && StartsDoubled(f) && g == f[2..] && Owed(w) && Copied(r, g, h, value, k)
    requires Compile(r, f).Compiled? && Interpret(r, f, value).Meaning? && k == Flags(Compile(r, g).fmtString)
    requires h != "" && h[0] == SYMBOL && !StartsDoubled(h)
    ensures !MayBe(Sprintf(Compile(r, f).fmtString, args, next, reordered), Wanted(r, f, value, w))
  {
    var c, t, d := Compile(r, f).fmtString, Wanted(r, f, value, w), Compile(r, h).fmtString;
    CompiledFirst(r, f);
    CompiledFirst(r, h);
    assert d == [SYMBOL] + d[1..] && d[1] == 'v';
    FlaggedPrints(c, g[..k], d[1..], args, next, reordered);
    assert if k > 0 then g[0] == g[..k][0] else g == h;
    NotV(r, f, g, value, w);
    if MayBe(Sprintf(c, args, next, reordered), t) {
      PrintMayBe([SYMBOL], Sprintf(d[1..], args, next, reordered), t);
      FirstOfOutput(['v'], Sprintf(d[1..][1..], args, next, reordered), t[1..]);
    }
  }

  /** From a doubled symbol on, the output is not what is wanted. */
  lemma {:induction false} DoubledBreaks(r: Registry, f: string, value: Fn -> string, w: string,
        args: seq<string>, next: nat, reordered: bool)
    requires SaysZ(value) && AllZ(args) && Owed(w) && (w != "" || StartsDoubled(f))
    requires Compile(r, f).Compiled? && Interpret(r, f, value).Meaning? && Known(Compile(r, f).fmtString)
    ensures !MayBe(Sprintf(Compile(r, f).fmtString, args, next, reordered), Wanted(r, f, value, w))
    decreases |f|, 1
  {
    var c := Compile(r, f).fmtString;
    if StartsDoubled(f) {
      var g := f[2..];
      CompiledFirst(r, f);
      assert c[1..] == Compile(r, g).fmtString;
      var h := FlagsCopied(r, g, value);
      var k := Flags(c[1..]);
      CompiledFirst(r, h);
      assert c[1..][k..] == Compile(r, h).fmtString;
      if h == "" || h[0] != SYMBOL {
        SingleBreaks(r, f, g, value, w, args, next, reordered);
      } else if !StartsDoubled(h) {
        PairTakesVerb(r, f, g, h, k, value, w, args, next, reordered);
      } else {
        PairBreaks(r, f, g, h, k, value, w, args, next, reordered);
      }
    } else if f != "" && f[0] != SYMBOL {
      Behind([f[0]], Compile(r, f[1..]).fmtString);
      if MayBe(Sprintf(c, args, next, reordered), Wanted(r, f, value, w)) {
        PlainOwes(r, f, value, w, args, next, reordered);
        DoubledBreaks(r, f[1..], value, w[1..] + [w[0]], args, next, reordered);
      }
    } else {
      OwedBreaks(r, f, value, w, args, next, reordered);
    }
  }

  lemma PairBreaks(r: Registry, f: string, g: string, h: string, k: nat, value: Fn -> string, w: string,
        args: seq<string>, next: nat, reordered: bool)
    requires SaysZ(value) && AllZ(args) && Owed(w) && StartsDoubled(f) && g == f[2..]
    requires Copied(r, g, h, value, k) && StartsDoubled(h) && k == Flags(Compile(r, g).fmtString)
    requires Compile(r, f).Compiled? && Interpret(r, f, value).Meaning? && Known(Compile(r, f).fmtString)
    ensures !MayBe(Sprintf(Compile(r, f).fmtString, args, next, reordered), Wanted(r, f, value, w))
    decreases |f|, 0
  {
    var c, q := Compile(r, f).fmtString, h[2..];
    var owed := w + [SYMBOL] + g[..k] + [SYMBOL];
    CompiledFirst(r, f);
    CompiledFirst(r, h);
    PairOwes(r, f, g, h, k, value, w, owed);
    var e := Compile(r, q).fmtString;
    FlaggedPrints(c, g[..k], e, args, next, reordered);
    DoubledBreaks(r, q, value, owed[1..], args, next, reordered);
    if MayBe(Sprintf(c, args, next, reordered), Wanted(r, f, value, w)) {
      PrintMayBe([SYMBOL], Sprintf(e, args, next, reordered), Wanted(r, f, value, w));
    }
  }

  // ----- up to the first doubled symbol -----

  /** Whatever was printed before: with a doubled symbol to come, the output is not the
      interpretation. */
  lemma {:induction false} MixedBreaks(r: Registry, f: string, value: Fn -> string, args: seq<string>, next: nat)
    requires SaysZ(value) && AllZ(args) && Doubled(r, f) > 0
    requires Compile(r, f).Compiled? && Interpret(r, f, value).Meaning? && Known(Compile(r, f).fmtString)
    ensures !MayBe(Sprintf(Compile(r, f).fmtString, args, next, false), Interpret(r, f, value).text)
    decreases |f|
  {
    var c, t := Compile(r, f).fmtString, Interpret(r, f, value).text;
    if StartsDoubled(f) {
      DoubledBreaks(r, f, value, "", args, next, false);
      assert Wanted(r, f, value, "") == t;
    } else if f[0] != SYMBOL {
      Behind([f[0]], Compile(r, f[1..]).fmtString);
      MixedBreaks(r, f[1..], value, args, next);
      if MayBe(Sprintf(c, args, next, false), t) {
        PrintMayBe([f[0]], Sprintf(c[1..], args, next, false), t);
      }
    } else {
      VerbBreaks(r, f, value, args, next);
    }
  }

  lemma VerbBreaks(r: Registry, f: string, value: Fn -> string, args: seq<string>, next: nat)
    requires SaysZ(value) && AllZ(args) && |f| > 1 && f[0] == SYMBOL && f[1] != SYMBOL && Doubled(r, f) > 0
    requires Compile(r, f).Compiled? && Interpret(r, f, value).Meaning? && Known(Compile(r, f).fmtString)
    ensures !MayBe(Sprintf(Compile(r, f).fmtString, args, next, false), Interpret(r, f, value).text)
    decreases |f|, 0
  {
    var c, t := Compile(r, f).fmtString, Interpret(r, f, value).text;
    var v := FindVerb(r, f[1..]);
    var rest := f[1 + v.length..];
    Behind("%v", Compile(r, rest).fmtString);
    MixedBreaks(r, rest, value, args, next + 1);
    if MayBe(Sprintf(c, args, next, false), t) {
      if next < |args| {
        PrintMayBe("z", Sprintf(c[2..], args, next + 1, false), t);
      } else {
        FirstOfOutput("%!v(MISSING)", Sprintf(c[2..], args, next, false), t);
      }
    }
  }

  // ----- exactly when Format prints the interpretation -----

  /** For these values Format prints the interpretation. */
  predicate PrintsMeaning(r: Registry, f: string, value: Fn -> string)
    requires Compile(r, f).Compiled?
  {
    var m := Interpret(r, f, value);
    m.Meaning? && Format(Compile(r, f), value) == Clean(m.text)
  }

  lemma {:induction false} ValuesAreZ(fns: seq<Fn>, value: Fn -> string)
    requires SaysZ(value)
    ensures AllZ(Values(fns, value))
  {
    if fns != [] {
      ValuesAreZ(fns[1..], value);
    }
  }

  /** A format string that mixes doubled symbols with verbs does not print its interpretation when
      every function says "z", not even up to the note about unused arguments. */
  lemma MixedDeviates(r: Registry, f: string, value: Fn -> string)
    requires Compile(r, f).Compiled? && Known(Compile(r, f).fmtString) && SaysZ(value)
    requires Compile(r, f).functions != [] && Doubled(r, f) > 0
    ensures Interpret(r, f, value).Meaning?
    ensures !MayBe(Format(Compile(r, f), value), Interpret(r, f, value).text)
  {
    SameRejections(r, f, value);
    ValuesAreZ(Compile(r, f).functions, value);
    MixedBreaks(r, f, value, Values(Compile(r, f).functions, value), 0);
  }

  /** Compilation preserves meaning exactly: a format string whose compiled form holds only the
      directives modelled prints its interpretation for every message if and only if it
      does not mix doubled symbols with verbs. */
  lemma FormatExactly(r: Registry, f: string)
    requires Compile(r, f).Compiled? && Known(Compile(r, f).fmtString)
    ensures (forall value :: PrintsMeaning(r, f, value)) <==> Compile(r, f).functions == [] || Doubled(r, f) == 0
  {
    if Compile(r, f).functions == [] || Doubled(r, f) == 0 {
      forall value: Fn -> string ensures PrintsMeaning(r, f, value) {
        FormatMeans(r, f, value);
      }
    } else {
      ZDeviates(r, f, (fn: Fn) => "z");
    }
  }

  lemma ZDeviates(r: Registry, f: string, value: Fn -> string)
    requires Compile(r, f).Compiled? && Known(Compile(r, f).fmtString) && SaysZ(value)
    requires Compile(r, f).functions != [] && Doubled(r, f) > 0
    ensures !PrintsMeaning(r, f, value)
  {
    MixedDeviates(r, f, value);
  }
}
