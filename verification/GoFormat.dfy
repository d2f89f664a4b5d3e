/** What fmt.Sprintf prints for the directives that compiled format strings are made of: %v, %%,
    an explicit argument index in front of v, a symbol at the end, and flags in front of a symbol
    or another verb. */
module GoFormat {

  const SYMBOL := '%'

  /** `Extra`: unused arguments are listed behind the text.  `Other`: the text goes on with what a
      directive with another verb prints for the argument.  `Unknown`: it goes on with what a
      directive outside this model prints. */
  datatype Printed = Clean(text: string) | Extra(text: string) | Other(text: string, arg: string) | Unknown(text: string)

  const EXTRA_NOTE := "%!(EXTRA "

  predicate IsFlag(c: char) { c == '+' || c == '-' || c == '#' || c == ' ' || c == '0' }

  predicate IsNote(t: string) { |t| > 1 && t[0] == SYMBOL && t[1] == '!' }

  predicate IsHex(t: string) { |t| > 1 && t[0] == '0' && (t[1] == 'x' || t[1] == 'X') }

  /** What a directive with flags and another verb may print for an argument, and what follows.  A
      single letter is printed as it is, quoted, in hexadecimal digits or with a note; nothing is
      said of other arguments. */
  predicate MayShow(arg: string, t: string) {
    |arg| == 1 && 'a' <= arg[0] <= 'z' ==>
      t != "" && (!(t[0] == SYMBOL || IsFlag(t[0])) || IsNote(t) || IsHex(t))
  }

  /** The output may be this text. */
  predicate MayBe(p: Printed, t: string) {
    match p
    case Clean(s) => s == t
    case Extra(s) => s + EXTRA_NOTE <= t
    case Other(s, arg) => s <= t && MayShow(arg, t[|s|..])
    case Unknown(s) => s <= t
  }

  predicate IsDecimal(c: char) { '0' <= c <= '9' }

  function Digits(s: string): (n: nat)
    ensures n <= |s|
  {
    if s != "" && IsDecimal(s[0]) then 1 + Digits(s[1..]) else 0
  }

  function Value(s: string): nat
    requires forall i | 0 <= i < |s| :: IsDecimal(s[i])
  {
    if s == "" then 0
    else
      var c := s[|s| - 1];
      assert IsDecimal(c);
      10 * Value(s[..|s| - 1]) + (c as int - '0' as int)
  }

  lemma {:induction false} DigitsDecimal(s: string)
    ensures forall i | 0 <= i < Digits(s) :: IsDecimal(s[i])
  {
    if s != "" && IsDecimal(s[0]) {
      DigitsDecimal(s[1..]);
      forall i | 0 <= i < Digits(s) ensures IsDecimal(s[i]) {
        assert i > 0 ==> s[i] == s[1..][i - 1];
      }
    }
  }

  /** The length of a directive with an explicit index, as %[12]v; 0 if it is not one. */
  function IndexedLength(fmt: string): (n: nat)
    ensures n <= |fmt| && n != 1 && n != 2
  {
    if |fmt| < 3 || fmt[0] != SYMBOL || fmt[1] != '[' then 0
    else
      var k := Digits(fmt[2..]);
      if k > 0 && 2 + k + 1 < |fmt| && fmt[2 + k] == ']' && fmt[2 + k + 1] == 'v' then k + 4 else 0
  }

  function Index(fmt: string): nat
    requires IndexedLength(fmt) > 0
  {
    DigitsDecimal(fmt[2..]);
    Value(fmt[2..IndexedLength(fmt) - 2])
  }

  /** The flags at the start. */
  function Flags(s: string): (n: nat)
    ensures n <= |s| && (n < |s| ==> !IsFlag(s[n]))
  {
    if s != "" && IsFlag(s[0]) then 1 + Flags(s[1..]) else 0
  }

  /** A width, a precision, another index, or a verb that starts a note itself. */
  predicate IsBeyond(c: char) { '1' <= c <= '9' || c == '.' || c == '*' || c == '[' || c == '!' }

  function Print(text: string, p: Printed): Printed { p.(text := text + p.text) }

  /** `next` is the argument for the next %v; `reordered` is set by an explicit index. */
  function Sprintf(fmt: string, args: seq<string>, next: nat, reordered: bool): Printed
    decreases |fmt|
  {
    if fmt == "" then if !reordered && next < |args| then Extra("") else Clean("")
    else if fmt[0] != SYMBOL then Print([fmt[0]], Sprintf(fmt[1..], args, next, reordered))
    else if |fmt| > 1 && fmt[1] == 'v' then
      if next < |args| then Print(args[next], Sprintf(fmt[2..], args, next + 1, reordered))
      else Print("%!v(MISSING)", Sprintf(fmt[2..], args, next, reordered))
    else if IndexedLength(fmt) > 0 then
      var n, rest := Index(fmt), fmt[IndexedLength(fmt)..];
      if 1 <= n <= |args| then Print(args[n - 1], Sprintf(rest, args, n, true))
      else Print("%!v(BADINDEX)", Sprintf(rest, args, next, true))
    else
      var k := 1 + Flags(fmt[1..]);
      if k == |fmt| then Print("%!(NOVERB)", Sprintf("", args, next, reordered))
      else if fmt[k] == SYMBOL then Print([SYMBOL], Sprintf(fmt[k + 1..], args, next, reordered))
      else if IsBeyond(fmt[k]) then Unknown("")
      else if next < |args| then Other("", args[next])
      else Print("%!" + [fmt[k]] + "(MISSING)", Sprintf(fmt[k + 1..], args, next, reordered))
  }

  /** All directives of the string are among those modelled. */
  predicate Known(fmt: string)
    decreases |fmt|
  {
    if fmt == "" then true
    else if fmt[0] != SYMBOL then Known(fmt[1..])
    else if IndexedLength(fmt) > 0 then Known(fmt[IndexedLength(fmt)..])
    else
      var k := 1 + Flags(fmt[1..]);
      k == |fmt| || (!IsBeyond(fmt[k]) && Known(fmt[k + 1..]))
  }

  lemma PrintMayBe(text: string, p: Printed, t: string)
    requires MayBe(Print(text, p), t)
    ensures text <= t && MayBe(p, t[|text|..])
  {
    match p
    case Clean(s) =>
    case Extra(s) => assert text + s + EXTRA_NOTE == text + (s + EXTRA_NOTE);
    case Other(s, _) => assert t[|text|..][|s|..] == t[|text + s|..];
    case Unknown(s) =>
  }

  lemma FirstOfOutput(text: string, p: Printed, t: string)
    requires MayBe(Print(text, p), t) && text != ""
    ensures t != "" && t[0] == text[0]
    ensures |text| > 1 ==> |t| > 1 && t[1] == text[1]
  {
    PrintMayBe(text, p, t);
    assert t[..|text|] == text;
  }

  /** One message can hide a deviation: here an index prints again what the format says. */
  lemma OneValueAgrees()
    ensures Sprintf("%v %[1]v", ["%[1]v"], 0, false) == Clean("%[1]v" + (" " + "%[1]v"))
  {
    var args := ["%[1]v"];
    var f := "%[1]v";
    assert f[2..][0] == '1' && f[2..][1] == ']' && Digits(f[2..][1..]) == 0;
    assert Digits(f[2..]) == 1 && IndexedLength(f) == 5 && f[5..] == "";
    assert f[2..3] == "1" && "1"[..0] == "" && Value("1") == 1 && Index(f) == 1;
    assert Sprintf(f, args, 1, false) == Print("%[1]v", Clean(""));
    assert (" " + f)[1..] == f && "%v %[1]v"[2..] == " " + f;
    assert Sprintf(" " + f, args, 1, false) == Print(" ", Clean("%[1]v"));
  }
}
