/** Which dates are on the calendar and which floats are finite, against the day numbers of the Gregorian
    calendar and the real number that a text means. */
module TomlNumbers {
  import opened Decimal
  import opened TomlData
  import opened TomlLexer
  import opened TomlLexerProofs
  import opened TomlValues

  // ----- dates -----

  /** Days since 1 March of the year 0, counting years from March so that a leap day is the last of its
      year. */
  function DayNumber(year: int, month: int, day: int): int {
    var y := if month <= 2 then year - 1 else year;
    var m := if month <= 2 then month + 9 else month - 3;
    DaysOfYears(y) + (153 * m + 2) / 5 + day - 1
  }

  function DaysOfYears(y: int): int { 365 * y + y / 4 - y / 100 + y / 400 }

  /** The first day of the next month. */
  function MonthAfter(year: int, month: int): int {
    if month == 12 then DayNumber(year + 1, 1, 1) else DayNumber(year, month + 1, 1)
  }

  /** A day of that month, and a second of that day. */
  predicate IsMoment(year: int, month: int, day: int, hour: int, minute: int, second: int) {
    && 1 <= month <= 12 && 1 <= day && DayNumber(year, month, day) < MonthAfter(year, month)
    && 0 <= hour < 24 && 0 <= minute < 60 && 0 <= second < 60
  }

  lemma LeapDay(y: int)
    ensures DaysOfYears(y) - DaysOfYears(y - 1) == 337 + DaysIn(2, y)
  {
    assert y / 4 - (y - 1) / 4 == if y % 4 == 0 then 1 else 0;
    assert y / 100 - (y - 1) / 100 == if y % 100 == 0 then 1 else 0;
    assert y / 400 - (y - 1) / 400 == if y % 400 == 0 then 1 else 0;
    assert (y % 100 == 0 ==> y % 4 == 0) && (y % 400 == 0 ==> y % 100 == 0);
  }

  lemma OtherMonth(year: int, month: int)
    requires 1 <= month <= 12 && month != 2
    ensures AsLong(year, month) == true
  {
    assert (153 * 0 + 2) / 5 == 0 && (153 * 1 + 2) / 5 == 31 && (153 * 2 + 2) / 5 == 61 && (153 * 3 + 2) / 5 == 92;
    assert (153 * 4 + 2) / 5 == 122 && (153 * 5 + 2) / 5 == 153 && (153 * 6 + 2) / 5 == 184;
    assert (153 * 7 + 2) / 5 == 214 && (153 * 8 + 2) / 5 == 245 && (153 * 9 + 2) / 5 == 275;
    assert (153 * 10 + 2) / 5 == 306 && (153 * 11 + 2) / 5 == 337;
  }

  lemma February(year: int)
    ensures AsLong(year, 2) == true
  {
    LeapDay(year);
    assert DayNumber(year, 2, 1) == DaysOfYears(year - 1) + 337 && DayNumber(year, 3, 1) == DaysOfYears(year);
  }

  predicate AsLong(year: int, month: int) {
    MonthAfter(year, month) - DayNumber(year, month, 1) == DaysIn(month, year)
  }

  /** The months are as long as the calendar says. */
  lemma MonthLength(year: int, month: int)
    requires 1 <= month <= 12
    ensures AsLong(year, month) == true
  {
    if month == 2 {
      February(year);
    } else {
      OtherMonth(year, month);
    }
  }

  lemma TwoMeans(t: string, i: nat)
    requires i + 2 <= |t| && IsDigit(t[i]) && IsDigit(t[i + 1])
    ensures IsDecimal(t[i..i + 2]) && DigitsValue(t[i..i + 2]) == TwoDigits(t, i)
  {
    var s := t[i..i + 2];
    assert s[..1] == [t[i]] && s[..1][..0] == "" && s == [t[i], t[i + 1]];
    assert DigitsValue(s[..1]) == t[i] as int - '0' as int;
  }

  lemma FourMeans(t: string)
    requires 4 <= |t| && forall i | 0 <= i < 4 :: IsDigit(t[i])
    ensures IsDecimal(t[..4]) && DigitsValue(t[..4]) == 100 * TwoDigits(t, 0) + TwoDigits(t, 2)
  {
    var s := t[..4];
    TwoMeans(t, 0);
    assert s[..3][..2] == t[0..0 + 2] && s[..3] == t[..3];
    assert DigitsValue(s[..3]) == 10 * DigitsValue(s[..3][..2]) + (t[2] as int - '0' as int);
  }

  /** The number in a part of the text. */
  function Field(t: string, i: nat, j: nat): int
    requires i <= j <= |t| && forall k | i <= k < j :: IsDigit(t[k])
  {
    assert forall k | 0 <= k < j - i :: t[i..j][k] == t[i + k] && IsDigit(t[i + k]);
    DigitsValue(t[i..j])
  }

  /** Month, day, hour, minute and second. */
  lemma FieldsMean(t: string)
    requires DatetimeText(t)
    ensures Field(t, 5, 7) == TwoDigits(t, 5) && Field(t, 8, 10) == TwoDigits(t, 8)
    ensures Field(t, 11, 13) == TwoDigits(t, 11) && Field(t, 14, 16) == TwoDigits(t, 14)
    ensures Field(t, 17, 19) == TwoDigits(t, 17)
  {
    TwoMeans(t, 5);
    TwoMeans(t, 8);
    TwoMeans(t, 11);
    TwoMeans(t, 14);
    TwoMeans(t, 17);
  }

  lemma YearMeans(t: string)
    requires DatetimeText(t)
    ensures Field(t, 0, 4) == 100 * TwoDigits(t, 0) + TwoDigits(t, 2)
  {
    FourMeans(t);
    assert t[0..4] == t[..4];
  }

  lemma DayExactly(year: int, month: int, day: int)
    ensures 1 <= month <= 12 ==> (DayNumber(year, month, day) < MonthAfter(year, month) <==> day <= DaysIn(month, year))
  {
    if 1 <= month <= 12 {
      MonthLength(year, month);
    }
  }

  /** The moment that the text names. */
  predicate NamesMoment(t: string)
    requires DatetimeText(t)
  {
    IsMoment(Field(t, 0, 4), Field(t, 5, 7), Field(t, 8, 10), Field(t, 11, 13), Field(t, 14, 16), Field(t, 17, 19))
  }

  lemma TwoBounds(t: string, i: nat)
    requires i + 2 <= |t| && IsDigit(t[i]) && IsDigit(t[i + 1])
    ensures 0 <= TwoDigits(t, i)
  {
  }

  lemma TimeBounds(t: string)
    requires DatetimeText(t)
    ensures |t| == 20 && 0 <= TwoDigits(t, 11) && 0 <= TwoDigits(t, 14) && 0 <= TwoDigits(t, 17)
  {
    TwoBounds(t, 11);
    TwoBounds(t, 14);
    TwoBounds(t, 17);
  }

  lemma CalendarExactly(t: string)
    requires DatetimeText(t)
    ensures OnCalendar(t) <==> NamesMoment(t)
  {
    YearMeans(t);
    FieldsMean(t);
    TimeBounds(t);
    DayExactly(Field(t, 0, 4), Field(t, 5, 7), Field(t, 8, 10));
  }

  /** Text in the form of a datetime is a value exactly if it names a moment; otherwise the parser dies. */
  lemma DateExactly(t: string)
    requires DatetimeText(t)
    ensures ScalarValue(Item(ItemDatetime, t)) == if NamesMoment(t) then Good(Datetime(t)) else Faulty(BadDate)
  {
    CalendarExactly(t);
  }

  // ----- floats -----

  function PowerOfTen(k: nat): (p: nat)
    ensures p > 0
  { if k == 0 then 1 else 10 * PowerOfTen(k - 1) }

  /** The number that digits, a point and digits stand for. */
  function Magnitude(a: string, b: string): real
    requires IsDecimal(a) && IsDecimal(b)
  { DigitsValue(a) as real + DigitsValue(b) as real / PowerOfTen(|b|) as real }

  lemma {:induction false} DigitsBound(s: string)
    requires forall i | 0 <= i < |s| :: IsDecimalDigit(s[i])
    ensures 0 <= DigitsValue(s) < PowerOfTen(|s|)
    decreases |s|
  {
    if s != "" {
      DigitsBound(s[..|s| - 1]);
    }
  }

  lemma Fractional(v: int, p: int)
    requires 0 <= v < p
    ensures 0.0 <= v as real / p as real < 1.0
  {
  }

  lemma {:induction false} Leading(a: string, rest: string)
    requires forall i | 0 <= i < |a| :: IsDecimalDigit(a[i])
    requires rest == "" || !IsDecimalDigit(rest[0])
    ensures LeadingDigits(a + rest) == a
    decreases |a|
  {
    if a == "" {
      assert a + rest == rest;
    } else {
      Leading(a[1..], rest);
      assert (a + rest)[1..] == a[1..] + rest;
    }
  }

  lemma {:induction false} PowersMultiply(i: nat, j: nat)
    ensures PowerOfTwo(i + j) == PowerOfTwo(i) * PowerOfTwo(j)
    decreases i
  {
    if i > 0 {
      PowersMultiply(i - 1, j);
      Doubled(PowerOfTwo(i - 1), PowerOfTwo(j));
    }
  }

  lemma Doubled(a: int, b: int)
    ensures 2 * (a * b) == (2 * a) * b
  {
  }

  /** Half a unit above the largest 64-bit float. */
  const INFINITY: int := 0x3F_FFFF_FFFF_FFFF * PowerOfTwo(970)

  lemma Power54()
    ensures PowerOfTwo(54) == 0x40_0000_0000_0000
  {
    PowersMultiply(27, 27);
    PowersMultiply(9, 18);
    PowersMultiply(9, 9);
    PowersMultiply(3, 6);
    PowersMultiply(3, 3);
    assert PowerOfTwo(3) == 8;
  }

  lemma Largest()
    ensures PowerOfTwo(MAX_EXPONENT) - PowerOfTwo(HALF_UNIT_EXPONENT) == INFINITY
  {
    PowersMultiply(54, 970);
    Power54();
  }

  /** A float in the text of sign, digits, point and digits is finite exactly if the number is smaller than
      the bound, the digits behind the point included. */
  lemma FloatExactly(minus: bool, a: string, b: string)
    requires IsDecimal(a) && IsDecimal(b)
    ensures IsFloat64((if minus then "-" else "") + (a + ("." + b))) <==> Magnitude(a, b) < INFINITY as real
  {
    var t := (if minus then "-" else "") + (a + ("." + b));
    assert (if t != "" && t[0] == '-' then t[1..] else t) == a + ("." + b);
    Leading(a, "." + b);
    DigitsBound(b);
    Fractional(DigitsValue(b), PowerOfTen(|b|));
    Largest();
  }
}
