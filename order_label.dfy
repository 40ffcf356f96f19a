/** Order labels: the configured prefix, "_", and the bar time written
    as yyyyMMdd_HHmm in GMT (SessionBreakoutStrategy.getLabel). */
module OrderLabel {
  import opened GmtCalendar
  import opened CivilDate
  import Decimal

  predicate IsDigit(c: char) {
    '0' <= c <= '9'
  }

  function DigitChar(d: int): (c: char)
    requires 0 <= d < 10
    ensures IsDigit(c)
  {
    "0123456789"[d]
  }

  /** The decimal digits of n, zero-padded on the left to at least `width`
      characters, as a numeric date field is formatted. */
  function Digits(n: nat, width: nat): (s: string)
    ensures |s| >= 1 && |s| >= width
    ensures forall i :: 0 <= i < |s| ==> IsDigit(s[i])
    decreases n + width
  {
    var last := [DigitChar(n % 10)];
    if n < 10 && width <= 1 then last
    else Digits(n / 10, if width == 0 then 0 else width - 1) + last
  }

  function DigitValue(c: char): (d: nat)
    requires IsDigit(c)
    ensures d < 10
  {
    (c as int) - ('0' as int)
  }

  /** The number a string of decimal digits denotes. */
  function DigitsValue(s: string): nat
    requires forall i :: 0 <= i < |s| ==> IsDigit(s[i])
  {
    if s == [] then 0
    else DigitsValue(s[..|s| - 1]) * 10 + DigitValue(s[|s| - 1])
  }

  /** Reading the digits back gives the number. */
  lemma {:induction false} DigitsRoundTrip(n: nat, width: nat)
    ensures DigitsValue(Digits(n, width)) == n
    decreases n + width
  {
    var s := Digits(n, width);
    var last := [DigitChar(n % 10)];
    assert DigitValue(DigitChar(n % 10)) == n % 10;
    if n < 10 && width <= 1 {
      assert s[..0] == [];
    } else {
      var front := Digits(n / 10, if width == 0 then 0 else width - 1);
      DigitsRoundTrip(n / 10, if width == 0 then 0 else width - 1);
      assert s[..|s| - 1] == front;
    }
  }

  /** A number below 10^width takes exactly `width` characters. */
  lemma {:induction false} DigitsWidth(n: nat, width: nat)
    requires 1 <= width && n < Decimal.Pow10(width)
    ensures |Digits(n, width)| == width
    decreases width
  {
    if !(n < 10 && width <= 1) {
      assert width > 1;
      DigitsWidth(n / 10, width - 1);
    }
  }

  /** SimpleDateFormat prints the year of the era: 1 BC is year 1. */
  function YearOfEra(y: int): nat {
    if y >= 1 then y else 1 - y
  }

  /** The "yyyyMMdd_HHmm" rendering of a GMT instant: at least thirteen
      characters, all digits except the "_" that precedes the four time
      digits. */
  function Stamp(t: int): (s: string)
    ensures |s| >= 13
    ensures s[|s| - 5] == '_'
    ensures forall i :: 0 <= i < |s| && i != |s| - 5 ==> IsDigit(s[i])
  {
    var date := DateOf(t);
    assert Decimal.Pow10(2) == 100;
    DigitsWidth(HourOfDay(t), 2);
    DigitsWidth(MinuteOfHour(t), 2);
    Digits(YearOfEra(date.year), 4) + Digits(date.month, 2) + Digits(date.day, 2)
      + "_" + Digits(HourOfDay(t), 2) + Digits(MinuteOfHour(t), 2)
  }

  /** getLabel: prefix + "_" + stamp. */
  function Label(prefix: string, t: int): (l: string)
    ensures prefix <= l
  {
    prefix + "_" + Stamp(t)
  }

  /** For years 1 to 9999 the stamp is thirteen characters: eight date
      digits, "_", four time digits; its fields read back as the year,
      month, day, hour and minute of the instant. */
  lemma {:induction false} StampFields(t: int)
    requires 1 <= DateOf(t).year <= 9999
    ensures var s := Stamp(t);
      var date := DateOf(t);
      && |s| == 13 && s[8] == '_'
      && (forall i :: 0 <= i < 13 && i != 8 ==> IsDigit(s[i]))
      && DigitsValue(s[0..4]) == date.year
      && DigitsValue(s[4..6]) == date.month
      && DigitsValue(s[6..8]) == date.day
      && DigitsValue(s[9..11]) == HourOfDay(t)
      && DigitsValue(s[11..13]) == MinuteOfHour(t)
  {
    var date := DateOf(t);
    var yy := Digits(YearOfEra(date.year), 4);
    var mo := Digits(date.month, 2);
    var dd := Digits(date.day, 2);
    var hh := Digits(HourOfDay(t), 2);
    var mi := Digits(MinuteOfHour(t), 2);
    assert Decimal.Pow10(4) == 10000 && Decimal.Pow10(2) == 100;
    DigitsWidth(YearOfEra(date.year), 4);
    DigitsWidth(date.month, 2);
    DigitsWidth(date.day, 2);
    DigitsWidth(HourOfDay(t), 2);
    DigitsWidth(MinuteOfHour(t), 2);
    DigitsRoundTrip(YearOfEra(date.year), 4);
    DigitsRoundTrip(date.month, 2);
    DigitsRoundTrip(date.day, 2);
    DigitsRoundTrip(HourOfDay(t), 2);
    DigitsRoundTrip(MinuteOfHour(t), 2);
    StampLayout(yy, mo, dd, hh, mi);
  }

  /** Five fixed-width digit fields joined as yyyyMMdd_HHmm: where each
      field sits in the thirteen characters. */
  lemma StampLayout(yy: string, mo: string, dd: string, hh: string, mi: string)
    requires |yy| == 4 && |mo| == 2 && |dd| == 2 && |hh| == 2 && |mi| == 2
    requires forall i :: 0 <= i < |yy| ==> IsDigit(yy[i])
    requires forall i :: 0 <= i < |mo| ==> IsDigit(mo[i])
    requires forall i :: 0 <= i < |dd| ==> IsDigit(dd[i])
    requires forall i :: 0 <= i < |hh| ==> IsDigit(hh[i])
    requires forall i :: 0 <= i < |mi| ==> IsDigit(mi[i])
    ensures var s := yy + mo + dd + "_" + hh + mi;
      && |s| == 13 && s[8] == '_'
      && (forall i :: 0 <= i < 13 && i != 8 ==> IsDigit(s[i]))
      && s[0..4] == yy && s[4..6] == mo && s[6..8] == dd
      && s[9..11] == hh && s[11..13] == mi
  {
    var s := yy + mo + dd + "_" + hh + mi;
    assert s[0..4] == yy;
    assert s[4..6] == mo;
    assert s[6..8] == dd;
    assert s[9..11] == hh;
    assert s[11..13] == mi;
  }

  /** Two labels with the same prefix differ only in their stamps. */
  lemma LabelSuffix(prefix: string, t: int)
    ensures Label(prefix, t)[|prefix|..] == "_" + Stamp(t)
  {
  }
}
