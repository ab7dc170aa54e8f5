/** Calendar dates and their `%Y-%m-%d` rendering (chrono's `NaiveDate::format`). */
module Dates {
  import opened Common
  import Text

  datatype CalendarDate = CalendarDate(year: int, month: nat, day: nat)

  /** Leap years of the proleptic Gregorian calendar. */
  predicate LeapYear(y: int)
  {
    y % 4 == 0 && (y % 100 != 0 || y % 400 == 0)
  }

  function DaysInMonth(y: int, m: nat): (r: nat)
    requires 1 <= m <= 12
    ensures 28 <= r <= 31
    ensures r == 29 <==> m == 2 && LeapYear(y)
  {
    if m == 2 then (if LeapYear(y) then 29 else 28)
    else if m == 4 || m == 6 || m == 9 || m == 11 then 30
    else 31
  }

  /** A `NaiveDate`: the month lies in 1..12 and the day exists in that month of that
      year (no February 30th, and February 29th only in a leap year). */
  type Date = d: CalendarDate | 1 <= d.month <= 12 && 1 <= d.day <= DaysInMonth(d.year, d.month)
    witness CalendarDate(1970, 1, 1)

  function Pow10(k: nat): nat
  {
    if k == 0 then 1 else 10 * Pow10(k - 1)
  }

  lemma {:induction false} NatToStringLengthBound(n: nat, k: nat)
    requires 1 <= k && n < Pow10(k)
    ensures |Text.NatToString(n)| <= k
  {
    if n >= 10 {
      assert Pow10(1) == 10;
      assert n / 10 < Pow10(k - 1);
      NatToStringLengthBound(n / 10, k - 1);
    }
  }

  /** `%Y`: four zero-padded digits for years 0 to 9999; any other year carries an explicit
      sign followed by at least four digits. */
  function YearText(y: int): string
  {
    if 0 <= y <= 9999 then Text.ZeroPadded(y, 4)
    else (if y < 0 then "-" else "+") + Text.ZeroPadded(if y < 0 then -y else y, 4)
  }

  /** `format("%Y-%m-%d")`. */
  function Format(d: Date): (s: string)
    ensures |s| >= 10 && s[|s| - 6] == '-' && s[|s| - 3] == '-'
  {
    FieldWidths(d);
    YearText(d.year) + "-" + Text.ZeroPadded(d.month, 2) + "-" + Text.ZeroPadded(d.day, 2)
  }

  /** The year takes at least four characters, month and day exactly two each. */
  lemma FieldWidths(d: Date)
    ensures |YearText(d.year)| >= 4
    ensures |Text.ZeroPadded(d.month, 2)| == 2 && |Text.ZeroPadded(d.day, 2)| == 2
  {
    Pow10Small();
    NatToStringLengthBound(d.month, 2);
    NatToStringLengthBound(d.day, 2);
  }

  lemma Pow10Small()
    ensures Pow10(2) == 100 && Pow10(4) == 10000
  {
    assert Pow10(1) == 10;
    assert Pow10(3) == 1000;
  }

  function ParseYear(y: string): Option<int>
  {
    if |y| == 4 && Text.AllDigits(y) then Some(Text.DigitsValue(y))
    else if |y| >= 5 && y[0] == '+' && Text.AllDigits(y[1..]) then Some(Text.DigitsValue(y[1..]))
    else if |y| >= 5 && y[0] == '-' && Text.AllDigits(y[1..]) then Some(-(Text.DigitsValue(y[1..]) as int))
    else None
  }

  /** Reads a `%Y-%m-%d` text back into a date. */
  function Parse(s: string): Option<Date>
  {
    if |s| < 10 then None
    else
      var n := |s|;
      var month := s[n - 5..n - 3];
      var day := s[n - 2..];
      if s[n - 6] != '-' || s[n - 3] != '-' || !Text.AllDigits(month) || !Text.AllDigits(day) then None
      else
        match ParseYear(s[..n - 6])
        case None => None
        case Some(y) =>
          var m := Text.DigitsValue(month);
          var dd := Text.DigitsValue(day);
          if 1 <= m <= 12 && 1 <= dd <= DaysInMonth(y, m) then
            var date: Date := CalendarDate(y, m, dd);
            Some(date)
          else None
  }

  lemma YearTextRoundTrip(y: int)
    ensures ParseYear(YearText(y)) == Some(y)
  {
    var t := YearText(y);
    if 0 <= y <= 9999 {
      Pow10Small();
      NatToStringLengthBound(y, 4);
      Text.ZeroPaddedValue(y, 4);
      assert |t| == 4 && Text.AllDigits(t);
    } else {
      var a := if y < 0 then -y else y;
      var digits := Text.ZeroPadded(a, 4);
      Text.ZeroPaddedValue(a, 4);
      assert t[1..] == digits && |t| >= 5;
      assert t[0] == (if y < 0 then '-' else '+');
    }
  }

  /** A day past the end of its month (a February 29th outside a leap year, an April
      31st) is rejected when read back, as chrono rejects it. */
  lemma ParseRejectsMissingDay(y: int, m: nat, d: nat)
    requires 1 <= m <= 12 && DaysInMonth(y, m) < d < 100
    ensures Parse(YearText(y) + "-" + Text.ZeroPadded(m, 2) + "-" + Text.ZeroPadded(d, 2)) == None
  {
    var s := YearText(y) + "-" + Text.ZeroPadded(m, 2) + "-" + Text.ZeroPadded(d, 2);
    var md := Text.ZeroPadded(m, 2);
    var dd := Text.ZeroPadded(d, 2);
    FieldWidths(CalendarDate(y, 1, 1));
    Pow10Small();
    NatToStringLengthBound(m, 2);
    NatToStringLengthBound(d, 2);
    assert |md| == 2 && |dd| == 2;
    var n := |s|;
    assert s[n - 5..n - 3] == md;
    assert s[n - 2..] == dd;
    assert s[..n - 6] == YearText(y);
    YearTextRoundTrip(y);
    Text.ZeroPaddedValue(m, 2);
    Text.ZeroPaddedValue(d, 2);
  }

  /** Every date's rendering parses back to the same date, so the rendering loses nothing. */
  lemma FormatRoundTrip(d: Date)
    ensures Parse(Format(d)) == Some(d)
  {
    var s := Format(d);
    var y := YearText(d.year);
    var m := Text.ZeroPadded(d.month, 2);
    var dd := Text.ZeroPadded(d.day, 2);
    FieldWidths(d);
    assert |m| == 2 && |dd| == 2;
    assert s == y + "-" + m + "-" + dd;
    var n := |s|;
    assert s[..n - 6] == y;
    assert s[n - 5..n - 3] == m;
    assert s[n - 2..] == dd;
    YearTextRoundTrip(d.year);
    Text.ZeroPaddedValue(d.month, 2);
    Text.ZeroPaddedValue(d.day, 2);
  }
}
