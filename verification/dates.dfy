/** Calendar dates as the ingestion worker reads them: Python's
    `datetime.strptime(s, "%Y-%m-%d")` and `date.toordinal()`. */
module Dates {
  import opened Common

  datatype Date = Date(year: int, month: int, day: int)

  predicate IsLeap(y: int) {
    y % 4 == 0 && (y % 100 != 0 || y % 400 == 0)
  }

  function DaysInMonth(y: int, m: int): int
    requires 1 <= m <= 12
  {
    if m == 2 then (if IsLeap(y) then 29 else 28)
    else if m == 4 || m == 6 || m == 9 || m == 11 then 30
    else 31
  }

  /** The dates Python's `datetime.date` can represent. */
  predicate Valid(d: Date) {
    && 1 <= d.year <= 9999
    && 1 <= d.month <= 12
    && 1 <= d.day <= DaysInMonth(d.year, d.month)
  }

  function DaysBeforeYear(y: int): int
    requires y >= 1
  {
    var p := y - 1;
    p * 365 + p / 4 - p / 100 + p / 400
  }

  function DaysBeforeMonth(y: int, m: int): int
    requires 1 <= m <= 12
  {
    [0, 31, 59, 90, 120, 151, 181, 212, 243, 273, 304, 334][m - 1]
      + (if m > 2 && IsLeap(y) then 1 else 0)
  }

  /** A year holds 366 days when it is a leap year and 365 otherwise. */
  lemma YearLength(y: int)
    requires y >= 1
    ensures DaysBeforeYear(y + 1) - DaysBeforeYear(y) == if IsLeap(y) then 366 else 365
  {
    var p := y - 1;
    assert (p + 1) / 4 - p / 4 == if y % 4 == 0 then 1 else 0;
    assert (p + 1) / 100 - p / 100 == if y % 100 == 0 then 1 else 0;
    assert (p + 1) / 400 - p / 400 == if y % 400 == 0 then 1 else 0;
  }

  /** Python `date.toordinal()`: 0001-01-01 is day 1, and every valid date
      of year `y` falls strictly inside that year's span of day numbers. */
  function Ordinal(d: Date): (n: int)
    requires Valid(d)
    ensures DaysBeforeYear(d.year) < n <= DaysBeforeYear(d.year + 1)
    ensures n >= 1
  {
    YearLength(d.year);
    DaysBeforeYear(d.year) + DaysBeforeMonth(d.year, d.month) + d.day
  }

  // ---------------------------------------------------------------------
  // strptime with the format "%Y-%m-%d"
  // ---------------------------------------------------------------------

  /** Position of the first occurrence of `c`. */
  function FirstIndex(s: string, c: char): (r: Option<nat>)
    ensures r.Some? ==> r.value < |s| && s[r.value] == c && c !in s[..r.value]
    ensures r.None? ==> c !in s
  {
    if s == [] then None
    else if s[0] == c then Some(0)
    else match FirstIndex(s[1..], c)
      case None => None
      case Some(j) => Some(j + 1)
  }

  /** `%Y`: exactly four decimal digits. */
  function YearToken(t: string): Option<int> {
    if |t| == 4 && AllDigits(t)
    then Some(1000 * DigitValue(t[0]) + 100 * DigitValue(t[1]) + 10 * DigitValue(t[2]) + DigitValue(t[3]))
    else None
  }

  /** `%m`: one of `1[0-2]`, `0[1-9]`, `[1-9]`. */
  function MonthToken(t: string): Option<int> {
    if |t| == 1 && '1' <= t[0] <= '9' then Some(DigitValue(t[0]))
    else if |t| == 2 && t[0] == '0' && '1' <= t[1] <= '9' then Some(DigitValue(t[1]))
    else if |t| == 2 && t[0] == '1' && '0' <= t[1] <= '2' then Some(10 + DigitValue(t[1]))
    else None
  }

  /** `%d`: one of `3[01]`, `[12]\d`, `0[1-9]`, `[1-9]`, ` [1-9]`, and it
      must reach the end of the text (otherwise strptime reports unconverted
      data). */
  function DayToken(t: string): Option<int> {
    if |t| == 1 && '1' <= t[0] <= '9' then Some(DigitValue(t[0]))
    else if |t| == 2 && (t[0] == '0' || t[0] == ' ') && '1' <= t[1] <= '9' then Some(DigitValue(t[1]))
    else if |t| == 2 && '1' <= t[0] <= '2' && IsDigit(t[1]) then Some(10 * DigitValue(t[0]) + DigitValue(t[1]))
    else if |t| == 2 && t[0] == '3' && '0' <= t[1] <= '1' then Some(30 + DigitValue(t[1]))
    else None
  }

  /** `datetime.strptime(s, "%Y-%m-%d").date()`, with `None` where Python
      raises `ValueError`: the text must match the pattern as a whole and
      name a date that exists (day within the month, year at least 1). */
  function ParseIso(s: string): (r: Option<Date>)
    ensures r.Some? ==> Valid(r.value)
  {
    if |s| < 5 || s[4] != '-' then None
    else
      var rest := s[5..];
      match (YearToken(s[..4]), FirstIndex(rest, '-'))
      case (Some(y), Some(j)) =>
        (match (MonthToken(rest[..j]), DayToken(rest[j + 1..]))
         case (Some(m), Some(d)) => if Valid(Date(y, m, d)) then Some(Date(y, m, d)) else None
         case _ => None)
      case _ => None
  }

  function Pad2(n: nat): (t: string)
    requires n < 100
  {
    [DigitChar(n / 10), DigitChar(n % 10)]
  }

  function Pad4(n: nat): (t: string)
    requires n < 10000
  {
    Pad2(n / 100) + Pad2(n % 100)
  }

  /** `d.isoformat()`: `YYYY-MM-DD`, zero-padded. */
  function FormatIso(d: Date): (s: string)
    requires Valid(d)
    ensures |s| == 10
  {
    Pad4(d.year) + "-" + Pad2(d.month) + "-" + Pad2(d.day)
  }

  lemma Pad4Year(y: nat)
    requires y < 10000
    ensures YearToken(Pad4(y)) == Some(y)
  {
    var t := Pad4(y);
    var hi, lo := y / 100, y % 100;
    assert y == 100 * hi + lo;
    assert hi == 10 * (hi / 10) + hi % 10;
    assert lo == 10 * (lo / 10) + lo % 10;
    assert DigitValue(t[0]) == hi / 10 && DigitValue(t[1]) == hi % 10;
    assert DigitValue(t[2]) == lo / 10 && DigitValue(t[3]) == lo % 10;
  }

  lemma Pad2Month(m: nat)
    requires 1 <= m <= 12
    ensures MonthToken(Pad2(m)) == Some(m)
  {
    var t := Pad2(m);
    assert DigitValue(t[0]) == m / 10 && DigitValue(t[1]) == m % 10;
  }

  lemma Pad2Day(d: nat)
    requires 1 <= d <= 31
    ensures DayToken(Pad2(d)) == Some(d)
  {
    var t := Pad2(d);
    assert DigitValue(t[0]) == d / 10 && DigitValue(t[1]) == d % 10;
  }

  lemma DashAfterTwo(a: string, b: string)
    requires |a| == 2 && a[0] != '-' && a[1] != '-'
    ensures FirstIndex(a + "-" + b, '-') == Some(2)
  {
    var t := a + "-" + b;
    assert t[2..] == t[1..][1..];
    assert FirstIndex(t[2..], '-') == Some(0);
  }

  /** Every valid date written in ISO form is read back as itself. */
  lemma ParseFormatRoundTrip(d: Date)
    requires Valid(d)
    ensures ParseIso(FormatIso(d)) == Some(d)
  {
    var s := FormatIso(d);
    var month, day := Pad2(d.month), Pad2(d.day);
    assert s[4] == '-';
    assert s[..4] == Pad4(d.year);
    var rest := s[5..];
    assert rest == month + "-" + day;
    Pad4Year(d.year);
    Pad2Month(d.month);
    Pad2Day(d.day);
    assert IsDigit(month[0]) && IsDigit(month[1]);
    DashAfterTwo(month, day);
    assert rest[..2] == month;
    assert rest[3..] == day;
  }

  /** strptime's `%m` and `%d` accept a single digit, so unpadded dates parse. */
  lemma UnpaddedDateParses()
    ensures ParseIso("2024-1-5") == Some(Date(2024, 1, 5))
  {
    var s := "2024-1-5";
    var rest := s[5..];
    assert rest == "1-5";
    assert FirstIndex(rest, '-') == Some(1) by {
      assert FirstIndex(rest[1..], '-') == Some(0);
    }
    assert rest[..1] == "1" && rest[2..] == "5";
    assert s[..4] == "2024";
  }

  /** A day beyond the month's length is rejected, not clamped. */
  lemma NonexistentDateRejected()
    ensures ParseIso("2023-02-29") == None
  {
    var s := "2023-02-29";
    var rest := s[5..];
    assert rest == "02-29";
    assert FirstIndex(rest, '-') == Some(2) by {
      assert rest[2..] == rest[1..][1..];
      assert FirstIndex(rest[2..], '-') == Some(0);
    }
    assert rest[..2] == "02" && rest[3..] == "29";
    assert s[..4] == "2023";
    assert !IsLeap(2023);
  }
}
