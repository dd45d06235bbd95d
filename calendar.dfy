/**
 * Calendar dates as the handlers see them: Python's `strptime(day,
 * '%Y-%m-%d')`, SQLite's `strftime` on a stored text, and the `%w` weekday
 * (Sunday = 0) of the proleptic Gregorian calendar of ISO 8601.
 */
module Calendar {
  import opened Runtime

  datatype Date = Date(year: int, month: int, day: int)

  predicate IsLeapYear(y: int) {
    y % 4 == 0 && (y % 100 != 0 || y % 400 == 0)
  }

  function DaysInMonth(y: int, m: int): (n: int)
    requires 1 <= m <= 12
    ensures 28 <= n <= 31
    ensures m == 12 ==> n == 31
  {
    if m == 2 then (if IsLeapYear(y) then 29 else 28)
    else if m == 4 || m == 6 || m == 9 || m == 11 then 30
    else 31
  }

  /** The month exists and the day lies inside it (any year). */
  predicate InCalendar(d: Date) {
    1 <= d.month <= 12 && 1 <= d.day <= DaysInMonth(d.year, d.month)
  }

  /** A date Python's `date` type accepts: years 1 to 9999. */
  predicate ValidDate(d: Date) {
    1 <= d.year <= 9999 && InCalendar(d)
  }

  /** Days in the years before `y`, counting from year 1. */
  function DaysBeforeYear(y: int): int {
    var p := y - 1;
    365 * p + p / 4 - p / 100 + p / 400
  }

  /** Days in the months of year `y` before month `m`. */
  function DaysBeforeMonth(y: int, m: int): int
    requires 1 <= m <= 12
  {
    var leap := if IsLeapYear(y) then 1 else 0;
    if m == 1 then 0
    else if m == 2 then 31
    else if m == 3 then 59 + leap
    else if m == 4 then 90 + leap
    else if m == 5 then 120 + leap
    else if m == 6 then 151 + leap
    else if m == 7 then 181 + leap
    else if m == 8 then 212 + leap
    else if m == 9 then 243 + leap
    else if m == 10 then 273 + leap
    else if m == 11 then 304 + leap
    else 334 + leap
  }

  /**
   * The day number with 0001-01-01 as day 1. A day of month past the end of
   * its month simply runs on into the next month, which is also how SQLite
   * reads such a date.
   */
  function Ordinal(d: Date): int
    requires 1 <= d.month <= 12
  {
    DaysBeforeYear(d.year) + DaysBeforeMonth(d.year, d.month) + d.day
  }

  /** `%w`: 0 for Sunday up to 6 for Saturday (0001-01-01 was a Monday). */
  function Weekday(d: Date): (w: int)
    requires 1 <= d.month <= 12
    ensures 0 <= w < 7
  {
    Ordinal(d) % 7
  }

  /** The calendar day after `d`. */
  function NextDay(d: Date): (n: Date)
    requires InCalendar(d)
    ensures InCalendar(n)
  {
    if d.day < DaysInMonth(d.year, d.month) then d.(day := d.day + 1)
    else if d.month < 12 then Date(d.year, d.month + 1, 1)
    else Date(d.year + 1, 1, 1)
  }

  lemma DivisionStep(y: int)
    ensures y / 4 - (y - 1) / 4 == if y % 4 == 0 then 1 else 0
    ensures y / 100 - (y - 1) / 100 == if y % 100 == 0 then 1 else 0
    ensures y / 400 - (y - 1) / 400 == if y % 400 == 0 then 1 else 0
  {
  }

  /** A year has 366 days exactly when it is a leap year. */
  lemma YearLength(y: int)
    ensures DaysBeforeYear(y + 1) - DaysBeforeYear(y) == if IsLeapYear(y) then 366 else 365
  {
    DivisionStep(y);
  }

  /** Consecutive months: the earlier one's days fill the gap between their starts. */
  lemma MonthLength(y: int, m: int)
    requires 1 <= m < 12
    ensures DaysBeforeMonth(y, m + 1) == DaysBeforeMonth(y, m) + DaysInMonth(y, m)
  {
  }

  /**
   * The day after is one day number later, so the weekday advances by one,
   * Saturday (6) wrapping round to Sunday (0).
   */
  lemma NextDayAdvancesWeekday(d: Date)
    requires InCalendar(d)
    ensures Ordinal(NextDay(d)) == Ordinal(d) + 1
    ensures Weekday(NextDay(d)) == (Weekday(d) + 1) % 7
  {
    NextDayIsNextOrdinal(d);
    ModSevenStep(Ordinal(d), Ordinal(NextDay(d)));
  }

  lemma ModSevenStep(a: int, b: int)
    requires b == a + 1
    ensures b % 7 == (a % 7 + 1) % 7
  {
  }

  lemma NextDayIsNextOrdinal(d: Date)
    requires InCalendar(d)
    ensures Ordinal(NextDay(d)) == Ordinal(d) + 1
  {
    if d.day < DaysInMonth(d.year, d.month) {
    } else if d.month < 12 {
      MonthLength(d.year, d.month);
    } else {
      YearLength(d.year);
      assert DaysBeforeMonth(d.year, 12) + 31 == if IsLeapYear(d.year) then 366 else 365;
    }
  }

  /** 1970-01-01 was a Thursday. */
  lemma EpochIsThursday()
    ensures Weekday(Date(1970, 1, 1)) == 4
  {
  }

  // ---------------------------------------------------------------------
  // Python: datetime.strptime(day, '%Y-%m-%d')
  // ---------------------------------------------------------------------

  /** strptime's `%m`: `1[0-2]|0[1-9]|[1-9]`. */
  function PyMonthField(f: string): (r: Option<int>)
    ensures r.Some? ==> 1 <= r.value <= 12
  {
    if |f| == 2 && ((f[0] == '1' && '0' <= f[1] <= '2') || (f[0] == '0' && '1' <= f[1] <= '9')) then
      Some(10 * DigitValue(f[0]) + DigitValue(f[1]))
    else if |f| == 1 && '1' <= f[0] <= '9' then Some(DigitValue(f[0]))
    else None
  }

  /** strptime's `%d`: `3[01]|[12]\d|0[1-9]|[1-9]| [1-9]`. */
  function PyDayField(f: string): (r: Option<int>)
    ensures r.Some? ==> 1 <= r.value <= 31
  {
    if |f| == 2 && ((f[0] == '3' && '0' <= f[1] <= '1') || ('1' <= f[0] <= '2' && IsDigit(f[1]))
                    || (f[0] == '0' && '1' <= f[1] <= '9')) then
      Some(10 * DigitValue(f[0]) + DigitValue(f[1]))
    else if |f| == 1 && '1' <= f[0] <= '9' then Some(DigitValue(f[0]))
    else if |f| == 2 && f[0] == ' ' && '1' <= f[1] <= '9' then Some(DigitValue(f[1]))
    else None
  }

  /**
   * `datetime.strptime(s, '%Y-%m-%d')`: four digits, '-', a month of one or
   * two digits, '-', a day that must use up the rest of the text, and then a
   * date that exists (year 1 at least, day within its month). None stands
   * for the ValueError.
   */
  function ParsePyDate(s: string): (r: Option<Date>)
    ensures r.Some? ==> ValidDate(r.value)
  {
    if |s| < 8 || !AllDigits(s[..4]) || s[4] != '-' then None
    else
      var rest := s[5..];
      var monthLength := if rest[2] == '-' && PyMonthField(rest[..2]).Some? then 2 else 1;
      if rest[monthLength] != '-' then None
      else match (PyMonthField(rest[..monthLength]), PyDayField(rest[monthLength + 1..]))
        case (Some(m), Some(dd)) =>
          var date := Date(Number(s[..4]), m, dd);
          if ValidDate(date) then Some(date) else None
        case _ => None
  }

  function Pad2(n: int): (s: string)
    requires 0 <= n < 100
    ensures |s| == 2 && AllDigits(s)
  {
    [DigitChar(n / 10), DigitChar(n % 10)]
  }

  function Pad4(n: int): (s: string)
    requires 0 <= n < 10000
    ensures |s| == 4 && AllDigits(s)
  {
    [DigitChar(n / 10 / 10 / 10), DigitChar(n / 10 / 10 % 10), DigitChar(n / 10 % 10), DigitChar(n % 10)]
  }

  lemma Pad4Value(n: int)
    requires 0 <= n < 10000
    ensures Number(Pad4(n)) == n
  {
    var s := Pad4(n);
    var q1, q2, q3 := n / 10, n / 10 / 10, n / 10 / 10 / 10;
    assert s[..1][..0] == [];
    assert Number(s[..1]) == q3;
    assert Number(s[..2]) == 10 * q3 + q2 % 10 == q2 by {
      assert s[..2][..1] == s[..1];
    }
    assert Number(s[..3]) == 10 * q2 + q1 % 10 == q1 by {
      assert s[..3][..2] == s[..2];
    }
    assert Number(s[..4]) == 10 * q1 + n % 10 == n by {
      assert s[..4][..3] == s[..3];
    }
    assert s[..4] == s;
  }

  /** `strftime('%Y-%m-%d')` of a date, zero-padded. */
  function FormatDate(d: Date): (s: string)
    requires ValidDate(d)
    ensures |s| == 10
  {
    Pad4(d.year) + "-" + Pad2(d.month) + "-" + Pad2(d.day)
  }

  /** Parsing what strftime printed gives the date back. */
  lemma ParseFormatRoundTrip(d: Date)
    requires ValidDate(d)
    ensures ParsePyDate(FormatDate(d)) == Some(d)
  {
    var s := FormatDate(d);
    assert s[..4] == Pad4(d.year);
    Pad4Value(d.year);
    var rest := s[5..];
    assert rest[..2] == Pad2(d.month) && rest[2] == '-' && rest[3..] == Pad2(d.day);
  }

  /** strptime accepts an unpadded month and day ... */
  lemma UnpaddedFieldsAccepted()
    ensures ParsePyDate("2025-7-4") == Some(Date(2025, 7, 4))
  {
    assert "2025-7-4"[..4] == "2025";
    assert Number("2025") == 2025 by {
      assert "2025"[..3] == "202" && "202"[..2] == "20" && "20"[..1] == "2" && "2"[..0] == [];
    }
  }

  /** ... but refuses a day that its month does not have, and trailing text. */
  lemma NonexistentDatesRefused()
    ensures ParsePyDate("2023-02-29") == None
    ensures ParsePyDate("2025-07-311") == None
  {
    assert "2023-02-29"[..4] == "2023";
    assert Number("2023") == 2023 by {
      assert "2023"[..3] == "202" && "202"[..2] == "20" && "20"[..1] == "2" && "2"[..0] == [];
    }
  }

  // ---------------------------------------------------------------------
  // SQLite: strftime('%Y-%m', text), strftime('%w', text), strftime('%H', text)
  // ---------------------------------------------------------------------

  /** A date and the hour of day read from a stored text. */
  datatype Moment = Moment(date: Date, hour: int)

  /** Skip the run of spaces and 'T's SQLite allows between date and time. */
  function SkipSeparators(s: string): (r: string)
    ensures |r| <= |s|
  {
    if s != [] && (s[0] == ' ' || s[0] == 'T') then SkipSeparators(s[1..]) else s
  }

  /** What may follow HH:MM: nothing, or ':SS' with SS <= 59 and an optional '.digits'. */
  predicate SecondsTail(t: string) {
    t == []
    || (|t| >= 3 && t[0] == ':' && AllDigits(t[1..3]) && Number(t[1..3]) <= 59
        && (|t| == 3 || (|t| > 4 && t[3] == '.' && AllDigits(t[4..]))))
  }

  /** The hour of a time of day `HH:MM[:SS[.fff]]`, or midnight when there is none. */
  function TimeOfDay(t: string): (r: Option<int>)
    ensures r.Some? ==> 0 <= r.value <= 23
  {
    if t == [] then Some(0)
    else if |t| < 5 || !AllDigits(t[..2]) || t[2] != ':' || !AllDigits(t[3..5]) then None
    else
      var h := Number(t[..2]);
      if h > 23 || Number(t[3..5]) > 59 || !SecondsTail(t[5..]) then None
      else Some(h)
  }

  /**
   * SQLite's reading of a text as a date-time: `YYYY-MM-DD` with a month in
   * 01..12 and a day in 01..31 (not checked against the month), then
   * optionally separators and a time of day.
   */
  function SqliteParse(s: string): (r: Option<Moment>)
    ensures r.Some? ==> 0 <= r.value.date.year <= 9999 && 1 <= r.value.date.month <= 12
                        && 1 <= r.value.date.day <= 31 && 0 <= r.value.hour <= 23
  {
    if |s| < 10 || !AllDigits(s[..4]) || s[4] != '-' || !AllDigits(s[5..7]) || s[7] != '-'
       || !AllDigits(s[8..10]) then None
    else
      var m := Number(s[5..7]);
      var dd := Number(s[8..10]);
      if !(1 <= m <= 12 && 1 <= dd <= 31) then None
      else match TimeOfDay(SkipSeparators(s[10..]))
        case None => None
        case Some(h) => Some(Moment(Date(Number(s[..4]), m, dd), h))
  }

  /** SQLite carries a day past the end of its month into the next month. */
  function Normalize(d: Date): (n: Date)
    requires 1 <= d.month <= 12 && 1 <= d.day <= 31
    ensures InCalendar(n) && n.year == d.year
    ensures Ordinal(n) == Ordinal(d)
  {
    if d.day <= DaysInMonth(d.year, d.month) then d
    else
      MonthLength(d.year, d.month);
      Date(d.year, d.month + 1, d.day - DaysInMonth(d.year, d.month))
  }

  /** `strftime('%Y-%m', s)`; None stands for SQL NULL. */
  function SqliteYearMonth(s: string): Option<string> {
    match SqliteParse(s)
    case None => None
    case Some(mo) =>
      var n := Normalize(mo.date);
      Some(Pad4(n.year) + "-" + Pad2(n.month))
  }

  /** `strftime('%w', s)`: a one-character text '0'..'6', or NULL. */
  function SqliteWeekday(s: string): (v: Value)
    ensures v.Text? ==> |v.s| == 1 && AllDigits(v.s) && Number(v.s) < 7
  {
    match SqliteParse(s)
    case None => Null
    case Some(mo) => Text([DigitChar(Weekday(mo.date))])
  }

  /** `strftime('%H', s)`: a two-digit text '00'..'23', or NULL. */
  function SqliteHour(s: string): (v: Value)
    ensures v.Text? ==> |v.s| == 2 && AllDigits(v.s) && Number(v.s) <= 23
  {
    match SqliteParse(s)
    case None => Null
    case Some(mo) => Text(Pad2(mo.hour))
  }

  lemma Pad2Value(n: int)
    requires 0 <= n < 100
    ensures Number(Pad2(n)) == n
  {
    var s := Pad2(n);
    assert s[..1] == [DigitChar(n / 10)];
    assert s[..1][..0] == [];
    assert Number(s[..1]) == n / 10;
  }

  /** SQLite reads a date printed by strftime('%Y-%m-%d') as that date at midnight. */
  lemma SqliteReadsFormattedDate(d: Date)
    requires ValidDate(d)
    ensures SqliteParse(FormatDate(d)) == Some(Moment(d, 0))
  {
    var s := FormatDate(d);
    assert s[..4] == Pad4(d.year) && s[5..7] == Pad2(d.month) && s[8..10] == Pad2(d.day);
    Pad4Value(d.year);
    Pad2Value(d.month);
    Pad2Value(d.day);
    assert s[10..] == [];
  }

  /**
   * The month key SQLite computes for a stored day 'YYYY-MM-DD' is the
   * text's first seven characters, and both date libraries agree on the
   * weekday of that day.
   */
  lemma MonthKeyOfFormattedDate(d: Date)
    requires ValidDate(d)
    ensures SqliteYearMonth(FormatDate(d)) == Some(FormatDate(d)[..7])
    ensures SqliteWeekday(FormatDate(d)) == Text([DigitChar(Weekday(d))])
  {
    SqliteReadsFormattedDate(d);
    var s := FormatDate(d);
    assert Normalize(d) == d;
    assert s[..7] == Pad4(d.year) + "-" + Pad2(d.month);
  }
}
