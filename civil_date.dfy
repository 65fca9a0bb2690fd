/** Calendar dates as the bucketing code sees them: a proleptic Gregorian (year, month,
    day) in UTC, counted from 0001-01-01 (a Monday). `FormatDate` is
    `date.toISOString().split('T')[0]`; `ParseDate` is the reading of a `YYYY-MM-DD`
    string by `new Date(...)`. */
module CivilDate {
  import opened Seqs
  import opened Strings

  datatype Date = Date(year: int, month: int, day: int)

  predicate IsLeap(y: int)
  {
    y % 4 == 0 && (y % 100 != 0 || y % 400 == 0)
  }

  function DaysInMonth(y: int, m: int): int
  {
    if m == 2 then (if IsLeap(y) then 29 else 28)
    else if m == 4 || m == 6 || m == 9 || m == 11 then 30
    else 31
  }

  predicate Valid(d: Date)
  {
    1 <= d.year <= 9999 && 1 <= d.month <= 12 && 1 <= d.day <= DaysInMonth(d.year, d.month)
  }

  /** Days in the months of year y before month m (m = 13: the whole year). */
  function DaysBeforeMonth(y: int, m: int): int
    requires 1 <= m <= 13
  {
    var table := [0, 31, 59, 90, 120, 151, 181, 212, 243, 273, 304, 334, 365];
    table[m - 1] + (if m > 2 && IsLeap(y) then 1 else 0)
  }

  /** Days in the years 1 .. y-1. */
  function DaysBeforeYear(y: int): int
    requires y >= 1
  {
    var n := y - 1;
    365 * n + n / 4 - n / 100 + n / 400
  }

  /** Days since 0001-01-01. */
  function DayNumber(d: Date): (n: int)
    requires Valid(d)
    ensures n >= 0
  {
    DaysBeforeYear(d.year) + DaysBeforeMonth(d.year, d.month) + d.day - 1
  }

  /** The cumulative table agrees with the month lengths it stands for. */
  lemma MonthStep(y: int, m: int)
    requires 1 <= m <= 12
    ensures DaysBeforeMonth(y, m + 1) == DaysBeforeMonth(y, m) + DaysInMonth(y, m)
  {
  }

  lemma DaysInYear(y: int)
    ensures DaysBeforeMonth(y, 13) == if IsLeap(y) then 366 else 365
  {
  }

  /** The closed form of the year offset counts the leap years passed. */
  lemma YearStep(y: int)
    requires y >= 1
    ensures DaysBeforeYear(y + 1) == DaysBeforeYear(y) + DaysBeforeMonth(y, 13)
  {
    var n := y - 1;
    assert (n + 1) / 4 == n / 4 + (if y % 4 == 0 then 1 else 0);
    assert (n + 1) / 100 == n / 100 + (if y % 100 == 0 then 1 else 0);
    assert (n + 1) / 400 == n / 400 + (if y % 400 == 0 then 1 else 0);
    DaysInYear(y);
  }

  lemma {:induction false} YearMonotone(y: int, z: int)
    requires 1 <= y <= z
    ensures DaysBeforeYear(y) + 365 * (z - y) <= DaysBeforeYear(z)
    decreases z - y
  {
    if y < z {
      YearMonotone(y + 1, z);
      YearStep(y);
    }
  }

  lemma {:induction false} MonthMonotone(y: int, m: int, n: int)
    requires 1 <= m < n <= 13
    ensures DaysBeforeMonth(y, m) + DaysInMonth(y, m) <= DaysBeforeMonth(y, n)
    decreases n - m
  {
    MonthStep(y, m);
    if m + 1 < n {
      MonthMonotone(y, m + 1, n);
    }
  }

  /** The date before d. */
  function PrevDay(d: Date): (r: Date)
    requires Valid(d) && DayNumber(d) > 0
    ensures Valid(r) && DayNumber(r) == DayNumber(d) - 1
  {
    if d.day > 1 then Date(d.year, d.month, d.day - 1)
    else if d.month > 1 then
      MonthStep(d.year, d.month - 1);
      Date(d.year, d.month - 1, DaysInMonth(d.year, d.month - 1))
    else
      YearStep(d.year - 1);
      Date(d.year - 1, 12, 31)
  }

  /** d moved k days back (`setDate(getDate() - k)`, `setHours(-24 * k)`). */
  function BackDays(d: Date, k: nat): (r: Date)
    requires Valid(d) && k <= DayNumber(d)
    ensures Valid(r) && DayNumber(r) == DayNumber(d) - k
    decreases k
  {
    if k == 0 then d else BackDays(PrevDay(d), k - 1)
  }

  /** `date.getDay()`: 0 is Sunday, 1 is Monday. */
  function JsGetDay(d: Date): int
    requires Valid(d)
  {
    Weekday(DayNumber(d))
  }

  /** The weekday of day number n, 0 being Sunday; day 0 (0001-01-01) is a Monday. */
  function Weekday(n: int): int
  {
    (n + 1) % 7
  }

  /** `getWeekStart`: with Sunday counted as day 7, go back (day - 1) days. */
  function WeekStart(d: Date): Date
    requires Valid(d)
  {
    var n := DayNumber(d);
    var g := Weekday(n);
    var day := if g == 0 then 7 else g;
    WeekdayArithmetic(n, g);
    if day != 1 then BackDays(d, day - 1) else d
  }

  /** `getMonthStart`: day 1 of the same month. */
  function MonthStart(d: Date): Date
  {
    Date(d.year, d.month, 1)
  }

  /** The week start is the Monday on or before d, fewer than seven days back. */
  lemma WeekStartSpec(d: Date)
    requires Valid(d)
    ensures Valid(WeekStart(d)) && JsGetDay(WeekStart(d)) == 1
    ensures DayNumber(WeekStart(d)) <= DayNumber(d) < DayNumber(WeekStart(d)) + 7
    ensures DayNumber(WeekStart(d)) == 7 * (DayNumber(d) / 7)
  {
    WeekStartBack(d);
    MondayArithmetic(DayNumber(d), DayNumber(WeekStart(d)));
  }

  lemma WeekStartBack(d: Date)
    requires Valid(d)
    ensures Valid(WeekStart(d)) && DayNumber(WeekStart(d)) == DayNumber(d) - DayNumber(d) % 7
  {
    WeekdayArithmetic(DayNumber(d), JsGetDay(d));
  }

  lemma WeekdayArithmetic(n: int, g: int)
    requires n >= 0 && g == Weekday(n)
    ensures (if g == 0 then 7 else g) - 1 == n % 7
  {
  }

  lemma MondayArithmetic(n: int, m: int)
    requires n >= 0 && m == n - n % 7
    ensures m == 7 * (n / 7) && Weekday(m) == 1 && m <= n < m + 7
  {
  }

  lemma MonthStartSpec(d: Date)
    requires Valid(d)
    ensures Valid(MonthStart(d))
    ensures MonthStart(d).year == d.year && MonthStart(d).month == d.month && MonthStart(d).day == 1
    ensures DayNumber(MonthStart(d)) == DayNumber(d) - (d.day - 1)
  {
  }

  /** The order of (year, month, day) triples. */
  predicate DateLess(a: Date, b: Date)
  {
    a.year < b.year || (a.year == b.year && (a.month < b.month || (a.month == b.month && a.day < b.day)))
  }

  lemma EndOfYear(a: Date)
    requires Valid(a)
    ensures DayNumber(a) < DaysBeforeYear(a.year + 1)
  {
    YearStep(a.year);
    MonthMonotone(a.year, a.month, 13);
  }

  lemma DateLessDayNumber(a: Date, b: Date)
    requires Valid(a) && Valid(b) && DateLess(a, b)
    ensures DayNumber(a) < DayNumber(b)
  {
    if a.year < b.year {
      EndOfYear(a);
      YearMonotone(a.year + 1, b.year);
    } else if a.month < b.month {
      MonthMonotone(a.year, a.month, b.month);
    }
  }

  /** Calendar order and day-number order coincide, so the day number identifies the date. */
  lemma DayNumberOrder(a: Date, b: Date)
    requires Valid(a) && Valid(b)
    ensures DateLess(a, b) <==> DayNumber(a) < DayNumber(b)
    ensures a == b <==> DayNumber(a) == DayNumber(b)
  {
    if DateLess(a, b) {
      DateLessDayNumber(a, b);
    } else if DateLess(b, a) {
      DateLessDayNumber(b, a);
    }
  }

  /** Two dates share a week bucket exactly when they fall in the same Monday-based week. */
  lemma SameWeek(a: Date, b: Date)
    requires Valid(a) && Valid(b)
    ensures WeekStart(a) == WeekStart(b) <==> DayNumber(a) / 7 == DayNumber(b) / 7
  {
    WeekStartSpec(a);
    WeekStartSpec(b);
    DayNumberOrder(WeekStart(a), WeekStart(b));
  }

  function Pow10(w: nat): nat
  {
    if w == 0 then 1 else 10 * Pow10(w - 1)
  }

  /** n written with exactly w decimal digits, zero-padded. */
  function Digits(n: nat, w: nat): (s: string)
    ensures |s| == w && forall i :: 0 <= i < w ==> IsDigit(s[i])
  {
    if w == 0 then [] else Digits(n / 10, w - 1) + [DigitChar(n % 10)]
  }

  lemma {:induction false} DigitsValue(n: nat, w: nat)
    requires n < Pow10(w)
    ensures DecimalValue(Digits(n, w)) == n
    decreases w
  {
    if w > 0 {
      DigitsValue(n / 10, w - 1);
      InitOfSnoc(Digits(n / 10, w - 1), DigitChar(n % 10));
    }
  }

  lemma {:induction false} DigitsOfValue(s: string)
    requires forall i :: 0 <= i < |s| ==> IsDigit(s[i])
    ensures DecimalValue(s) < Pow10(|s|) && Digits(DecimalValue(s), |s|) == s
    decreases |s|
  {
    if s != [] {
      assert forall i :: 0 <= i < |Init(s)| ==> IsDigit(Init(s)[i]) by {
        forall i | 0 <= i < |Init(s)| ensures IsDigit(Init(s)[i]) {
          assert Init(s)[i] == s[i];
        }
      }
      DigitsOfValue(Init(s));
      var v := DecimalValue(Init(s));
      var d := DigitValue(Last(s));
      assert (v * 10 + d) / 10 == v && (v * 10 + d) % 10 == d;
      assert DigitChar(d) == Last(s);
      assert s == Init(s) + [Last(s)];
    }
  }

  lemma SingleCharLess(a: char, b: char)
    ensures LexLess([a], [b]) <==> a < b
  {
    assert [a][1..] == [] && [b][1..] == [];
  }

  /** Zero-padded numerals of one width compare as the numbers do. */
  lemma {:induction false} DigitsOrder(x: nat, y: nat, w: nat)
    requires x < Pow10(w) && y < Pow10(w)
    ensures LexLess(Digits(x, w), Digits(y, w)) <==> x < y
    ensures Digits(x, w) == Digits(y, w) <==> x == y
    decreases w
  {
    if w == 0 {
      assert x == 0 && y == 0;
    } else {
      var a, b := Digits(x / 10, w - 1), Digits(y / 10, w - 1);
      var c, d := [DigitChar(x % 10)], [DigitChar(y % 10)];
      DigitsOrder(x / 10, y / 10, w - 1);
      DigitOrder(x % 10, y % 10);
      SingleCharLess(c[0], d[0]);
      if x / 10 != y / 10 {
        LexLessEqualLength(a, b, c, d);
        assert Digits(x, w)[..w - 1] == a && Digits(y, w)[..w - 1] == b;
      } else {
        LexLessCommonPrefix(a, c, d);
      }
    }
  }

  /** `date.toISOString().split('T')[0]` for years 0 .. 9999. */
  function FormatDate(d: Date): string
    requires 0 <= d.year < 10000 && 0 <= d.month < 100 && 0 <= d.day < 100
  {
    Digits(d.year, 4) + "-" + Digits(d.month, 2) + "-" + Digits(d.day, 2)
  }

  /** Reading a `YYYY-MM-DD` string; `None` stands for an Invalid Date. */
  function ParseDate(s: string): Option<Date>
  {
    if |s| == 10 && s[4] == '-' && s[7] == '-'
       && IsDigit(s[0]) && IsDigit(s[1]) && IsDigit(s[2]) && IsDigit(s[3])
       && IsDigit(s[5]) && IsDigit(s[6]) && IsDigit(s[8]) && IsDigit(s[9])
    then
      var d := Date(DecimalValue(s[..4]), DecimalValue(s[5..7]), DecimalValue(s[8..]));
      if Valid(d) then Some(d) else None
    else None
  }

  /** Formatting then reading a valid date gives it back. */
  lemma ParseFormat(d: Date)
    requires Valid(d)
    ensures ParseDate(FormatDate(d)) == Some(d)
  {
    var s := FormatDate(d);
    assert s[..4] == Digits(d.year, 4);
    assert s[5..7] == Digits(d.month, 2);
    assert s[8..] == Digits(d.day, 2);
    DigitsValue(d.year, 4);
    DigitsValue(d.month, 2);
    DigitsValue(d.day, 2);
  }

  /** A string that reads as a date is that date's own formatting. */
  lemma FormatParse(s: string)
    requires ParseDate(s).Some?
    ensures FormatDate(ParseDate(s).value) == s
  {
    var y, m, d := s[..4], s[5..7], s[8..];
    assert y == [s[0], s[1], s[2], s[3]] && m == [s[5], s[6]] && d == [s[8], s[9]];
    DigitsOfValue(y);
    DigitsOfValue(m);
    DigitsOfValue(d);
    assert s == y + "-" + m + "-" + d;
  }

  /** For `YYYY-MM-DD` keys, string order (`<`, `localeCompare`) is chronological order. */
  lemma FormatOrder(a: Date, b: Date)
    requires Valid(a) && Valid(b)
    ensures LexLess(FormatDate(a), FormatDate(b)) <==> DayNumber(a) < DayNumber(b)
    ensures FormatDate(a) == FormatDate(b) <==> a == b
  {
    DayNumberOrder(a, b);
    FormatLess(a, b);
    if FormatDate(a) == FormatDate(b) {
      ParseFormat(a);
      ParseFormat(b);
    }
  }

  function MonthDay(d: Date): string
    requires 0 <= d.month < 100 && 0 <= d.day < 100
  {
    Digits(d.month, 2) + "-" + Digits(d.day, 2)
  }

  lemma FormatLess(a: Date, b: Date)
    requires Valid(a) && Valid(b)
    ensures LexLess(FormatDate(a), FormatDate(b)) <==> DateLess(a, b)
  {
    if a.year != b.year {
      FormatLessYears(a, b);
    } else {
      FormatLessSameYear(a, b);
    }
  }

  lemma FormatLessYears(a: Date, b: Date)
    requires Valid(a) && Valid(b) && a.year != b.year
    ensures LexLess(FormatDate(a), FormatDate(b)) <==> a.year < b.year
  {
    var ya, yb := Digits(a.year, 4), Digits(b.year, 4);
    DigitsOrder(a.year, b.year, 4);
    assert FormatDate(a) == ya + ("-" + MonthDay(a));
    assert FormatDate(b) == yb + ("-" + MonthDay(b));
    LexLessEqualLength(ya, yb, "-" + MonthDay(a), "-" + MonthDay(b));
  }

  lemma FormatLessSameYear(a: Date, b: Date)
    requires Valid(a) && Valid(b) && a.year == b.year
    ensures LexLess(FormatDate(a), FormatDate(b)) <==> a.month < b.month || (a.month == b.month && a.day < b.day)
  {
    var ya := Digits(a.year, 4);
    LexLessCommonPrefix(ya + "-", MonthDay(a), MonthDay(b));
    assert FormatDate(a) == (ya + "-") + MonthDay(a);
    assert FormatDate(b) == (ya + "-") + MonthDay(b);
    MonthDayLess(a, b);
  }

  lemma MonthDayLess(a: Date, b: Date)
    requires Valid(a) && Valid(b)
    ensures LexLess(MonthDay(a), MonthDay(b)) <==> a.month < b.month || (a.month == b.month && a.day < b.day)
  {
    var ma, mb := Digits(a.month, 2), Digits(b.month, 2);
    var da, db := Digits(a.day, 2), Digits(b.day, 2);
    DigitsOrder(a.month, b.month, 2);
    DigitsOrder(a.day, b.day, 2);
    assert MonthDay(a) == ma + ("-" + da);
    assert MonthDay(b) == mb + ("-" + db);
    if a.month != b.month {
      LexLessEqualLength(ma, mb, "-" + da, "-" + db);
    } else {
      LexLessCommonPrefix(ma + "-", da, db);
      assert MonthDay(a) == (ma + "-") + da;
      assert MonthDay(b) == (ma + "-") + db;
    }
  }

  /** 2025-01-01 is a Wednesday; its week starts on Monday 2024-12-30. */
  lemma WeekStartOfNewYear2025()
    ensures WeekStart(Date(2025, 1, 1)) == Date(2024, 12, 30)
    ensures WeekStart(Date(2024, 12, 30)) == Date(2024, 12, 30)
  {
    assert DayNumber(Date(2025, 1, 1)) == 739251;
    assert JsGetDay(Date(2025, 1, 1)) == 3;
    assert DayNumber(Date(2024, 12, 30)) == 739249;
    assert JsGetDay(Date(2024, 12, 30)) == 1;
    assert BackDays(Date(2025, 1, 1), 2) == BackDays(Date(2024, 12, 31), 1);
  }

  /** The key such a row is filed under. */
  lemma FormatDateExample()
    ensures FormatDate(Date(2024, 12, 30)) == "2024-12-30"
  {
    var s := "2024-12-30";
    assert s[..4] == "2024" && s[5..7] == "12" && s[8..] == "30";
    assert DecimalValue("2024") == 2024 by {
      assert Init("2024") == "202" && Init("202") == "20" && Init("20") == "2" && Init("2") == "";
    }
    assert DecimalValue("12") == 12 by { assert Init("12") == "1" && Init("1") == ""; }
    assert DecimalValue("30") == 30 by { assert Init("30") == "3" && Init("3") == ""; }
    assert ParseDate(s) == Some(Date(2024, 12, 30));
    FormatParse(s);
  }

  lemma MonthStartOfFebruary2025()
    ensures MonthStart(Date(2025, 2, 28)) == MonthStart(Date(2025, 2, 1)) == Date(2025, 2, 1)
    ensures FormatDate(MonthStart(Date(2025, 2, 28))) == "2025-02-01"
  {
  }
}
