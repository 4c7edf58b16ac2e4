/** Gregorian calendar dates without a time of day, the day ordinal used to order them,
    and the "each day of an interval" enumeration the reports are built on. */
module Calendar {

  datatype Date = Date(year: int, month: int, day: int)

  predicate IsLeapYear(y: int) {
    y % 4 == 0 && (y % 100 != 0 || y % 400 == 0)
  }

  function DaysInMonth(y: int, m: int): (n: int)
    requires 1 <= m <= 12
    ensures 28 <= n <= 31
    ensures n == 29 <==> m == 2 && IsLeapYear(y)
  {
    if m == 2 then (if IsLeapYear(y) then 29 else 28)
    else if m == 4 || m == 6 || m == 9 || m == 11 then 30
    else 31
  }

  predicate ValidDate(d: Date) {
    1 <= d.year && 1 <= d.month <= 12 && 1 <= d.day <= DaysInMonth(d.year, d.month)
  }

  /** A calendar date that exists in the proleptic Gregorian calendar (from year 1 on). */
  type CalendarDate = d: Date | ValidDate(d) witness Date(1970, 1, 1)

  /** Year and month, the key of a monthly roll-up (`format(date, 'yyyy-MM')`). */
  datatype YearMonth = YearMonth(year: int, month: int)

  function MonthOf(d: CalendarDate): YearMonth {
    YearMonth(d.year, d.month)
  }

  /** `isFirstDayOfMonth`. */
  predicate IsFirstOfMonth(d: CalendarDate) {
    d.day == 1
  }

  /** Number of days in the months before month `m` of year `y`. */
  function DaysBeforeMonth(y: int, m: int): (n: int)
    requires 1 <= m <= 13
    ensures n >= 28 * (m - 1)
  {
    if m == 1 then 0 else DaysBeforeMonth(y, m - 1) + DaysInMonth(y, m - 1)
  }

  function YearLength(y: int): int {
    DaysBeforeMonth(y, 13)
  }

  /** Number of days in the years before year `y`, counted from year 1. */
  function DaysBeforeYear(y: int): (n: int)
    requires 1 <= y
    ensures n >= 0
  {
    if y == 1 then 0 else DaysBeforeYear(y - 1) + YearLength(y - 1)
  }

  /** The ordinal of a date: 0 for 0001-01-01, one more for each following day. */
  function DayNumber(d: CalendarDate): int {
    DaysBeforeYear(d.year) + DaysBeforeMonth(d.year, d.month) + d.day - 1
  }

  /** Calendar order: by year, then month, then day. */
  predicate Before(a: Date, b: Date) {
    a.year < b.year
    || (a.year == b.year && a.month < b.month)
    || (a.year == b.year && a.month == b.month && a.day < b.day)
  }

  /** The day after `d`. */
  function NextDay(d: CalendarDate): (r: CalendarDate)
    ensures DayNumber(r) == DayNumber(d) + 1
    ensures Before(d, r)
  {
    if d.day < DaysInMonth(d.year, d.month) then Date(d.year, d.month, d.day + 1)
    else if d.month < 12 then Date(d.year, d.month + 1, 1)
    else Date(d.year + 1, 1, 1)
  }

  lemma {:induction false} MonthsBeforeGrow(y: int, m1: int, m2: int)
    requires 1 <= m1 < m2 <= 13
    ensures DaysBeforeMonth(y, m1) + DaysInMonth(y, m1) <= DaysBeforeMonth(y, m2)
    decreases m2
  {
    if m1 + 1 < m2 {
      MonthsBeforeGrow(y, m1, m2 - 1);
    }
  }

  lemma {:induction false} YearsBeforeGrow(y1: int, y2: int)
    requires 1 <= y1 < y2
    ensures DaysBeforeYear(y1) + YearLength(y1) <= DaysBeforeYear(y2)
    decreases y2
  {
    if y1 + 1 < y2 {
      YearsBeforeGrow(y1, y2 - 1);
      assert YearLength(y2 - 1) >= 0;
    }
  }

  /** A date falls strictly inside its own year's day count. */
  lemma DayOfYearBound(d: CalendarDate)
    ensures DaysBeforeMonth(d.year, d.month) + d.day - 1 < YearLength(d.year)
  {
    MonthsBeforeGrow(d.year, d.month, 13);
  }

  /** The day ordinal is strictly monotone in calendar order. */
  lemma DayNumberMonotone(a: CalendarDate, b: CalendarDate)
    requires Before(a, b)
    ensures DayNumber(a) < DayNumber(b)
  {
    if a.year < b.year {
      DayOfYearBound(a);
      YearsBeforeGrow(a.year, b.year);
    } else if a.month < b.month {
      MonthsBeforeGrow(a.year, a.month, b.month);
    }
  }

  /** Calendar order and ordinal order agree, so the ordinal identifies the date. */
  lemma DayNumberOrder(a: CalendarDate, b: CalendarDate)
    ensures Before(a, b) <==> DayNumber(a) < DayNumber(b)
    ensures a == b <==> DayNumber(a) == DayNumber(b)
  {
    if Before(a, b) {
      DayNumberMonotone(a, b);
    } else if Before(b, a) {
      DayNumberMonotone(b, a);
    }
  }

  /** `eachDayOfInterval({start, end})`: every day from `start` to `end` inclusive, in order.
      Every caller passes `start` no later than `end`; for a reversed interval this function is
      empty, which is a choice of the model and not what `eachDayOfInterval` does. */
  function DayRange(start: CalendarDate, end: CalendarDate): (r: seq<CalendarDate>)
    ensures |r| == if DayNumber(end) < DayNumber(start) then 0 else DayNumber(end) - DayNumber(start) + 1
    decreases DayNumber(end) - DayNumber(start)
  {
    if DayNumber(end) < DayNumber(start) then [] else [start] + DayRange(NextDay(start), end)
  }

  /** The i-th day of a range is i days after its start. */
  lemma {:induction false} DayRangeAt(start: CalendarDate, end: CalendarDate, i: int)
    requires 0 <= i < |DayRange(start, end)|
    ensures DayNumber(DayRange(start, end)[i]) == DayNumber(start) + i
    decreases DayNumber(end) - DayNumber(start)
  {
    if i > 0 {
      DayRangeAt(NextDay(start), end, i - 1);
    }
  }

  /** The range starts at `start`, ends at `end`, and holds exactly the days between them. */
  lemma DayRangeExact(start: CalendarDate, end: CalendarDate, x: CalendarDate)
    ensures x in DayRange(start, end) <==> DayNumber(start) <= DayNumber(x) <= DayNumber(end)
    ensures DayNumber(start) <= DayNumber(end) ==>
              DayRange(start, end)[0] == start && DayRange(start, end)[|DayRange(start, end)| - 1] == end
  {
    var r := DayRange(start, end);
    if x in r {
      var i :| 0 <= i < |r| && r[i] == x;
      DayRangeAt(start, end, i);
    }
    if DayNumber(start) <= DayNumber(x) <= DayNumber(end) {
      var i := DayNumber(x) - DayNumber(start);
      DayRangeAt(start, end, i);
      DayNumberOrder(r[i], x);
    }
    if DayNumber(start) <= DayNumber(end) {
      DayRangeAt(start, end, 0);
      DayRangeAt(start, end, |r| - 1);
      DayNumberOrder(r[0], start);
      DayNumberOrder(r[|r| - 1], end);
    }
  }

  /** The days of a range are pairwise distinct. */
  lemma DayRangeDistinct(start: CalendarDate, end: CalendarDate)
    ensures Distinct(DayRange(start, end))
  {
    var r := DayRange(start, end);
    forall i, j | 0 <= i < j < |r| ensures r[i] != r[j] {
      DayRangeAt(start, end, i);
      DayRangeAt(start, end, j);
    }
  }

  predicate Distinct<T(==)>(s: seq<T>) {
    forall i, j :: 0 <= i < j < |s| ==> s[i] != s[j]
  }

  function StartOfMonth(d: CalendarDate): CalendarDate {
    Date(d.year, d.month, 1)
  }

  function EndOfMonth(d: CalendarDate): CalendarDate {
    Date(d.year, d.month, DaysInMonth(d.year, d.month))
  }

  /** Every day of month `m` of year `y`, spelled out. */
  function MonthDays(y: int, m: int): (r: seq<CalendarDate>)
    requires 1 <= y && 1 <= m <= 12
  {
    seq(DaysInMonth(y, m), i requires 0 <= i < DaysInMonth(y, m) => Date(y, m, i + 1))
  }

  /** Enumerating the interval from the first to the last day of a month gives
      the 1st, 2nd, ... up to the month's Gregorian length (28 to 31 days). */
  lemma MonthRangeIsMonthDays(d: CalendarDate)
    ensures DayRange(StartOfMonth(d), EndOfMonth(d)) == MonthDays(d.year, d.month)
    ensures 28 <= |MonthDays(d.year, d.month)| <= 31
  {
    var r := DayRange(StartOfMonth(d), EndOfMonth(d));
    var s := MonthDays(d.year, d.month);
    assert |r| == |s|;
    forall i | 0 <= i < |r| ensures r[i] == s[i] {
      DayRangeAt(StartOfMonth(d), EndOfMonth(d), i);
      DayNumberOrder(r[i], s[i]);
    }
  }

  /** A date lies in the month grid exactly when it has that year and month. */
  lemma InMonthDays(y: int, m: int, x: CalendarDate)
    requires 1 <= y && 1 <= m <= 12
    ensures x in MonthDays(y, m) <==> x.year == y && x.month == m
  {
    if x.year == y && x.month == m {
      assert MonthDays(y, m)[x.day - 1] == x;
    }
  }

  lemma MonthDaysDistinct(y: int, m: int)
    requires 1 <= y && 1 <= m <= 12
    ensures Distinct(MonthDays(y, m))
  {
  }
}
