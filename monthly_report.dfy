/** The monthly report component's own copy of the month computation
    (src/components/MonthlyReport.tsx): same grid and per-day buckets, without any VPG. */
module MonthlyReport {
  import opened Calendar
  import opened SalesTypes
  import opened Aggregation
  import U = MonthlyReportUtils

  datatype DayTotals = DayTotals(totalSales: int, totalVolume: real, totalCommission: real, totalTours: int)

  datatype ReportDay = ReportDay(date: CalendarDate, entries: seq<Sale>, metrics: DayTotals)

  /** The `monthDays` memo: every day from the start to the end of the selected month. */
  function ReportMonthDays(selectedMonth: CalendarDate): seq<CalendarDate> {
    DayRange(StartOfMonth(selectedMonth), EndOfMonth(selectedMonth))
  }

  /** The `map` callback of the `dailyEntries` memo. */
  function ReportDayFor(sales: seq<Sale>, day: CalendarDate): ReportDay {
    var daysSales := OnDay(sales, day);
    var activeSales := Active(daysSales);
    ReportDay(day, daysSales,
              DayTotals(|activeSales|, SumAmount(activeSales), SumCommission(activeSales), SumTours(daysSales)))
  }

  /** The `dailyEntries` memo. */
  function DailyEntries(sales: seq<Sale>, monthDays: seq<CalendarDate>): (r: seq<ReportDay>)
    ensures |r| == |monthDays|
  {
    if |monthDays| == 0 then [] else DailyEntries(sales, Init(monthDays)) + [ReportDayFor(sales, Last(monthDays))]
  }

  /** The `monthlyTotals` memo: a plain field-by-field `reduce`. */
  function MonthlyTotals(dailyEntries: seq<ReportDay>): DayTotals {
    if |dailyEntries| == 0 then DayTotals(0, 0.0, 0.0, 0)
    else
      var totals := MonthlyTotals(Init(dailyEntries));
      var day := Last(dailyEntries).metrics;
      DayTotals(totals.totalSales + day.totalSales, totals.totalVolume + day.totalVolume,
                totals.totalCommission + day.totalCommission, totals.totalTours + day.totalTours)
  }

  /** Drop the VPG from a utility entry. */
  function WithoutVpg(e: U.DailyEntry): ReportDay {
    ReportDay(e.date, e.entries,
              DayTotals(e.metrics.totalSales, e.metrics.totalVolume, e.metrics.totalCommission, e.metrics.totalTours))
  }

  /** The component builds the same grid as `generateMonthDays`. */
  lemma SameMonthDays(selectedMonth: CalendarDate)
    ensures ReportMonthDays(selectedMonth) == U.GenerateMonthDays(selectedMonth)
    ensures ReportMonthDays(selectedMonth) == MonthDays(selectedMonth.year, selectedMonth.month)
  {
    MonthRangeIsMonthDays(selectedMonth);
  }

  /** Day by day, the component's entries are the utility's entries with the VPG dropped. */
  lemma {:induction false} SameDailyEntries(sales: seq<Sale>, monthDays: seq<CalendarDate>, i: int)
    requires 0 <= i < |monthDays|
    ensures DailyEntries(sales, monthDays)[i] == WithoutVpg(U.CalculateDailyEntries(sales, monthDays)[i])
    ensures DailyEntries(sales, monthDays)[i].date == monthDays[i]
    ensures DailyEntries(sales, monthDays)[i].entries == OnDay(sales, monthDays[i])
    decreases |monthDays|
  {
    if i < |monthDays| - 1 {
      SameDailyEntries(sales, Init(monthDays), i);
    } else {
      U.DailyEntriesAt(sales, monthDays, i);
    }
  }

  /** The component's month totals are the sums of its daily fields over the utility's days. */
  lemma {:induction false} MonthlyTotalsAsSum(sales: seq<Sale>, monthDays: seq<CalendarDate>)
    ensures var t := MonthlyTotals(DailyEntries(sales, monthDays));
            Totals(t.totalSales, t.totalVolume, t.totalCommission, t.totalTours)
            == U.SumEntries(U.CalculateDailyEntries(sales, monthDays))
    decreases |monthDays|
  {
    if |monthDays| > 0 {
      var days, d := Init(monthDays), Last(monthDays);
      assert Init(DailyEntries(sales, monthDays)) == DailyEntries(sales, days);
      MonthlyTotalsAsSum(sales, days);
      U.SumEntriesSnoc(U.CalculateDailyEntries(sales, days), U.EntryFor(sales, d));
      DayAgrees(sales, d);
    }
  }

  lemma DayAgrees(sales: seq<Sale>, day: CalendarDate)
    ensures var m := ReportDayFor(sales, day).metrics;
            U.EntryContribution(U.EntryFor(sales, day)) == Totals(m.totalSales, m.totalVolume, m.totalCommission, m.totalTours)
  {
  }

  /** The component's month totals are the sums of its daily fields and equal the utility's
      totals over the same grid. */
  lemma SameMonthlyTotals(sales: seq<Sale>, monthDays: seq<CalendarDate>)
    ensures var t := MonthlyTotals(DailyEntries(sales, monthDays));
            var u := U.CalculateMonthlyTotals(U.CalculateDailyEntries(sales, monthDays));
            && Totals(t.totalSales, t.totalVolume, t.totalCommission, t.totalTours)
               == U.SumEntries(U.CalculateDailyEntries(sales, monthDays))
            && t == DayTotals(u.totalSales, u.totalVolume, u.totalCommission, u.totalTours)
  {
    MonthlyTotalsAsSum(sales, monthDays);
    U.MonthlyTotalsAreSums(U.CalculateDailyEntries(sales, monthDays));
  }

  /** The report's totals are those of the entries dated in the selected month; a month with
      no entries shows all zeros. */
  lemma ReportTotals(sales: seq<Sale>, selectedMonth: CalendarDate)
    ensures var t := MonthlyTotals(DailyEntries(sales, ReportMonthDays(selectedMonth)));
            var inMonth := InMonth(sales, MonthOf(selectedMonth));
            && Totals(t.totalSales, t.totalVolume, t.totalCommission, t.totalTours) == TotalsOf(inMonth)
            && (|inMonth| == 0 ==> t == DayTotals(0, 0.0, 0.0, 0))
  {
    var days := ReportMonthDays(selectedMonth);
    SameMonthDays(selectedMonth);
    SameMonthlyTotals(sales, days);
    U.MonthReportTotals(sales, selectedMonth);
  }
}
