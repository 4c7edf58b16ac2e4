/** The full-month report: a grid of every day of the selected month, each day's entries and
    metrics, and the month's totals (src/utils/monthlyReportUtils.ts). */
module MonthlyReportUtils {
  import opened Calendar
  import opened SalesTypes
  import opened Aggregation

  datatype EntryMetrics = EntryMetrics(totalSales: int, totalVolume: real, totalCommission: real, totalTours: int, vpg: real)

  /** One day of the month grid with the entries dated that day. */
  datatype DailyEntry = DailyEntry(date: CalendarDate, entries: seq<Sale>, metrics: EntryMetrics)

  datatype MonthlyTotals = MonthlyTotals(totalSales: int, totalVolume: real, totalCommission: real, totalTours: int, vpg: real)

  /** `generateMonthDays`: `eachDayOfInterval` from the first to the last day of the month. */
  function GenerateMonthDays(selectedMonth: CalendarDate): seq<CalendarDate> {
    DayRange(StartOfMonth(selectedMonth), EndOfMonth(selectedMonth))
  }

  /** The grid is the 1st, 2nd, ... of the selected month, up to its Gregorian length, and holds
      exactly the days of that month. */
  lemma GenerateMonthDaysSpec(selectedMonth: CalendarDate, x: CalendarDate)
    ensures var r := GenerateMonthDays(selectedMonth);
            && 28 <= |r| <= 31
            && |r| == DaysInMonth(selectedMonth.year, selectedMonth.month)
            && (forall i :: 0 <= i < |r| ==> r[i] == Date(selectedMonth.year, selectedMonth.month, i + 1))
            && (x in r <==> MonthOf(x) == MonthOf(selectedMonth))
  {
    MonthRangeIsMonthDays(selectedMonth);
    InMonthDays(selectedMonth.year, selectedMonth.month, x);
  }

  /** The `map` callback of `calculateDailyEntries` for one day. */
  function EntryFor(sales: seq<Sale>, day: CalendarDate): DailyEntry {
    var daysSales := OnDay(sales, day);
    var totalTours := SumTours(daysSales);
    var activeSales := Active(daysSales);
    var totalVolume := SumAmount(activeSales);
    DailyEntry(day, daysSales,
               EntryMetrics(|activeSales|, totalVolume, SumCommission(activeSales), totalTours,
                            if totalTours > 0 then totalVolume / (totalTours as real) else 0.0))
  }

  /** `calculateDailyEntries(sales, monthDays)`: one entry per day of `monthDays`, in order. */
  function CalculateDailyEntries(sales: seq<Sale>, monthDays: seq<CalendarDate>): (r: seq<DailyEntry>)
    ensures |r| == |monthDays|
  {
    if |monthDays| == 0 then [] else CalculateDailyEntries(sales, Init(monthDays)) + [EntryFor(sales, Last(monthDays))]
  }

  lemma {:induction false} DailyEntriesAt(sales: seq<Sale>, monthDays: seq<CalendarDate>, i: int)
    requires 0 <= i < |monthDays|
    ensures CalculateDailyEntries(sales, monthDays)[i] == EntryFor(sales, monthDays[i])
    decreases |monthDays|
  {
    if i < |monthDays| - 1 {
      DailyEntriesAt(sales, Init(monthDays), i);
    }
  }

  /** Entry i is dated `monthDays[i]`; its entries are exactly the input entries of that day
      (each as often as in the input); sales, volume and commission count the active ones,
      tours all of them; the VPG is volume per tour or 0 without tours. */
  lemma DailyEntryMeaning(sales: seq<Sale>, monthDays: seq<CalendarDate>, i: int, x: Sale)
    requires 0 <= i < |monthDays|
    ensures var e := CalculateDailyEntries(sales, monthDays)[i];
            && e.date == monthDays[i]
            && multiset(e.entries)[x] == (if x.date == monthDays[i] then multiset(sales)[x] else 0)
            && Totals(e.metrics.totalSales, e.metrics.totalVolume, e.metrics.totalCommission, e.metrics.totalTours)
               == TotalsOf(e.entries)
            && e.metrics.totalTours == SumTours(e.entries)
            && e.metrics.vpg == Vpg(e.metrics.totalVolume, e.metrics.totalTours)
  {
    DailyEntriesAt(sales, monthDays, i);
    FilterCount(sales, DatedOn(monthDays[i]), x);
    SourceSumsAreTotals(OnDay(sales, monthDays[i]));
  }

  /** An entry dated outside the grid appears in no day of it. */
  lemma OutsideGridAppearsNowhere(sales: seq<Sale>, monthDays: seq<CalendarDate>, x: Sale, i: int)
    requires x.date !in monthDays
    requires 0 <= i < |monthDays|
    ensures x !in CalculateDailyEntries(sales, monthDays)[i].entries
  {
    DailyEntryMeaning(sales, monthDays, i, x);
    assert monthDays[i] in monthDays;
  }

  /** The `reduce` callback: add one day's metrics, leaving `vpg` at 0. */
  function AddDay(totals: MonthlyTotals, day: DailyEntry): MonthlyTotals {
    MonthlyTotals(totals.totalSales + day.metrics.totalSales,
                  totals.totalVolume + day.metrics.totalVolume,
                  totals.totalCommission + day.metrics.totalCommission,
                  totals.totalTours + day.metrics.totalTours,
                  0.0)
  }

  function ReduceDays(dailyEntries: seq<DailyEntry>): MonthlyTotals {
    if |dailyEntries| == 0 then MonthlyTotals(0, 0.0, 0.0, 0, 0.0)
    else AddDay(ReduceDays(Init(dailyEntries)), Last(dailyEntries))
  }

  /** `calculateMonthlyTotals`: sum the days, then set `vpg` from the summed volume and tours. */
  function CalculateMonthlyTotals(dailyEntries: seq<DailyEntry>): MonthlyTotals {
    var totals := ReduceDays(dailyEntries);
    totals.(vpg := if totals.totalTours > 0 then totals.totalVolume / (totals.totalTours as real) else 0.0)
  }

  /** What a day adds to the month, as a reference `Totals`. */
  function EntryContribution(e: DailyEntry): Totals {
    Totals(e.metrics.totalSales, e.metrics.totalVolume, e.metrics.totalCommission, e.metrics.totalTours)
  }

  function SumEntries(dailyEntries: seq<DailyEntry>): Totals {
    if |dailyEntries| == 0 then Zero else Plus(SumEntries(Init(dailyEntries)), EntryContribution(Last(dailyEntries)))
  }

  lemma {:induction false} ReduceDaysIsSum(dailyEntries: seq<DailyEntry>)
    ensures var t := ReduceDays(dailyEntries);
            Totals(t.totalSales, t.totalVolume, t.totalCommission, t.totalTours) == SumEntries(dailyEntries)
    decreases |dailyEntries|
  {
    if |dailyEntries| > 0 {
      ReduceDaysIsSum(Init(dailyEntries));
    }
  }

  /** Each month total is the sum of the same field over the days; `vpg` is derived from the
      summed volume and tours after summing (volume times vpg gives back the volume), and is 0
      without tours. */
  lemma MonthlyTotalsAreSums(dailyEntries: seq<DailyEntry>)
    ensures var t := CalculateMonthlyTotals(dailyEntries);
            var s := SumEntries(dailyEntries);
            && Totals(t.totalSales, t.totalVolume, t.totalCommission, t.totalTours) == s
            && (s.tours > 0 ==> t.vpg * (s.tours as real) == s.volume)
            && (s.tours <= 0 ==> t.vpg == 0.0)
  {
    ReduceDaysIsSum(dailyEntries);
    VpgMeaning(SumEntries(dailyEntries).volume, SumEntries(dailyEntries).tours);
  }

  /** No days: every total is zero and so is `vpg`. */
  lemma EmptyMonthlyTotals()
    ensures CalculateMonthlyTotals([]) == MonthlyTotals(0, 0.0, 0.0, 0, 0.0)
  {
  }

  lemma SumEntriesSnoc(es: seq<DailyEntry>, e: DailyEntry)
    ensures SumEntries(es + [e]) == Plus(SumEntries(es), EntryContribution(e))
  {
    assert Init(es + [e]) == es;
  }

  /** Summing the entries of a grid is summing each grid day's totals. */
  lemma {:induction false} SumEntriesOverGrid(sales: seq<Sale>, days: seq<CalendarDate>)
    ensures SumEntries(CalculateDailyEntries(sales, days)) == GridTotals(sales, days)
    decreases |days|
  {
    if |days| > 0 {
      SumEntriesOverGrid(sales, Init(days));
      SourceSumsAreTotals(OnDay(sales, Last(days)));
      SumEntriesSnoc(CalculateDailyEntries(sales, Init(days)), EntryFor(sales, Last(days)));
    }
  }

  /** The month report end to end: its totals are those of the entries dated in the selected
      month (active ones for sales, volume and commission; all for tours), and entries of other
      months are not counted. */
  lemma MonthReportTotals(sales: seq<Sale>, selectedMonth: CalendarDate)
    ensures var t := CalculateMonthlyTotals(CalculateDailyEntries(sales, GenerateMonthDays(selectedMonth)));
            var inMonth := InMonth(sales, MonthOf(selectedMonth));
            && Totals(t.totalSales, t.totalVolume, t.totalCommission, t.totalTours) == TotalsOf(inMonth)
            && t.totalSales == |Active(inMonth)|
            && t.totalVolume == SumAmount(Active(inMonth))
            && t.totalCommission == SumCommission(Active(inMonth))
            && t.totalTours == SumTours(inMonth)
  {
    var y, m := selectedMonth.year, selectedMonth.month;
    var days := GenerateMonthDays(selectedMonth);
    MonthRangeIsMonthDays(selectedMonth);
    MonthlyTotalsAreSums(CalculateDailyEntries(sales, days));
    SumEntriesOverGrid(sales, days);
    MonthDaysDistinct(y, m);
    DistinctNoRepeats(days);
    PartitionLaw(sales, days);
    InGridMonth(sales, y, m);
    SourceSumsAreTotals(InMonth(sales, MonthOf(selectedMonth)));
  }
}
