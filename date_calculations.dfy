/** Daily metrics over the span of days the entries cover, and their roll-up by month
    (src/utils/dateCalculations.ts). */
module DateCalculations {
  import opened Calendar
  import opened SalesTypes
  import opened Aggregation

  /** One report day: the active-entry totals, the tours of all entries, and the entries. */
  datatype DailyMetrics = DailyMetrics(
    date: CalendarDate,
    totalSales: int,
    totalVolume: real,
    totalCommission: real,
    numberOfTours: int,
    dailyVPG: real,
    isFirstOfMonth: bool,
    entries: seq<Sale>)

  /** `calculateDailyVPG(sales, totalTours)`: the volume of `sales` per tour, 0 without tours. */
  function CalculateDailyVPG(sales: seq<Sale>, totalTours: int): real {
    Vpg(SumAmount(sales), totalTours)
  }

  lemma DailyVpgMeaning(sales: seq<Sale>, totalTours: int)
    ensures totalTours > 0 ==> CalculateDailyVPG(sales, totalTours) * (totalTours as real) == SumAmount(sales)
    ensures totalTours <= 0 ==> CalculateDailyVPG(sales, totalTours) == 0.0
  {
    VpgMeaning(SumAmount(sales), totalTours);
  }

  /** The metrics of one day, as the `map` callback builds them. */
  function DayMetrics(sales: seq<Sale>, date: CalendarDate): DailyMetrics {
    var dailySales := OnDay(sales, date);
    var activeSales := Active(dailySales);
    var totalTours := SumTours(dailySales);
    DailyMetrics(date, |activeSales|, SumAmount(activeSales), SumCommission(activeSales),
                 totalTours, CalculateDailyVPG(activeSales, totalTours), IsFirstOfMonth(date), dailySales)
  }

  /** `Math.min` over the entries' days. */
  function EarliestDate(sales: seq<Sale>): CalendarDate
    requires |sales| > 0
  {
    if |sales| == 1 then sales[0].date
    else
      var e := EarliestDate(Init(sales));
      if DayNumber(Last(sales).date) < DayNumber(e) then Last(sales).date else e
  }

  /** `Math.max` over the entries' days. */
  function LatestDate(sales: seq<Sale>): CalendarDate
    requires |sales| > 0
  {
    if |sales| == 1 then sales[0].date
    else
      var e := LatestDate(Init(sales));
      if DayNumber(e) < DayNumber(Last(sales).date) then Last(sales).date else e
  }

  /** The earliest day is the day of some entry and no entry is dated before it. */
  lemma {:induction false} EarliestDateIsMin(sales: seq<Sale>)
    requires |sales| > 0
    ensures exists i :: 0 <= i < |sales| && sales[i].date == EarliestDate(sales)
    ensures forall i :: 0 <= i < |sales| ==> DayNumber(EarliestDate(sales)) <= DayNumber(sales[i].date)
    decreases |sales|
  {
    if |sales| == 1 {
      assert sales[0].date == EarliestDate(sales);
    } else {
      EarliestDateIsMin(Init(sales));
      var j :| 0 <= j < |Init(sales)| && Init(sales)[j].date == EarliestDate(Init(sales));
      assert sales[j] == Init(sales)[j];
      assert sales[|sales| - 1] == Last(sales);
      if DayNumber(Last(sales).date) < DayNumber(EarliestDate(Init(sales))) {
        assert sales[|sales| - 1].date == EarliestDate(sales);
      } else {
        assert sales[j].date == EarliestDate(sales);
      }
      forall i | 0 <= i < |sales| ensures DayNumber(EarliestDate(sales)) <= DayNumber(sales[i].date) {
        if i < |sales| - 1 {
          assert sales[i] == Init(sales)[i];
        }
      }
    }
  }

  /** The latest day is the day of some entry and no entry is dated after it. */
  lemma {:induction false} LatestDateIsMax(sales: seq<Sale>)
    requires |sales| > 0
    ensures exists i :: 0 <= i < |sales| && sales[i].date == LatestDate(sales)
    ensures forall i :: 0 <= i < |sales| ==> DayNumber(sales[i].date) <= DayNumber(LatestDate(sales))
    decreases |sales|
  {
    if |sales| == 1 {
      assert sales[0].date == LatestDate(sales);
    } else {
      LatestDateIsMax(Init(sales));
      var j :| 0 <= j < |Init(sales)| && Init(sales)[j].date == LatestDate(Init(sales));
      assert sales[j] == Init(sales)[j];
      assert sales[|sales| - 1] == Last(sales);
      if DayNumber(LatestDate(Init(sales))) < DayNumber(Last(sales).date) {
        assert sales[|sales| - 1].date == LatestDate(sales);
      } else {
        assert sales[j].date == LatestDate(sales);
      }
      forall i | 0 <= i < |sales| ensures DayNumber(sales[i].date) <= DayNumber(LatestDate(sales)) {
        if i < |sales| - 1 {
          assert sales[i] == Init(sales)[i];
        }
      }
    }
  }

  /** The days reported: earliest to latest entry day, or just `today` when there are no entries. */
  function ReportDays(sales: seq<Sale>, today: CalendarDate): seq<CalendarDate> {
    if |sales| > 0 then DayRange(EarliestDate(sales), LatestDate(sales)) else DayRange(today, today)
  }

  /** The metrics of each day of `days`, in the order of `days`. */
  function MetricsOver(sales: seq<Sale>, days: seq<CalendarDate>): (r: seq<DailyMetrics>)
    ensures |r| == |days|
  {
    if |days| == 0 then [] else MetricsOver(sales, Init(days)) + [DayMetrics(sales, Last(days))]
  }

  lemma MetricsOverSnoc(sales: seq<Sale>, days: seq<CalendarDate>, d: CalendarDate)
    ensures MetricsOver(sales, days + [d]) == MetricsOver(sales, days) + [DayMetrics(sales, d)]
  {
    assert Init(days + [d]) == days;
  }

  lemma MetricsPrefixStep(sales: seq<Sale>, days: seq<CalendarDate>, i: int)
    requires 0 <= i < |days|
    ensures MetricsOver(sales, days[..i + 1]) == MetricsOver(sales, days[..i]) + [DayMetrics(sales, days[i])]
  {
    assert days[..i + 1] == days[..i] + [days[i]];
    MetricsOverSnoc(sales, days[..i], days[i]);
  }

  /** Position i of the result holds the metrics of day i. */
  lemma {:induction false} MetricsOverAt(sales: seq<Sale>, days: seq<CalendarDate>, i: int)
    requires 0 <= i < |days|
    ensures MetricsOver(sales, days)[i] == DayMetrics(sales, days[i])
    decreases |days|
  {
    if i < |days| - 1 {
      MetricsOverAt(sales, Init(days), i);
    }
  }

  /** What `calculateDailyMetrics(sales)` returns, with the clock's "today" made a parameter. */
  function DailyMetricsOf(sales: seq<Sale>, today: CalendarDate): seq<DailyMetrics> {
    MetricsOver(sales, ReportDays(sales, today))
  }

  /** `calculateDailyMetrics`: walks the reported days, recording each day's entries in
      `salesByDate` and appending that day's metrics. */
  method CalculateDailyMetrics(sales: seq<Sale>, today: CalendarDate) returns (dailyMetrics: seq<DailyMetrics>)
    ensures dailyMetrics == DailyMetricsOf(sales, today)
  {
    var salesByDate: map<CalendarDate, seq<Sale>> := map[];
    var days := ReportDays(sales, today);
    dailyMetrics := [];
    var i := 0;
    while i < |days|
      invariant 0 <= i <= |days|
      invariant dailyMetrics == MetricsOver(sales, days[..i])
      invariant forall d :: d in salesByDate ==> salesByDate[d] == OnDay(sales, d)
    {
      var date := days[i];
      var dailySales := OnDay(sales, date);
      salesByDate := salesByDate[date := dailySales];
      var activeSales := Active(dailySales);
      var totalTours := SumTours(dailySales);
      var metric := DailyMetrics(date, |activeSales|, SumAmount(activeSales),
                                 SumCommission(activeSales), totalTours,
                                 CalculateDailyVPG(activeSales, totalTours),
                                 IsFirstOfMonth(date), dailySales);
      assert metric == DayMetrics(sales, date);
      MetricsPrefixStep(sales, days, i);
      dailyMetrics := dailyMetrics + [metric];
      i := i + 1;
    }
    assert days[..i] == days;
  }

  /** Every entry's day is among the reported days. */
  lemma ReportDaysCover(sales: seq<Sale>, today: CalendarDate, j: int)
    requires 0 <= j < |sales|
    ensures sales[j].date in ReportDays(sales, today)
  {
    EarliestDateIsMin(sales);
    LatestDateIsMax(sales);
    DayRangeExact(EarliestDate(sales), LatestDate(sales), sales[j].date);
  }

  /** The reported days run one by one from the earliest to the latest entry day, and every
      entry's day is among them. */
  lemma DailyMetricsSpan(sales: seq<Sale>, today: CalendarDate)
    requires |sales| > 0
    ensures var r := DailyMetricsOf(sales, today);
            var first, last := EarliestDate(sales), LatestDate(sales);
            && |r| == DayNumber(last) - DayNumber(first) + 1
            && r[0].date == first && r[|r| - 1].date == last
            && (forall i :: 0 <= i < |r| ==> DayNumber(r[i].date) == DayNumber(first) + i)
            && (forall j :: 0 <= j < |sales| ==> exists i :: 0 <= i < |r| && r[i].date == sales[j].date)
  {
    var first, last := EarliestDate(sales), LatestDate(sales);
    EarliestBeforeLatest(sales);
    MetricsDays(sales, first, last);
    var days := ReportDays(sales, today);
    assert days == DayRange(first, last);
    var r := DailyMetricsOf(sales, today);
    assert r == MetricsOver(sales, days);
    forall j | 0 <= j < |sales| ensures exists i :: 0 <= i < |r| && r[i].date == sales[j].date {
      ReportDaysCover(sales, today, j);
      MetricsDayIn(sales, days, sales[j].date);
    }
  }

  lemma EarliestBeforeLatest(sales: seq<Sale>)
    requires |sales| > 0
    ensures DayNumber(EarliestDate(sales)) <= DayNumber(LatestDate(sales))
  {
    EarliestDateIsMin(sales);
    LatestDateIsMax(sales);
    assert DayNumber(EarliestDate(sales)) <= DayNumber(sales[0].date) <= DayNumber(LatestDate(sales));
  }

  /** The metrics over a day range are dated one by one along it. */
  lemma MetricsDays(sales: seq<Sale>, first: CalendarDate, last: CalendarDate)
    requires DayNumber(first) <= DayNumber(last)
    ensures var r := MetricsOver(sales, DayRange(first, last));
            && |r| == DayNumber(last) - DayNumber(first) + 1
            && r[0].date == first && r[|r| - 1].date == last
            && (forall i :: 0 <= i < |r| ==> DayNumber(r[i].date) == DayNumber(first) + i)
  {
    var days := DayRange(first, last);
    var r := MetricsOver(sales, days);
    DayRangeExact(first, last, first);
    MetricsOverAt(sales, days, 0);
    MetricsOverAt(sales, days, |days| - 1);
    forall i | 0 <= i < |r| ensures DayNumber(r[i].date) == DayNumber(first) + i {
      MetricsOverAt(sales, days, i);
      DayRangeAt(first, last, i);
    }
  }

  /** A day of `days` has a metric dated on it. */
  lemma MetricsDayIn(sales: seq<Sale>, days: seq<CalendarDate>, d: CalendarDate)
    requires d in days
    ensures exists i :: 0 <= i < |MetricsOver(sales, days)| && MetricsOver(sales, days)[i].date == d
  {
    var i :| 0 <= i < |days| && days[i] == d;
    MetricsOverAt(sales, days, i);
  }

  /** With no entries the report is a single, all-zero day: `today`. */
  lemma NoSalesReportsToday(today: CalendarDate)
    ensures DailyMetricsOf([], today) == [DailyMetrics(today, 0, 0.0, 0.0, 0, 0.0, today.day == 1, [])]
  {
    DayRangeExact(today, today, today);
    assert OnDay([], today) == [];
  }

  /** A day's metrics: its entries are exactly the entries dated that day (each as often as in
      the input, in input order); sale count, volume and commission cover the active ones only,
      tours cover all; the VPG never divides by zero; the first-of-month flag is day 1. */
  lemma DayMetricsMeaning(sales: seq<Sale>, date: CalendarDate, x: Sale)
    ensures var m := DayMetrics(sales, date);
            && m.date == date
            && multiset(m.entries)[x] == (if x.date == date then multiset(sales)[x] else 0)
            && Totals(m.totalSales, m.totalVolume, m.totalCommission, m.numberOfTours) == TotalsOf(m.entries)
            && m.numberOfTours == SumTours(m.entries)
            && (m.numberOfTours > 0 ==> m.dailyVPG * (m.numberOfTours as real) == m.totalVolume)
            && (m.numberOfTours <= 0 ==> m.dailyVPG == 0.0)
            && (m.isFirstOfMonth <==> date.day == 1)
  {
    FilterCount(sales, DatedOn(date), x);
    SourceSumsAreTotals(OnDay(sales, date));
    var dailySales := OnDay(sales, date);
    DailyVpgMeaning(Active(dailySales), SumTours(dailySales));
  }

  /** Componentwise sum of daily metrics, as the month roll-up and the report header add them. */
  function MetricContribution(m: DailyMetrics): Totals {
    Totals(m.totalSales, m.totalVolume, m.totalCommission, m.numberOfTours)
  }

  function SumMetrics(ms: seq<DailyMetrics>): Totals {
    if |ms| == 0 then Zero else Plus(SumMetrics(Init(ms)), MetricContribution(Last(ms)))
  }

  lemma SumMetricsSnoc(ms: seq<DailyMetrics>, m: DailyMetrics)
    ensures SumMetrics(ms + [m]) == Plus(SumMetrics(ms), MetricContribution(m))
  {
    assert Init(ms + [m]) == ms;
  }

  /** Summing the metrics of a grid of days is summing each day's totals. */
  lemma {:induction false} SumMetricsOverGrid(sales: seq<Sale>, days: seq<CalendarDate>)
    ensures SumMetrics(MetricsOver(sales, days)) == GridTotals(sales, days)
    decreases |days|
  {
    if |days| > 0 {
      SumMetricsOverGrid(sales, Init(days));
      SourceSumsAreTotals(OnDay(sales, Last(days)));
      SumMetricsSnoc(MetricsOver(sales, Init(days)), DayMetrics(sales, Last(days)));
    }
  }

  /** No day is reported twice. */
  lemma ReportDaysNoRepeats(sales: seq<Sale>, today: CalendarDate)
    ensures NoRepeats(ReportDays(sales, today))
  {
    if |sales| > 0 {
      DayRangeDistinct(EarliestDate(sales), LatestDate(sales));
    } else {
      DayRangeDistinct(today, today);
    }
    DistinctNoRepeats(ReportDays(sales, today));
  }

  /** Sum law: over the whole report, sale count, volume and commission are those of the active
      entries and tours those of all entries; nothing is lost or counted twice. */
  lemma DailyMetricsSumLaw(sales: seq<Sale>, today: CalendarDate)
    ensures SumMetrics(DailyMetricsOf(sales, today)) == TotalsOf(sales)
    ensures SumMetrics(DailyMetricsOf(sales, today)) ==
            Totals(|Active(sales)|, SumAmount(Active(sales)), SumCommission(Active(sales)), SumTours(sales))
  {
    var days := ReportDays(sales, today);
    SumMetricsOverGrid(sales, days);
    ReportDaysNoRepeats(sales, today);
    PartitionLaw(sales, days);
    forall j | 0 <= j < |sales| ensures sales[j].date in days {
      ReportDaysCover(sales, today, j);
    }
    InGridAll(sales, days);
    SourceSumsAreTotals(sales);
  }

  /** A month's totals; `vpg` is recomputed from the summed volume and tours. */
  datatype MonthTotals = MonthTotals(totalVolume: real, totalCommission: real, totalTours: int, totalSales: int, vpg: real)

  function Summary(ms: seq<DailyMetrics>): MonthTotals {
    var t := SumMetrics(ms);
    MonthTotals(t.volume, t.commission, t.tours, t.sales, Vpg(t.volume, t.tours))
  }

  /** A month's VPG is its summed volume over its summed tours, not an average of daily VPGs. */
  lemma SummaryVpg(ms: seq<DailyMetrics>)
    ensures var r := Summary(ms);
            && (r.totalTours > 0 ==> r.vpg * (r.totalTours as real) == r.totalVolume)
            && (r.totalTours <= 0 ==> r.vpg == 0.0)
  {
    VpgMeaning(SumMetrics(ms).volume, SumMetrics(ms).tours);
  }

  /** The days of `ms` that fall in month `ym`, in order. */
  function InMonthMetrics(ms: seq<DailyMetrics>, ym: YearMonth): seq<DailyMetrics> {
    if |ms| == 0 then []
    else InMonthMetrics(Init(ms), ym) + (if MonthOf(Last(ms).date) == ym then [Last(ms)] else [])
  }

  lemma InMonthMetricsSnoc(ms: seq<DailyMetrics>, m: DailyMetrics, ym: YearMonth)
    ensures InMonthMetrics(ms + [m], ym) == InMonthMetrics(ms, ym) + (if MonthOf(m.date) == ym then [m] else [])
  {
    assert Init(ms + [m]) == ms;
  }

  /** The year-months that occur among the days of `ms`. */
  function MonthsOf(ms: seq<DailyMetrics>): set<YearMonth> {
    if |ms| == 0 then {} else MonthsOf(Init(ms)) + {MonthOf(Last(ms).date)}
  }

  lemma MonthsOfSnoc(ms: seq<DailyMetrics>, m: DailyMetrics)
    ensures MonthsOf(ms + [m]) == MonthsOf(ms) + {MonthOf(m.date)}
  {
    assert Init(ms + [m]) == ms;
  }

  /** A month is among `MonthsOf(ms)` exactly when some day of `ms` falls in it. */
  lemma {:induction false} MonthsOfMeaning(ms: seq<DailyMetrics>, ym: YearMonth)
    ensures ym in MonthsOf(ms) <==> exists i :: 0 <= i < |ms| && MonthOf(ms[i].date) == ym
    decreases |ms|
  {
    if |ms| > 0 {
      MonthsOfMeaning(Init(ms), ym);
      assert ms[|ms| - 1] == Last(ms);
      if exists i :: 0 <= i < |ms| && MonthOf(ms[i].date) == ym {
        var i :| 0 <= i < |ms| && MonthOf(ms[i].date) == ym;
        if i < |ms| - 1 {
          assert ms[i] == Init(ms)[i];
        }
      }
      if exists i :: 0 <= i < |Init(ms)| && MonthOf(Init(ms)[i].date) == ym {
        var i :| 0 <= i < |Init(ms)| && MonthOf(Init(ms)[i].date) == ym;
        assert ms[i] == Init(ms)[i];
      }
    }
  }

  lemma {:induction false} NotInMonthsOf(ms: seq<DailyMetrics>, ym: YearMonth)
    requires ym !in MonthsOf(ms)
    ensures InMonthMetrics(ms, ym) == []
    decreases |ms|
  {
    if |ms| > 0 {
      NotInMonthsOf(Init(ms), ym);
    }
  }

  /** One day added to a month's running totals, `vpg` recomputed from the new sums. */
  function AddDay(current: MonthTotals, m: DailyMetrics): MonthTotals {
    var volume := current.totalVolume + m.totalVolume;
    var tours := current.totalTours + m.numberOfTours;
    MonthTotals(volume, current.totalCommission + m.totalCommission, tours,
                current.totalSales + m.totalSales, Vpg(volume, tours))
  }

  lemma SummarySnoc(ms: seq<DailyMetrics>, m: DailyMetrics)
    ensures Summary(ms + [m]) == AddDay(Summary(ms), m)
  {
    SumMetricsSnoc(ms, m);
  }

  /** The month map after the days `done`: one key per month present, each holding the sums
      over that month's days. */
  predicate RolledUp(done: seq<DailyMetrics>, monthlyData: map<YearMonth, MonthTotals>) {
    && monthlyData.Keys == MonthsOf(done)
    && forall k :: k in monthlyData ==> monthlyData[k] == Summary(InMonthMetrics(done, k))
  }

  lemma RollUpStep(done: seq<DailyMetrics>, m: DailyMetrics, monthlyData: map<YearMonth, MonthTotals>)
    requires RolledUp(done, monthlyData)
    ensures var key := MonthOf(m.date);
            var current := if key in monthlyData then monthlyData[key] else MonthTotals(0.0, 0.0, 0, 0, 0.0);
            RolledUp(done + [m], monthlyData[key := AddDay(current, m)])
  {
    var key := MonthOf(m.date);
    var current := if key in monthlyData then monthlyData[key] else MonthTotals(0.0, 0.0, 0, 0, 0.0);
    var after := monthlyData[key := AddDay(current, m)];
    MonthsOfSnoc(done, m);
    if key !in monthlyData {
      NotInMonthsOf(done, key);
    }
    assert current == Summary(InMonthMetrics(done, key));
    SummarySnoc(InMonthMetrics(done, key), m);
    forall k | k in after ensures after[k] == Summary(InMonthMetrics(done + [m], k)) {
      InMonthMetricsSnoc(done, m, k);
      if k != key {
        assert InMonthMetrics(done, k) + [] == InMonthMetrics(done, k);
      }
    }
  }

  lemma RollUpPrefixStep(metrics: seq<DailyMetrics>, i: int, monthlyData: map<YearMonth, MonthTotals>,
                          current: MonthTotals)
    requires 0 <= i < |metrics|
    requires RolledUp(metrics[..i], monthlyData)
    requires var key := MonthOf(metrics[i].date);
             current == if key in monthlyData then monthlyData[key] else MonthTotals(0.0, 0.0, 0, 0, 0.0)
    ensures RolledUp(metrics[..i + 1], monthlyData[MonthOf(metrics[i].date) := AddDay(current, metrics[i])])
  {
    assert metrics[..i + 1] == metrics[..i] + [metrics[i]];
    RollUpStep(metrics[..i], metrics[i], monthlyData);
  }

  /** `calculateMonthlyTotals`: one pass over the days, updating the month's running totals
      in `monthlyData` and recomputing its `vpg` from them after every addition. */
  method CalculateMonthlyTotals(metrics: seq<DailyMetrics>) returns (monthlyData: map<YearMonth, MonthTotals>)
    ensures monthlyData.Keys == MonthsOf(metrics)
    ensures forall k :: k in monthlyData ==> monthlyData[k] == Summary(InMonthMetrics(metrics, k))
  {
    monthlyData := map[];
    var i := 0;
    while i < |metrics|
      invariant 0 <= i <= |metrics|
      invariant RolledUp(metrics[..i], monthlyData)
    {
      var metric := metrics[i];
      var monthKey := MonthOf(metric.date);
      var current := if monthKey in monthlyData then monthlyData[monthKey]
                     else MonthTotals(0.0, 0.0, 0, 0, 0.0);
      var newTotal := AddDay(current, metric);
      RollUpPrefixStep(metrics, i, monthlyData, current);
      monthlyData := monthlyData[monthKey := newTotal];
      i := i + 1;
    }
    assert metrics[..i] == metrics;
  }

  /** Summing then dividing is not averaging the daily VPGs: one tour selling 100 and nine
      tours selling nothing give a month VPG of 10, while the two daily VPGs average 50. */
  lemma MonthVpgIsNotAverage(d1: CalendarDate, d2: CalendarDate)
    ensures var m1 := DailyMetrics(d1, 1, 100.0, 4.0, 1, 100.0, false, []);
            var m2 := DailyMetrics(d2, 0, 0.0, 0.0, 9, 0.0, false, []);
            && Summary([m1, m2]).vpg == 10.0
            && (m1.dailyVPG + m2.dailyVPG) / 2.0 == 50.0
  {
    var m1 := DailyMetrics(d1, 1, 100.0, 4.0, 1, 100.0, false, []);
    var m2 := DailyMetrics(d2, 0, 0.0, 0.0, 9, 0.0, false, []);
    SumMetricsSnoc([], m1);
    SumMetricsSnoc([m1], m2);
    assert [m1] + [m2] == [m1, m2];
  }
}
