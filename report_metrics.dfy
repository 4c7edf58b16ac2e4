/** The report header: totals over a list of daily metrics and the average VPG derived from
    them (src/components/ReportMetrics.tsx). */
module ReportMetrics {
  import opened Calendar
  import opened SalesTypes
  import opened Aggregation
  import opened DateCalculations

  datatype ReportTotals = ReportTotals(volume: real, commission: real, tours: int, sales: int)

  /** The `metrics.reduce(...)` that builds `totals`. */
  function ReduceTotals(metrics: seq<DailyMetrics>): ReportTotals {
    if |metrics| == 0 then ReportTotals(0.0, 0.0, 0, 0)
    else
      var acc := ReduceTotals(Init(metrics));
      var metric := Last(metrics);
      ReportTotals(acc.volume + metric.totalVolume, acc.commission + metric.totalCommission,
                   acc.tours + metric.numberOfTours, acc.sales + metric.totalSales)
  }

  /** `avgVPG`: the volume per tour of the totals, 0 without tours. */
  function AvgVpg(totals: ReportTotals): real {
    if totals.tours > 0 then totals.volume / (totals.tours as real) else 0.0
  }

  function AsTotals(t: ReportTotals): Totals {
    Totals(t.sales, t.volume, t.commission, t.tours)
  }

  /** Each total is the sum of its field over all metrics. */
  lemma {:induction false} ReduceTotalsIsSum(metrics: seq<DailyMetrics>)
    ensures AsTotals(ReduceTotals(metrics)) == SumMetrics(metrics)
    decreases |metrics|
  {
    if |metrics| > 0 {
      ReduceTotalsIsSum(Init(metrics));
    }
  }

  /** No metrics: all totals are zero and so is the average VPG. */
  lemma EmptyReport()
    ensures ReduceTotals([]) == ReportTotals(0.0, 0.0, 0, 0)
    ensures AvgVpg(ReduceTotals([])) == 0.0
  {
  }

  /** The average VPG is the summed volume over the summed tours (times the tours it gives back
      the volume), 0 without tours. */
  lemma AvgVpgMeaning(metrics: seq<DailyMetrics>)
    ensures var s := SumMetrics(metrics);
            && (s.tours > 0 ==> AvgVpg(ReduceTotals(metrics)) * (s.tours as real) == s.volume)
            && (s.tours <= 0 ==> AvgVpg(ReduceTotals(metrics)) == 0.0)
  {
    ReduceTotalsIsSum(metrics);
    VpgMeaning(SumMetrics(metrics).volume, SumMetrics(metrics).tours);
  }

  lemma {:induction false} SumMetricsAppend(a: seq<DailyMetrics>, b: seq<DailyMetrics>)
    ensures SumMetrics(a + b) == Plus(SumMetrics(a), SumMetrics(b))
    decreases |b|
  {
    if |b| > 0 {
      SumMetricsAppend(a, Init(b));
      assert a + b == (a + Init(b)) + [Last(b)];
      SumMetricsSnoc(a + Init(b), Last(b));
    } else {
      assert a + b == a;
    }
  }

  /** Taking one day out of a list takes its contribution out of the sum. */
  lemma SumMetricsRemove(p: seq<DailyMetrics>, x: DailyMetrics, q: seq<DailyMetrics>)
    ensures SumMetrics(p + [x] + q) == Plus(SumMetrics(p + q), MetricContribution(x))
  {
    SumMetricsAppend(p + [x], q);
    SumMetricsSnoc(p, x);
    SumMetricsAppend(p, q);
  }

  lemma MultisetRemove(a: seq<DailyMetrics>, b: seq<DailyMetrics>, j: int)
    requires multiset(a) == multiset(b)
    requires |a| > 0 && 0 <= j < |b| && b[j] == Last(a)
    ensures multiset(Init(a)) == multiset(b[..j] + b[j + 1..])
  {
    assert a == Init(a) + [Last(a)];
    assert multiset(a) == multiset(Init(a)) + multiset{Last(a)};
    assert b == b[..j] + [b[j]] + b[j + 1..];
    assert multiset(b) == multiset(b[..j]) + multiset{b[j]} + multiset(b[j + 1..]);
    assert multiset(b[..j] + b[j + 1..]) == multiset(b[..j]) + multiset(b[j + 1..]);
    assert multiset(Init(a)) == multiset(a) - multiset{Last(a)};
    assert multiset(b[..j] + b[j + 1..]) == multiset(b) - multiset{b[j]};
  }

  /** The sums do not depend on the order of the metrics: any rearrangement gives the same. */
  lemma {:induction false} SumMetricsOrderIndependent(a: seq<DailyMetrics>, b: seq<DailyMetrics>)
    requires multiset(a) == multiset(b)
    ensures SumMetrics(a) == SumMetrics(b)
    decreases |a|
  {
    if |a| == 0 {
      assert |b| == |multiset(b)| == 0;
    } else {
      assert Last(a) in multiset(a);
      var j :| 0 <= j < |b| && b[j] == Last(a);
      MultisetRemove(a, b, j);
      SumMetricsOrderIndependent(Init(a), b[..j] + b[j + 1..]);
      SumMetricsRemove(b[..j], b[j], b[j + 1..]);
      assert b == b[..j] + [b[j]] + b[j + 1..];
    }
  }

  /** The report totals do not depend on the order of the metrics list. */
  lemma OrderIndependent(a: seq<DailyMetrics>, b: seq<DailyMetrics>)
    requires multiset(a) == multiset(b)
    ensures ReduceTotals(a) == ReduceTotals(b)
    ensures AvgVpg(ReduceTotals(a)) == AvgVpg(ReduceTotals(b))
  {
    ReduceTotalsIsSum(a);
    ReduceTotalsIsSum(b);
    SumMetricsOrderIndependent(a, b);
  }

  /** The header over `calculateDailyMetrics`' output shows the active entries' count, volume and
      commission and all entries' tours. */
  lemma HeaderTotals(sales: seq<Sale>, today: CalendarDate)
    ensures var t := ReduceTotals(DailyMetricsOf(sales, today));
            && AsTotals(t) == TotalsOf(sales)
            && t.sales == |Active(sales)|
            && t.volume == SumAmount(Active(sales))
            && t.commission == SumCommission(Active(sales))
            && t.tours == SumTours(sales)
  {
    ReduceTotalsIsSum(DailyMetricsOf(sales, today));
    DailyMetricsSumLaw(sales, today);
  }
}
