/** The filter / sum / divide vocabulary shared by the daily and monthly reports:
    which entries are active, the per-day bucket, the left-fold sums the reports compute,
    a reference record of totals, and the law that bucketing by day loses and duplicates nothing. */
module Aggregation {
  import opened Calendar
  import opened SalesTypes

  /** Counted in sale, volume and commission totals: not cancelled and not a no-sale entry. */
  predicate IsActive(s: Sale) {
    !s.isCancelled && s.clientLastName != NoSaleName
  }

  function Init<T>(s: seq<T>): seq<T>
    requires |s| > 0
  {
    s[..|s| - 1]
  }

  function Last<T>(s: seq<T>): T
    requires |s| > 0
  {
    s[|s| - 1]
  }

  /** `s.filter(keep)`: the kept elements, in their original order. */
  function Filter(s: seq<Sale>, keep: Sale -> bool): seq<Sale> {
    if |s| == 0 then [] else Filter(Init(s), keep) + (if keep(Last(s)) then [Last(s)] else [])
  }

  lemma FilterSnoc(s: seq<Sale>, x: Sale, keep: Sale -> bool)
    ensures Filter(s + [x], keep) == Filter(s, keep) + (if keep(x) then [x] else [])
  {
    assert Init(s + [x]) == s;
  }

  /** Filtering distributes over concatenation, so the kept elements keep their order. */
  lemma {:induction false} FilterAppend(a: seq<Sale>, b: seq<Sale>, keep: Sale -> bool)
    ensures Filter(a + b, keep) == Filter(a, keep) + Filter(b, keep)
    decreases |b|
  {
    if |b| == 0 {
      assert a + b == a;
    } else {
      calc {
        Filter(a + b, keep);
        { assert a + b == (a + Init(b)) + [Last(b)]; FilterSnoc(a + Init(b), Last(b), keep); }
        Filter(a + Init(b), keep) + (if keep(Last(b)) then [Last(b)] else []);
        { FilterAppend(a, Init(b), keep); }
        Filter(a, keep) + Filter(Init(b), keep) + (if keep(Last(b)) then [Last(b)] else []);
      }
    }
  }

  /** Each element is kept as often as it occurs, or dropped entirely. */
  lemma {:induction false} FilterCount(s: seq<Sale>, keep: Sale -> bool, x: Sale)
    ensures multiset(Filter(s, keep))[x] == if keep(x) then multiset(s)[x] else 0
    decreases |s|
  {
    if |s| > 0 {
      FilterCount(Init(s), keep, x);
      assert s == Init(s) + [Last(s)];
    }
  }

  function DatedOn(day: CalendarDate): Sale -> bool {
    (s: Sale) => s.date == day
  }

  function DatedIn(grid: seq<CalendarDate>): Sale -> bool {
    (s: Sale) => s.date in grid
  }

  function DatedInMonth(ym: YearMonth): Sale -> bool {
    (s: Sale) => MonthOf(s.date) == ym
  }

  /** The entries dated on `day` (`isSameDay(sale.date, day)`). */
  function OnDay(sales: seq<Sale>, day: CalendarDate): seq<Sale> {
    Filter(sales, DatedOn(day))
  }

  /** `sales.filter(sale => !sale.isCancelled && sale.clientLastName !== 'NO SALE')`. */
  function Active(sales: seq<Sale>): seq<Sale> {
    Filter(sales, IsActive)
  }

  /** The entries whose day is one of `grid`. */
  function InGrid(sales: seq<Sale>, grid: seq<CalendarDate>): seq<Sale> {
    Filter(sales, DatedIn(grid))
  }

  /** The entries dated in the given year-month. */
  function InMonth(sales: seq<Sale>, ym: YearMonth): seq<Sale> {
    Filter(sales, DatedInMonth(ym))
  }

  /** `sales.reduce((sum, sale) => sum + sale.saleAmount, 0)`. */
  function SumAmount(sales: seq<Sale>): real {
    if |sales| == 0 then 0.0 else SumAmount(Init(sales)) + Last(sales).saleAmount
  }

  /** `sales.reduce((sum, sale) => sum + sale.commissionAmount, 0)`. */
  function SumCommission(sales: seq<Sale>): real {
    if |sales| == 0 then 0.0 else SumCommission(Init(sales)) + Last(sales).commissionAmount
  }

  /** `sales.reduce((sum, sale) => sum + sale.numberOfTours, 0)`. */
  function SumTours(sales: seq<Sale>): int {
    if |sales| == 0 then 0 else SumTours(Init(sales)) + Last(sales).numberOfTours
  }

  /** Volume per tour, with zero (or negative) tours giving 0 instead of a division. */
  function Vpg(volume: real, tours: int): real {
    if tours > 0 then volume / (tours as real) else 0.0
  }

  /** The VPG times the tours gives back the volume; without tours it is 0. */
  lemma VpgMeaning(volume: real, tours: int)
    ensures tours > 0 ==> Vpg(volume, tours) * (tours as real) == volume
    ensures tours <= 0 ==> Vpg(volume, tours) == 0.0
  {
  }

  /** Reference record of the four report totals. */
  datatype Totals = Totals(sales: int, volume: real, commission: real, tours: int)

  const Zero: Totals := Totals(0, 0.0, 0.0, 0)

  function Plus(a: Totals, b: Totals): Totals {
    Totals(a.sales + b.sales, a.volume + b.volume, a.commission + b.commission, a.tours + b.tours)
  }

  /** What one entry adds: its tours always, its sale, amount and commission only when active. */
  function Contribution(s: Sale): Totals {
    if IsActive(s) then Totals(1, s.saleAmount, s.commissionAmount, s.numberOfTours)
    else Totals(0, 0.0, 0.0, s.numberOfTours)
  }

  /** The totals of a list of entries, entry by entry. */
  function TotalsOf(sales: seq<Sale>): Totals {
    if |sales| == 0 then Zero else Plus(TotalsOf(Init(sales)), Contribution(Last(sales)))
  }

  lemma TotalsOfSnoc(s: seq<Sale>, x: Sale)
    ensures TotalsOf(s + [x]) == Plus(TotalsOf(s), Contribution(x))
  {
    assert Init(s + [x]) == s;
  }

  lemma {:induction false} TotalsOfAppend(a: seq<Sale>, b: seq<Sale>)
    ensures TotalsOf(a + b) == Plus(TotalsOf(a), TotalsOf(b))
    decreases |b|
  {
    if |b| == 0 {
      assert a + b == a;
    } else {
      assert a + b == (a + Init(b)) + [Last(b)];
      TotalsOfSnoc(a + Init(b), Last(b));
      TotalsOfAppend(a, Init(b));
    }
  }

  lemma SumsSnoc(s: seq<Sale>, x: Sale)
    ensures SumAmount(s + [x]) == SumAmount(s) + x.saleAmount
    ensures SumCommission(s + [x]) == SumCommission(s) + x.commissionAmount
    ensures SumTours(s + [x]) == SumTours(s) + x.numberOfTours
  {
    assert Init(s + [x]) == s;
  }

  /** The reports' own computation: count and sums over the active entries, tours over all. */
  function SourceSums(sales: seq<Sale>): Totals {
    Totals(|Active(sales)|, SumAmount(Active(sales)), SumCommission(Active(sales)), SumTours(sales))
  }

  lemma SourceSumsSnoc(p: seq<Sale>, x: Sale)
    ensures SourceSums(p + [x]) == Plus(SourceSums(p), Contribution(x))
  {
    FilterSnoc(p, x, IsActive);
    SumsSnoc(p, x);
    if IsActive(x) {
      SumsSnoc(Active(p), x);
    } else {
      assert Active(p + [x]) == Active(p);
    }
  }

  /** The reports' own computation (count and sums over the active entries, tours over all
      entries) agrees with the reference totals: cancelled and no-sale entries add tours only. */
  lemma {:induction false} SourceSumsAreTotals(sales: seq<Sale>)
    ensures TotalsOf(sales) ==
            Totals(|Active(sales)|, SumAmount(Active(sales)), SumCommission(Active(sales)), SumTours(sales))
    decreases |sales|
  {
    if |sales| > 0 {
      SourceSumsAreTotals(Init(sales));
      SourceSumsSnoc(Init(sales), Last(sales));
      assert sales == Init(sales) + [Last(sales)];
    }
  }

  /** Sum over the days of `grid` of each day's totals. */
  function GridTotals(sales: seq<Sale>, grid: seq<CalendarDate>): Totals {
    if |grid| == 0 then Zero else Plus(GridTotals(sales, Init(grid)), TotalsOf(OnDay(sales, Last(grid))))
  }

  lemma DayTotalsSnoc(p: seq<Sale>, s: Sale, d: CalendarDate)
    ensures TotalsOf(OnDay(p + [s], d)) == Plus(TotalsOf(OnDay(p, d)), if s.date == d then Contribution(s) else Zero)
  {
    FilterSnoc(p, s, DatedOn(d));
    if s.date == d {
      TotalsOfSnoc(OnDay(p, d), s);
    } else {
      assert OnDay(p + [s], d) == OnDay(p, d);
    }
  }

  /** No day occurs twice in the grid (stated last-to-first, as the grid sums are). */
  predicate NoRepeats(grid: seq<CalendarDate>) {
    |grid| == 0 || (NoRepeats(Init(grid)) && Last(grid) !in Init(grid))
  }

  lemma {:induction false} DistinctNoRepeats(grid: seq<CalendarDate>)
    requires Distinct(grid)
    ensures NoRepeats(grid)
    decreases |grid|
  {
    if |grid| > 0 {
      assert Distinct(Init(grid));
      DistinctNoRepeats(Init(grid));
    }
  }

  /** What one entry adds to the sum over `grid`: its contribution when its day is on it. */
  function Share(s: Sale, grid: seq<CalendarDate>): Totals {
    if s.date in grid then Contribution(s) else Zero
  }

  lemma PlusSwap(a: Totals, x: Totals, b: Totals, y: Totals)
    ensures Plus(Plus(a, x), Plus(b, y)) == Plus(Plus(a, b), Plus(x, y))
  {
  }

  lemma ShareSnoc(s: Sale, g: seq<CalendarDate>, d: CalendarDate)
    requires d !in g
    ensures Plus(Share(s, g), if s.date == d then Contribution(s) else Zero) == Share(s, g + [d])
  {
    if s.date == d {
      assert s.date !in g;
    }
  }

  lemma GridTotalsSnocStep(p: seq<Sale>, s: Sale, g: seq<CalendarDate>, d: CalendarDate)
    requires d !in g
    requires GridTotals(p + [s], g) == Plus(GridTotals(p, g), Share(s, g))
    ensures GridTotals(p + [s], g + [d]) == Plus(GridTotals(p, g + [d]), Share(s, g + [d]))
  {
    assert Init(g + [d]) == g && Last(g + [d]) == d;
    var e := if s.date == d then Contribution(s) else Zero;
    calc {
      GridTotals(p + [s], g + [d]);
      Plus(GridTotals(p + [s], g), TotalsOf(OnDay(p + [s], d)));
      { DayTotalsSnoc(p, s, d); }
      Plus(Plus(GridTotals(p, g), Share(s, g)), Plus(TotalsOf(OnDay(p, d)), e));
      { PlusSwap(GridTotals(p, g), Share(s, g), TotalsOf(OnDay(p, d)), e); }
      Plus(Plus(GridTotals(p, g), TotalsOf(OnDay(p, d))), Plus(Share(s, g), e));
      { ShareSnoc(s, g, d); }
      Plus(GridTotals(p, g + [d]), Share(s, g + [d]));
    }
  }

  /** Adding one entry changes the grid sum by that entry's contribution when its day is on
      the grid (once, as the grid has no repeated day), and not at all otherwise. */
  lemma {:induction false} GridTotalsSnoc(p: seq<Sale>, s: Sale, grid: seq<CalendarDate>)
    requires NoRepeats(grid)
    ensures GridTotals(p + [s], grid) == Plus(GridTotals(p, grid), Share(s, grid))
    decreases |grid|
  {
    if |grid| > 0 {
      var g, d := Init(grid), Last(grid);
      assert grid == g + [d];
      GridTotalsSnoc(p, s, g);
      GridTotalsSnocStep(p, s, g, d);
    }
  }

  /** Adding one entry changes the totals of the entries dated on the grid by its share. */
  lemma InGridSnoc(p: seq<Sale>, s: Sale, grid: seq<CalendarDate>)
    ensures TotalsOf(InGrid(p + [s], grid)) == Plus(TotalsOf(InGrid(p, grid)), Share(s, grid))
  {
    FilterSnoc(p, s, DatedIn(grid));
    if s.date in grid {
      TotalsOfSnoc(InGrid(p, grid), s);
    } else {
      assert InGrid(p + [s], grid) == InGrid(p, grid);
    }
  }

  lemma PartitionStep(p: seq<Sale>, s: Sale, grid: seq<CalendarDate>)
    requires NoRepeats(grid)
    requires GridTotals(p, grid) == TotalsOf(InGrid(p, grid))
    ensures GridTotals(p + [s], grid) == TotalsOf(InGrid(p + [s], grid))
  {
    GridTotalsSnoc(p, s, grid);
    InGridSnoc(p, s, grid);
  }

  /** Partition law: summing the per-day totals over a grid of distinct days gives exactly
      the totals of the entries dated on the grid; entries on other days count nowhere. */
  lemma {:induction false} PartitionLaw(sales: seq<Sale>, grid: seq<CalendarDate>)
    requires NoRepeats(grid)
    ensures GridTotals(sales, grid) == TotalsOf(InGrid(sales, grid))
    decreases |sales|
  {
    if |sales| == 0 {
      ZeroGrid(grid);
    } else {
      PartitionLaw(Init(sales), grid);
      PartitionStep(Init(sales), Last(sales), grid);
      assert sales == Init(sales) + [Last(sales)];
    }
  }

  lemma {:induction false} ZeroGrid(grid: seq<CalendarDate>)
    ensures GridTotals([], grid) == Zero
    decreases |grid|
  {
    if |grid| > 0 {
      ZeroGrid(Init(grid));
      assert OnDay([], Last(grid)) == [];
    }
  }

  /** When every entry's day is on the grid, nothing is filtered out. */
  lemma {:induction false} InGridAll(sales: seq<Sale>, grid: seq<CalendarDate>)
    requires forall i :: 0 <= i < |sales| ==> sales[i].date in grid
    ensures InGrid(sales, grid) == sales
    decreases |sales|
  {
    if |sales| > 0 {
      InGridAll(Init(sales), grid);
      assert sales == Init(sales) + [Last(sales)];
    }
  }

  /** On a full-month grid, "dated on the grid" is "dated in that month". */
  lemma {:induction false} InGridMonth(sales: seq<Sale>, y: int, m: int)
    requires 1 <= y && 1 <= m <= 12
    ensures InGrid(sales, MonthDays(y, m)) == InMonth(sales, YearMonth(y, m))
    decreases |sales|
  {
    if |sales| > 0 {
      InGridMonth(Init(sales), y, m);
      InMonthDays(y, m, Last(sales).date);
    }
  }
}
