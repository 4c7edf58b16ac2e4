# Sales Report: report aggregation and commission tiers

This project models the core of a browser application that sales staff use to record sales
entries and read daily and monthly reports. It covers four parts:

- **Reports.** Entries are put into per-day buckets. Each day counts the *active* entries:
  those not cancelled and not named `NO SALE`. For them it sums the sale count, the volume and
  the commission. Tours are summed over all of the day's entries. The volume per tour (VPG) is
  0 when there are no tours. Days roll up into month totals, and the month VPG is recomputed
  from the summed volume and tours.
- **Project store.** Each project holds a commission tier table, with an 8-tier default. The
  operations are create-if-empty, fetch the current project, clear and reseed, create a
  project, and replace a project's tiers.
- **Tier panel.** It finds the tier that holds a volume (the first match), gives a tier's base
  and total rates, and edits one tier. The edit is kept only after the store accepts it.
- **Entry form.** It builds the stored record on submit, loads an entry for editing, and
  recomputes commission and FDI figures as amounts are typed.

Dafny modules, one per source file, plus shared ones:

| module | file | models |
|---|---|---|
| `Wrappers` | wrappers.dfy | `Option`, `Result`, `OrZero` (the `|| 0` guard on a parse) |
| `Calendar` | calendar.dfy | Gregorian dates, day numbers, day ranges, month grids |
| `SalesTypes` | sales_types.dfy | the `Sale` and `CommissionLevel` records |
| `Aggregation` | aggregation.dfy | filters, left-fold sums, the reference `Totals`, the partition law |
| `DateCalculations` | date_calculations.dfy | `src/utils/dateCalculations.ts` |
| `MonthlyReportUtils` | monthly_report_utils.dfy | `src/utils/monthlyReportUtils.ts` |
| `MonthlyReport` | monthly_report.dfy | the memos of `src/components/MonthlyReport.tsx` |
| `ReportMetrics` | report_metrics.dfy | the totals and `avgVPG` of `src/components/ReportMetrics.tsx` |
| `Database` | database.dfy | `src/db/database.ts` |
| `CommissionLevels` | commission_levels.dfy | `src/components/CommissionLevels.tsx` |
| `SalesForm` | sales_form.dfy | `src/components/SalesForm.tsx` |

How the model is built:

- Lists are Dafny sequences. Every `reduce` is a fold from the back, so appending one element
  is one step of the definition.
- Money is `real` and tours are `int`.
- A date is an already-resolved calendar date (year, month, day).
- State the source changes in place is a class with `modifies` clauses:
  - the store's tables (`Database.SalesDatabase`);
  - the tier panel's component state (`CommissionLevels.CommissionLevelsPanel`);
  - the form's state (`SalesForm.SalesFormState`).

  Each method is specified by a pure function of the old state. The loop of
  `calculateMonthlyTotals` and the `salesByDate` updates of `calculateDailyMetrics` are
  methods with loop invariants.
- Parameters stand in for code that is not modelled:
  - the clock: "today", the month name, the current timestamp;
  - the helpers from `src/types/sales`, which are not part of this model:
    `calculateTotalCommission`, `calculateFDIPoints`, `calculateFDICost` and the two-argument
    `calculateDailyVPG`;
  - JavaScript's `parseFloat` (with `None` for NaN) and number-to-text conversion.

## Model

| member | source | states |
|---|---|---|
| Calendar.DaysInMonth | src/utils/monthlyReportUtils.ts:24-28 | Every month has 28 to 31 days, and it has 29 exactly when it is February of a leap year. |
| Calendar.DayRange | src/utils/dateCalculations.ts:25 | For a forward interval, `eachDayOfInterval` has one day for each day number from start to end. Both callers pass forward intervals (`DateCalculations.EarliestBeforeLatest` and `Calendar.MonthRangeIsMonthDays`). |
| Calendar.DayRangeAt | src/utils/dateCalculations.ts:25 | Day i of the range is i days after the start, so the range is consecutive and in chronological order. |
| Calendar.DayRangeExact | src/utils/dateCalculations.ts:25 | A date is in the range iff it lies between start and end inclusive. A non-empty range starts at start and ends at end. |
| Calendar.DayRangeDistinct | src/utils/dateCalculations.ts:25 | No day occurs twice in a range. |
| Calendar.MonthRangeIsMonthDays | src/utils/monthlyReportUtils.ts:24-28 | The range from the month's first to its last day is exactly days 1 to DaysInMonth of that month, in order. |
| Calendar.InMonthDays | src/utils/monthlyReportUtils.ts:24-28 | A date is on a month's grid exactly when it falls in that month. |
| Aggregation.FilterCount | src/utils/dateCalculations.ts:28 | A filter keeps each element exactly as often as it occurs in the input, or drops it entirely. |
| Aggregation.FilterAppend | src/utils/dateCalculations.ts:28 | Filtering distributes over concatenation, so kept entries stay in input order. |
| Aggregation.VpgMeaning | src/utils/dateCalculations.ts:52 | The VPG times the tours gives back the volume when there are tours. With zero or negative tours it is 0, so it never divides by zero. |
| Aggregation.SourceSumsAreTotals | src/utils/dateCalculations.ts:32-40 | Count, volume and commission over the active entries, with tours over all entries, equal the reference totals. A cancelled or no-sale entry adds its tours only. |
| Aggregation.PartitionLaw | src/utils/monthlyReportUtils.ts:31-34 | Summing the per-day totals over a grid of distinct days gives the totals of exactly the entries dated on the grid. Nothing is lost or counted twice. |
| Aggregation.InGridMonth | src/utils/monthlyReportUtils.ts:24-34 | The entries dated on a month's grid are exactly the entries dated in that month. |
| DateCalculations.DailyVpgMeaning | src/utils/dateCalculations.ts:50-53 | `calculateDailyVPG` times the tours is the summed volume when there are tours, and 0 otherwise. |
| DateCalculations.EarliestDateIsMin | src/utils/dateCalculations.ts:21 | The start day is some entry's day, and no entry is dated before it. |
| DateCalculations.EarliestBeforeLatest | src/utils/dateCalculations.ts:20-25 | For any non-empty list of entries, the interval from the earliest to the latest entry day is forward. |
| DateCalculations.LatestDateIsMax | src/utils/dateCalculations.ts:22 | The end day is some entry's day, and no entry is dated after it. |
| DateCalculations.CalculateDailyMetrics | src/utils/dateCalculations.ts:15-48 | The loop over the report days returns the day-by-day metrics `DailyMetricsOf(sales, today)`. Every `salesByDate` key holds that day's entries. |
| DateCalculations.DailyMetricsSpan | src/utils/dateCalculations.ts:20-25 | There is one metric per day from the earliest to the latest entry day inclusive. They are consecutive and chronological, and every entry's day is among them. |
| DateCalculations.ReportDaysCover | src/utils/dateCalculations.ts:20-25 | Every entry's day is a reported day. |
| DateCalculations.NoSalesReportsToday | src/utils/dateCalculations.ts:21-25 | With no entries the output is a single all-zero day, for today. |
| DateCalculations.DayMetricsMeaning | src/utils/dateCalculations.ts:26-44 | A day's entries are exactly the input entries of that day, in input order. Sale count, volume and commission cover the active ones and tours all of them. The VPG is guarded. The first-of-month flag holds iff the day is 1. |
| DateCalculations.DailyMetricsSumLaw | src/utils/dateCalculations.ts:25-45 | Over the whole report the daily metrics sum to the active entries' count, volume and commission and to all entries' tours. |
| DateCalculations.SummaryVpg | src/utils/dateCalculations.ts:83 | A month's VPG times its summed tours is its summed volume, or 0 without tours. |
| DateCalculations.MonthsOfMeaning | src/utils/dateCalculations.ts:64-65 | A year-month is a key exactly when some day falls in it. |
| DateCalculations.SummarySnoc | src/utils/dateCalculations.ts:74-83 | Adding a day to a month's running totals and recomputing the VPG gives the summary of the month's days with that day appended. |
| DateCalculations.RollUpStep | src/utils/dateCalculations.ts:64-86 | One `forEach` step keeps the map invariant: one key per month seen, each holding the summary of that month's days so far. |
| DateCalculations.CalculateMonthlyTotals | src/utils/dateCalculations.ts:55-89 | The map has one key per year-month present. Each value holds that month's summed volume, commission, tours and sales, with the VPG taken from those sums. |
| DateCalculations.MonthVpgIsNotAverage | src/utils/dateCalculations.ts:82-83 | A concrete pair of days where the month VPG (10) differs from the average of the daily VPGs (50). |
| MonthlyReportUtils.GenerateMonthDaysSpec | src/utils/monthlyReportUtils.ts:24-28 | Every day from the 1st to the month's last day, in order. The length is the Gregorian month length (28 to 31), and a date is in it iff it falls in that month. |
| MonthlyReportUtils.DailyEntryMeaning | src/utils/monthlyReportUtils.ts:30-57 | Entry i is dated grid day i and holds exactly that day's input entries. Sale count, volume and commission cover the active entries and tours all of them. Its VPG is volume per tour, or 0. |
| MonthlyReportUtils.OutsideGridAppearsNowhere | src/utils/monthlyReportUtils.ts:32-34 | An entry dated off the grid appears in no day's entries. |
| MonthlyReportUtils.ReduceDaysIsSum | src/utils/monthlyReportUtils.ts:61-73 | Each field of the `reduce` is the sum of that field over the days. |
| MonthlyReportUtils.MonthlyTotalsAreSums | src/utils/monthlyReportUtils.ts:60-79 | The month totals are the sums of the daily fields. The VPG is set after summing, from the summed volume and tours, and is 0 without tours. |
| MonthlyReportUtils.EmptyMonthlyTotals | src/utils/monthlyReportUtils.ts:67-76 | No days gives all-zero totals with VPG 0. |
| MonthlyReportUtils.SumEntriesOverGrid | src/utils/monthlyReportUtils.ts:61-73 | Summing the daily entries is summing each grid day's totals. |
| MonthlyReportUtils.MonthReportTotals | src/utils/monthlyReportUtils.ts:24-79 | For the selected month's own grid, the month totals are those of the entries dated in that month. Entries of other months do not count. |
| MonthlyReport.SameMonthDays | src/components/MonthlyReport.tsx:13-17 | The component's `monthDays` is the utility's `generateMonthDays`: days 1 to the last day of the selected month. |
| MonthlyReport.SameDailyEntries | src/components/MonthlyReport.tsx:19-40 | Day i is dated month day i. Its entries are exactly that day's input entries, and its metrics equal the utility's without the VPG. |
| MonthlyReport.SameMonthlyTotals | src/components/MonthlyReport.tsx:42-54 | The component's month totals are the sums of its daily fields. They equal the utility's month totals. |
| MonthlyReport.ReportTotals | src/components/MonthlyReport.tsx:42-54 | The report's totals are those of the entries dated in the selected month, and all zeros when there are none. |
| ReportMetrics.ReduceTotalsIsSum | src/components/ReportMetrics.tsx:11-19 | Volume, commission, tours and sales equal the sums of the daily `totalVolume`, `totalCommission`, `numberOfTours` and `totalSales`. |
| ReportMetrics.EmptyReport | src/components/ReportMetrics.tsx:18-21 | No metrics gives all-zero totals and `avgVPG` 0. |
| ReportMetrics.AvgVpgMeaning | src/components/ReportMetrics.tsx:21 | `avgVPG` is summed volume over summed tours (times the tours it gives back the volume), and 0 without tours. |
| ReportMetrics.SumMetricsOrderIndependent | src/components/ReportMetrics.tsx:11-19 | Any rearrangement of the metrics gives the same sums. |
| ReportMetrics.OrderIndependent | src/components/ReportMetrics.tsx:11-21 | The totals and `avgVPG` do not depend on the order of the metrics list. |
| ReportMetrics.HeaderTotals | src/components/ReportMetrics.tsx:11-19 | Over `calculateDailyMetrics`' output the header shows the active entries' count, volume and commission and all entries' tours. |
| Database.DefaultLevelsShape | src/db/database.ts:4-13 | There are 8 default tiers with levels 1 to 8 in order. Each has min ≤ max, and each starts one dollar after the previous one ends, from 162500 to 999999999. The additional rate strictly increases. |
| Database.FindIndex | src/db/database.ts:182 | `projects.get(id)` finds a project with that key, or reports none exactly when no project has it. |
| Database.InitializeIdempotent | src/db/database.ts:79-103 | Initializing twice is initializing once. A project is added only to an empty table, and from an empty table the result is exactly one project, with the default tiers. |
| Database.CurrentProjectSpec | src/db/database.ts:105-131 | On an empty store, a new project with the default tiers is added and returned. Otherwise the first project is returned and nothing is added. |
| Database.ClearSpec | src/db/database.ts:133-157 | After clearing, there are no sales and exactly one project, named after the current month, with the default tiers. |
| Database.CreateSpec | src/db/database.ts:159-177 | A created project gets the default tiers and a key no other project has. Every other project and every sale is kept. |
| Database.UpdateUnknownFails | src/db/database.ts:182-183 | The update fails with "Project not found" and changes nothing exactly when no project has the key. |
| Database.UpdateKnownReplaces | src/db/database.ts:185-190 | For a known key the call returns true. That project gets the new tiers and update time and keeps its key, name and creation time. Other projects, the sales and the next key are unchanged. |
| Database.OperationsWellFormed | src/db/database.ts:79-199 | Every operation keeps the keys positive, below the next key, and increasing along the table. |
| Database.SalesDatabase.constructor | src/db/database.ts:23-30 | An empty store whose first key will be 1. |
| Database.SalesDatabase.AddProject | src/db/database.ts:91 | `projects.add` stores the project under the next key and returns that key. |
| Database.SalesDatabase.Initialize | src/db/database.ts:79-103 | The new state is `AfterInitialize` of the old one, and the keys stay well formed. |
| Database.SalesDatabase.GetCurrentProject | src/db/database.ts:105-131 | The returned project and the new state are `CurrentProjectOf` the old state. |
| Database.SalesDatabase.ClearAllData | src/db/database.ts:133-157 | Returns true. The new state is `AfterClear` of the old one. |
| Database.SalesDatabase.CreateNewProject | src/db/database.ts:159-177 | The returned key and the new state are `AfterCreate` of the old state. |
| Database.SalesDatabase.UpdateCommissionLevels | src/db/database.ts:179-199 | The outcome and the new state are `AfterUpdateLevels` of the old state. |
| CommissionLevels.GetCurrentLevel | src/components/CommissionLevels.tsx:28-32 | Returns the first tier in list order whose inclusive bounds hold the volume, or none exactly when no tier holds it. |
| CommissionLevels.GetBaseCommission | src/components/CommissionLevels.tsx:68-72 | The base rate is always 4, 5 or 6. |
| CommissionLevels.BaseCommissionSteps | src/components/CommissionLevels.tsx:68-72 | The base rate never falls as `minAmount` rises. It is 6 exactly from 50000 and 4 exactly below 20000. |
| CommissionLevels.TotalCommissionBounds | src/components/CommissionLevels.tsx:74-77 | For every tier, the total rate is its additional percentage plus 4 to 6. It is exactly 6 more iff the lower bound is at least 50000, and exactly 4 more iff it is below 20000. |
| CommissionLevels.TotalCommissionMonotone | src/components/CommissionLevels.tsx:68-77 | A tier with a higher lower bound and no smaller additional percentage never has a lower total rate. |
| CommissionLevels.DefaultTotals | src/components/CommissionLevels.tsx:74-77 | For each default tier the total rate is 6 plus its additional rate, and it strictly rises along the table. |
| CommissionLevels.DefaultTierUnique | src/db/database.ts:5-12 | Every whole-dollar volume from 162500 to 999999999 lies in exactly one default tier, and the lookup finds it. |
| CommissionLevels.DefaultOutsideRange | src/db/database.ts:5-12 | Volumes below 162500 or above 999999999 lie in no default tier. |
| CommissionLevels.AscendingGap | src/components/CommissionLevels.tsx:28-32 | In an ascending table, a volume strictly between one tier's upper bound and the next tier's lower bound finds no tier. |
| CommissionLevels.AscendingUnique | src/components/CommissionLevels.tsx:28-32 | In an ascending table no volume lies in two tiers, so the first match is the only match. |
| CommissionLevels.DefaultTierGaps | src/db/database.ts:5-12 | Fractional volumes between two default tiers (such as 243749.50) find no tier. |
| CommissionLevels.ReplaceLevelAt | src/components/CommissionLevels.tsx:44-46 | Position i of the saved list holds the edited tier when tier i's level matches the edit. Otherwise it keeps tier i. |
| CommissionLevels.ReplaceLevelIdempotent | src/components/CommissionLevels.tsx:44-46 | Saving the same edit twice is saving it once. |
| CommissionLevels.ReplaceAbsentLevel | src/components/CommissionLevels.tsx:44-46 | An edit whose level matches no tier leaves the list unchanged. |
| CommissionLevels.CommissionLevelsPanel.constructor | src/components/CommissionLevels.tsx:18-20 | A panel for the given project that is not editing and has no tiers and no form. |
| CommissionLevels.CommissionLevelsPanel.SyncFromProject | src/components/CommissionLevels.tsx:13-26 | When the store holds the project, the panel takes its tiers. Otherwise the tiers stay, and the edit state is unchanged. |
| CommissionLevels.CommissionLevelsPanel.HandleEdit | src/components/CommissionLevels.tsx:36-39 | Editing starts on the tier's level, with a copy of the tier in the form. |
| CommissionLevels.CommissionLevelsPanel.CancelEdit | src/components/CommissionLevels.tsx:183-186 | Editing stops, and the tiers are kept. |
| CommissionLevels.CommissionLevelsPanel.HandleSave | src/components/CommissionLevels.tsx:41-57 | Without a form nothing changes. Otherwise the replaced list goes to the store. The panel takes it and leaves edit mode only when the store succeeds; on failure the panel is unchanged. |
| SalesForm.NoSaleSubmit | src/components/SalesForm.tsx:87-107 | A no-sale submit is named "NO SALE" with manager "-". Amount, percentage, commission, FDI points, given points, FDI cost and daily VPG are all 0, so the reports count only its tours. |
| SalesForm.SaleSubmit | src/components/SalesForm.tsx:79-100 | Amount and given FDI points are the parsed text, or 0 when it does not parse. The percentage comes from the commission helper, and the commission amount times 100 is amount times percentage, unrounded. FDI points and cost come from the helpers. |
| SalesForm.SubmitCopiesForm | src/components/SalesForm.tsx:88-106 | The project key is the current project's, or 1 without a project (or for key 0). Rank is 0, and date, lead, tours, notes, type, cancellation, points and FDI text are copied. |
| SalesForm.EditResubmit | src/components/SalesForm.tsx:58-107 | Loading an entry and submitting it unchanged keeps its date, lead, tours, notes, type, cancellation, points and name. A sale keeps its manager, amount and given points when the number text reads back as the same number. A no-sale entry stays inactive. |
| SalesForm.RoundCentsSpec | src/components/SalesForm.tsx:239 | `Math.round(x * 100) / 100` is within half a cent of x, is a whole number of cents, and is idempotent. |
| SalesForm.RoundedCommissionSpec | src/components/SalesForm.tsx:239 | The commission shown while typing is within half a cent of amount times percentage over 100. |
| SalesForm.SaleAmountChangeSpec | src/components/SalesForm.tsx:231-248 | The handler shows a commission within half a cent of the exact one. Only amount text, percentage, commission and FDI points change. |
| SalesForm.SaleTypeChangeSpec | src/components/SalesForm.tsx:258-274 | Changing the type recomputes the percentage for the new type and shows the commission unrounded. Nothing else changes. |
| SalesForm.FdiChangeSpec | src/components/SalesForm.tsx:308-316 | Unparseable FDI text counts as 0 given points. The cost uses the points already in the form, and nothing else changes. |
| SalesForm.ShownFdiIsSubmitted | src/components/SalesForm.tsx:97-99 | After typing the amount and then the FDI points, the submit records the FDI points, given points and cost the form shows. |
| SalesForm.SalesFormState.constructor | src/components/SalesForm.tsx:46-48 | The initial form, no no-sale flag, and no project. |
| SalesForm.SalesFormState.LoadCurrentProject | src/components/SalesForm.tsx:50-56 | The form holds the store's current project. The store moves as `getCurrentProject` does. |
| SalesForm.SalesFormState.LoadEditingSale | src/components/SalesForm.tsx:58-73 | An entry is loaded with its amounts as text and the FDI text taken from the given points. No-sale is set iff the name is "NO SALE". Without an entry the form resets. |
| SalesForm.SalesFormState.SetNoSale | src/components/SalesForm.tsx:191 | The entry-type switch sets only the no-sale flag. |
| SalesForm.SalesFormState.HandleSubmit | src/components/SalesForm.tsx:75-117 | Returns `BuildSale` of the form as it was. The form then returns to its initial values, with no-sale false. |
| SalesForm.SalesFormState.OnSaleAmountChange | src/components/SalesForm.tsx:231-248 | The form becomes `AfterSaleAmountChange` of the old form. |
| SalesForm.SalesFormState.OnSaleTypeChange | src/components/SalesForm.tsx:258-274 | The form becomes `AfterSaleTypeChange` of the old form. |
| SalesForm.SalesFormState.OnFdiChange | src/components/SalesForm.tsx:308-316 | The form becomes `AfterFdiChange` of the old form. |

## Left out

- Dexie plumbing is not modelled, because it is browser storage rather than logic:
  - schema versions;
  - transactions;
  - the `VersionError` delete-and-reload paths and `window.location.reload`;
  - the load-time `initialize` call.

  The tables are in-memory state, and the only failure kept is "Project not found".
- The `isInitialized` latch of `ensureInitialized` is not modelled. Every operation runs
  `initialize` first, which is a no-op once a project exists, so the result is the same.
- Dexie's `++id` is modelled as the `nextId` counter. It starts at 1 and is not reset by
  clearing a table.
- Clock reads are not modelled. `new Date()`, `toISOString` and the `toLocaleString` month name
  are parameters, and so is the form's default date.
- date-fns and JavaScript `Date` parsing are not modelled (`eachDayOfInterval`, `isSameDay`,
  `format`, `startOfMonth`, `endOfMonth`, and the UTC-versus-local shift of `new Date('YYYY-MM-DD')`).
  Dates are already-resolved calendar dates, and the month key `format(date, 'yyyy-MM')` is the
  year-month pair.
- Floating point is not modelled. Amounts are exact reals with no IEEE rounding in sums and
  divisions. `Math.round` is the floor of x + 0.5.
- The `|| 0` guards on sale fields in the reports are not modelled. Record fields are always
  numbers in the model, so each guard is the identity.
- DateCalculations.CalculateMonthlyTotals: the result is a Dafny map, so the insertion order of
  the JavaScript `Map` is not modelled.
- DateCalculations.CalculateDailyMetrics: the local `salesByDate` map is checked to hold, under
  each key, that day's entries. That every reported day becomes a key is not stated. The map is
  never returned or read.
- The helpers imported from `src/types/sales` are uninterpreted parameters, because their source
  is not part of this model: `calculateTotalCommission`, `calculateFDIPoints`, `calculateFDICost`
  and the two-argument `calculateDailyVPG`. The display-only `calculateDisplayCommission` and
  `getBaseCommissionDisplay` of the form are not modelled.
- `formatCurrency` is not modelled (in `src/utils/dateCalculations.ts` and in the tier panel),
  nor is `formatMonthlyReportTitle`. They are `Intl` and date-fns text formatting.
- Rendering, `alert`, `console`, `onClose` and the `try`/`catch` around the submit are not
  modelled. The modelled helpers cannot throw.
- The tier panel's inline field handlers and the form's plain field setters are not modelled:
  - the date, name, lead, manager and notes setters copy the input text into state;
  - the tier bounds go through `parseInt` (`src/components/CommissionLevels.tsx:140`, `:150`).
    They become a truncated whole number, or NaN when the field is cleared. A NaN bound
    matches no volume, since every comparison with it fails;
  - the additional rate goes through `parseFloat` (`src/components/CommissionLevels.tsx:166`);
  - tours go through `parseInt(...) || 0` (`src/components/SalesForm.tsx:169`), giving a
    truncated integer, or 0.

  The model's tiers and tours are always numbers, so a NaN tier is not represented.
- `src/components/RecentReports.tsx`, `src/components/MonthlyReportManager.tsx`,
  `src/components/DailyReport.tsx` and `src/components/ReportTabs.tsx` are not part of this
  model. They are UI wiring around the modelled functions plus browser I/O.
- The form's editing effect spreads every field of the stored entry into the form state. The
  model's form record keeps only the fields the form declares (`LoadForm`). No submit reads the
  extra fields.
- Reversed intervals are not modelled. With `end` before `start`, `eachDayOfInterval` throws in
  date-fns 2 and lists the days backwards in date-fns 3, but `Calendar.DayRange` is empty.
  Neither caller builds such an interval.
- Interleaving of handlers is not modelled. Each handler and store call runs to completion
  without interleaving. In particular `CommissionLevels.CommissionLevelsPanel.HandleSave` treats
  the awaited `updateCommissionLevels` as atomic. In the program, an edit made while it is
  pending is cleared by lines 51-52 on success and kept on failure.
- The default argument `totalTours = 0` of `calculateDailyVPG`
  (`src/utils/dateCalculations.ts:50`) is not modelled. Every modelled caller passes the tours
  explicitly.
- The default tier table has no gap only over whole-dollar volumes. A volume such as 243749.50
  lies between two tiers and gets no level (`CommissionLevels.DefaultTierGaps`).
