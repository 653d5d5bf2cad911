# SRG Simple CPA Summary — a Dafny model

This project models the computational core of the SRG "Simple CPA Summary"
dashboard (`app.py`). Its parts:

- the fixed table of daily `(date, cost, conversions)` rows for November
  2025 (`load_data`);
- the CPA summary (`build_summary`). It keeps the rows whose date lies in
  an inclusive range and sums their cost and conversions. It then computes
  the actual cost per acquisition, that CPA's delta against a target, and
  the delta as a percentage of the target;
- the decisions the page takes from a summary: the `+` prefix and the good
  flag of the Actual-CPA card, the three-way subtext colour of a metric card,
  and the direction / verdict / lead message of the insight panel.

Everything in the core is pure, so the model is made of datatypes,
functions and lemmas:

- `records.dfy`, module `Records`: calendar dates as ordered integer keys
  and the `DailyRecord` row.
- `summary.dfy`, module `Summary`: the range filter, the column sums and
  `BuildSummary`.
- `insight.dfy`, module `Insight`: the card and panel decisions.
- `dataset.dfy`, module `Dataset`: the fixed table and concrete scenarios
  over it.

Modelling choices:

- A date is its key `year * 10000 + month * 100 + day`. `KeyOrderIsChronological`
  proves that comparing keys compares dates chronologically. This is what
  the comparisons on the date column do.
- Money and CPA are `real`, so division is exact (rational arithmetic).
- Conversions are `int`.
- The table is a `seq` of rows. Dafny values are immutable, so the input
  table cannot be changed by `BuildSummary`. The filtered rows are proved
  to be a subsequence of it.

Points where the model follows the code:

- With no conversions the code reports an actual CPA of `0.0`, not an absent
  value. The delta is always `actual - target`, and the percentage is `0.0`
  whenever the target is not positive (app.py:132-135). A consequence is
  proved in `DayOutsideTableScenario`: a range with no rows reads as
  "beating target" by 100 percent.
- The month's totals are the sums of the literal columns of `load_data`:
  16705 in cost and 1665 conversions (`MonthTotals`).
- The Actual-CPA card's flag is a numpy boolean whenever the range has
  conversions, and the card's colour tests do not recognise it (see
  "## Findings"). `CardColour` models those tests as written.

## Model

| member | source | states |
|---|---|---|
| Records.CalendarDate.Key | app.py:119 | the key of a date lies strictly inside the block of keys of its month, which lies strictly inside the block of its year |
| Records.KeyOrderIsChronological | app.py:119 | for dates whose month and day lie in their ranges, one key is below another exactly when its date is chronologically earlier. Keys are equal exactly when the dates are equal |
| Records.KeyDecodes | app.py:119 | year, month and day can be read back from a date's key |
| Summary.InWindow | app.py:127 | a row is in the window only if the window is not inverted. The dates `start` and `end` themselves are in a non-inverted window (both bounds inclusive). A date before `start` or after `end` is not |
| Summary.FilterRange | app.py:127-128 | every kept row has `start <= date <= end` and comes from the table. Every table row in the window is kept. The result is no longer than the table |
| Summary.FilterIsSubsequence | app.py:128 | the filtered rows are the table with rows deleted, in table order |
| Summary.FilterMultiplicity | app.py:127-128 | each row occurs in the result as often as in the table when it is in the window, and never otherwise |
| Summary.FilterKeepsEverythingInWindow | app.py:127-128 | a table lying wholly inside the window is returned unchanged |
| Summary.NoRowInWindow | app.py:127-128 | a table with no row in the window gives an empty range |
| Summary.InvertedRangeIsEmpty | app.py:127-128 | with `start > end` no row is selected |
| Summary.FilterKeepsAscending | app.py:128 | filtering a table with strictly ascending dates yields strictly ascending dates |
| Summary.FilterMonotone | app.py:127 | widening the window never drops a row: the old rows are a sub-multiset of the new |
| Summary.TotalCost | app.py:130 | the cost column's sum. The sum over no rows is 0 |
| Summary.TotalConversions | app.py:131 | the conversions column's sum. The sum over no rows is 0 |
| Summary.TotalCostAppend | app.py:130 | the cost total of two tables put together is the sum of their cost totals |
| Summary.TotalConversionsAppend | app.py:131 | the conversions total of two tables put together is the sum of their totals |
| Summary.FilteredTotalsAreMaskedTotals | app.py:127-131 | the sums over the filtered rows equal the column sums over the whole table with out-of-window rows counted as zero (the masked-column reading) |
| Summary.TotalsIgnoreOrder | app.py:130-131 | two tables holding the same rows in any order have the same totals |
| Summary.TotalsNonNegative | app.py:130-131 | a table without negative values has non-negative totals |
| Summary.RangeTotalsBoundedByTable | app.py:130-131 | over a table without negative values, the totals of any range never exceed the table's |
| Summary.ActualCpa | app.py:132 | with positive conversions the CPA times the conversions is the cost (so CPA = cost / conversions), and it is non-negative for a non-negative cost. Otherwise it is `0.0` |
| Summary.OverUnderPct | app.py:135 | for a positive target, percentage times target equals delta times 100, and the percentage has the sign of the delta. For a target that is not positive it is `0.0` |
| Summary.BuildSummary | app.py:126-144 | rows are the filtered range and totals are its column sums. CPA times conversions is cost when conversions are positive, else CPA is `0.0` and the delta is `-target`. Actual CPA is target plus delta, and the delta is positive or negative exactly when the CPA is above or below the target. The percentage relates to delta and target as in `OverUnderPct` |
| Summary.SameTotalsSameFigures | app.py:132-135 | two ranges, of the same or different tables, whose cost and conversions totals agree give the same totals, CPA, delta and percentage for the same target: the figures depend on the rows only through the two sums |
| Summary.EmptyRangeSummary | app.py:130-135 | a range with no rows gives zero totals, CPA `0.0`, delta `-target`, and -100 percent for a positive target (0 otherwise) |
| Summary.SummaryCpaNonNegative | app.py:130-132 | over a table without negative values the reported CPA is never negative |
| Insight.CardColour | app.py:56-62 | the good accent exactly for the literal True, the bad accent exactly for the literal False, and the muted colour for None and for any numpy boolean, true or false |
| Insight.ActualCpaCard | app.py:217-218 | the `+` prefix is shown exactly when the delta is positive. The good flag is true exactly when the delta is at most zero. It is a numpy boolean exactly when the range has conversions, a literal otherwise, and never None |
| Insight.IntendedCardColour | app.py:218 | the colour the Actual-CPA card is meant to show: the good accent exactly when the delta is at most zero, the bad accent exactly when it is positive, never muted |
| Insight.ActualCpaCardColour | app.py:56-62 | as computed, the Actual-CPA card is muted whenever the range has conversions. Without conversions it shows the intended colour |
| Insight.CardMarksExclusive | app.py:217-218 | exactly one of the `+` prefix and a true good flag is set |
| Insight.Classify | app.py:254-266 | positive target: delta > 0 gives above/bad, delta < 0 gives below/good, delta = 0 gives at/neutral. Target not positive: n/a/neutral |
| Insight.LeadFor | app.py:268-276 | bad leads with "running hot", good with "beating target" and neutral with "exactly on target", each exactly when the verdict is that value |
| Insight.ToneColour | app.py:268-276 | the lead's colour is the bad accent, the good accent or the muted colour exactly when the verdict is bad, good or neutral |
| Insight.ToneColourIsCardColour | app.py:56-62 | the lead's colour is the colour a metric card gives the same verdict passed as a literal |
| Insight.CardAgreesWithVerdict | app.py:254-266 | against a positive target the card's flag is true, and its intended colour is the good accent, exactly when the panel's verdict is not bad. The `+` shows exactly when the direction is above. On target the card is meant to be green while the panel is neutral |
| Insight.NoTargetReadsAsOnTarget | app.py:264-275 | with a target that is not positive, the lead says the CPA is exactly on target, whatever the delta |
| Insight.DirectionDeterminesLead | app.py:254-276 | the lead is "running hot" exactly when the direction is above and "beating target" exactly when below. Otherwise it is "exactly on target" |
| Dataset.LoadData | app.py:91-120 | 30 rows. Row i is day i + 1 of November 2025 with the i-th cost and conversions of the literal columns |
| Dataset.DatasetShape | app.py:93-116 | the dates ascend strictly from 2025-11-01 to 2025-11-30, each row's date is the key of its calendar day, and no value is negative |
| Dataset.FullMonthSelectsEverything | app.py:191-196 | the date picker's default range, first to last date, selects the whole table |
| Dataset.MonthTotals | app.py:101-116 | the whole table totals 16705 in cost and 1665 conversions |
| Dataset.FullMonthScenario | app.py:126-144 | whole month, target 5.0: totals 16705 / 1665, CPA 16705/1665, delta and percentage above target, verdict above/bad, lead "running hot" |
| Dataset.FullMonthCardIsMuted | app.py:213-218 | whole month, target 5.0: the CPA is over target and the card is meant to show the bad accent, but as computed it is muted |
| Dataset.FirstDayRows | app.py:127-128 | the window of the single day 2025-11-01 holds exactly its one row |
| Dataset.FirstDayScenario | app.py:126-144 | 2025-11-01 alone, target 5.0: totals 403 / 46, CPA 403/46, percentage 1730/23 (about 75.2), verdict above/bad |
| Dataset.DayOutsideTableScenario | app.py:126-144 | 2025-12-01, target 5.0: no rows, totals 0, CPA 0.0, delta -5.0, -100 percent, verdict below/good, lead "beating target" |
| Dataset.ZeroTargetScenario | app.py:126-144 | whole month, target 0.0: CPA still reported, delta equal to the CPA, percentage 0.0, verdict n/a/neutral |

## Left out

- Page configuration, CSS, markdown/HTML rendering, the logo and its
  fallback on a failed image load, widgets and the run button
  (app.py:8-51, 150-305). These are presentation and I/O.
- Currency and percentage formatting: thousands separators, two or one
  decimals, and the `abs` of the percentage in the panel text. This is
  string formatting of binary floats.
- Binary floating point. Money, CPA and percentages are exact reals, so
  rounding of the division is not modelled.
- Fixed-width integers. pandas sums the integer cost and conversions columns
  as 64-bit integers. The model's `int` and `real` are unbounded. The
  table's sums are far below 2^63, so wrap-around does not arise for it.
- numpy value types other than the card's flag. The model tracks whether
  that flag is a numpy boolean (`GoodFlag`) because that decides the card's
  colour. Elsewhere numpy and Python numbers are treated alike.
- pandas: `to_datetime`, boolean masks and `.copy()`. Dates are integer keys.
  The frame is an immutable sequence, so aliasing between the filtered copy
  and the table does not arise.
- The date picker's derivation of `min_date` / `max_date` from the date
  column (app.py:152-153) is not modelled as a function. `DatasetShape`
  states the first and last dates of the fixed table instead.
- The target input's lower bound of 0.0 (app.py:182-188) is a widget
  constraint. `BuildSummary` and `Classify` accept any real target and
  model the code's branches for a target that is not positive.
- The Target CPA and Conversion Volume cards always pass a fixed flag
  (`None`, `True`; app.py:221-234). Their colour is `CardColour` of that
  literal.

## Findings

| source | as written | input that shows it | evidently intended | confidence | as-written member | corrected member |
|---|---|---|---|---|---|---|
| app.py:218 | `good=(cpa_delta <= 0)` hands `metric_card` a numpy boolean whenever the range has conversions. The tests `good is True` / `good is False` (app.py:57-60) match neither, so the card's subtext is muted | the whole month, 2025-11-01 to 2025-11-30, target 5.0: CPA 16705/1665, over target | the bad accent when the CPA is over target and the good accent otherwise | not executed | Dataset.FullMonthCardIsMuted | Insight.IntendedCardColour |
