# Capacity-risk analysis of the web-traffic forecast dashboard

The dashboard script `src/streamlit_app.py` loads a 30-day SARIMA forecast
table with the columns `date`, `forecast_visits`, `lower_ci` and `upper_ci`.
It lets the user choose a server capacity on a sidebar slider and shows the
following:

- four KPI cards: the average forecast, the peak forecast, the capacity and the number of "Risk Days";
- a forecast chart with a dashed capacity line over it;
- a Monday-to-Sunday bar chart of the average forecast per weekday;
- either a success notice or a table of the days whose forecast exceeds the capacity.

The script computes these values inline, between its UI calls. This project
lifts that computation out into pure Dafny functions over a sequence of
forecast rows and proves what the page promises about them.

Modules, in page order:

- `Stats`: the pandas reductions used by the script (`min`, `max`, `mean`) and Python's `int()`.
  - A reduction over no values is NaN. `int(NaN)` raises, and the model returns that as `Err(NaNToInteger)`.
  - `int()` on a number truncates toward zero (`Trunc`).
- `Forecast`: the row record, the weekday of a date, and the `forecast_visits` column.
  - A date is a count of days since 1970-01-01, which was a Thursday.
  - Its weekday is therefore `Week[(day + 3) % 7]`, with Monday first. The script's `dt.day_name()` string is not used.
- `Breach`: the strict filter `forecast_visits > capacity`, the "Risk Days" count, and the breach table or success notice.
- `Kpi`: the slider's `min_value`, `max_value` and starting `value`, and the KPI cards.
- `Overlay`: the capacity-line table.
- `Weekly`: the per-weekday mean, laid out Monday to Sunday, with NaN for a weekday that has no rows.
  - `WeeklyMeansByScan` is an independent single-pass computation of the same table.
  - Lemmas prove that the group sizes add up to the table size and that row order does not matter.
- `Dashboard`: one run of the script, from the slider to the breach report, plus a worked two-day example.

Behaviour at the edges, as the script has it:

- **Empty table.** `df['forecast_visits'].min()` is NaN, and `int()` of it raises ValueError at line 34, before anything else on the page is computed. `Kpi.SliderFor`, `Kpi.CardsFor` and `Dashboard.Render` model exactly that: `Err(NaNToInteger)` if and only if the table is empty.
- **Date order and confidence band.** The script checks neither that the dates ascend nor that each forecast lies between `lower_ci` and `upper_ci`. `Forecast.Ascending` and `Forecast.WithinBand` therefore appear only as hypotheses of lemmas, never as preconditions of an operation.
- **Capacity.** The capacity is any `int`. The slider hands the script an integer, and nothing after the slider relies on its range.

## Model

| member | source | states |
|---|---|---|
| Stats.Max | src/streamlit_app.py:58 | the peak is at least every forecast and equals one of them |
| Stats.Min | src/streamlit_app.py:34 | the minimum is at most every forecast and equals one of them |
| Stats.SeriesMax | src/streamlit_app.py:35 | `Series.max()` is NaN exactly on an empty column; otherwise it bounds every value from above and is attained |
| Stats.SeriesMin | src/streamlit_app.py:34 | `Series.min()` is NaN exactly on an empty column; otherwise it bounds every value from below and is attained |
| Stats.SeriesMean | src/streamlit_app.py:36 | `Series.mean()` is NaN exactly on an empty column |
| Stats.MeanBetweenExtremes | src/streamlit_app.py:57-58 | min <= mean <= max for every non-empty column |
| Stats.Trunc | src/streamlit_app.py:57 | `int()` rounds toward zero: the result is within one of the value, at or below it for non-negative values and at or above it for negative ones |
| Stats.TruncMonotone | src/streamlit_app.py:34-36 | truncation preserves the order of two values |
| Stats.ToInt | src/streamlit_app.py:34-36 | `int()` of a reduction fails exactly on NaN and otherwise truncates |
| Stats.SumConcat | src/streamlit_app.py:127 | the total of a concatenation is the sum of the totals |
| Forecast.Position | src/streamlit_app.py:128 | every weekday has a place in the Monday-first reindex order |
| Forecast.PositionUnique | src/streamlit_app.py:128 | no weekday appears twice in the reindex order |
| Forecast.WeekdayOf | src/streamlit_app.py:123 | a date's weekday sits at place (day + 3) mod 7 of the Monday-first week, since day 0 was a Thursday |
| Forecast.NextDayIsNextWeekday | src/streamlit_app.py:123 | consecutive dates have consecutive weekdays, with Sunday followed by Monday |
| Forecast.WeekdayRepeatsWeekly | src/streamlit_app.py:123 | dates seven days apart share a weekday |
| Forecast.Visits | src/streamlit_app.py:34 | the `forecast_visits` column has one entry per row, holding that row's forecast |
| Breach.Breaches | src/streamlit_app.py:53 | the breach days are at most as many as the rows, and each exceeds the capacity |
| Breach.BreachesAreExactlyExceeding | src/streamlit_app.py:53 | a row is a breach day if and only if it is in the table and its forecast is strictly above the capacity |
| Breach.AtCapacityIsNotBreach | src/streamlit_app.py:53 | a row forecast exactly at the capacity is not a breach day |
| Breach.BreachPositions | src/streamlit_app.py:53 | the breach positions are strictly ascending, valid, exceeding, and include every exceeding row |
| Breach.BreachesAtPositions | src/streamlit_app.py:53 | the k-th breach day is the row at the k-th breach position, so the filter keeps the table's order |
| Breach.NoBreachesIffNoneExceeds | src/streamlit_app.py:147-150 | there are no breach days if and only if no forecast exceeds the capacity |
| Breach.BreachesShrinkAsCapacityRises | src/streamlit_app.py:53 | raising the capacity only removes breach positions and never raises the count |
| Breach.CountRiskDays | src/streamlit_app.py:60 | a one-pass count equals the number of breach days, and it is zero if and only if no forecast exceeds the capacity |
| Breach.BreachTable | src/streamlit_app.py:151-153 | line k of the table shows the `date`, `forecast_visits` and `upper_ci` of the k-th breaching row, unchanged |
| Breach.ReportFor | src/streamlit_app.py:147-154 | the success notice appears if and only if no forecast exceeds the capacity; otherwise the error count equals the number of breach days and the table length |
| Breach.BreachesKeepDateOrder | src/streamlit_app.py:151-153 | when the dates ascend, the dates in the breach table ascend too |
| Breach.BreachUpperBoundAboveCapacity | src/streamlit_app.py:152 | when every forecast lies in its band, every listed `upper_ci` is above the capacity |
| Kpi.TruncatedWithinExtremes | src/streamlit_app.py:34-36 | int(min) <= int(mean) <= int(max), and every truncated forecast lies between int(min) and int(max) |
| Kpi.SliderFor | src/streamlit_app.py:32-37 | the slider fails exactly on an empty table; otherwise it starts at int(mean) of the forecasts, min_value <= value <= max_value - 500 < max_value, every truncated forecast lies in [min_value, max_value - 500], and both ends are truncated forecasts |
| Kpi.CardsFor | src/streamlit_app.py:53-60 | the cards fail exactly on an empty table; otherwise the average is int(mean) of the forecasts and lies between some truncated forecast and the peak, the peak bounds every truncated forecast and is one of them, the capacity card shows the capacity, and "Risk Days" is the breach count, zero if and only if nothing exceeds |
| Overlay.CapacityLine | src/streamlit_app.py:91-94 | the capacity line has one point per row, at that row's date, and every point is at the capacity |
| Overlay.AboveLineIffBreach | src/streamlit_app.py:53 | a row is a breach day if and only if its forecast is strictly above the capacity line at its date |
| Weekly.Group | src/streamlit_app.py:126 | a weekday group holds at most as many forecasts as the table has rows |
| Weekly.GroupHoldsWeekdayForecasts | src/streamlit_app.py:126 | a value is in a weekday's group if and only if some row on that weekday has it as forecast; the group is empty if and only if no row falls on the weekday |
| Weekly.WeeklyMeans | src/streamlit_app.py:125-130 | the weekday table has seven entries, Monday to Sunday; an entry is NaN if and only if no row falls on its weekday, and otherwise it is the mean forecast of that weekday's rows |
| Weekly.WeeklyMeansWithinGroupRange | src/streamlit_app.py:127 | every present weekday mean lies between the smallest and the largest forecast of that weekday |
| Weekly.GroupConcat | src/streamlit_app.py:126 | grouping a concatenation groups each part and concatenates the results |
| Weekly.DaysOnStep | src/streamlit_app.py:126 | adding a row adds its position to its own weekday's positions and to no other |
| Weekly.GroupSizeCountsRows | src/streamlit_app.py:126 | a weekday's group has exactly one forecast for each row dated on that weekday |
| Weekly.GroupsPartitionRows | src/streamlit_app.py:126 | the seven weekday group sizes add up to the number of rows |
| Weekly.GroupWithout | src/streamlit_app.py:126-127 | removing one row takes exactly its forecast out of its weekday's total and size |
| Weekly.WithoutOne | src/streamlit_app.py:126 | removing the row at one position removes exactly one copy of that row from the table |
| Weekly.MatchLast | src/streamlit_app.py:126 | the last row of a table occurs in every reordering of that table, and removing both leaves equal multisets |
| Weekly.GroupOrderIndependent | src/streamlit_app.py:126-127 | a weekday's total and size do not depend on the order of the rows |
| Weekly.WeeklyMeansOrderIndependent | src/streamlit_app.py:125-130 | reordering the rows leaves the weekday table unchanged |
| Weekly.GroupStep | src/streamlit_app.py:126-127 | adding one row changes only its own weekday's total and size |
| Weekly.TotalsStep | src/streamlit_app.py:126-127 | adding the next row to its weekday's running total and count keeps every per-weekday total exact |
| Weekly.TotalsGiveMeans | src/streamlit_app.py:127-128 | dividing exact per-weekday totals by counts, with NaN for a count of zero, gives the weekday table |
| Weekly.ScanEnd | src/streamlit_app.py:125-130 | running totals over the whole table give the weekday table |
| Weekly.WeeklyMeansByScan | src/streamlit_app.py:125-130 | a single pass of running totals and counts produces the weekday table |
| Dashboard.Render | src/streamlit_app.py:32-154 | a run fails exactly on an empty table; otherwise the slider is the one built from the table (int(min), int(max) + 500, int(mean)), the KPI cards are the ones computed from the table at the capacity in use, the capacity card shows the slider's value, the capacity line is drawn at that capacity on every row's date, the weekday table is the one for the whole table, the breach report is the one for that capacity, the success notice appears exactly when "Risk Days" is zero, the error count equals "Risk Days", and an untouched slider stays within its range |
| Dashboard.TwoDayColumn | src/streamlit_app.py:34-36 | on the forecasts 100 and 1200, the minimum is 100, the maximum 1200 and the mean 650 |
| Dashboard.TwoDaySlider | src/streamlit_app.py:32-37 | for the two-day table the slider runs from 100 to 1700 and starts at 650 |
| Dashboard.TwoDayBreaches | src/streamlit_app.py:53 | at capacity 1000 only the second day breaches |
| Dashboard.TwoDayReport | src/streamlit_app.py:147-154 | at capacity 1000 the report lists one day, showing its date, forecast 1200 and upper bound 1300 |
| Dashboard.TwoDayCards | src/streamlit_app.py:57-60 | at capacity 1000 the cards read 650, 1200, 1000 and 1 |
| Stats.MeanOfOne | src/streamlit_app.py:127 | the mean of a single forecast is that forecast |
| Dashboard.TwoDayGroup | src/streamlit_app.py:123-126 | the two-day table's Monday group is [100], its Tuesday group is [1200], and every other group is empty |
| Dashboard.TwoDayBar | src/streamlit_app.py:125-130 | each of the seven two-day bars: Monday 100, Tuesday 1200, and NaN elsewhere |
| Dashboard.TwoDayBars | src/streamlit_app.py:125-130 | the two-day weekday table is Monday 100, Tuesday 1200, and NaN for the other five weekdays |
| Dashboard.TwoDayScenario | src/streamlit_app.py:32-154 | the full page for the two-day table at capacity 1000 |

## Left out

- Streamlit page layout, sidebar header, metrics, dividers, captions and titles are left out. They are display calls into a library that is not part of this model; only the values handed to them are modelled.
- Altair chart construction and rendering (lines 69-109 and 132-138) are left out as presentation only. The capacity-line table they draw is modelled.
- CSV loading, path resolution, `pd.to_datetime` and `@st.cache_data` (lines 17-25) are left out. The loaded table is an input, and dates are day counts. The failures of loading are therefore not modelled: a missing `date` or `forecast_visits` column raises KeyError (lines 22 and 34), and `pd.to_datetime` raises on a date it cannot parse (line 22). A missing `upper_ci` column raises KeyError only at line 152, and only when some day breaches, so such a page works at a high capacity and fails at a low one; every modelled `Row` has an `upperCi`.
- The English day-name string of `dt.day_name()` is replaced by a day-count formula that yields the same weekday.
- Floating-point arithmetic is not modelled. Forecasts are exact reals, so pandas' rounding in `sum`/`mean` is ignored.
- NaN values inside the `forecast_visits` column are not modelled. Neither is pandas' skipping of them during reductions. Every forecast is a number.
- Rows without a date are not modelled: every `Row.day` is an integer. An empty `date` cell becomes `NaT` at line 22 without raising. Such a row still counts in the breach filter, the cards and the capacity line. Its `day_name()` is NaN, and `groupby('weekday')` at line 126 leaves it out of every weekday group, so there the seven group sizes add up to fewer than the rows. `Weekly.GroupsPartitionRows` and `Weekly.GroupSizeCountsRows` hold only for tables whose rows all have a date.
- The slider widget's own clamping of the user's choice to its range is not modelled. `Dashboard.SliderInput.Moved` may carry any integer, and the page's values are correct for every capacity.
- The SARIMA model that produced the forecast file is not part of this model.
- Stats.SeriesMean: the contract says only when the mean is NaN. The bounds min <= mean <= max are stated separately, in `Stats.MeanBetweenExtremes` and `Weekly.WeeklyMeansWithinGroupRange`.
- Breach.Breaches: the contract gives the length bound and strictness. Membership and order are stated separately, in `Breach.BreachesAreExactlyExceeding` and `Breach.BreachesAtPositions`.
- Weekly.Group: the contract gives only the length bound. Contents are stated separately, in `Weekly.GroupHoldsWeekdayForecasts`.
