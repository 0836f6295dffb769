# covid_tracker in Dafny

A model of `covid_tracker.py`, a script that compares the COVID-19 outbreaks of
the US states. It reads two tables:

- the US Census state population estimates, which `generate_pop_dict` turns
  into a registry from postal code to population;
- the Covid Tracking Project's daily per-state counts, whose `YYYYMMDD`
  integer dates `prep_covid_data` decodes with `date_convert`.

The class `State_Data_Generator` runs `data_calc` over every registry state:

- it selects the state's rows and sorts them by date;
- it records the state's outbreak onset (the first date with at least 100
  cumulative positives) and the days since it;
- it records the test rate per million and the trailing four-sample growth,
  positivity and death metrics;
- it writes the state's cumulative positives from its onset on into a
  growth-curve table of days 1..100.

The table is finished by dropping empty rows and marking holes.
`generate_dot_plot` builds a snapshot table: for each state, its days since
the onset and the last entry of two chosen series. Each marker takes a colour
and a size from the days since the onset.

Modules, one per file:

- `Wrappers` (`wrappers.dfy`): Option and Result.
- `Dates` (`dates.dfy`): Python's `datetime.date`. This covers validity,
  chronological order, `toordinal` and day differences.
- `DateDecoding` (`date_decoding.dfy`): `date_convert`, as decimal printing,
  Python slicing and `int()`.
- `Population` (`population.dfy`): `generate_pop_dict`, with the registry
  as an insertion-ordered dictionary.
- `Observations` (`observations.dfy`): the observation rows,
  `prep_covid_data`, and the per-state filter and date sort.
- `Metrics` (`metrics.dfy`): onset, days since onset, test rate, and the
  rolling window metrics.
- `Curves` (`curves.dfy`): the growth-curve table. This covers the column
  writes of `growth_curve_calc` and the finishing step
  `dropna(how='all').fillna('')`.
- `Tracker` (`tracker.dfy`): the class `StateDataGenerator`. Its fields are
  the result dictionaries and the curve table, and its methods change them
  in place. The file also holds the `data_calc` loop, proved against a fold
  over the registry (`Steps`), and the snapshot table and urgency rule of
  `generate_dot_plot`.

Numbers are exact: pandas' floating point becomes `real`. A cell that pandas
would hold as NaN or an infinity becomes an absent value: `None` in a metric
series and `Undefined` in a curve cell.

## Model

| member | source | states |
|---|---|---|
| `Dates.DaysInMonth` | covid_tracker.py:31 | A month has 28 to 31 days; February has 29 exactly in a leap year. This is the day bound `date()` checks. |
| `Dates.Earlier` | covid_tracker.py:58 | The minimum of two dates is one of them and is not after either. |
| `Dates.OrdinalOrder` | covid_tracker.py:60 | The day ordinal orders dates chronologically, and two dates have the same ordinal only when they are equal. So date subtraction and date comparison agree. |
| `Dates.DaysBetween` | covid_tracker.py:60 | No contract of its own; `OrdinalOrder` and `DaysBetweenSign` state what the difference of ordinals means. |
| `Dates.DaysBetweenSign` | covid_tracker.py:60 | `(later - earlier).days` is non-negative exactly when `earlier` is not after `later`. It is zero exactly for the same date. |
| `DateDecoding.DigitChar` | covid_tracker.py:28 | A digit value prints as a digit character that reads back as the same value. |
| `DateDecoding.DecimalString` | covid_tracker.py:28 | `str(n)` is a non-empty string of digits. |
| `DateDecoding.ParseInt` | covid_tracker.py:28-30 | `int()` of a piece succeeds exactly when the piece is non-empty and all digits. Its value is then a natural number below 10^(length of the piece). |
| `DateDecoding.Slice` | covid_tracker.py:28-30 | Python slicing clamps both ends to the length: `s[i:j]` has min(j, len) - min(i, len) characters. |
| `DateDecoding.SliceAt` | covid_tracker.py:28-30 | Character k of `s[i:j]` is character i + k of s. |
| `DateDecoding.DecimalStringValue` | covid_tracker.py:28 | Reading back the decimal text of n gives n. |
| `DateDecoding.ParseIntDecimal` | covid_tracker.py:28-30 | `int(str(n)) == n` for every non-negative n. |
| `DateDecoding.DecimalStringLength` | covid_tracker.py:28-30 | A k-digit number prints as exactly k characters. |
| `DateDecoding.DigitsConcat` | covid_tracker.py:28-30 | The value of two digit strings joined is the left value shifted by the right length, plus the right value. |
| `DateDecoding.DigitsBound` | covid_tracker.py:28-30 | k digits spell a number below 10^k. |
| `DateDecoding.EightDigitFields` | covid_tracker.py:28-30 | For an eight-digit integer, the three pieces read as n / 10000, (n / 100) % 100 and n % 100. |
| `DateDecoding.DateConvert` | covid_tracker.py:27-31 | No contract of its own; `DateConvertEightDigits` and `DateConvertEncode` below state what it returns. |
| `DateDecoding.DateConvertEightDigits` | covid_tracker.py:27-31 | `date_convert` of an eight-digit integer is the date with those fields when that date is valid, and an error otherwise. A decoded date re-encodes to n. |
| `DateDecoding.DateConvertEncode` | covid_tracker.py:27-31 | Encoding a date with a four-digit year as `YYYYMMDD` and decoding it gives the date back. |
| `Population.PopDict.Insert` | covid_tracker.py:24 | A dictionary store keeps the keys distinct. A new key goes last, and an existing key keeps its place and takes the new value. |
| `Population.FirstUnknown` | covid_tracker.py:23 | Finds the first row whose id the code table cannot key, or reports that every row can be keyed. |
| `Population.BuildPopDict` | covid_tracker.py:22-24 | The re-keyed `to_dict` is a well-formed dictionary. |
| `Population.BuildPopDictAt` | covid_tracker.py:22-24 | A code is in the dictionary exactly when some non-aggregate row maps to it. Its value is the population of the last such row, because later rows overwrite earlier ones. |
| `Population.BuildPopDictKeeps` | covid_tracker.py:22-24 | A last row for another code, or an aggregate last row, leaves a code's entry as it was. |
| `Population.GeneratePopDict` | covid_tracker.py:13-24 | Fails exactly when some row's id is missing from the code table, and reports the first such id. On success the dictionary is well formed, and it holds exactly the codes of the state rows with their last populations. |
| `Population.AggregateRowsExcluded` | covid_tracker.py:22 | Appending an aggregate row (id 0) to any table changes nothing: the same dictionary, or the same first unknown id. |
| `Population.CaliforniaExample` | covid_tracker.py:14-24 | The rows (0, national total) and (6, 39512223) give `{"CA": 39512223}`. |
| `Observations.PrepCovidData` | covid_tracker.py:33-36 | Succeeds exactly when every date decodes. Each row is then the input row with its date decoded, in the same order. Otherwise the error is that of the first date that does not decode. |
| `Observations.FilterState` | covid_tracker.py:106 | The selection is no longer than the table and holds only rows of the state. |
| `Observations.FilterStateSelects` | covid_tracker.py:106 | The selection holds every row of the state as often as the table does, and no other row. |
| `Observations.NoneBeforeSubset` | covid_tracker.py:107 | A lower bound on the dates of some rows bounds every sub-multiset of them. |
| `Observations.ConsSorted` | covid_tracker.py:107 | A row not after any row of a sorted sequence can go in front of it. |
| `Observations.InsertByDate` | covid_tracker.py:107 | Inserting into date-sorted rows keeps them sorted and adds exactly that row. |
| `Observations.SortByDate` | covid_tracker.py:107 | `sort_values('date')` returns date-sorted rows that are a permutation of the input. |
| `Observations.StateRows` | covid_tracker.py:106-107 | A state's series is sorted by date and holds only that state's rows. |
| `Observations.StateRowsSelects` | covid_tracker.py:106-107 | A state's series is a permutation of the table's rows of that state. |
| `Metrics.Onset` | covid_tracker.py:56-58 | There is no onset exactly when no row reaches 100 positives. Otherwise the onset is the date of such a row, and no row reaching 100 is dated earlier. |
| `Metrics.DaysSinceOnset` | covid_tracker.py:59-62 | No contract of its own; `DaysSinceOnsetSign` below states it. |
| `Metrics.DaysSinceOnsetSign` | covid_tracker.py:59-62 | With no onset the days count is 0 (the TypeError branch). Otherwise it is non-negative exactly when the onset is not after today, and 0 exactly when the onset is today. |
| `Metrics.OnsetExample` | covid_tracker.py:56-58 | Positives 50, 120, 140 over three days give the second day as the onset. |
| `Metrics.PerMillionOf` | covid_tracker.py:68 | The per-million value is defined exactly for a non-zero population. It then times the population gives count × 1000000. |
| `Metrics.TestRate` | covid_tracker.py:67-69 | One entry per row, dated like the row, defined exactly for a non-zero population, with value × population = tests × 1000000. |
| `Metrics.TestRateExample` | covid_tracker.py:68 | 5000 tests in a population of one million give 5000 per million. |
| `Metrics.MaxOf` | covid_tracker.py:73-74 | The rolling maximum is an element of the window and bounds every element. |
| `Metrics.MinOf` | covid_tracker.py:73-74 | The rolling minimum is an element of the window and is bounded by every element. |
| `Metrics.GrowthBase` | covid_tracker.py:74 | `(max - min) / min + 1` is defined exactly when the minimum is not 0, and it equals max / min. |
| `Metrics.RatioShift` | covid_tracker.py:74 | `(a - b) / b + 1 = a / b`. |
| `Metrics.QuotientIsRatio` | covid_tracker.py:81 | A quotient times its divisor gives back the dividend. |
| `Metrics.PositivityOf` | covid_tracker.py:81 | The positivity of a window is defined exactly when the tests' range is not 0. It then times the tests' range gives the positives' range. |
| `Metrics.RollingGrowthBase` | covid_tracker.py:72-75 | The growth (and death) series has one entry per row, dated like the row, and is absent for the first three rows (`min_periods=4`). |
| `Metrics.PositiveRate` | covid_tracker.py:78-82 | The positivity series has one entry per row, dated like the row, and is absent for the first three rows. |
| `Metrics.GrowthRate` | covid_tracker.py:72-75 | No contract of its own: the growth series is `RollingGrowthBase` of the positive column, stated by `RollingGrowthBase`, `RollingGrowthBaseAt` and `GrowthBaseOfCumulative`. |
| `Metrics.DeathRate` | covid_tracker.py:85-88 | No contract of its own: the death series is `RollingGrowthBase` of the death column, stated by `RollingGrowthBase`, `RollingGrowthBaseAt` and `RollingLocal`. |
| `Metrics.RollingGrowthBaseAt` | covid_tracker.py:72-75 | From row 3 on, an entry is defined exactly when the window minimum is not 0, and it is then max / min of the window. |
| `Metrics.PositiveRateAt` | covid_tracker.py:78-82 | From row 3 on, an entry is defined exactly when the window's tests moved. It then times the tests' range gives the positives' range. |
| `Metrics.RollingLocal` | covid_tracker.py:72-88 | A window entry depends only on rows i-3 .. i: two row sequences that agree there agree on the growth, death and positivity entries. |
| `Metrics.MonotoneWindow` | covid_tracker.py:73-74 | In a non-decreasing window the first sample is the minimum and the last is the maximum. |
| `Metrics.GrowthBaseOfCumulative` | covid_tracker.py:72-75 | For a counter that only grows, the growth base at row i is count(i) / count(i-3), and at least 1. |
| `Metrics.PositivityOfMonotone` | covid_tracker.py:81 | Over non-decreasing windows whose tests rose, positivity is defined and times the rise in tests (first sample to last) gives the rise in positives. |
| `Metrics.PositivityOfCumulative` | covid_tracker.py:78-82 | For counts that only grow, positivity at row i is defined when tests were added over the last three rows, and it times the tests added gives the positives added. |
| `Metrics.GrowthExample` | covid_tracker.py:72-75 | Positives 100, 110, 121, 133 give a growth base of 133/100 at the fourth row. |
| `Curves.EmptyTable` | covid_tracker.py:53 | The new table has a column per registry code and rows for days 1..100, and every cell is a hole. |
| `Curves.PostOnset` | covid_tracker.py:96 | `df[df['date'] >= start_date]` keeps exactly the rows dated on or after the onset, each as often as the input holds it. |
| `Curves.PostOnsetSorted` | covid_tracker.py:96 | Filtering date-sorted rows leaves them date-sorted. |
| `Curves.SortByDateSorted` | covid_tracker.py:96 | Sorting rows already in date order changes nothing. |
| `Curves.Adjusted` | covid_tracker.py:99-100 | The per-million count is a hole exactly for a zero population. Otherwise it times the population gives count × 1000000. |
| `Curves.CurveRows` | covid_tracker.py:96 | The curve's rows are sorted by date, none is before the onset, and they are exactly the post-onset rows. |
| `Curves.CurveCells` | covid_tracker.py:95-100 | A curve has one cell per post-onset row. |
| `Curves.SetColumn` | covid_tracker.py:101 | Assigning a column adds it last when it is new. The rows, their days and the other columns are unchanged, every row's cell is the aligned entry, and the table's shape is kept. |
| `Curves.CurveDay` | covid_tracker.py:95-101 | Day k of a fresh curve holds the k-th post-onset row's positives (per million when adjusting). Days past the last such row are holes, and rows after the 100th never reach the table. |
| `Curves.FirstCurveRow` | covid_tracker.py:95-98 | With one row per date, the curve's first row is the onset row and has at least 100 positives. |
| `Curves.CurveRowsHead` | covid_tracker.py:96 | A row on or after the onset makes the curve non-empty. The curve's first row is then a row of the state not dated after it. |
| `Curves.SameDateSameRow` | covid_tracker.py:96 | With one row per date, two rows sharing a date are the same row. |
| `Curves.FirstDayAtLeastThreshold` | covid_tracker.py:95-101 | With one row per date, an unadjusted curve starts at a value of at least 100. |
| `Curves.CurveOfSortedRows` | covid_tracker.py:96-98 | For date-sorted rows, day k of the curve holds the k-th post-onset row in its own order. |
| `Curves.Mark` | covid_tracker.py:114 | `fillna('')` turns a hole into the marker, which is not the number 0, and keeps every other cell. |
| `Curves.DropEmptyRows` | covid_tracker.py:114 | No hole survives, and no row is added. |
| `Curves.DropEmptyRowsSound` | covid_tracker.py:114 | Every surviving row is a marked input row that had a value. |
| `Curves.DropEmptyRowsComplete` | covid_tracker.py:114 | Every input row with a value survives, marked. |
| `Curves.DropEmptyRowsAbove` | covid_tracker.py:114 | Dropping rows keeps a lower bound on the days. |
| `Curves.DropEmptyRowsOrder` | covid_tracker.py:114 | Dropping rows keeps the surviving days in increasing order. |
| `Curves.Finalize` | covid_tracker.py:114 | The finished table keeps its columns and has no hole left. |
| `Curves.FinalizeShape` | covid_tracker.py:114 | The finished table still has one cell per column in each row and only days 1..100. |
| `Curves.FinalizeKeepsDay` | covid_tracker.py:114 | A day survives exactly when its row had a value, and the surviving days stay in order. |
| `Curves.CurvesAfter` | covid_tracker.py:105-113 | The per-state curve writes keep the table's rows and their days. |
| `Curves.CurvesAfterColumn` | covid_tracker.py:105-113 | After the loop, a processed state with an onset has its curve in its column on the day index. Every other column is unchanged. |
| `Curves.CurvesAfterShaped` | covid_tracker.py:105-113 | The curve writes keep the columns and the table's shape when each processed state already has a column. |
| `Tracker.Urgency` | covid_tracker.py:140-149 | Each colour holds exactly on its bucket of days since the onset: 21 or more, 14..20, 7..13, 1..6, below 1. |
| `Tracker.UrgencyMonotone` | covid_tracker.py:140-149 | More days since the onset never give a less urgent colour. |
| `Tracker.MarkerSize` | covid_tracker.py:150 | `days ** 2` is non-negative, zero only for day 0, and at least the days from day 1 on. |
| `Tracker.FirstFailing` | covid_tracker.py:124-126 | Finds the first state a column lookup fails on, or reports that none fails. |
| `Tracker.Snapshot` | covid_tracker.py:122-150 | Succeeds exactly when every listed state has days and two non-empty series. Each row then holds the state, its days, the two last entries, its urgency colour and the squared days as size. Otherwise the error is the first failure in column order: days, then x, then y. |
| `Tracker.StepsSnoc` | covid_tracker.py:105-113 | The passes over one more state are one more pass. |
| `Tracker.StepsListed` | covid_tracker.py:105-113 | After the loop, each dictionary maps every listed state to that state's value. |
| `Tracker.StepsUnlisted` | covid_tracker.py:105-113 | The loop keeps every entry of a state it does not list. |
| `Tracker.SnapshotAfterSteps` | covid_tracker.py:104-126 | After the loop, the test-rate/positivity snapshot over the listed states succeeds exactly when each state's two series are non-empty. It colours each state by its recorded days. |
| `Tracker.Steps` | covid_tracker.py:105-113 | No contract of its own: the fold of one pass per state, stated by `StepsSnoc`, `StepsListed`, `StepsUnlisted` and `StepsCurves`. |
| `Tracker.StepsCurves` | covid_tracker.py:105-113 | The curve table after the loop is the curve fold over the same states. |
| `Tracker.StateDataGenerator.constructor` | covid_tracker.py:43-53 | The generator keeps its inputs, starts with empty dictionaries, and starts with a hole-filled curve table over the registry codes. |
| `Tracker.StateDataGenerator.OutbreakDate` | covid_tracker.py:56-64 | Records the state's onset and days since it. No other entry changes. |
| `Tracker.StateDataGenerator.TestRate` | covid_tracker.py:67-69 | Records the state's test-rate series. No other entry changes. |
| `Tracker.StateDataGenerator.GrowthRate` | covid_tracker.py:72-75 | Records the state's growth series. No other entry changes. |
| `Tracker.StateDataGenerator.PositiveRate` | covid_tracker.py:78-82 | Records the state's positivity series. No other entry changes. |
| `Tracker.StateDataGenerator.DeathRate` | covid_tracker.py:85-88 | Records the state's death series. No other entry changes. |
| `Tracker.StateDataGenerator.GrowthCurveCalc` | covid_tracker.py:91-101 | Writes the state's curve from its recorded onset when there is one. Otherwise the table is unchanged. |
| `Tracker.StateDataGenerator.ValuesOf` | covid_tracker.py:106-113 | No contract of its own: what one pass computes for a state; `CalcState` proves the source's six calls produce it and `DataCalcEntries`/`DataCalcCurves` state it per dictionary. |
| `Tracker.StateDataGenerator.CalcState` | covid_tracker.py:106-113 | One pass of the loop body is one `Step` with the state's values. |
| `Tracker.StateDataGenerator.DataCalc` | covid_tracker.py:104-114 | The result dictionaries and table become the finished fold of one pass per registry state, in registry order. |
| `Tracker.StateDataGenerator.DataCalcEntries` | covid_tracker.py:104-114 | After `data_calc`, every registry state has, in every dictionary, the metric of its own rows sorted by date. |
| `Tracker.StateDataGenerator.DataCalcKeeps` | covid_tracker.py:104-114 | `data_calc` leaves the entries of a state outside the registry as they were. |
| `Tracker.StateDataGenerator.DataCalcCurves` | covid_tracker.py:104-114 | The curve table after `data_calc` is the finished curve fold over the registry. A state has a curve exactly when it is a registry state with an onset, and the curve is that of its rows. |
| `Tracker.StateDataGenerator.GenerateDotPlot` | covid_tracker.py:117-126 | Succeeds exactly when each plotted state has days and two non-empty series. One row per plotted state, in order, with its recorded days and its urgency colour. |

## Left out

- Reading the two CSV files over the network, and the module-level script, are not modelled (covid_tracker.py:9-10, 39-40, 157-159). The functions take the tables as values.
- `date.today()` is a parameter `today` of `OutbreakDate`, `CalcState` and `DataCalc`.
- Drawing is not modelled: `print`, `sns.set`, `plt.scatter`/`text`/`title`/`show`, the axis labels and the column names `x_label`/`y_label`. The model keeps the table behind the plot, each marker's colour and size, and the order of the states.
- Floating point is exact `real` arithmetic. A NaN or an infinity from a zero divisor is an absent value.
- Metrics.RollingGrowthBase: stores the quantity under the cube root, `(max - min) / min + 1`, not `** (1/3) - 1` (covid_tracker.py:74, 87). The root is a monotone map with no exact `real` form. A negative base, which NumPy's power turns into NaN, stays a ratio here.
- NaN in the input counts is not modelled: the counts are integers.
- The observation table has only the columns the model reads: state, date, positive, death and total. The `[['date','positive','death','total']]` projection (covid_tracker.py:107) therefore changes nothing and is left out.
- Observations.SortByDate: places a row ahead of the rows with the same date. pandas' default sort is not stable, so the order among rows of one date may differ. The per-row series depend on it only where a state has two rows for one date.
- Metrics.Onset: returns None where the source stores the NaN of an empty `min()`. growth_curve_calc tests the stored onset with `== 0`, which never holds for NaN. It then selects no rows and assigns an all-hole column over a column that is already all holes. The model's "no onset, no change" has the same effect.
- The curve table's columns are a plain list of codes, not the one-level MultiIndex that `columns=[list(...)]` builds (covid_tracker.py:53).
- Tracker.StateDataGenerator.TestRate: requires the state to be in the registry. The source raises KeyError otherwise, and `data_calc` only passes registry states.
- Tracker.StateDataGenerator.GrowthCurveCalc: requires an onset recorded for the state, and a registry entry when adjusting. The source raises KeyError otherwise, and `data_calc` records the onset first and passes only registry states.
- DateDecoding.DateConvert: treats a negative integer as an error up front. Its text starts with '-', so in the source `int()` or `date()` raises (ValueError): `int('')` fails when the text is too short for a later piece (`str(-1)[4:6]` is `''`), and a year piece such as `-123` fails in `date()`.
- Observations.PrepCovidData: the whole conversion fails on the first date that does not decode, as `date_convert` raises inside the dictionary comprehension (covid_tracker.py:35). The model does not continue past bad rows.
- Tracker.Snapshot: takes the last entry of each series (`iloc[-1]`), absent or not, as the code does. It does not take the last defined value.
