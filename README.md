# Burnout-risk pipeline, modelled in Dafny

The AI-Powered Life Event Predictor reads a table of daily wellness records. Each record has:

- a date;
- steps;
- hours of sleep;
- resting heart rate;
- calories in and calories out;
- mood and stress, each on a 1–5 scale.

The pipeline:

1. cleans the daily table and adds derived features (`clean_and_features`);
2. folds the days into Monday-to-Sunday weeks, each with a burnout label (`make_weekly_labels`);
3. scores the latest week with a logistic-regression model (`predict_proba_from_daily`);
4. explains the score by the features that contribute most to the linear score (`explain_top_reasons`).

A dashboard chooses the model: the stored bundle, or a demo model fitted on the upload when the data allows. It shows the prediction, and it lists lifestyle suggestions or an "on track" message.

The project models that core:

- `wrappers.dfy`: `Option`, which stands for a missing (NaN) cell.
- `series.dfy`: the pandas column reductions the pipeline relies on. These are `mean` (missing cells skipped), `groupby(..).last` (the last known cell), `tail(k)` and `rolling(7, min_periods=1).mean()`.
- `preprocess.dfy`, covering `src/preprocess.py`:
  - Dropping undated rows and sorting by date.
  - Coercion of the seven numeric columns.
  - Linear interpolation over row position, in both directions.
  - `sleep_debt` and `calorie_balance`.
  - The five trailing 7-row means.
  - Weekly grouping with the mixed `last`/`mean` reduction.
  - The label: some day of the week with under 5 hours of sleep and stress above 3.
  - `dropna`.
- `predict.dfy`, covering `predict.py`:
  - The ranking of the contributions `coef[i] * x[i]`. This is an in-place insertion sort on an array of positions, proved equal to a reference ranking function.
  - The formatted reasons.
  - The selection of the last weekly row's feature vector.
  - The inference outcome.
- `app.dfy`, covering `app.py`:
  - The fallback-training gate: at least 6 weeks and both label values.
  - Which model and feature list are used.
  - When the prediction panel appears.
  - The three suggestion rules and the "on track" fallback.

Modelling conventions:

- **Numbers** are exact reals, so a mean is the mathematical mean.
- **Dates** are day numbers, with day 0 = 1970-01-01 (a Thursday). A week key is the Monday on or before the date, as pandas' `to_period('W').start_time` gives.
- **Raw cells.** A raw numeric cell is a number, blank, or unparseable text. The last two become missing, as `pd.to_numeric(errors='coerce')` makes them. A raw date is present or missing.
- **The classifier** is opaque. Its weights `coef_[0]` are an optional sequence, absent for an estimator without `coef_`. Fitting is a function parameter `fit`, and `predict_proba(x)[0, 1]` is a function parameter `proba`.
- **Exceptions** that end a run are outcomes:
  - Asking the weekly table for a column it lacks (a `KeyError`) is `MissingColumn` / `MissingFeature`.
  - Scoring a vector whose width differs from the weights is `ShapeMismatch` / `WidthMismatch`.

Where the project's documentation and the code disagree, the model follows the code:

- **Empty input.** The documentation says an empty table, or one without a date column, is rejected as malformed. `clean_and_features` raises no such error: a table with no dated rows yields an empty frame. Then `predict_proba_from_daily` returns `{"error": "Not enough data"}`, and the dashboard shows no prediction.
- **Ties in the date sort.** The documentation says rows with equal dates keep their input order. `sort_values('date')` uses pandas' default unstable sort. See `Preprocess.SortByDate` below.

## Model

| member | source | states |
|---|---|---|
| Series.Mean | src/preprocess.py:31 | the mean is missing exactly when every cell of the column is missing |
| Series.MeanOfKnown | src/preprocess.py:31-36 | on a non-empty column without gaps, the mean is the sum divided by the row count |
| Series.KnownTotals | src/preprocess.py:31-36 | on a column without gaps, the known-cell count and sum are the plain count and sum |
| Series.CountKnown | src/preprocess.py:31-36 | the known-cell count is at most the row count; it is 0 exactly when all cells are missing, and is the row count exactly when none is |
| Series.Last | src/preprocess.py:30-35 | the last value is missing exactly when every cell is missing; otherwise it is the value of a known cell with only missing cells after it |
| Series.LastOfKnownLast | src/preprocess.py:30-35 | when the final cell is known, it is the last value |
| Series.Tail | app.py:82-84 | `tail(k)` keeps min(k, n) cells, which are the final cells in order |
| Series.RollingMean | src/preprocess.py:17-21 | the window at row i holds min(7, i+1) rows; when they are all known, the rolling value is their arithmetic mean |
| Preprocess.DropUndated | src/preprocess.py:7-8 | every surviving entry carries the date its row parsed to |
| Preprocess.SortedHead | src/preprocess.py:8 | the head of a date-sorted sequence is no later than any other entry, and the tail stays sorted |
| Preprocess.HeadBelow | src/preprocess.py:8 | an entry no later than all entries of a sorted sequence can be put in front of it and keep it sorted |
| Preprocess.InsertByDate | src/preprocess.py:8 | inserting into a date-sorted sequence keeps it sorted, adds exactly that entry, and grows it by one |
| Preprocess.SortByDate | src/preprocess.py:8 | the result is sorted by non-decreasing date and is a permutation of its input |
| Preprocess.DropUndatedCounts | src/preprocess.py:7-8 | each row with a parsed date appears as often as in the input; rows without a date do not appear |
| Preprocess.CleanedRows | src/preprocess.py:6-8 | the cleaned rows are exactly the dated input rows, duplicates included, in non-decreasing date order |
| Preprocess.PrevKnown | src/preprocess.py:13 | finds the nearest known cell above a row, or reports that there is none |
| Preprocess.NextKnown | src/preprocess.py:13 | finds the nearest known cell below a row, or reports that there is none |
| Preprocess.Interpolate | src/preprocess.py:13 | interpolation keeps the length and leaves every known cell unchanged |
| Preprocess.InterpolateInterior | src/preprocess.py:13 | a gap between two known cells gets the value on the straight line between them, by row position |
| Preprocess.InterpolateLeading | src/preprocess.py:13 | cells before the first known cell take its value |
| Preprocess.InterpolateTrailing | src/preprocess.py:13 | cells after the last known cell take its value |
| Preprocess.InterpolateNoGaps | src/preprocess.py:13 | a column with one known cell has no gap afterwards; a column with none stays entirely missing |
| Preprocess.Minus | src/preprocess.py:16 | the difference of two columns keeps their length |
| Preprocess.ShortOf | src/preprocess.py:15 | the shortfall from a constant keeps the column's length |
| Preprocess.CleanAndFeatures | src/preprocess.py:5-22 | the column-by-column loop produces exactly the daily frame `DailyFeatures`, which the lemmas below characterise |
| Preprocess.DailyRows | src/preprocess.py:8 | one output row per cleaned entry, with that entry's date; dates never decrease |
| Preprocess.DailyColumn | src/preprocess.py:10-13 | each base column is the interpolation of the coerced raw column |
| Preprocess.DailyBalanceColumn | src/preprocess.py:16 | `calorie_balance` is the row-wise difference of the interpolated calorie columns |
| Preprocess.DailyKeepsKnown | src/preprocess.py:12-13 | a value that parsed reaches the output unchanged |
| Preprocess.DailyNoGaps | src/preprocess.py:13 | a base column with at least one parsed value has no missing cell in the output |
| Preprocess.DailyComposites | src/preprocess.py:15-16 | `sleep_debt + sleep_hours == 8` and `calorie_balance == calories_in - calories_out`; each is present exactly when its operands are |
| Preprocess.DailyRolling | src/preprocess.py:17-21 | each `avg_*_7d` value is the trailing 7-row mean of its source column in the output |
| Preprocess.RollingKnown | src/preprocess.py:17-21 | on a column without gaps, every rolling value is present |
| Preprocess.DailyDerived | src/preprocess.py:15-21 | the composite and rolling columns of the output are derived from its base columns as the source derives them |
| Preprocess.BaseKnownRows | src/preprocess.py:10-13 | when the seven base columns have no gaps, every row has all seven base values |
| Preprocess.ColumnKnown | src/preprocess.py:16 | when every base value is present, each base column and the calorie balance have no gaps |
| Preprocess.DayCompleteAt | src/preprocess.py:15-21 | a derived frame with all base values present has no missing cell in row i |
| Preprocess.DailyComplete | src/preprocess.py:10-21 | when each numeric column has one parsed value, no output cell is missing |
| Preprocess.WeekKeyIsWeekStart | src/preprocess.py:26 | the week key is a Monday, on or before the date and less than seven days before it |
| Preprocess.WeekKeyUnique | src/preprocess.py:26 | a Monday is a date's key exactly when the date lies in the seven days it starts |
| Preprocess.SameWeek | src/preprocess.py:26-27 | two dates share a key exactly when they fall in the same Monday-to-Sunday week |
| Preprocess.WeekKeyMonotone | src/preprocess.py:26-27 | later dates never get earlier week keys |
| Preprocess.InsertKey | src/preprocess.py:27 | inserting a key keeps the keys strictly ascending and adds exactly that key |
| Preprocess.GroupKeys | src/preprocess.py:26-27 | the group keys are strictly ascending, and a key appears exactly when some daily row falls in that week |
| Preprocess.Group | src/preprocess.py:27 | a week's group holds exactly the daily rows whose key is that week |
| Preprocess.GroupCounts | src/preprocess.py:27-36 | a week's group holds each daily row of that week exactly as often as the daily frame does, and no other row |
| Preprocess.GroupAppend | src/preprocess.py:27 | grouping keeps frame order: the group of a concatenation is the concatenation of the groups |
| Preprocess.GroupLast | src/preprocess.py:27-35 | the last row of a non-empty group is the last daily row of that week in the frame, the row `last` reads |
| Preprocess.BurnoutLabel | src/preprocess.py:28 | the label is 0 or 1; it is 1 exactly when some day of the group has under 5 hours of sleep and stress above 3 |
| Preprocess.Complete | src/preprocess.py:39 | a reduced row becomes a weekly row exactly when none of its seven features is missing; week and label are kept |
| Preprocess.DropIncomplete | src/preprocess.py:39 | the rows kept by `dropna` are exactly the complete reduced rows, and there are no more of them than rows |
| Preprocess.MakeWeeklyLabels | src/preprocess.py:24-39 | an empty daily frame gives an empty weekly table |
| Preprocess.AggregateWeeks | src/preprocess.py:27-38 | the reduced rows carry the group keys in ascending order, one per key |
| Preprocess.DropKeepsAscending | src/preprocess.py:39 | dropping rows keeps weeks strictly ascending |
| Preprocess.DropNothing | src/preprocess.py:39 | when every reduced row is complete, `dropna` keeps every row |
| Preprocess.WeeklyAscending | src/preprocess.py:27-39 | weekly rows are in strictly ascending week order |
| Preprocess.WeeklyKeys | src/preprocess.py:26-27 | each weekly row's key is a Monday, and the week of some daily row |
| Preprocess.WeeklyRow | src/preprocess.py:27-39 | each weekly row is the complete reduction of its own week's daily rows |
| Preprocess.WeeklyPresence | src/preprocess.py:27-39 | a week appears exactly when some day falls in it and its reduction has no missing value |
| Preprocess.WeeklyLabel | src/preprocess.py:28-38 | a weekly label is 0 or 1; it is 1 exactly when a day of that week had under 5 hours of sleep together with stress above 3 |
| Preprocess.LastOfGroup | src/preprocess.py:30-35 | `last` of a group column is the group's final value when that value is present |
| Preprocess.WeeklyGroup | src/preprocess.py:27-39 | a weekly row's group of days is non-empty |
| Preprocess.WeeklyLast | src/preprocess.py:30-35 | the five rolling features of a week are those of its last day, when present there |
| Preprocess.ReducedLast | src/preprocess.py:30-35 | in a complete reduction, the rolling features equal those of the group's last day |
| Preprocess.WeeklyMean | src/preprocess.py:31-36 | a week's `sleep_debt` and `resting_hr` are the means over its days |
| Preprocess.ReduceComplete | src/preprocess.py:29-39 | a non-empty group of complete days reduces to a complete row |
| Preprocess.WeeklyNoDrops | src/preprocess.py:39 | with complete daily rows, there is one weekly row per distinct week |
| Preprocess.PipelineNoDrops | src/preprocess.py:5-39 | when every numeric column has a parsed value, no week is dropped, and the weekly table is empty exactly when no row has a date |
| Predict.Range | predict.py:12 | the positions lo..hi-1, with matching length and membership |
| Predict.Insert | predict.py:13 | inserting a position into a strictly ranked sequence keeps it strictly ranked and adds exactly that position |
| Predict.RanksFirst | predict.py:13 | the head of a strictly ranked sequence ranks before every later element, and the tail stays strictly ranked |
| Predict.PutFirst | predict.py:13 | a position that ranks before every element of a strictly ranked sequence can be put in front of it |
| Predict.RankFrom | predict.py:13 | the positions k..n-1 in strict ranked order, as a permutation |
| Predict.Ranking | predict.py:13 | the ranking holds every position 0..n-1 once, in strictly ranked order: larger magnitude first, ties in declared order |
| Predict.RankedTotal | predict.py:13 | two positions are always comparable in the ranking order |
| Predict.RankedTransitive | predict.py:13 | the ranking order is transitive |
| Predict.RankedAntisymmetric | predict.py:13 | positions that rank at most each other are equal |
| Predict.FirstRanksFirst | predict.py:13 | the head of a sorted arrangement ranks at most every element |
| Predict.SortedTail | predict.py:13 | the tail of a sorted arrangement is sorted |
| Predict.SameHead | predict.py:13 | two sorted arrangements of the same positions start alike |
| Predict.SameTailElements | predict.py:13 | removing equal heads leaves equal multisets |
| Predict.SortedUnique | predict.py:13 | two sorted arrangements of the same positions are identical, so the order is fully determined |
| Predict.SortByMagnitude | predict.py:13 | the in-place sort leaves the position array sorted by descending magnitude, and a permutation of its old contents |
| Predict.SinkInto | predict.py:13 | one insertion step extends the sorted prefix by one element, permutes the array, and leaves every cell after i unchanged |
| Predict.SwapDown | predict.py:13 | exchanges two adjacent cells, leaves every other cell unchanged, and permutes the array |
| Predict.RankingSorted | predict.py:13 | the reference ranking is a sorted permutation of 0..n-1 |
| Predict.RangeAt | predict.py:12 | element p of the range lo..hi-1 is lo+p |
| Predict.RankingOrder | predict.py:13 | earlier ranks never have smaller magnitude; equal magnitudes appear in declared order |
| Predict.RankingTop | predict.py:13-14 | the first k ranked positions have the k largest magnitudes: no left-out position is larger than a chosen one |
| Predict.RankingDistinct | predict.py:13-14 | no position is ranked twice |
| Predict.Direction | predict.py:14 | 'high' exactly when the contribution is positive, otherwise 'low' |
| Predict.TopReasons | predict.py:14 | `pairs[:top_k]` gives min(top_k, n) reasons |
| Predict.ExplainTopReasons | predict.py:8-14 | the array-sorting method returns exactly the reference explanation |
| Predict.ExplanationLength | predict.py:9-14 | no reasons without `coef_`; otherwise min(top_k, len(names), len(x)) reasons, because `zip` truncates |
| Predict.ExplanationEntry | predict.py:11-14 | reason r names the feature of the r-th ranked contribution `coef[i] * x[i]`, followed by its direction |
| Predict.WeeklyColumn | predict.py:23 | a name resolves to a weekly column exactly when it is one of the seven features or `burnout_label` |
| Predict.Select | predict.py:23 | selection succeeds exactly when every name is a column; it yields those cells in the order of the names |
| Predict.SelectFeatureCols | app.py:41-43 | the seven training features are always selectable, and give the week's seven values in declared order |
| Predict.PredictProbaFromDaily | predict.py:16-26 | an empty weekly table gives exactly the error "Not enough data"; otherwise it reports a missing column, a width mismatch, or the positive-class probability of the last week with its top-3 explanation |
| App.TrainingGate | app.py:44 | with binary labels, the gate holds exactly when there are ≥ 6 weeks with at least one label 0 and one label 1 |
| App.SubsetSize | app.py:44 | a subset is no larger than its superset |
| App.WeeklyTrainingGate | app.py:44 | on the weekly table, the gate holds exactly when there are ≥ 6 weeks, at least one at risk and at least one not |
| App.Suggest | app.py:79-85 | each suggestion is listed exactly when its condition holds: risk > 0.7, mean calorie balance of the last 7 days < -500, mean stress of the last 7 days > 3; each appears at most once, in fixed order |
| App.NoticesOnTrack | app.py:87-91 | the closing messages show "on track", alone, exactly when no suggestion is listed; otherwise there is one bulleted line per suggestion |
| App.AdviceUnique | app.py:79-91 | the advice is fully determined, and it is empty ("on track") exactly when none of the three conditions holds |
| App.ListsShape | app.py:79-85 | a list meeting the advice conditions is exactly the conditional concatenation of the three suggestions |
| App.PositionLower | app.py:79-85 | in a strictly ordered list, element p has position at least p |
| App.PositionUpper | app.py:79-85 | in a strictly ordered list, the elements after p fit among the positions above its own |
| App.ChooseModel | app.py:33-49 | the model is the stored one; else, when the gate holds, one fitted on the weekly table; else none, with a training failure reported exactly then. The features are the stored ones or the seven defaults |
| App.ShowPanel | app.py:52-91 | the panel is hidden exactly when there is no model or no week, and never lacks a feature under the default feature list. Otherwise it reports a missing feature, a width mismatch, or the last week's probability, explanation, advice and closing messages. "On track" is among those messages exactly when there is no suggestion |
| App.Run | app.py:26-91 | the run shows a preview of the last 5 weeks and uses the stored bundle or, failing the gate, reports a training failure. The panel is hidden exactly when there is no model or no week. A fallback model never lacks a feature. Otherwise the panel shows the probability, the explanation, the unique advice and its closing messages, with "on track" exactly when no suggestion applies |

## Left out

- Reading the uploaded or sample CSV, the file uploader and the page layout: the daily table is the parameter `raw`.
- Loading `model.pkl` with joblib: the bundle is the parameter `stored`, present exactly when the file exists.
- Rendering is not modelled; these are display side effects that carry no logic beyond what the model states:
  - every `st.*` call;
  - the Altair chart of the last 14 days (app.py:66-75);
  - the CSV download (app.py:94-99);
  - the progress bar and percentage.
- Fitting `LogisticRegression` and computing `predict_proba` are numerical library code. They are the opaque parameters `fit` and `proba`; nothing is claimed about the probability's value.
- train.py is not part of this model.
- Text-to-number and text-to-date parsing (`pd.to_numeric`, `pd.to_datetime`):
  - Raw cells arrive already classified as number, blank or junk.
  - Dates arrive as day numbers or as missing.
  - Time of day is not represented.
- A table missing one of the expected columns raises a `KeyError` in the source. It cannot be represented: every raw row carries all eight fields.
- Floating point: all arithmetic is on exact reals. NaN is the `None` case of `Option`, and a comparison involving a missing value is false, as in pandas.
- Preprocess.SortByDate: states only that dates do not decrease and that the rows are a permutation of the input. Pandas' default sort (quicksort) is not stable, so the source does not fix the order of rows sharing a date. The model keeps their input order. Later steps read row order, so on inputs with repeated dates the model matches the source only when pandas also keeps input order. The affected values are: the interpolated base columns (interpolation is by row position); the `avg_*_7d` columns (the 7-row windows count rows); and the weekly `last` columns `avg_sleep_7d`, `avg_steps_7d`, `avg_stress_7d`, `avg_mood_7d` and `avg_calorie_balance_7d` (`last` reads the final row of the week).
- Predict.Select: a bundle feature named `week` (a timestamp column of the weekly table) is treated as a missing column rather than as a numeric feature.
- Predict.PredictProbaFromDaily: detects a width mismatch only for models that expose `coef_`. A model without `coef_` is scored by `proba` regardless of width. Numpy's broadcasting of a length-one weight vector is not modelled, because scoring rejects such a vector before the explanation runs.
