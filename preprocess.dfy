/**
 * Daily cleaning and feature derivation (`clean_and_features`) and weekly
 * aggregation with the burnout label (`make_weekly_labels`).
 *
 * A date is a day number: day 0 is 1970-01-01, a Thursday, so day 4 is a Monday.
 * Parsing date strings is not modelled: a row's date is already `Some(day)` or,
 * when it could not be parsed, `None`.
 */
module Preprocess {
  import opened Wrappers
  import opened Series

  /** Target night of sleep, in hours; `sleep_debt` is the shortfall from it. */
  const IdealSleep: real := 8.0

  // ---------------------------------------------------------------------------
  // Raw input
  // ---------------------------------------------------------------------------

  /** A cell of a numeric column as it comes in: a number, an empty cell, or text that
      is not a number (which `pd.to_numeric(errors='coerce')` turns into NaN). */
  datatype Cell = Number(x: real) | Blank | Junk(text: string)

  datatype RawRow = RawRow(
    date: Option<int>,
    steps: Cell, sleepHours: Cell, restingHr: Cell,
    caloriesIn: Cell, caloriesOut: Cell, mood: Cell, stress: Cell)

  /** The seven numeric columns of the input. */
  datatype Field = Steps | SleepHours | RestingHr | CaloriesIn | CaloriesOut | Mood | Stress

  /** `numeric_cols`, in the order the cleaning loop visits them. */
  const NumericCols: seq<Field> := [Steps, SleepHours, RestingHr, CaloriesIn, CaloriesOut, Mood, Stress]

  function CellOf(r: RawRow, f: Field): Cell {
    match f
    case Steps => r.steps
    case SleepHours => r.sleepHours
    case RestingHr => r.restingHr
    case CaloriesIn => r.caloriesIn
    case CaloriesOut => r.caloriesOut
    case Mood => r.mood
    case Stress => r.stress
  }

  /** `pd.to_numeric(errors='coerce')` on one cell. */
  function Coerce(c: Cell): Option<real> {
    match c
    case Number(x) => Some(x)
    case _ => None
  }

  // ---------------------------------------------------------------------------
  // Dropping rows without a date, and sorting by date
  // ---------------------------------------------------------------------------

  /** A row whose date parsed, with that date. */
  datatype Entry = Entry(date: int, row: RawRow)

  /** `dropna(subset=['date'])`. */
  function DropUndated(raw: seq<RawRow>): (es: seq<Entry>)
    ensures forall i :: 0 <= i < |es| ==> es[i].row.date == Some(es[i].date)
  {
    if raw == [] then []
    else
      (match raw[0].date
       case Some(d) => [Entry(d, raw[0])]
       case None => [])
      + DropUndated(raw[1..])
  }

  predicate DatesSorted(es: seq<Entry>) {
    forall i, j :: 0 <= i < j < |es| ==> es[i].date <= es[j].date
  }

  function InsertByDate(e: Entry, s: seq<Entry>): (r: seq<Entry>)
    requires DatesSorted(s)
    ensures |r| == |s| + 1
    ensures forall x :: x in r <==> x in s || x == e
    ensures DatesSorted(r)
    ensures multiset(r) == multiset(s) + multiset{e}
  {
    if s == [] || e.date <= s[0].date then
      HeadBelow(e, s);
      [e] + s
    else
      assert s[0].date < e.date;
      var rest := InsertByDate(e, s[1..]);
      SortedHead(s);
      HeadBelow(s[0], rest);
      assert s == [s[0]] + s[1..];
      [s[0]] + rest
  }

  /** The head of a date-sorted sequence is no later than any later entry. */
  lemma SortedHead(s: seq<Entry>)
    requires DatesSorted(s) && s != []
    ensures DatesSorted(s[1..])
    ensures forall x :: x in s[1..] ==> s[0].date <= x.date
  {
    forall x | x in s[1..] ensures s[0].date <= x.date {
      var k :| 0 <= k < |s[1..]| && s[1..][k] == x;
      assert s[k + 1] == x;
    }
  }

  /** An entry no later than every entry of a sorted sequence can go in front of it. */
  lemma HeadBelow(e: Entry, s: seq<Entry>)
    requires DatesSorted(s)
    requires forall x :: x in s ==> e.date <= x.date
    ensures DatesSorted([e] + s)
  {
    forall i, j | 0 <= i < j < |[e] + s| ensures ([e] + s)[i].date <= ([e] + s)[j].date {
      assert s[j - 1] in s;
      if i > 0 {
        assert ([e] + s)[i] == s[i - 1] && ([e] + s)[j] == s[j - 1];
      }
    }
  }

  /** `sort_values('date')`. Rows with equal dates are all kept. */
  function SortByDate(es: seq<Entry>): (r: seq<Entry>)
    ensures DatesSorted(r)
    ensures multiset(r) == multiset(es)
  {
    if es == [] then []
    else
      assert es == [es[0]] + es[1..];
      InsertByDate(es[0], SortByDate(es[1..]))
  }

  /** The rows that survive the date-parsing and sorting step of `clean_and_features`,
      in the order they have after it. */
  function Cleaned(raw: seq<RawRow>): seq<Entry> {
    SortByDate(DropUndated(raw))
  }

  /** Each row whose date parsed appears as an entry exactly as often as in the input;
      a row whose date did not parse does not appear. */
  lemma {:induction false} DropUndatedCounts(raw: seq<RawRow>)
    ensures forall e :: multiset(DropUndated(raw))[e] ==
                        (if e.row.date == Some(e.date) then multiset(raw)[e.row] else 0)
  {
    if raw != [] {
      DropUndatedCounts(raw[1..]);
      assert raw == [raw[0]] + raw[1..];
      var head := match raw[0].date case Some(d) => [Entry(d, raw[0])] case None => [];
      assert DropUndated(raw) == head + DropUndated(raw[1..]);
      forall e
        ensures multiset(DropUndated(raw))[e] ==
                (if e.row.date == Some(e.date) then multiset(raw)[e.row] else 0)
      {
        assert multiset(DropUndated(raw))[e] == multiset(head)[e] + multiset(DropUndated(raw[1..]))[e];
        assert multiset(raw)[e.row] == multiset([raw[0]])[e.row] + multiset(raw[1..])[e.row];
      }
    }
  }

  /** The cleaned rows are exactly the input rows with a parsed date, duplicates
      included, ordered by non-decreasing date. */
  lemma CleanedRows(raw: seq<RawRow>)
    ensures DatesSorted(Cleaned(raw))
    ensures forall i :: 0 <= i < |Cleaned(raw)| ==> Cleaned(raw)[i].row.date == Some(Cleaned(raw)[i].date)
    ensures forall e :: multiset(Cleaned(raw))[e] ==
                        (if e.row.date == Some(e.date) then multiset(raw)[e.row] else 0)
  {
    DropUndatedCounts(raw);
    var es := DropUndated(raw);
    forall i | 0 <= i < |Cleaned(raw)|
      ensures Cleaned(raw)[i].row.date == Some(Cleaned(raw)[i].date)
    {
      assert Cleaned(raw)[i] in multiset(es);
    }
  }

  // ---------------------------------------------------------------------------
  // Two-directional linear interpolation over row position
  // ---------------------------------------------------------------------------

  /** The nearest row above `i` whose cell is known. */
  function PrevKnown(s: Column, i: nat): (p: Option<nat>)
    requires i <= |s|
    ensures p.Some? ==> p.value < i && s[p.value].Some? && forall j :: p.value < j < i ==> s[j].None?
    ensures p.None? ==> forall j :: 0 <= j < i ==> s[j].None?
  {
    if i == 0 then None
    else if s[i - 1].Some? then Some(i - 1)
    else PrevKnown(s, i - 1)
  }

  /** The nearest row below `i` whose cell is known. */
  function NextKnown(s: Column, i: nat): (n: Option<nat>)
    requires i < |s|
    ensures n.Some? ==> i < n.value < |s| && s[n.value].Some? && forall j :: i < j < n.value ==> s[j].None?
    ensures n.None? ==> forall j :: i < j < |s| ==> s[j].None?
    decreases |s| - i
  {
    if i + 1 == |s| then None
    else if s[i + 1].Some? then Some(i + 1)
    else NextKnown(s, i + 1)
  }

  /** The straight line through `(lo, a)` and `(hi, b)`, at `x`. */
  function Lerp(a: real, b: real, lo: int, x: int, hi: int): real
    requires lo < hi
  {
    a + (b - a) * (x - lo) as real / (hi - lo) as real
  }

  /** The interpolated cell at row `i`. */
  function FillAt(s: Column, i: nat): Option<real>
    requires i < |s|
  {
    if s[i].Some? then s[i]
    else
      match (PrevKnown(s, i), NextKnown(s, i))
      case (Some(lo), Some(hi)) => Some(Lerp(s[lo].value, s[hi].value, lo, i, hi))
      case (Some(lo), None) => s[lo]
      case (None, Some(hi)) => s[hi]
      case (None, None) => None
  }

  /** `interpolate(limit_direction='both')` on one column with the default linear
      method, which spaces the rows evenly whatever their dates. */
  function Interpolate(s: Column): (r: Column)
    ensures |r| == |s|
    ensures forall i :: 0 <= i < |s| && s[i].Some? ==> r[i] == s[i]
  {
    seq(|s|, i requires 0 <= i < |s| => FillAt(s, i))
  }

  /** An interior gap is filled on the line between its known neighbours, by row index. */
  lemma InterpolateInterior(s: Column, lo: nat, i: nat, hi: nat)
    requires lo < i < hi < |s|
    requires s[lo].Some? && s[hi].Some?
    requires forall j :: lo < j < hi ==> s[j].None?
    ensures Interpolate(s)[i] == Some(Lerp(s[lo].value, s[hi].value, lo, i, hi))
  {
    assert PrevKnown(s, i) == Some(lo);
    assert NextKnown(s, i) == Some(hi);
  }

  /** A leading gap takes the first known value. */
  lemma InterpolateLeading(s: Column, i: nat, first: nat)
    requires i < first < |s| && s[first].Some?
    requires forall j :: 0 <= j < first ==> s[j].None?
    ensures Interpolate(s)[i] == s[first]
  {
    assert NextKnown(s, i) == Some(first);
  }

  /** A trailing gap takes the last known value. */
  lemma InterpolateTrailing(s: Column, last: nat, i: nat)
    requires last < i < |s| && s[last].Some?
    requires forall j :: last < j < |s| ==> s[j].None?
    ensures Interpolate(s)[i] == s[last]
  {
    assert PrevKnown(s, i) == Some(last);
  }

  /** After interpolation a column has no gap if it had one known cell, and stays
      entirely missing otherwise. */
  lemma InterpolateNoGaps(s: Column)
    ensures (exists j :: 0 <= j < |s| && s[j].Some?) ==> AllKnown(Interpolate(s))
    ensures NoneKnown(s) ==> NoneKnown(Interpolate(s))
  {
  }

  // ---------------------------------------------------------------------------
  // Daily features
  // ---------------------------------------------------------------------------

  /** One cleaned day with its derived features (a row of the returned frame). */
  datatype Day = Day(
    date: int,
    steps: Option<real>, sleepHours: Option<real>, restingHr: Option<real>,
    caloriesIn: Option<real>, caloriesOut: Option<real>, mood: Option<real>, stress: Option<real>,
    sleepDebt: Option<real>, calorieBalance: Option<real>,
    avgSleep7d: Option<real>, avgSteps7d: Option<real>, avgStress7d: Option<real>,
    avgMood7d: Option<real>, avgCalorieBalance7d: Option<real>)

  /** The numeric columns of a daily row. */
  datatype Attr =
    | Base(field: Field)
    | SleepDebt | CalorieBalance
    | AvgSleep7d | AvgSteps7d | AvgStress7d | AvgMood7d | AvgCalorieBalance7d

  function Get(d: Day, a: Attr): Option<real> {
    match a
    case Base(Steps) => d.steps
    case Base(SleepHours) => d.sleepHours
    case Base(RestingHr) => d.restingHr
    case Base(CaloriesIn) => d.caloriesIn
    case Base(CaloriesOut) => d.caloriesOut
    case Base(Mood) => d.mood
    case Base(Stress) => d.stress
    case SleepDebt => d.sleepDebt
    case CalorieBalance => d.calorieBalance
    case AvgSleep7d => d.avgSleep7d
    case AvgSteps7d => d.avgSteps7d
    case AvgStress7d => d.avgStress7d
    case AvgMood7d => d.avgMood7d
    case AvgCalorieBalance7d => d.avgCalorieBalance7d
  }

  function ColumnOf(days: seq<Day>, a: Attr): Column {
    seq(|days|, i requires 0 <= i < |days| => Get(days[i], a))
  }

  /** Every numeric column of the day is known. */
  predicate DayComplete(d: Day) {
    && d.steps.Some? && d.sleepHours.Some? && d.restingHr.Some? && d.caloriesIn.Some?
    && d.caloriesOut.Some? && d.mood.Some? && d.stress.Some?
    && d.sleepDebt.Some? && d.calorieBalance.Some?
    && d.avgSleep7d.Some? && d.avgSteps7d.Some? && d.avgStress7d.Some?
    && d.avgMood7d.Some? && d.avgCalorieBalance7d.Some?
  }

  /** Column `f` of the entries after `pd.to_numeric(errors='coerce')`. */
  function RawColumn(es: seq<Entry>, f: Field): Column {
    seq(|es|, i requires 0 <= i < |es| => Coerce(CellOf(es[i].row, f)))
  }

  /** Subtraction of two cells; NaN on either side gives NaN. */
  function Difference(a: Option<real>, b: Option<real>): Option<real> {
    if a.Some? && b.Some? then Some(a.value - b.value) else None
  }

  /** Row-by-row difference of two columns of the same length. */
  function Minus(a: Column, b: Column): (r: Column)
    requires |a| == |b|
    ensures |r| == |a|
  {
    seq(|a|, i requires 0 <= i < |a| => Difference(a[i], b[i]))
  }

  /** Row-by-row shortfall of a column from a constant target. */
  function ShortOf(target: real, a: Column): (r: Column)
    ensures |r| == |a|
  {
    seq(|a|, i requires 0 <= i < |a| => Difference(Some(target), a[i]))
  }

  /** The frame `clean_and_features` returns (coercion, interpolation, composite and
      rolling columns), built from the cleaned, sorted entries. */
  function Features(es: seq<Entry>): seq<Day> {
    var n := |es|;
    var steps := Interpolate(RawColumn(es, Steps));
    var sleep := Interpolate(RawColumn(es, SleepHours));
    var hr := Interpolate(RawColumn(es, RestingHr));
    var calIn := Interpolate(RawColumn(es, CaloriesIn));
    var calOut := Interpolate(RawColumn(es, CaloriesOut));
    var mood := Interpolate(RawColumn(es, Mood));
    var stress := Interpolate(RawColumn(es, Stress));
    var debt := ShortOf(IdealSleep, sleep);
    var balance := Minus(calIn, calOut);
    seq(n, i requires 0 <= i < n =>
      Day(es[i].date, steps[i], sleep[i], hr[i], calIn[i], calOut[i], mood[i], stress[i],
          debt[i], balance[i],
          Rolling(sleep, i), Rolling(steps, i), Rolling(stress, i), Rolling(mood, i), Rolling(balance, i)))
  }

  /** What `clean_and_features` returns for a raw table. */
  function DailyFeatures(raw: seq<RawRow>): seq<Day> {
    Features(Cleaned(raw))
  }

  /** `clean_and_features`: drop undated rows and sort, coerce the numeric columns one
      by one, interpolate them, then add the composite and rolling columns. */
  method CleanAndFeatures(raw: seq<RawRow>) returns (days: seq<Day>)
    ensures days == DailyFeatures(raw)
  {
    var es := SortByDate(DropUndated(raw));
    var n := |es|;
    var cols: seq<Column> := [];
    for k := 0 to |NumericCols|
      invariant |cols| == k
      invariant forall j :: 0 <= j < k ==> cols[j] == RawColumn(es, NumericCols[j])
    {
      cols := cols + [RawColumn(es, NumericCols[k])];
    }
    var filled := seq(|cols|, k requires 0 <= k < |cols| => Interpolate(cols[k]));
    var steps, sleep, hr := filled[0], filled[1], filled[2];
    var calIn, calOut, mood, stress := filled[3], filled[4], filled[5], filled[6];
    var debt := ShortOf(IdealSleep, sleep);
    var balance := Minus(calIn, calOut);
    days := seq(n, i requires 0 <= i < n =>
      Day(es[i].date, steps[i], sleep[i], hr[i], calIn[i], calOut[i], mood[i], stress[i],
          debt[i], balance[i],
          Rolling(sleep, i), Rolling(steps, i), Rolling(stress, i), Rolling(mood, i), Rolling(balance, i)));
  }

  /** One output row per cleaned entry, with that entry's date. */
  lemma DailyRows(raw: seq<RawRow>)
    ensures |DailyFeatures(raw)| == |Cleaned(raw)|
    ensures forall i :: 0 <= i < |Cleaned(raw)| ==> DailyFeatures(raw)[i].date == Cleaned(raw)[i].date
    ensures forall i, j :: 0 <= i < j < |DailyFeatures(raw)| ==> DailyFeatures(raw)[i].date <= DailyFeatures(raw)[j].date
  {
  }

  /** Each base column of the output is the interpolation of the coerced column. */
  lemma DailyColumn(raw: seq<RawRow>, f: Field)
    ensures ColumnOf(DailyFeatures(raw), Base(f)) == Interpolate(RawColumn(Cleaned(raw), f))
  {
    var es := Cleaned(raw);
    var days := DailyFeatures(raw);
    var col := Interpolate(RawColumn(es, f));
    forall i | 0 <= i < |days| ensures Get(days[i], Base(f)) == col[i] {
      match f
      case Steps => assert days[i].steps == col[i];
      case SleepHours => assert days[i].sleepHours == col[i];
      case RestingHr => assert days[i].restingHr == col[i];
      case CaloriesIn => assert days[i].caloriesIn == col[i];
      case CaloriesOut => assert days[i].caloriesOut == col[i];
      case Mood => assert days[i].mood == col[i];
      case Stress => assert days[i].stress == col[i];
    }
    assert |ColumnOf(days, Base(f))| == |col|;
  }

  /** The `calorie_balance` column is the difference of the two calorie columns. */
  lemma DailyBalanceColumn(raw: seq<RawRow>)
    ensures var es := Cleaned(raw);
      ColumnOf(DailyFeatures(raw), CalorieBalance) ==
        Minus(Interpolate(RawColumn(es, CaloriesIn)), Interpolate(RawColumn(es, CaloriesOut)))
  {
  }

  /** A value that coerced is kept as it is. */
  lemma DailyKeepsKnown(raw: seq<RawRow>, i: nat, f: Field)
    requires i < |Cleaned(raw)|
    requires Coerce(CellOf(Cleaned(raw)[i].row, f)).Some?
    ensures Get(DailyFeatures(raw)[i], Base(f)) == Coerce(CellOf(Cleaned(raw)[i].row, f))
  {
    DailyColumn(raw, f);
    assert Get(DailyFeatures(raw)[i], Base(f)) == ColumnOf(DailyFeatures(raw), Base(f))[i];
  }

  /** A base column with at least one value that coerced has no gap after cleaning. */
  lemma DailyNoGaps(raw: seq<RawRow>, f: Field)
    requires HasValue(Cleaned(raw), f)
    ensures AllKnown(ColumnOf(DailyFeatures(raw), Base(f)))
  {
    var es := Cleaned(raw);
    var i :| 0 <= i < |es| && Coerce(CellOf(es[i].row, f)).Some?;
    assert RawColumn(es, f)[i].Some?;
    InterpolateNoGaps(RawColumn(es, f));
    DailyColumn(raw, f);
  }

  /** `sleep_debt + sleep_hours == 8` and `calorie_balance == calories_in - calories_out`
      on every row where the operands are known; a missing operand gives a missing result. */
  lemma DailyComposites(raw: seq<RawRow>)
    ensures forall d :: d in DailyFeatures(raw) ==>
      && (d.sleepDebt.Some? <==> d.sleepHours.Some?)
      && (d.sleepHours.Some? ==> d.sleepDebt.value + d.sleepHours.value == IdealSleep)
      && (d.calorieBalance.Some? <==> d.caloriesIn.Some? && d.caloriesOut.Some?)
      && (d.calorieBalance.Some? ==> d.calorieBalance.value == d.caloriesIn.value - d.caloriesOut.value)
  {
  }

  /** The rolling columns at row `i` are the trailing-window means of their source
      columns of the output itself. */
  lemma DailyRolling(raw: seq<RawRow>, i: nat)
    requires i < |DailyFeatures(raw)|
    ensures var days := DailyFeatures(raw);
      && days[i].avgSleep7d == Rolling(ColumnOf(days, Base(SleepHours)), i)
      && days[i].avgSteps7d == Rolling(ColumnOf(days, Base(Steps)), i)
      && days[i].avgStress7d == Rolling(ColumnOf(days, Base(Stress)), i)
      && days[i].avgMood7d == Rolling(ColumnOf(days, Base(Mood)), i)
      && days[i].avgCalorieBalance7d == Rolling(ColumnOf(days, CalorieBalance), i)
  {
    DailyColumn(raw, SleepHours);
    DailyColumn(raw, Steps);
    DailyColumn(raw, Stress);
    DailyColumn(raw, Mood);
    DailyBalanceColumn(raw);
  }

  /** Some row of the entries has a value in column `f` that coerced. */
  predicate HasValue(es: seq<Entry>, f: Field) {
    exists i :: 0 <= i < |es| && Coerce(CellOf(es[i].row, f)).Some?
  }

  /** On a column without gaps every rolling value is known. */
  lemma RollingKnown(s: Column, i: nat)
    requires AllKnown(s) && i < |s|
    ensures Rolling(s, i).Some?
  {
    assert s[WindowStart(i)..i + 1][i - WindowStart(i)] == s[i];
  }

  /** The composite and rolling columns of a frame are derived from its base columns
      as the composite and rolling-average steps of `clean_and_features` derive them. */
  predicate Derived(days: seq<Day>) {
    && (forall i :: 0 <= i < |days| ==>
          && days[i].sleepDebt == Difference(Some(IdealSleep), days[i].sleepHours)
          && days[i].calorieBalance == Difference(days[i].caloriesIn, days[i].caloriesOut))
    && (forall i :: 0 <= i < |days| ==>
          && days[i].avgSleep7d == Rolling(ColumnOf(days, Base(SleepHours)), i)
          && days[i].avgSteps7d == Rolling(ColumnOf(days, Base(Steps)), i)
          && days[i].avgStress7d == Rolling(ColumnOf(days, Base(Stress)), i)
          && days[i].avgMood7d == Rolling(ColumnOf(days, Base(Mood)), i)
          && days[i].avgCalorieBalance7d == Rolling(ColumnOf(days, CalorieBalance), i))
  }

  lemma DailyDerived(raw: seq<RawRow>)
    ensures Derived(DailyFeatures(raw))
  {
    forall i | 0 <= i < |DailyFeatures(raw)| {
      DailyRolling(raw, i);
    }
  }

  /** The seven base columns of the row are known. */
  predicate BaseKnown(d: Day) {
    && d.steps.Some? && d.sleepHours.Some? && d.restingHr.Some? && d.caloriesIn.Some?
    && d.caloriesOut.Some? && d.mood.Some? && d.stress.Some?
  }

  lemma BaseKnownRows(days: seq<Day>)
    requires forall f :: AllKnown(ColumnOf(days, Base(f)))
    ensures forall j :: 0 <= j < |days| ==> BaseKnown(days[j])
  {
    forall j | 0 <= j < |days| ensures BaseKnown(days[j]) {
      assert days[j].steps == ColumnOf(days, Base(Steps))[j];
      assert days[j].sleepHours == ColumnOf(days, Base(SleepHours))[j];
      assert days[j].restingHr == ColumnOf(days, Base(RestingHr))[j];
      assert days[j].caloriesIn == ColumnOf(days, Base(CaloriesIn))[j];
      assert days[j].caloriesOut == ColumnOf(days, Base(CaloriesOut))[j];
      assert days[j].mood == ColumnOf(days, Base(Mood))[j];
      assert days[j].stress == ColumnOf(days, Base(Stress))[j];
    }
  }

  /** A column of a frame whose base columns are known everywhere has no gap. */
  lemma ColumnKnown(days: seq<Day>, a: Attr)
    requires forall j :: 0 <= j < |days| ==> BaseKnown(days[j])
    requires a.Base? || (a == CalorieBalance && Derived(days))
    ensures AllKnown(ColumnOf(days, a))
  {
  }

  /** A derived frame whose base columns are known everywhere has complete rows. */
  lemma DayCompleteAt(days: seq<Day>, i: nat)
    requires i < |days| && Derived(days)
    requires forall j :: 0 <= j < |days| ==> BaseKnown(days[j])
    ensures DayComplete(days[i])
  {
    assert BaseKnown(days[i]);
    ColumnKnown(days, Base(SleepHours));
    RollingKnown(ColumnOf(days, Base(SleepHours)), i);
    ColumnKnown(days, Base(Steps));
    RollingKnown(ColumnOf(days, Base(Steps)), i);
    ColumnKnown(days, Base(Stress));
    RollingKnown(ColumnOf(days, Base(Stress)), i);
    ColumnKnown(days, Base(Mood));
    RollingKnown(ColumnOf(days, Base(Mood)), i);
    ColumnKnown(days, CalorieBalance);
    RollingKnown(ColumnOf(days, CalorieBalance), i);
  }

  /** When every base column has a value that coerced somewhere, every output row
      is complete: no base, composite or rolling column is missing. */
  lemma DailyComplete(raw: seq<RawRow>)
    requires forall f :: HasValue(Cleaned(raw), f)
    ensures forall i :: 0 <= i < |DailyFeatures(raw)| ==> DayComplete(DailyFeatures(raw)[i])
  {
    forall f ensures AllKnown(ColumnOf(DailyFeatures(raw), Base(f))) {
      DailyNoGaps(raw, f);
    }
    BaseKnownRows(DailyFeatures(raw));
    DailyDerived(raw);
    forall i | 0 <= i < |DailyFeatures(raw)| ensures DayComplete(DailyFeatures(raw)[i]) {
      DayCompleteAt(DailyFeatures(raw), i);
    }
  }

  // ---------------------------------------------------------------------------
  // Weeks
  // ---------------------------------------------------------------------------

  /** Day number of a Monday (1970-01-05) modulo 7. */
  const MondayOffset: int := 4

  /** Weeks run Monday to Sunday (pandas period 'W', which is 'W-SUN'). */
  predicate IsMonday(date: int) {
    (date - MondayOffset) % 7 == 0
  }

  /** `to_period('W').start_time`: the Monday that starts the date's week. */
  function WeekKey(date: int): int {
    date - (date - MondayOffset) % 7
  }

  /** The week key is a Monday, on or before the date and less than a week before it. */
  lemma WeekKeyIsWeekStart(date: int)
    ensures IsMonday(WeekKey(date))
    ensures WeekKey(date) <= date < WeekKey(date) + 7
  {
  }

  /** A Monday is a date's week key exactly when the date lies in the seven days it starts. */
  lemma WeekKeyUnique(date: int, monday: int)
    requires IsMonday(monday)
    ensures WeekKey(date) == monday <==> monday <= date < monday + 7
  {
    if monday <= date < monday + 7 {
      var q := (monday - MondayOffset) / 7;
      assert monday - MondayOffset == 7 * q;
      assert date - MondayOffset == 7 * q + (date - monday);
    }
  }

  /** Two dates share a week key exactly when they lie in the same Monday-to-Sunday week. */
  lemma SameWeek(a: int, b: int)
    ensures WeekKey(a) == WeekKey(b) <==> WeekKey(a) <= b < WeekKey(a) + 7
  {
    WeekKeyIsWeekStart(a);
    WeekKeyUnique(b, WeekKey(a));
  }

  /** Later dates never have earlier week keys. */
  lemma WeekKeyMonotone(a: int, b: int)
    requires a <= b
    ensures WeekKey(a) <= WeekKey(b)
  {
    WeekKeyIsWeekStart(a);
    WeekKeyIsWeekStart(b);
    if WeekKey(b) < WeekKey(a) {
      WeekKeyUnique(b, WeekKey(a));
    }
  }

  // ---------------------------------------------------------------------------
  // Grouping by week
  // ---------------------------------------------------------------------------

  predicate StrictlyAscending(s: seq<int>) {
    forall i, j :: 0 <= i < j < |s| ==> s[i] < s[j]
  }

  function InsertKey(k: int, s: seq<int>): (r: seq<int>)
    requires StrictlyAscending(s)
    ensures StrictlyAscending(r)
    ensures forall x :: x in r <==> x == k || x in s
  {
    if s == [] || k < s[0] then [k] + s
    else if k == s[0] then s
    else
      var rest := InsertKey(k, s[1..]);
      forall j | 0 <= j < |rest| ensures s[0] < rest[j] {
        assert rest[j] in rest;
        if rest[j] != k {
          var m :| 0 <= m < |s[1..]| && s[1..][m] == rest[j];
          assert s[m + 1] == rest[j];
        }
      }
      [s[0]] + rest
  }

  /** The group keys of `groupby('week')`: each distinct week key once, ascending. */
  function GroupKeys(days: seq<Day>): (keys: seq<int>)
    ensures StrictlyAscending(keys)
    ensures forall k :: k in keys <==> exists i :: 0 <= i < |days| && WeekKey(days[i].date) == k
  {
    if days == [] then []
    else
      var rest := GroupKeys(days[1..]);
      assert forall i :: 0 < i < |days| ==> days[1..][i - 1] == days[i];
      InsertKey(WeekKey(days[0].date), rest)
  }

  /** The rows of one week, in their original order. */
  function Group(days: seq<Day>, key: int): (g: seq<Day>)
    ensures forall d :: d in g <==> d in days && WeekKey(d.date) == key
  {
    if days == [] then []
    else
      assert days == [days[0]] + days[1..];
      (if WeekKey(days[0].date) == key then [days[0]] else []) + Group(days[1..], key)
  }

  /** A week's group holds every daily row of that week as often as `days` does, and
      nothing else, so `mean` counts each row. */
  lemma {:induction false} GroupCounts(days: seq<Day>, key: int)
    ensures forall d :: multiset(Group(days, key))[d] ==
                        (if WeekKey(d.date) == key then multiset(days)[d] else 0)
  {
    if days != [] {
      GroupCounts(days[1..], key);
      assert days == [days[0]] + days[1..];
      var head := if WeekKey(days[0].date) == key then [days[0]] else [];
      assert Group(days, key) == head + Group(days[1..], key);
      forall d
        ensures multiset(Group(days, key))[d] ==
                (if WeekKey(d.date) == key then multiset(days)[d] else 0)
      {
        assert multiset(Group(days, key))[d] == multiset(head)[d] + multiset(Group(days[1..], key))[d];
        assert multiset(days)[d] == multiset([days[0]])[d] + multiset(days[1..])[d];
      }
    }
  }

  /** Grouping keeps the order of `days`: the group of a concatenation is the
      concatenation of the groups. */
  lemma {:induction false} GroupAppend(a: seq<Day>, b: seq<Day>, key: int)
    ensures Group(a + b, key) == Group(a, key) + Group(b, key)
  {
    if a == [] {
      assert a + b == b;
    } else {
      var head := if WeekKey(a[0].date) == key then [a[0]] else [];
      assert (a + b)[0] == a[0];
      assert (a + b)[1..] == a[1..] + b;
      assert Group(a + b, key) == head + Group(a[1..] + b, key);
      GroupAppend(a[1..], b, key);
      assert Group(a, key) == head + Group(a[1..], key);
    }
  }

  /** The last row of a non-empty group is the last daily row of that week in `days`,
      the row `last` reads. */
  lemma {:induction false} GroupLast(days: seq<Day>, key: int)
    requires |Group(days, key)| > 0
    ensures exists i ::
      && 0 <= i < |days|
      && Group(days, key)[|Group(days, key)| - 1] == days[i]
      && WeekKey(days[i].date) == key
      && (forall j :: i < j < |days| ==> WeekKey(days[j].date) != key)
  {
    var n := |days| - 1;
    assert days == days[..n] + [days[n]];
    GroupAppend(days[..n], [days[n]], key);
    var g := Group(days, key);
    if WeekKey(days[n].date) == key {
      assert Group([days[n]], key) == [days[n]];
      assert g[|g| - 1] == days[n];
    } else {
      assert Group([days[n]], key) == [];
      assert Group(days[..n], key) == g;
      GroupLast(days[..n], key);
      var i :| 0 <= i < n && g[|g| - 1] == days[..n][i] && WeekKey(days[..n][i].date) == key
        && forall j :: i < j < n ==> WeekKey(days[..n][j].date) != key;
      assert forall j :: i < j < n ==> days[..n][j] == days[j];
    }
  }

  /** Low sleep and high stress on the same day, from the raw (interpolated) columns;
      a comparison with a missing value is false. */
  const LowSleepHours: real := 5.0
  const HighStress: real := 3.0

  predicate AtRisk(d: Day) {
    && d.sleepHours.Some? && d.sleepHours.value < LowSleepHours
    && d.stress.Some? && d.stress.value > HighStress
  }

  /** `int(((g.sleep_hours < 5) & (g.stress_1to5 > 3)).any())` for one group. */
  function BurnoutLabel(g: seq<Day>): (flag: int)
    ensures flag == 0 || flag == 1
    ensures flag == 1 <==> exists i :: 0 <= i < |g| && AtRisk(g[i])
  {
    if g == [] then 0
    else if AtRisk(g[0]) then 1
    else
      assert forall i :: 0 < i < |g| ==> g[1..][i - 1] == g[i];
      BurnoutLabel(g[1..])
  }

  /** One week after the `agg` reductions of `make_weekly_labels` and the merged label,
      before any row is dropped. */
  datatype Reduced = Reduced(
    week: int,
    avgSleep7d: Option<real>, sleepDebt: Option<real>, avgSteps7d: Option<real>,
    avgStress7d: Option<real>, avgMood7d: Option<real>, avgCalorieBalance7d: Option<real>,
    restingHr: Option<real>, burnoutLabel: int)

  /** A row of the weekly table. */
  datatype Week = Week(
    week: int,
    avgSleep7d: real, sleepDebt: real, avgSteps7d: real,
    avgStress7d: real, avgMood7d: real, avgCalorieBalance7d: real,
    restingHr: real, burnoutLabel: int)

  /** The reduction policy: `last` for the rolling columns, `mean` for `sleep_debt`
      and `resting_hr`. */
  function Reduce(key: int, g: seq<Day>): Reduced {
    Reduced(
      key,
      Last(ColumnOf(g, AvgSleep7d)),
      Mean(ColumnOf(g, SleepDebt)),
      Last(ColumnOf(g, AvgSteps7d)),
      Last(ColumnOf(g, AvgStress7d)),
      Last(ColumnOf(g, AvgMood7d)),
      Last(ColumnOf(g, AvgCalorieBalance7d)),
      Mean(ColumnOf(g, Base(RestingHr))),
      BurnoutLabel(g))
  }

  /** One reduced row per distinct week, ascending by week. */
  function Aggregate(days: seq<Day>): (rs: seq<Reduced>) {
    var keys := GroupKeys(days);
    seq(|keys|, j requires 0 <= j < |keys| => Reduce(keys[j], Group(days, keys[j])))
  }

  /** The weekly row of a reduced row with no missing value. */
  function Complete(r: Reduced): (w: Option<Week>)
    ensures w.Some? <==>
      && r.avgSleep7d.Some? && r.sleepDebt.Some? && r.avgSteps7d.Some? && r.avgStress7d.Some?
      && r.avgMood7d.Some? && r.avgCalorieBalance7d.Some? && r.restingHr.Some?
    ensures w.Some? ==> w.value.week == r.week && w.value.burnoutLabel == r.burnoutLabel
  {
    if && r.avgSleep7d.Some? && r.sleepDebt.Some? && r.avgSteps7d.Some? && r.avgStress7d.Some?
       && r.avgMood7d.Some? && r.avgCalorieBalance7d.Some? && r.restingHr.Some?
    then
      Some(Week(r.week, r.avgSleep7d.value, r.sleepDebt.value, r.avgSteps7d.value,
                r.avgStress7d.value, r.avgMood7d.value, r.avgCalorieBalance7d.value,
                r.restingHr.value, r.burnoutLabel))
    else None
  }

  /** `dropna()`: rows with a missing value are dropped, the others keep their order. */
  function DropIncomplete(rs: seq<Reduced>): (ws: seq<Week>)
    ensures |ws| <= |rs|
    ensures forall w :: w in ws <==> exists j :: 0 <= j < |rs| && Complete(rs[j]) == Some(w)
  {
    if rs == [] then []
    else
      var rest := DropIncomplete(rs[1..]);
      assert forall j :: 0 < j < |rs| ==> rs[1..][j - 1] == rs[j];
      match Complete(rs[0])
      case Some(w) => [w] + rest
      case None => rest
  }

  /** `make_weekly_labels`. */
  function MakeWeeklyLabels(days: seq<Day>): (ws: seq<Week>)
    ensures days == [] ==> ws == []
  {
    DropIncomplete(Aggregate(days))
  }

  /** The reduced rows carry the group keys, in order. */
  lemma AggregateWeeks(days: seq<Day>)
    ensures |Aggregate(days)| == |GroupKeys(days)|
    ensures forall j :: 0 <= j < |Aggregate(days)| ==> Aggregate(days)[j].week == GroupKeys(days)[j]
    ensures forall i, j :: 0 <= i < j < |Aggregate(days)| ==> Aggregate(days)[i].week < Aggregate(days)[j].week
  {
  }

  /** Dropping rows keeps ascending weeks ascending. */
  lemma {:induction false} DropKeepsAscending(rs: seq<Reduced>)
    requires forall i, j :: 0 <= i < j < |rs| ==> rs[i].week < rs[j].week
    ensures forall i, j :: 0 <= i < j < |DropIncomplete(rs)| ==>
              DropIncomplete(rs)[i].week < DropIncomplete(rs)[j].week
  {
    if rs != [] {
      var rest := DropIncomplete(rs[1..]);
      DropKeepsAscending(rs[1..]);
      forall j | 0 <= j < |rest| ensures rs[0].week < rest[j].week {
        assert rest[j] in rest;
        var m :| 0 <= m < |rs[1..]| && Complete(rs[1..][m]) == Some(rest[j]);
        assert rs[1..][m] == rs[m + 1];
      }
      match Complete(rs[0])
      case Some(w) =>
        assert DropIncomplete(rs) == [w] + rest;
      case None =>
        assert DropIncomplete(rs) == rest;
    }
  }

  /** A table of reduced rows that are all complete loses no row. */
  lemma {:induction false} DropNothing(rs: seq<Reduced>)
    requires forall j :: 0 <= j < |rs| ==> Complete(rs[j]).Some?
    ensures |DropIncomplete(rs)| == |rs|
  {
    if rs != [] {
      DropNothing(rs[1..]);
    }
  }

  /** Weekly rows come out in strictly ascending week order. */
  lemma WeeklyAscending(days: seq<Day>)
    ensures var ws := MakeWeeklyLabels(days);
      forall i, j :: 0 <= i < j < |ws| ==> ws[i].week < ws[j].week
  {
    AggregateWeeks(days);
    DropKeepsAscending(Aggregate(days));
  }

  /** Each weekly row is keyed by the Monday of the week of some daily row. */
  lemma WeeklyKeys(days: seq<Day>, w: Week)
    requires w in MakeWeeklyLabels(days)
    ensures IsMonday(w.week)
    ensures exists i :: 0 <= i < |days| && WeekKey(days[i].date) == w.week
  {
    WeeklyRow(days, w);
    var i :| 0 <= i < |days| && WeekKey(days[i].date) == w.week;
    WeekKeyIsWeekStart(days[i].date);
  }

  /** A weekly row is the complete reduction of the daily rows of its own week. */
  lemma WeeklyRow(days: seq<Day>, w: Week)
    requires w in MakeWeeklyLabels(days)
    ensures w.week in GroupKeys(days)
    ensures Complete(Reduce(w.week, Group(days, w.week))) == Some(w)
  {
    var rs := Aggregate(days);
    var j :| 0 <= j < |rs| && Complete(rs[j]) == Some(w);
    assert GroupKeys(days)[j] in GroupKeys(days);
  }

  /** A week is in the table exactly when some daily row falls in it and none of its
      reduced values is missing: a week with a missing value is dropped. */
  lemma WeeklyPresence(days: seq<Day>, key: int)
    ensures (exists w :: w in MakeWeeklyLabels(days) && w.week == key) <==>
      && (exists i :: 0 <= i < |days| && WeekKey(days[i].date) == key)
      && Complete(Reduce(key, Group(days, key))).Some?
  {
    var rs := Aggregate(days);
    var keys := GroupKeys(days);
    if exists w :: w in MakeWeeklyLabels(days) && w.week == key {
      var w :| w in MakeWeeklyLabels(days) && w.week == key;
      WeeklyRow(days, w);
    }
    if (exists i :: 0 <= i < |days| && WeekKey(days[i].date) == key)
       && Complete(Reduce(key, Group(days, key))).Some? {
      assert key in keys;
      var j :| 0 <= j < |keys| && keys[j] == key;
      assert rs[j] == Reduce(key, Group(days, key));
      assert Complete(rs[j]).value in MakeWeeklyLabels(days);
    }
  }

  /** `burnout_label` is 1 when some day of the week had less than 5 hours of sleep and
      stress above 3, and 0 otherwise. */
  lemma WeeklyLabel(days: seq<Day>, w: Week)
    requires w in MakeWeeklyLabels(days)
    ensures w.burnoutLabel == 0 || w.burnoutLabel == 1
    ensures w.burnoutLabel == 1 <==> exists i :: 0 <= i < |days| && WeekKey(days[i].date) == w.week && AtRisk(days[i])
  {
    WeeklyRow(days, w);
    var g := Group(days, w.week);
    if exists i :: 0 <= i < |days| && WeekKey(days[i].date) == w.week && AtRisk(days[i]) {
      var i :| 0 <= i < |days| && WeekKey(days[i].date) == w.week && AtRisk(days[i]);
      assert days[i] in g;
    }
    if w.burnoutLabel == 1 {
      var k :| 0 <= k < |g| && AtRisk(g[k]);
      assert g[k] in g;
    }
  }

  /** `Last` of a column of a group is the value of the group's last row when that is known. */
  lemma LastOfGroup(g: seq<Day>, a: Attr)
    requires |g| > 0 && Get(g[|g| - 1], a).Some?
    ensures Last(ColumnOf(g, a)) == Get(g[|g| - 1], a)
  {
    assert ColumnOf(g, a)[|g| - 1] == Get(g[|g| - 1], a);
  }

  /** A week's group of daily rows is not empty. */
  lemma WeeklyGroup(days: seq<Day>, w: Week)
    requires w in MakeWeeklyLabels(days)
    ensures |Group(days, w.week)| > 0
    ensures Complete(Reduce(w.week, Group(days, w.week))) == Some(w)
  {
    WeeklyRow(days, w);
    var i :| 0 <= i < |days| && WeekKey(days[i].date) == w.week;
    assert days[i] in Group(days, w.week);
  }

  /** The rolling fields of a week are those of its last daily row, when known there. */
  lemma WeeklyLast(days: seq<Day>, w: Week)
    requires w in MakeWeeklyLabels(days)
    ensures var g := Group(days, w.week);
      && |g| > 0
      && (g[|g| - 1].avgSleep7d.Some? ==> w.avgSleep7d == g[|g| - 1].avgSleep7d.value)
      && (g[|g| - 1].avgSteps7d.Some? ==> w.avgSteps7d == g[|g| - 1].avgSteps7d.value)
      && (g[|g| - 1].avgStress7d.Some? ==> w.avgStress7d == g[|g| - 1].avgStress7d.value)
      && (g[|g| - 1].avgMood7d.Some? ==> w.avgMood7d == g[|g| - 1].avgMood7d.value)
      && (g[|g| - 1].avgCalorieBalance7d.Some? ==> w.avgCalorieBalance7d == g[|g| - 1].avgCalorieBalance7d.value)
  {
    WeeklyGroup(days, w);
    ReducedLast(w.week, Group(days, w.week), w);
  }

  lemma ReducedLast(key: int, g: seq<Day>, w: Week)
    requires |g| > 0 && Complete(Reduce(key, g)) == Some(w)
    ensures var d := g[|g| - 1];
      && (d.avgSleep7d.Some? ==> w.avgSleep7d == d.avgSleep7d.value)
      && (d.avgSteps7d.Some? ==> w.avgSteps7d == d.avgSteps7d.value)
      && (d.avgStress7d.Some? ==> w.avgStress7d == d.avgStress7d.value)
      && (d.avgMood7d.Some? ==> w.avgMood7d == d.avgMood7d.value)
      && (d.avgCalorieBalance7d.Some? ==> w.avgCalorieBalance7d == d.avgCalorieBalance7d.value)
  {
    var d := g[|g| - 1];
    if d.avgSleep7d.Some? { LastOfGroup(g, AvgSleep7d); }
    if d.avgSteps7d.Some? { LastOfGroup(g, AvgSteps7d); }
    if d.avgStress7d.Some? { LastOfGroup(g, AvgStress7d); }
    if d.avgMood7d.Some? { LastOfGroup(g, AvgMood7d); }
    if d.avgCalorieBalance7d.Some? { LastOfGroup(g, AvgCalorieBalance7d); }
  }

  /** `sleep_debt` and `resting_hr` of a week are the means over its days, when none is
      missing. */
  lemma WeeklyMean(days: seq<Day>, w: Week)
    requires w in MakeWeeklyLabels(days)
    ensures var g := Group(days, w.week);
      && |g| > 0
      && (AllKnown(ColumnOf(g, SleepDebt)) ==>
            w.sleepDebt == Sum(Values(ColumnOf(g, SleepDebt))) / |g| as real)
      && (AllKnown(ColumnOf(g, Base(RestingHr))) ==>
            w.restingHr == Sum(Values(ColumnOf(g, Base(RestingHr)))) / |g| as real)
  {
    WeeklyGroup(days, w);
    var g := Group(days, w.week);
    if AllKnown(ColumnOf(g, SleepDebt)) {
      MeanOfKnown(ColumnOf(g, SleepDebt));
    }
    if AllKnown(ColumnOf(g, Base(RestingHr))) {
      MeanOfKnown(ColumnOf(g, Base(RestingHr)));
    }
  }

  /** The reduction of a non-empty group of complete days is complete. */
  lemma ReduceComplete(key: int, g: seq<Day>)
    requires |g| > 0
    requires forall d :: d in g ==> DayComplete(d)
    ensures Complete(Reduce(key, g)).Some?
  {
    assert g[0] in g;
    assert Get(g[0], SleepDebt) == ColumnOf(g, SleepDebt)[0];
    assert Get(g[0], Base(RestingHr)) == ColumnOf(g, Base(RestingHr))[0];
    assert Get(g[0], AvgSleep7d) == ColumnOf(g, AvgSleep7d)[0];
    assert Get(g[0], AvgSteps7d) == ColumnOf(g, AvgSteps7d)[0];
    assert Get(g[0], AvgStress7d) == ColumnOf(g, AvgStress7d)[0];
    assert Get(g[0], AvgMood7d) == ColumnOf(g, AvgMood7d)[0];
    assert Get(g[0], AvgCalorieBalance7d) == ColumnOf(g, AvgCalorieBalance7d)[0];
  }

  /** When every daily row is complete no week is dropped: one weekly row per distinct week. */
  lemma WeeklyNoDrops(days: seq<Day>)
    requires forall i :: 0 <= i < |days| ==> DayComplete(days[i])
    ensures |MakeWeeklyLabels(days)| == |GroupKeys(days)|
  {
    var rs := Aggregate(days);
    var keys := GroupKeys(days);
    forall j | 0 <= j < |rs| ensures Complete(rs[j]).Some? {
      assert keys[j] in keys;
      var i :| 0 <= i < |days| && WeekKey(days[i].date) == keys[j];
      assert days[i] in Group(days, keys[j]);
      ReduceComplete(keys[j], Group(days, keys[j]));
    }
    DropNothing(rs);
  }

  /** When every numeric column has at least one value that parses, the weekly table
      has one row per distinct week of the dated rows; it is empty only when no row
      has a date. */
  lemma PipelineNoDrops(raw: seq<RawRow>)
    requires forall f :: HasValue(Cleaned(raw), f)
    ensures var days := DailyFeatures(raw);
      |MakeWeeklyLabels(days)| == |GroupKeys(days)|
    ensures MakeWeeklyLabels(DailyFeatures(raw)) == [] <==> Cleaned(raw) == []
  {
    var days := DailyFeatures(raw);
    DailyComplete(raw);
    WeeklyNoDrops(days);
    DailyRows(raw);
    if days != [] {
      assert WeekKey(days[0].date) in GroupKeys(days);
    }
  }
}
