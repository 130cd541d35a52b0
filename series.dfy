/**
 * The missing-aware column reductions of pandas that the pipeline relies on:
 * `mean` (which skips missing cells), `groupby(..).last` (the last cell that is
 * not missing), `tail(k)` and `rolling(7, min_periods=1).mean()`.
 * Numbers are exact reals, so a mean is the mathematical mean.
 */
module Series {
  import opened Wrappers

  /** One column of a data frame, top to bottom. */
  type Column = seq<Option<real>>

  predicate AllKnown(s: Column) {
    forall i :: 0 <= i < |s| ==> s[i].Some?
  }

  predicate NoneKnown(s: Column) {
    forall i :: 0 <= i < |s| ==> s[i].None?
  }

  /** The values of a column that has no missing cell. */
  function Values(s: Column): (v: seq<real>)
    requires AllKnown(s)
  {
    seq(|s|, i requires 0 <= i < |s| => s[i].value)
  }

  function Sum(v: seq<real>): real {
    if v == [] then 0.0 else Sum(v[..|v| - 1]) + v[|v| - 1]
  }

  /** Number of cells that are not missing. */
  function CountKnown(s: Column): (n: nat)
    ensures n <= |s|
    ensures n == 0 <==> NoneKnown(s)
    ensures n == |s| <==> AllKnown(s)
  {
    if s == [] then 0
    else CountKnown(s[..|s| - 1]) + (if s[|s| - 1].Some? then 1 else 0)
  }

  /** Sum of the cells that are not missing. */
  function SumKnown(s: Column): real {
    if s == [] then 0.0
    else SumKnown(s[..|s| - 1]) + (if s[|s| - 1].Some? then s[|s| - 1].value else 0.0)
  }

  /** `Series.mean()`: missing cells are skipped; no known cell gives a missing mean. */
  function Mean(s: Column): (r: Option<real>)
    ensures r.None? <==> NoneKnown(s)
  {
    var n := CountKnown(s);
    if n == 0 then None else Some(SumKnown(s) / n as real)
  }

  /** `groupby(..).last()`: the last cell of the group that is not missing. */
  function Last(s: Column): (r: Option<real>)
    ensures r.None? <==> NoneKnown(s)
    ensures r.Some? ==> exists i :: 0 <= i < |s| && s[i] == r && forall j :: i < j < |s| ==> s[j].None?
  {
    if s == [] then None
    else if s[|s| - 1].Some? then s[|s| - 1]
    else Last(s[..|s| - 1])
  }

  /** `tail(k)`: the last `k` cells, or all of them when there are fewer. */
  function Tail(s: Column, k: nat): (t: Column)
    ensures |t| == Min(k, |s|)
    ensures forall i :: 0 <= i < |t| ==> t[i] == s[|s| - |t| + i]
  {
    if |s| <= k then s else s[|s| - k..]
  }

  /** Width of the trailing rolling window. */
  const Window: nat := 7

  /** First row of the rolling window that ends at row `i`. */
  function WindowStart(i: nat): nat {
    if i + 1 < Window then 0 else i + 1 - Window
  }

  /** `rolling(7, min_periods=1).mean()` at row `i`: the mean of the known cells among
      rows `WindowStart(i)..i`, missing only when none of them is known. */
  function Rolling(s: Column, i: nat): Option<real>
    requires i < |s|
  {
    Mean(s[WindowStart(i)..i + 1])
  }

  /** On a column with no gaps, the count and sum of known cells are the plain ones. */
  lemma {:induction false} KnownTotals(s: Column)
    requires AllKnown(s)
    ensures CountKnown(s) == |s|
    ensures SumKnown(s) == Sum(Values(s))
  {
    if s != [] {
      var p := s[..|s| - 1];
      KnownTotals(p);
      assert Values(s)[..|s| - 1] == Values(p);
    }
  }

  /** On a non-empty column with no gaps, `Mean` is the arithmetic mean. */
  lemma MeanOfKnown(s: Column)
    requires AllKnown(s) && |s| > 0
    ensures Mean(s) == Some(Sum(Values(s)) / |s| as real)
  {
    KnownTotals(s);
  }

  /** A known last cell is the result of `Last`. */
  lemma LastOfKnownLast(s: Column)
    requires |s| > 0 && s[|s| - 1].Some?
    ensures Last(s) == s[|s| - 1]
  {
  }

  /** The rolling window at row `i` holds `min(7, i + 1)` rows, and when they are all known
      the rolling value is their arithmetic mean: the window expands at the start. */
  lemma RollingMean(s: Column, i: nat)
    requires i < |s|
    requires AllKnown(s[WindowStart(i)..i + 1])
    ensures |s[WindowStart(i)..i + 1]| == Min(Window, i + 1)
    ensures Rolling(s, i) == Some(Sum(Values(s[WindowStart(i)..i + 1])) / Min(Window, i + 1) as real)
  {
    MeanOfKnown(s[WindowStart(i)..i + 1]);
  }
}
