/**
 * Inference on the latest week (`predict_proba_from_daily`) and the explanation of
 * a linear model's score by its largest contributions (`explain_top_reasons`).
 *
 * The fitted classifier is opaque: `coef` is its first row of weights (`coef_[0]`),
 * absent when the estimator has no `coef_`, and its probability for a feature
 * vector is supplied by the caller as the function `proba`.
 */
module Predict {
  import opened Wrappers
  import opened Preprocess

  datatype Classifier = Classifier(coef: Option<seq<real>>)

  /** The persisted model bundle: the classifier and its ordered feature names. */
  datatype Bundle = Bundle(model: Classifier, features: seq<string>)

  /** The feature set the models are trained on, in declared order. */
  const FeatureCols: seq<string> :=
    ["avg_sleep_7d", "sleep_debt", "avg_steps_7d", "avg_stress_7d",
     "avg_mood_7d", "avg_calorie_balance_7d", "resting_hr"]

  /** Number of reasons the callers ask for. */
  const TopK: nat := 3

  // ---------------------------------------------------------------------------
  // Ranking contributions
  // ---------------------------------------------------------------------------

  function Abs(v: real): real {
    if v < 0.0 then -v else v
  }

  /** Magnitude of contribution `i`. */
  function Mag(c: seq<real>, i: nat): real {
    if i < |c| then Abs(c[i]) else 0.0
  }

  /** Contribution `i` ranks strictly before `j`: a larger magnitude, or the same
      magnitude and an earlier position, as Python's stable `sort(reverse=True)` with
      `key=abs` orders them. */
  predicate Before(c: seq<real>, i: nat, j: nat) {
    Mag(c, i) > Mag(c, j) || (Mag(c, i) == Mag(c, j) && i < j)
  }

  predicate RankedAtMost(c: seq<real>, i: nat, j: nat) {
    i == j || Before(c, i, j)
  }

  /** No position ranks before an earlier one. */
  predicate Sorted(c: seq<real>, s: seq<nat>) {
    forall p, q :: 0 <= p < q < |s| ==> RankedAtMost(c, s[p], s[q])
  }

  predicate StrictlySorted(c: seq<real>, s: seq<nat>) {
    forall p, q :: 0 <= p < q < |s| ==> Before(c, s[p], s[q])
  }

  /** The positions `lo..hi-1`, in declared order. */
  function Range(lo: nat, hi: nat): (r: seq<nat>)
    ensures |r| == if lo <= hi then hi - lo else 0
    ensures forall x :: x in r <==> lo <= x < hi
    decreases hi - lo
  {
    if lo >= hi then [] else [lo] + Range(lo + 1, hi)
  }

  function Insert(c: seq<real>, i: nat, s: seq<nat>): (r: seq<nat>)
    requires StrictlySorted(c, s) && i !in s
    ensures StrictlySorted(c, r)
    ensures |r| == |s| + 1
    ensures forall x :: x in r <==> x == i || x in s
    ensures multiset(r) == multiset(s) + multiset{i}
  {
    if s == [] || Before(c, i, s[0]) then
      RanksFirst(c, s);
      forall x | x in s ensures Before(c, i, x) {
        if x != s[0] {
          RankedTransitive(c, i, s[0], x);
        }
      }
      PutFirst(c, i, s);
      [i] + s
    else
      var rest := Insert(c, i, s[1..]);
      RanksFirst(c, s);
      RankedTotal(c, i, s[0]);
      PutFirst(c, s[0], rest);
      assert s == [s[0]] + s[1..];
      [s[0]] + rest
  }

  /** The head of a strictly ranked sequence ranks before everything after it. */
  lemma RanksFirst(c: seq<real>, s: seq<nat>)
    requires StrictlySorted(c, s)
    ensures s != [] ==> StrictlySorted(c, s[1..])
    ensures s != [] ==> forall x :: x in s[1..] ==> Before(c, s[0], x)
  {
    if s != [] {
      forall x | x in s[1..] ensures Before(c, s[0], x) {
        var k :| 0 <= k < |s[1..]| && s[1..][k] == x;
        assert s[k + 1] == x;
      }
    }
  }

  /** A position ranking before every element of a strictly ranked sequence can go in front. */
  lemma PutFirst(c: seq<real>, i: nat, s: seq<nat>)
    requires StrictlySorted(c, s)
    requires forall x :: x in s ==> Before(c, i, x)
    ensures StrictlySorted(c, [i] + s)
  {
    forall p, q | 0 <= p < q < |[i] + s| ensures Before(c, ([i] + s)[p], ([i] + s)[q]) {
      if p == 0 {
        assert s[q - 1] in s;
      } else {
        assert ([i] + s)[p] == s[p - 1] && ([i] + s)[q] == s[q - 1];
      }
    }
  }

  /** Positions `k..|c|-1` in ranked order. */
  function RankFrom(c: seq<real>, k: nat): (r: seq<nat>)
    ensures StrictlySorted(c, r)
    ensures multiset(r) == multiset(Range(k, |c|))
    ensures |r| == if k <= |c| then |c| - k else 0
    ensures forall x :: x in r <==> k <= x < |c|
    decreases |c| - k
  {
    if k >= |c| then []
    else
      assert Range(k, |c|) == [k] + Range(k + 1, |c|);
      Insert(c, k, RankFrom(c, k + 1))
  }

  /** Every position of `c`, by descending magnitude, ties in declared order. */
  function Ranking(c: seq<real>): (r: seq<nat>)
    ensures |r| == |c|
    ensures forall x :: x in r <==> 0 <= x < |c|
    ensures StrictlySorted(c, r)
  {
    RankFrom(c, 0)
  }

  /** Two sorted arrangements of the same positions are the same arrangement: the ranking
      order leaves no freedom. */
  lemma {:induction false} SortedUnique(c: seq<real>, s: seq<nat>, t: seq<nat>)
    requires Sorted(c, s) && Sorted(c, t)
    requires multiset(s) == multiset(t)
    ensures s == t
    decreases |s|
  {
    assert |t| == |s| by { assert |multiset(t)| == |multiset(s)|; }
    if s != [] {
      SameHead(c, s, t);
      SameTailElements(s, t);
      SortedTail(c, s);
      SortedTail(c, t);
      SortedUnique(c, s[1..], t[1..]);
      assert s == [s[0]] + s[1..] && t == [t[0]] + t[1..];
    }
  }

  /** Sorted arrangements of the same positions start with the same position. */
  lemma SameHead(c: seq<real>, s: seq<nat>, t: seq<nat>)
    requires Sorted(c, s) && Sorted(c, t)
    requires multiset(s) == multiset(t) && s != [] && t != []
    ensures s[0] == t[0]
  {
    assert t[0] in multiset(s) && s[0] in multiset(t);
    var i :| 0 <= i < |s| && s[i] == t[0];
    var j :| 0 <= j < |t| && t[j] == s[0];
    FirstRanksFirst(c, s, i);
    FirstRanksFirst(c, t, j);
    RankedAntisymmetric(c, s[0], t[0]);
  }

  lemma SameTailElements(s: seq<nat>, t: seq<nat>)
    requires multiset(s) == multiset(t) && s != [] && t != [] && s[0] == t[0]
    ensures multiset(s[1..]) == multiset(t[1..])
  {
    assert s == [s[0]] + s[1..] && t == [t[0]] + t[1..];
    assert multiset(s) == multiset{s[0]} + multiset(s[1..]);
    assert multiset(t) == multiset{t[0]} + multiset(t[1..]);
    assert multiset(s[1..]) == multiset(s) - multiset{s[0]};
    assert multiset(t[1..]) == multiset(t) - multiset{t[0]};
  }

  lemma FirstRanksFirst(c: seq<real>, s: seq<nat>, i: nat)
    requires Sorted(c, s) && i < |s|
    ensures RankedAtMost(c, s[0], s[i])
  {
    if i > 0 {
      assert 0 < i;
    }
  }

  lemma SortedTail(c: seq<real>, s: seq<nat>)
    requires Sorted(c, s) && s != []
    ensures Sorted(c, s[1..])
  {
    forall p, q | 0 <= p < q < |s| - 1
      ensures RankedAtMost(c, s[1..][p], s[1..][q])
    {
      assert s[1..][p] == s[p + 1] && s[1..][q] == s[q + 1];
    }
  }

  lemma RankedAntisymmetric(c: seq<real>, x: nat, y: nat)
    requires RankedAtMost(c, x, y) && RankedAtMost(c, y, x)
    ensures x == y
  {
  }

  /** Any two distinct positions are ordered one way or the other. */
  lemma RankedTotal(c: seq<real>, x: nat, y: nat)
    requires !Before(c, x, y)
    ensures RankedAtMost(c, y, x)
  {
  }

  lemma RankedTransitive(c: seq<real>, x: nat, y: nat, z: nat)
    requires RankedAtMost(c, x, y) && RankedAtMost(c, y, z)
    ensures RankedAtMost(c, x, z)
  {
  }

  /** `pairs.sort(key=lambda t: abs(t[1]), reverse=True)` on the positions of the pairs,
      by insertion. */
  method SortByMagnitude(c: seq<real>, a: array<nat>)
    modifies a
    ensures Sorted(c, a[..])
    ensures multiset(a[..]) == old(multiset(a[..]))
  {
    for i := 0 to a.Length
      invariant Sorted(c, a[..i])
      invariant multiset(a[..]) == old(multiset(a[..]))
    {
      SinkInto(c, a, i);
    }
    assert a[..a.Length] == a[..];
  }

  /** Moves `a[i]` down past every earlier position that ranks after it, by adjacent
      swaps, so that `a[..i + 1]` is sorted. */
  method SinkInto(c: seq<real>, a: array<nat>, i: nat)
    requires i < a.Length
    requires Sorted(c, a[..i])
    modifies a
    ensures Sorted(c, a[..i + 1])
    ensures multiset(a[..]) == old(multiset(a[..]))
    ensures forall k :: i < k < a.Length ==> a[k] == old(a[k])
  {
    var j := i;
    while j > 0 && Before(c, a[j], a[j - 1])
      invariant 0 <= j <= i
      invariant forall k :: i < k < a.Length ==> a[k] == old(a[k])
      invariant forall p, q :: 0 <= p < q <= i && q != j ==> RankedAtMost(c, a[p], a[q])
      invariant multiset(a[..]) == old(multiset(a[..]))
    {
      SwapDown(a, j);
      j := j - 1;
    }
    if j > 0 {
      RankedTotal(c, a[j], a[j - 1]);
      forall p | 0 <= p < j
        ensures RankedAtMost(c, a[p], a[j])
      {
        if p < j - 1 {
          RankedTransitive(c, a[p], a[j - 1], a[j]);
        }
      }
    }
  }

  /** Exchanges `a[j - 1]` and `a[j]`. */
  method SwapDown(a: array<nat>, j: nat)
    requires 0 < j < a.Length
    modifies a
    ensures a[j - 1] == old(a[j]) && a[j] == old(a[j - 1])
    ensures forall k :: 0 <= k < a.Length && k != j - 1 && k != j ==> a[k] == old(a[k])
    ensures multiset(a[..]) == old(multiset(a[..]))
  {
    a[j - 1], a[j] := a[j], a[j - 1];
  }

  // ---------------------------------------------------------------------------
  // Explanations
  // ---------------------------------------------------------------------------

  /** 'high' if the contribution is positive, else 'low'. */
  function Direction(v: real): (d: string)
    ensures d == "high" <==> v > 0.0
    ensures d == "low" <==> v <= 0.0
  {
    if v > 0.0 then "high" else "low"
  }

  /** One reason as the source formats it: `f"{name} ({direction})"`. */
  function Reason(name: string, v: real): string {
    name + " (" + Direction(v) + ")"
  }

  /** The contributions `coef[i] * x[i]`, paired by `zip` with the names, so only the
      first `min(|names|, |x|)` survive. */
  function Contributions(w: seq<real>, names: seq<string>, x: seq<real>): (c: seq<real>)
    requires |w| == |x|
  {
    var m := Min(|names|, |x|);
    seq(m, i requires 0 <= i < m => w[i] * x[i])
  }

  /** What `explain_top_reasons` returns. */
  function Explanation(model: Classifier, names: seq<string>, x: seq<real>, topK: nat): seq<string>
    requires model.coef.Some? ==> |model.coef.value| == |x|
  {
    match model.coef
    case None => []
    case Some(w) =>
      var c := Contributions(w, names, x);
      TopReasons(names, c, Ranking(c), topK)
  }

  /** The reasons for the first `topK` positions of `order`. */
  function TopReasons(names: seq<string>, c: seq<real>, order: seq<nat>, topK: nat): (rs: seq<string>)
    requires |c| <= |names|
    requires forall x :: x in order ==> x < |c|
    ensures |rs| == Min(topK, |order|)
  {
    var top := Min(topK, |order|);
    seq(top, r requires 0 <= r < top => (assert order[r] in order; Reason(names[order[r]], c[order[r]])))
  }

  /** `explain_top_reasons(model, feature_cols, x_row, top_k)`. */
  method ExplainTopReasons(model: Classifier, names: seq<string>, x: seq<real>, topK: nat)
    returns (reasons: seq<string>)
    requires model.coef.Some? ==> |model.coef.value| == |x|
    ensures reasons == Explanation(model, names, x, topK)
  {
    if model.coef.None? {
      return [];
    }
    var c := Contributions(model.coef.value, names, x);
    var pairs := new nat[|c|](i => i);
    assert pairs[..] == Range(0, |c|) by {
      RangeAt(0, |c|);
    }
    SortByMagnitude(c, pairs);
    RankingSorted(c);
    SortedUnique(c, pairs[..], Ranking(c));
    reasons := TopReasons(names, c, pairs[..], topK);
  }

  /** The ranking is also a sorted arrangement of the positions `0..|c|-1`. */
  lemma RankingSorted(c: seq<real>)
    ensures Sorted(c, Ranking(c))
    ensures multiset(Ranking(c)) == multiset(Range(0, |c|))
  {
  }

  lemma {:induction false} RangeAt(lo: nat, hi: nat)
    ensures forall p :: 0 <= p < |Range(lo, hi)| ==> Range(lo, hi)[p] == lo + p
    decreases hi - lo
  {
    if lo < hi {
      RangeAt(lo + 1, hi);
    }
  }

  /** The ranking puts larger magnitudes first; equal magnitudes keep declared order. */
  lemma RankingOrder(c: seq<real>, p: nat, q: nat)
    requires p < q < |c|
    ensures Mag(c, Ranking(c)[p]) >= Mag(c, Ranking(c)[q])
    ensures Mag(c, Ranking(c)[p]) == Mag(c, Ranking(c)[q]) ==> Ranking(c)[p] < Ranking(c)[q]
  {
    assert Before(c, Ranking(c)[p], Ranking(c)[q]);
  }

  /** The first `k` ranked positions are `k` largest magnitudes: every position left out
      has a magnitude no larger than any chosen one. */
  lemma RankingTop(c: seq<real>, k: nat, x: nat)
    requires k <= |c| && x < |c| && x !in Ranking(c)[..k]
    ensures forall r :: 0 <= r < k ==> Mag(c, Ranking(c)[r]) >= Mag(c, x)
  {
    var order := Ranking(c);
    assert x in order;
    var q :| 0 <= q < |order| && order[q] == x;
    assert forall r :: 0 <= r < k ==> order[..k][r] == order[r];
    assert q >= k;
    forall r | 0 <= r < k ensures Mag(c, order[r]) >= Mag(c, x) {
      RankingOrder(c, r, q);
    }
  }

  /** No position is ranked twice. */
  lemma RankingDistinct(c: seq<real>, p: nat, q: nat)
    requires p < q < |c|
    ensures Ranking(c)[p] != Ranking(c)[q]
  {
    assert Before(c, Ranking(c)[p], Ranking(c)[q]);
  }

  /** How many reasons are returned: none without `coef_`, otherwise `top_k` or the
      number of (name, contribution) pairs, whichever is smaller. */
  lemma ExplanationLength(model: Classifier, names: seq<string>, x: seq<real>, topK: nat)
    requires model.coef.Some? ==> |model.coef.value| == |x|
    ensures |Explanation(model, names, x, topK)| ==
      if model.coef.None? then 0 else Min(topK, Min(|names|, |x|))
  {
  }

  /** The `r`-th reason names the feature of the `r`-th largest contribution
      `coef[i] * x[i]`, marked 'high' when that contribution is positive. */
  lemma ExplanationEntry(model: Classifier, names: seq<string>, x: seq<real>, topK: nat, r: nat)
    requires model.coef.Some? && |model.coef.value| == |x|
    requires r < |Explanation(model, names, x, topK)|
    ensures var c := Contributions(model.coef.value, names, x);
      var i := Ranking(c)[r];
      && i < |names| && i < |x|
      && c[i] == model.coef.value[i] * x[i]
      && Explanation(model, names, x, topK)[r] == names[i] + " (" + Direction(c[i]) + ")"
  {
    var c := Contributions(model.coef.value, names, x);
    assert Ranking(c)[r] in Ranking(c);
  }

  // ---------------------------------------------------------------------------
  // Inference
  // ---------------------------------------------------------------------------

  /** A column of the weekly table by name; `None` for a name the table does not have. */
  function WeeklyColumn(w: Week, name: string): (v: Option<real>)
    ensures v.Some? <==> name in FeatureCols || name == "burnout_label"
  {
    if name == "avg_sleep_7d" then Some(w.avgSleep7d)
    else if name == "sleep_debt" then Some(w.sleepDebt)
    else if name == "avg_steps_7d" then Some(w.avgSteps7d)
    else if name == "avg_stress_7d" then Some(w.avgStress7d)
    else if name == "avg_mood_7d" then Some(w.avgMood7d)
    else if name == "avg_calorie_balance_7d" then Some(w.avgCalorieBalance7d)
    else if name == "resting_hr" then Some(w.restingHr)
    else if name == "burnout_label" then Some(w.burnoutLabel as real)
    else None
  }

  /** `weekly[names].iloc[[-1]]` on one row: the named cells in the given order, or
      `None` (a `KeyError`) when a name is not a column. */
  function Select(w: Week, names: seq<string>): (x: Option<seq<real>>)
    ensures x.Some? <==> forall k :: 0 <= k < |names| ==> WeeklyColumn(w, names[k]).Some?
    ensures x.Some? ==> |x.value| == |names|
    ensures x.Some? ==> forall k :: 0 <= k < |names| ==> x.value[k] == WeeklyColumn(w, names[k]).value
  {
    if names == [] then Some([])
    else
      var head := WeeklyColumn(w, names[0]);
      var rest := Select(w, names[1..]);
      assert forall k :: 0 < k < |names| ==> names[1..][k - 1] == names[k];
      if head.None? then None
      else if rest.None? then
        assert exists k :: 0 <= k < |names[1..]| && WeeklyColumn(w, names[1..][k]).None?;
        None
      else Some([head.value] + rest.value)
  }

  /** The training feature set is always selectable, and yields the week's seven features. */
  lemma SelectFeatureCols(w: Week)
    ensures Select(w, FeatureCols) ==
      Some([w.avgSleep7d, w.sleepDebt, w.avgSteps7d, w.avgStress7d,
            w.avgMood7d, w.avgCalorieBalance7d, w.restingHr])
  {
    assert forall k :: 0 <= k < |FeatureCols| ==> FeatureCols[k] in FeatureCols;
    var x := Select(w, FeatureCols);
    assert x.Some?;
    assert |x.value| == 7;
    assert x.value[0] == w.avgSleep7d && x.value[1] == w.sleepDebt && x.value[2] == w.avgSteps7d;
    assert x.value[3] == w.avgStress7d && x.value[4] == w.avgMood7d;
    assert x.value[5] == w.avgCalorieBalance7d && x.value[6] == w.restingHr;
    assert x.value == [w.avgSleep7d, w.sleepDebt, w.avgSteps7d, w.avgStress7d,
                       w.avgMood7d, w.avgCalorieBalance7d, w.restingHr];
  }

  /** What the inference returns. `MissingColumn` and `ShapeMismatch` stand for the
      exceptions the source lets propagate. */
  datatype Outcome =
    | ErrorRecord(error: string)
    | MissingColumn
    | ShapeMismatch
    | Prediction(probability: real, reasons: seq<string>)

  const NotEnoughData: string := "Not enough data"

  /** The classifier cannot score a vector whose width differs from its weights. */
  predicate Mismatched(model: Classifier, x: seq<real>) {
    model.coef.Some? && |model.coef.value| != |x|
  }

  /** `predict_proba_from_daily`: the probability of the positive class for the latest
      week, with the three strongest reasons; `proba` is the classifier's
      `predict_proba(x)[0, 1]`. */
  method PredictProbaFromDaily(bundle: Bundle, raw: seq<RawRow>, proba: (Classifier, seq<real>) -> real)
    returns (out: Outcome)
    ensures var weekly := MakeWeeklyLabels(DailyFeatures(raw));
      && (weekly == [] <==> out == ErrorRecord(NotEnoughData))
      && (weekly != [] ==>
            var x := Select(weekly[|weekly| - 1], bundle.features);
            && (x.None? <==> out == MissingColumn)
            && (x.Some? ==>
                  && (Mismatched(bundle.model, x.value) <==> out == ShapeMismatch)
                  && (!Mismatched(bundle.model, x.value) ==>
                        out == Prediction(proba(bundle.model, x.value),
                                          Explanation(bundle.model, bundle.features, x.value, TopK)))))
  {
    var df := CleanAndFeatures(raw);
    var weekly := MakeWeeklyLabels(df);
    if weekly == [] {
      return ErrorRecord(NotEnoughData);
    }
    var x := Select(weekly[|weekly| - 1], bundle.features);
    if x.None? {
      return MissingColumn;
    }
    if Mismatched(bundle.model, x.value) {
      return ShapeMismatch;
    }
    var p := proba(bundle.model, x.value);
    var reasons := ExplainTopReasons(bundle.model, bundle.features, x.value, TopK);
    out := Prediction(p, reasons);
  }
}
