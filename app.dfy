/**
 * The dashboard's decision logic: which model is used (the stored bundle, or a demo
 * model fitted on the uploaded data when enough labelled weeks exist), when the
 * prediction panel is shown, and which lifestyle suggestions it lists.
 *
 * Rendering, file upload and the chart are not modelled; fitting is the opaque
 * function `fit` and scoring the opaque function `proba`.
 */
module App {
  import opened Wrappers
  import opened Series
  import opened Preprocess
  import opened Predict

  // ---------------------------------------------------------------------------
  // Fallback training gate
  // ---------------------------------------------------------------------------

  /** Fewest weekly rows the demo model is fitted on. */
  const MinTrainingWeeks: nat := 6

  /** The distinct values of `burnout_label`. */
  function LabelSet(ws: seq<Week>): set<int> {
    set w | w in ws :: w.burnoutLabel
  }

  /** `len(weekly) >= 6 and weekly['burnout_label'].nunique() == 2`. */
  predicate CanFallbackTrain(ws: seq<Week>) {
    |ws| >= MinTrainingWeeks && |LabelSet(ws)| == 2
  }

  predicate HasLabel(ws: seq<Week>, flag: int) {
    exists w :: w in ws && w.burnoutLabel == flag
  }

  /** With binary labels, two distinct labels means both an at-risk and a safe week. */
  lemma TrainingGate(ws: seq<Week>)
    requires forall w :: w in ws ==> w.burnoutLabel == 0 || w.burnoutLabel == 1
    ensures CanFallbackTrain(ws) <==> |ws| >= MinTrainingWeeks && HasLabel(ws, 0) && HasLabel(ws, 1)
  {
    var labels := LabelSet(ws);
    assert labels <= {0, 1};
    if HasLabel(ws, 0) && HasLabel(ws, 1) {
      var w0 :| w0 in ws && w0.burnoutLabel == 0;
      var w1 :| w1 in ws && w1.burnoutLabel == 1;
      assert 0 in labels && 1 in labels;
      assert labels == {0, 1};
    } else if HasLabel(ws, 0) {
      assert labels <= {0};
      SubsetSize(labels, {0});
    } else if HasLabel(ws, 1) {
      assert labels <= {1};
      SubsetSize(labels, {1});
    } else {
      assert labels == {};
    }
  }

  lemma SubsetSize(a: set<int>, b: set<int>)
    requires a <= b
    ensures |a| <= |b|
  {
    assert b == a + (b - a);
  }

  /** On the weekly table the gate asks for six weeks, at least one of them with a
      low-sleep, high-stress day and at least one without. */
  lemma WeeklyTrainingGate(days: seq<Day>)
    ensures var ws := MakeWeeklyLabels(days);
      CanFallbackTrain(ws) <==>
        && |ws| >= MinTrainingWeeks
        && (exists w :: w in ws && !WeekAtRisk(days, w.week))
        && (exists w :: w in ws && WeekAtRisk(days, w.week))
  {
    var ws := MakeWeeklyLabels(days);
    forall w | w in ws
      ensures w.burnoutLabel == 0 || w.burnoutLabel == 1
      ensures w.burnoutLabel == 1 <==> WeekAtRisk(days, w.week)
    {
      WeeklyLabel(days, w);
    }
    TrainingGate(ws);
  }

  /** Some day of the week starting `monday` had less than 5 hours of sleep and stress above 3. */
  predicate WeekAtRisk(days: seq<Day>, monday: int) {
    exists i :: 0 <= i < |days| && WeekKey(days[i].date) == monday && AtRisk(days[i])
  }

  // ---------------------------------------------------------------------------
  // Suggestions
  // ---------------------------------------------------------------------------

  datatype Suggestion = RestMore | EatBetter | Unwind

  function Message(s: Suggestion): string {
    match s
    case RestMore => "\U{1F634} Sleep 7–8 hrs daily, 20 min walk, reduce screen time."
    case EatBetter => "\U{1F34E} Eat more protein & balance meals (calorie deficit too high)."
    case Unwind => "\U{1F9D8} Try meditation, short breaks, weekend rest."
  }

  const OnTrackMessage: string := "✅ You're on track — keep it up!"

  /** The messages the panel ends with: one bulleted line per suggestion, or the
      "on track" message when there is none. */
  function Notices(s: seq<Suggestion>): seq<string> {
    if s == [] then [OnTrackMessage]
    else seq(|s|, k requires 0 <= k < |s| => "• " + Message(s[k]))
  }

  /** The "on track" message appears exactly when no suggestion is listed, and then alone. */
  lemma NoticesOnTrack(s: seq<Suggestion>)
    ensures OnTrackMessage in Notices(s) <==> s == []
    ensures s == [] ==> Notices(s) == [OnTrackMessage]
    ensures s != [] ==> |Notices(s)| == |s|
  {
    if s != [] {
      forall k | 0 <= k < |s| ensures Notices(s)[k] != OnTrackMessage {
        assert Notices(s)[k][0] == '•' != OnTrackMessage[0];
      }
    }
  }

  /** Position of a suggestion in the list the dashboard shows. */
  function Position(s: Suggestion): nat {
    match s
    case RestMore => 0
    case EatBetter => 1
    case Unwind => 2
  }

  const HighRisk: real := 0.7
  const DeficitLimit: real := -500.0
  const StressLimit: real := 3.0
  /** The suggestions look at the last week of daily rows. */
  const RecentDays: nat := 7

  /** The mean of a daily column over the last seven rows, missing cells skipped. */
  function RecentMean(days: seq<Day>, a: Attr): Option<real> {
    Mean(Tail(ColumnOf(days, a), RecentDays))
  }

  /** The recent calorie balance is below -500; false when it is missing. */
  predicate LargeDeficit(days: seq<Day>) {
    var m := RecentMean(days, CalorieBalance);
    m.Some? && m.value < DeficitLimit
  }

  /** The recent stress level is above 3; false when it is missing. */
  predicate Stressed(days: seq<Day>) {
    var m := RecentMean(days, Base(Stress));
    m.Some? && m.value > StressLimit
  }

  /** `s` lists each suggestion exactly when its condition holds, once, in the fixed
      order. */
  predicate Lists(s: seq<Suggestion>, rest: bool, eat: bool, unwind: bool) {
    && (RestMore in s <==> rest)
    && (EatBetter in s <==> eat)
    && (Unwind in s <==> unwind)
    && (forall p, q :: 0 <= p < q < |s| ==> Position(s[p]) < Position(s[q]))
  }

  /** The advice for risk `proba` on daily rows `days`. */
  predicate Advice(proba: real, days: seq<Day>, s: seq<Suggestion>) {
    Lists(s, proba > HighRisk, LargeDeficit(days), Stressed(days))
  }

  /** The suggestion list of the dashboard. */
  method Suggest(proba: real, days: seq<Day>) returns (suggestions: seq<Suggestion>)
    ensures Advice(proba, days, suggestions)
  {
    var rest, eat, unwind := proba > HighRisk, LargeDeficit(days), Stressed(days);
    suggestions := [];
    if rest {
      suggestions := suggestions + [RestMore];
    }
    if eat {
      suggestions := suggestions + [EatBetter];
    }
    if unwind {
      suggestions := suggestions + [Unwind];
    }
    assert Lists(suggestions, rest, eat, unwind);
  }

  /** The advice for given inputs is a single list, so whether the dashboard is on
      track is determined by the three conditions alone. */
  lemma {:induction false} AdviceUnique(proba: real, days: seq<Day>, s: seq<Suggestion>, t: seq<Suggestion>)
    requires Advice(proba, days, s) && Advice(proba, days, t)
    ensures s == t
    ensures s == [] <==> proba <= HighRisk && !LargeDeficit(days) && !Stressed(days)
  {
    var rest, eat, unwind := proba > HighRisk, LargeDeficit(days), Stressed(days);
    ListsShape(s, rest, eat, unwind);
    ListsShape(t, rest, eat, unwind);
  }

  lemma ListsShape(s: seq<Suggestion>, rest: bool, eat: bool, unwind: bool)
    requires Lists(s, rest, eat, unwind)
    ensures s == (if rest then [RestMore] else [])
               + (if eat then [EatBetter] else [])
               + (if unwind then [Unwind] else [])
  {
    forall p | 0 <= p < |s| ensures p <= Position(s[p]) <= 2 - (|s| - 1 - p) {
      PositionLower(s, p);
      PositionUpper(s, p);
    }
    if |s| == 3 {
      assert s == [RestMore, EatBetter, Unwind];
    } else if |s| == 2 {
      assert s[0] in s && s[1] in s;
    } else if |s| == 1 {
      assert s[0] in s;
    }
  }

  lemma {:induction false} PositionLower(s: seq<Suggestion>, p: nat)
    requires forall i, j :: 0 <= i < j < |s| ==> Position(s[i]) < Position(s[j])
    requires p < |s|
    ensures Position(s[p]) >= p
  {
    if p > 0 {
      PositionLower(s, p - 1);
    }
  }

  lemma {:induction false} PositionUpper(s: seq<Suggestion>, p: nat)
    requires forall i, j :: 0 <= i < j < |s| ==> Position(s[i]) < Position(s[j])
    requires p < |s|
    ensures Position(s[p]) + (|s| - 1 - p) <= 2
    decreases |s| - p
  {
    if p + 1 < |s| {
      PositionUpper(s, p + 1);
    }
  }

  // ---------------------------------------------------------------------------
  // One run of the dashboard
  // ---------------------------------------------------------------------------

  /** Weekly rows shown in the preview table. */
  const PreviewRows: nat := 5

  /** The prediction panel. `MissingFeature` and `WidthMismatch` stand for the exceptions
      that end the run: a feature name the weekly table lacks, and a feature vector the
      classifier cannot score. */
  datatype Panel =
    | Hidden
    | MissingFeature
    | WidthMismatch
    | Shown(probability: real, reasons: seq<string>, suggestions: seq<Suggestion>, notices: seq<string>)

  datatype Screen = Screen(preview: seq<Week>, trainingFailed: bool, panel: Panel)

  /** The model in use: the stored one, else one fitted on the weekly table when the
      gate allows it. */
  function ModelInUse(stored: Option<Bundle>, weekly: seq<Week>, fit: seq<Week> -> Classifier): Option<Classifier> {
    if stored.Some? then Some(stored.value.model)
    else if CanFallbackTrain(weekly) then Some(fit(weekly))
    else None
  }

  function FeaturesInUse(stored: Option<Bundle>): seq<string> {
    if stored.Some? then stored.value.features else FeatureCols
  }

  /** The train/load step of the dashboard: the stored bundle when there is one, else
      the demo model when the gate allows it. */
  method ChooseModel(stored: Option<Bundle>, weekly: seq<Week>, fit: seq<Week> -> Classifier)
    returns (model: Option<Classifier>, features: seq<string>, trainingFailed: bool)
    ensures model == ModelInUse(stored, weekly, fit)
    ensures features == FeaturesInUse(stored)
    ensures trainingFailed <==> stored.None? && !CanFallbackTrain(weekly)
  {
    trainingFailed := false;
    if stored.Some? {
      model, features := Some(stored.value.model), stored.value.features;
    } else {
      features := FeatureCols;
      if |weekly| >= MinTrainingWeeks && |LabelSet(weekly)| == 2 {
        model := Some(fit(weekly));
      } else {
        model := None;
        trainingFailed := true;
      }
    }
  }

  /** The prediction step of the dashboard: the panel for the chosen model, with its
      reasons and suggestions. */
  method ShowPanel(model: Option<Classifier>, features: seq<string>, weekly: seq<Week>,
                   days: seq<Day>, proba: (Classifier, seq<real>) -> real)
    returns (panel: Panel)
    ensures panel.Hidden? <==> model.None? || weekly == []
    ensures features == FeatureCols ==> !panel.MissingFeature?
    ensures model.Some? && weekly != [] ==>
      var x := Select(weekly[|weekly| - 1], features);
      && (x.None? <==> panel.MissingFeature?)
      && (x.Some? ==>
            && (Mismatched(model.value, x.value) <==> panel.WidthMismatch?)
            && (!Mismatched(model.value, x.value) ==>
                  && panel.Shown?
                  && panel.probability == proba(model.value, x.value)
                  && panel.reasons == Explanation(model.value, features, x.value, TopK)
                  && Advice(panel.probability, days, panel.suggestions)
                  && panel.notices == Notices(panel.suggestions)
                  && (OnTrackMessage in panel.notices <==> panel.suggestions == [])))
  {
    panel := Hidden;
    if model.Some? && weekly != [] {
      var last := weekly[|weekly| - 1];
      if features == FeatureCols {
        SelectFeatureCols(last);
      }
      var x := Select(last, features);
      if x.None? {
        panel := MissingFeature;
      } else if Mismatched(model.value, x.value) {
        panel := WidthMismatch;
      } else {
        var p := proba(model.value, x.value);
        var reasons := ExplainTopReasons(model.value, features, x.value, TopK);
        var suggestions := Suggest(p, days);
        NoticesOnTrack(suggestions);
        panel := Shown(p, reasons, suggestions, Notices(suggestions));
      }
    }
  }

  /** The dashboard on an uploaded daily table `raw`; `stored` is the bundle in
      `model.pkl` when that file exists. */
  method Run(raw: seq<RawRow>, stored: Option<Bundle>,
             fit: seq<Week> -> Classifier, proba: (Classifier, seq<real>) -> real)
    returns (screen: Screen)
    ensures var days := DailyFeatures(raw);
      var weekly := MakeWeeklyLabels(days);
      var model := ModelInUse(stored, weekly, fit);
      var features := FeaturesInUse(stored);
      && |screen.preview| == Min(PreviewRows, |weekly|)
      && (forall k :: 0 <= k < |screen.preview| ==>
            screen.preview[k] == weekly[|weekly| - |screen.preview| + k])
      && (screen.trainingFailed <==> stored.None? && !CanFallbackTrain(weekly))
      && (screen.panel.Hidden? <==> model.None? || weekly == [])
      && (stored.None? ==> !screen.panel.MissingFeature?)
      && (model.Some? && weekly != [] ==>
            var x := Select(weekly[|weekly| - 1], features);
            && (x.None? <==> screen.panel.MissingFeature?)
            && (x.Some? ==>
                  && (Mismatched(model.value, x.value) <==> screen.panel.WidthMismatch?)
                  && (!Mismatched(model.value, x.value) ==>
                        && screen.panel.Shown?
                        && screen.panel.probability == proba(model.value, x.value)
                        && screen.panel.reasons == Explanation(model.value, features, x.value, TopK)
                        && Advice(screen.panel.probability, days, screen.panel.suggestions)
                        && screen.panel.notices == Notices(screen.panel.suggestions)
                        && (OnTrackMessage in screen.panel.notices <==> screen.panel.suggestions == []))))
  {
    var days := CleanAndFeatures(raw);
    var weekly := MakeWeeklyLabels(days);
    var preview := weekly[|weekly| - Min(PreviewRows, |weekly|)..];
    var model, features, trainingFailed := ChooseModel(stored, weekly, fit);
    var panel := ShowPanel(model, features, weekly, days, proba);
    screen := Screen(preview, trainingFailed, panel);
  }
}
