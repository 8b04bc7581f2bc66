/** The confidence scorers of FaceDetectionService: getAdvancedConfidence with its
    helper calculateVariance over the recent smoothed metric sets, and the older
    expression-only getConfidence. */
module Confidence {
  import opened Numeric
  import opened Types

  /** How clearly one expression stands out: twice the gap between the largest
      probability and the mean of the seven, capped at 1. */
  function ExpressionClarity(e: Expressions): (r: real)
    ensures 0.0 <= r <= 1.0
  {
    var values := ExpressionValues(e);
    SumAtMostCountTimesMax(values);
    Min((MaxOf(values) - Sum(values) / 7.0) * 2.0, 1.0)
  }

  /** The pronounced-movement term for the chosen state. */
  function LandmarkClarity(m: Metrics, s: LearningState): real
  {
    match s
    case Confused => (m.eyebrowRaise + m.browFurrow) / 2.0
    case Tired => 1.0 - m.eyeOpenness
    case Bored => (1.0 - m.smileWidth + 1.0 - m.eyeOpenness) / 2.0
    case Focused => (m.eyeOpenness + m.smileWidth) / 2.0
  }

  lemma LandmarkClarityInUnitRange(m: Metrics, s: LearningState)
    requires MetricsInUnitRange(m)
    ensures InUnitRange(LandmarkClarity(m, s))
  {
    assert InUnitRange(Metric(m, EyebrowRaise)) && InUnitRange(Metric(m, BrowFurrow));
    assert InUnitRange(Metric(m, EyeOpenness)) && InUnitRange(Metric(m, SmileWidth));
  }

  // ---- calculateVariance ----

  /** `metricsArray.map(m => m[key])` */
  function Column(frames: seq<Metrics>, k: MetricKey): (r: seq<real>)
    ensures |r| == |frames|
    ensures forall i :: 0 <= i < |frames| ==> r[i] == Metric(frames[i], k)
  {
    seq(|frames|, i requires 0 <= i < |frames| => Metric(frames[i], k))
  }

  function Mean(values: seq<real>): real
    requires |values| > 0
  {
    Sum(values) / |values| as real
  }

  function SquaredDeviations(values: seq<real>, mean: real): (r: seq<real>)
    ensures |r| == |values|
    ensures forall i :: 0 <= i < |values| ==> r[i] == (values[i] - mean) * (values[i] - mean)
  {
    seq(|values|, i requires 0 <= i < |values| => (values[i] - mean) * (values[i] - mean))
  }

  /** Population variance: the mean squared deviation from the mean. */
  function PopulationVariance(values: seq<real>): real
    requires |values| > 0
  {
    Sum(SquaredDeviations(values, Mean(values))) / |values| as real
  }

  /** Sum of the per-key variances over the first `count` metric keys. */
  function KeyVarianceTotal(frames: seq<Metrics>, count: nat): real
    requires |frames| > 0 && count <= |MetricKeys|
  {
    if count == 0 then 0.0
    else KeyVarianceTotal(frames, count - 1) + PopulationVariance(Column(frames, MetricKeys[count - 1]))
  }

  /** calculateVariance: 1 for no frames, otherwise the average over the six
      metric keys of each key's population variance across the frames. */
  function Variance(frames: seq<Metrics>): real
  {
    if |frames| == 0 then 1.0 else KeyVarianceTotal(frames, |MetricKeys|) / |MetricKeys| as real
  }

  method CalculateVariance(frames: seq<Metrics>) returns (v: real)
    ensures v == Variance(frames)
  {
    if |frames| == 0 {
      return 1.0;
    }
    var totalVariance := 0.0;
    var i := 0;
    while i < |MetricKeys|
      invariant 0 <= i <= |MetricKeys|
      invariant totalVariance == KeyVarianceTotal(frames, i)
    {
      var values := Column(frames, MetricKeys[i]);
      var mean := Sum(values) / |values| as real;
      var variance := Sum(SquaredDeviations(values, mean)) / |values| as real;
      totalVariance := totalVariance + variance;
      i := i + 1;
    }
    v := totalVariance / |MetricKeys| as real;
  }

  lemma PopulationVarianceNonNegative(values: seq<real>)
    requires |values| > 0
    ensures PopulationVariance(values) >= 0.0
  {
    var d := SquaredDeviations(values, Mean(values));
    forall i | 0 <= i < |d| ensures d[i] >= 0.0 {
      var x := values[i] - Mean(values);
      assert d[i] == x * x;
    }
    SumNonNegative(d);
  }

  /** A constant column has no spread. */
  lemma PopulationVarianceOfConstant(values: seq<real>, c: real)
    requires |values| > 0
    requires forall i :: 0 <= i < |values| ==> values[i] == c
    ensures PopulationVariance(values) == 0.0
  {
    SumConstant(values, c);
    var n := |values| as real;
    assert Mean(values) == (n * c) / n;
    assert Mean(values) == c;
    var d := SquaredDeviations(values, c);
    SumConstant(d, 0.0);
  }

  lemma {:induction false} KeyVarianceTotalNonNegative(frames: seq<Metrics>, count: nat)
    requires |frames| > 0 && count <= |MetricKeys|
    ensures KeyVarianceTotal(frames, count) >= 0.0
  {
    if count > 0 {
      KeyVarianceTotalNonNegative(frames, count - 1);
      PopulationVarianceNonNegative(Column(frames, MetricKeys[count - 1]));
    }
  }

  lemma VarianceNonNegative(frames: seq<Metrics>)
    ensures Variance(frames) >= 0.0
  {
    if |frames| > 0 {
      KeyVarianceTotalNonNegative(frames, |MetricKeys|);
    }
  }

  lemma {:induction false} KeyVarianceTotalOfIdentical(frames: seq<Metrics>, count: nat)
    requires |frames| > 0 && count <= |MetricKeys|
    requires forall i :: 0 <= i < |frames| ==> frames[i] == frames[0]
    ensures KeyVarianceTotal(frames, count) == 0.0
  {
    if count > 0 {
      KeyVarianceTotalOfIdentical(frames, count - 1);
      var k := MetricKeys[count - 1];
      PopulationVarianceOfConstant(Column(frames, k), Metric(frames[0], k));
    }
  }

  /** Frames that never change have variance 0. */
  lemma VarianceOfIdenticalFrames(frames: seq<Metrics>)
    requires |frames| > 0
    requires forall i :: 0 <= i < |frames| ==> frames[i] == frames[0]
    ensures Variance(frames) == 0.0
  {
    KeyVarianceTotalOfIdentical(frames, |MetricKeys|);
  }

  // ---- getAdvancedConfidence ----

  /** Neutral stability before three frames are known; afterwards one minus the
      variance of the last three, never below 0.3. */
  function TemporalStability(history: seq<Metrics>): (r: real)
    ensures |history| < 3 ==> r == 0.5
    ensures |history| >= 3 ==> 0.3 <= r <= 1.0
  {
    if |history| >= 3 then
      var recent := history[|history| - 3..];
      VarianceNonNegative(recent);
      Max(0.3, 1.0 - Variance(recent))
    else 0.5
  }

  /** Three identical most recent frames give full temporal stability. */
  lemma SteadyFaceIsFullyStable(history: seq<Metrics>)
    requires |history| >= 3
    requires history[|history| - 1] == history[|history| - 2] == history[|history| - 3]
    ensures TemporalStability(history) == 1.0
  {
    var recent := history[|history| - 3..];
    assert forall i :: 0 <= i < |recent| ==> recent[i] == recent[0];
    VarianceOfIdenticalFrames(recent);
  }

  /** getAdvancedConfidence on the service's metric history: a weighted fusion of
      expression clarity (0.3), landmark clarity (0.5) and temporal stability
      (0.2), clamped to [0.3, 1.0]. */
  function AdvancedConfidence(e: Expressions, m: Metrics, s: LearningState, history: seq<Metrics>): (r: real)
    ensures 0.3 <= r <= 1.0
  {
    var finalConfidence := ExpressionClarity(e) * 0.3 + LandmarkClarity(m, s) * 0.5
      + TemporalStability(history) * 0.2;
    Max(0.3, Min(finalConfidence, 1.0))
  }

  /** The weights sum to one: with every term at 1 the confidence is 1, and it
      stays strictly below 1 whenever landmark clarity is strictly below 1. */
  lemma AdvancedConfidenceWeights(e: Expressions, m: Metrics, s: LearningState, history: seq<Metrics>)
    ensures (ExpressionClarity(e) == 1.0 && LandmarkClarity(m, s) == 1.0 && TemporalStability(history) == 1.0)
      ==> AdvancedConfidence(e, m, s, history) == 1.0
    ensures LandmarkClarity(m, s) < 1.0 ==> AdvancedConfidence(e, m, s, history) < 1.0
  {
  }

  // ---- getConfidence (expression vector only) ----

  function StateScore(e: Expressions, s: LearningState): real
  {
    match s
    case Confused => Max(e.surprised, e.fearful)
    case Bored => Max(Max(e.sad, e.disgusted), if e.neutral > 0.75 then e.neutral else 0.0)
    case Tired => e.neutral * 0.5 + e.sad * 0.3 + e.angry * 0.2
    case Focused => Max(e.happy, if 0.35 <= e.neutral <= 0.65 then 0.6 else e.neutral * 0.5)
  }

  function GetConfidence(e: Expressions, s: LearningState): (r: real)
    ensures 0.2 <= r <= 1.0
  {
    var confidence := StateScore(e, s) * 0.7 + ExpressionClarity(e) * 0.3;
    Max(Min(confidence, 1.0), 0.2)
  }

  /** A mid-range neutral face scores at least 0.6 for "focused", so its legacy
      confidence is at least 0.42. */
  lemma MidNeutralFocusedConfidence(e: Expressions)
    requires 0.35 <= e.neutral <= 0.65
    ensures GetConfidence(e, Focused) >= 0.42
  {
  }
}
