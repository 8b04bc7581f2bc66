/** The stateful part of FaceDetectionService: the retained metric record and the
    five-frame history that smoothMetrics updates, and detectEmotion, which runs
    one frame through extraction, smoothing, classification and confidence. */
module FaceDetection {
  import opened Numeric
  import opened Types
  import opened Landmarks
  import opened Classifier
  import opened Confidence

  const SmoothingAlpha: real := 0.6
  const MaxHistoryLength: nat := 5

  /** The record the constructor starts from: five keys at 0; mouthCornersDown is absent. */
  const InitialPreviousMetrics: map<MetricKey, real> :=
    map[EyebrowRaise := 0.0, SmileWidth := 0.0, EyeOpenness := 0.0, MouthOpen := 0.0, BrowFurrow := 0.0]

  /** `this.previousMetrics[key] || current`: a missing key or a stored 0 falls
      back to the current value. */
  function EffectivePrevious(prev: map<MetricKey, real>, k: MetricKey, current: real): real
  {
    if k in prev && prev[k] != 0.0 then prev[k] else current
  }

  /** Exponential moving average with weight alpha on the new value. */
  function SmoothValue(current: real, previous: real): real
  {
    SmoothingAlpha * current + (1.0 - SmoothingAlpha) * previous
  }

  function SmoothedKey(prev: map<MetricKey, real>, current: Metrics, k: MetricKey): real
  {
    SmoothValue(Metric(current, k), EffectivePrevious(prev, k, Metric(current, k)))
  }

  /** The metric set smoothMetrics returns for `current` given the stored record `prev`. */
  function Smooth(prev: map<MetricKey, real>, current: Metrics): (r: Metrics)
    ensures forall k :: Metric(r, k) == SmoothedKey(prev, current, k)
  {
    Metrics(SmoothedKey(prev, current, EyebrowRaise), SmoothedKey(prev, current, SmileWidth),
            SmoothedKey(prev, current, EyeOpenness), SmoothedKey(prev, current, MouthOpen),
            SmoothedKey(prev, current, BrowFurrow), SmoothedKey(prev, current, MouthCornersDown))
  }

  /** A metric set as the record it is stored as: one entry per key. */
  function AsRecord(m: Metrics): (r: map<MetricKey, real>)
    ensures r.Keys == MetricKeySet
    ensures forall k :: k in r ==> r[k] == Metric(m, k)
  {
    map k | k in MetricKeySet :: Metric(m, k)
  }

  /** Append one frame and drop the oldest when the history grows past five. */
  function PushBounded(history: seq<Metrics>, m: Metrics): (r: seq<Metrics>)
    requires |history| <= MaxHistoryLength
    ensures |r| <= MaxHistoryLength
    ensures |r| == if |history| < MaxHistoryLength then |history| + 1 else MaxHistoryLength
    ensures r[|r| - 1] == m
    ensures r[..|r| - 1] == history[|history| - (|r| - 1)..]
  {
    var pushed := history + [m];
    if |pushed| > MaxHistoryLength then pushed[1..] else pushed
  }

  /** Pushing a frame in [0, 1] onto a history in [0, 1] keeps every frame in [0, 1]. */
  lemma PushBoundedInUnitRange(history: seq<Metrics>, m: Metrics)
    requires |history| <= MaxHistoryLength
    requires forall i :: 0 <= i < |history| ==> MetricsInUnitRange(history[i])
    requires MetricsInUnitRange(m)
    ensures forall i :: 0 <= i < |PushBounded(history, m)| ==> MetricsInUnitRange(PushBounded(history, m)[i])
  {
    var r := PushBounded(history, m);
    forall i | 0 <= i < |r| ensures MetricsInUnitRange(r[i]) {
      if i < |r| - 1 {
        assert r[i] == r[..|r| - 1][i] == history[|history| - (|r| - 1) + i];
      }
    }
  }

  lemma MetricsExtensional(a: Metrics, b: Metrics)
    requires forall k :: Metric(a, k) == Metric(b, k)
    ensures a == b
  {
    assert Metric(a, EyebrowRaise) == Metric(b, EyebrowRaise);
    assert Metric(a, SmileWidth) == Metric(b, SmileWidth);
    assert Metric(a, EyeOpenness) == Metric(b, EyeOpenness);
    assert Metric(a, MouthOpen) == Metric(b, MouthOpen);
    assert Metric(a, BrowFurrow) == Metric(b, BrowFurrow);
    assert Metric(a, MouthCornersDown) == Metric(b, MouthCornersDown);
  }

  /** Each smoothed value lies between the current value and the effective previous one. */
  lemma SmoothBetween(prev: map<MetricKey, real>, current: Metrics)
    ensures forall k :: var c := Metric(current, k); var p := EffectivePrevious(prev, k, c);
      Min(c, p) <= Metric(Smooth(prev, current), k) <= Max(c, p)
  {
  }

  /** With nothing usable stored (a missing key or a 0), the smoothed value is the
      current value; on the first frame this holds for every key. */
  lemma SmoothWithoutPrevious(prev: map<MetricKey, real>, current: Metrics)
    ensures forall k :: k !in prev || prev[k] == 0.0 ==> Metric(Smooth(prev, current), k) == Metric(current, k)
    ensures Smooth(InitialPreviousMetrics, current) == current
  {
    var first := Smooth(InitialPreviousMetrics, current);
    forall k ensures Metric(first, k) == Metric(current, k) {
      assert k !in InitialPreviousMetrics || InitialPreviousMetrics[k] == 0.0;
    }
    MetricsExtensional(first, current);
  }

  /** A stored record whose every value is in [0, 1]. */
  ghost predicate RecordInUnitRange(prev: map<MetricKey, real>)
  {
    forall k :: k in prev ==> InUnitRange(prev[k])
  }

  /** Smoothing unit-range metrics against a unit-range record stays in [0, 1], and
      so does the record it leaves behind. */
  lemma SmoothKeepsUnitRange(prev: map<MetricKey, real>, current: Metrics)
    requires RecordInUnitRange(prev) && MetricsInUnitRange(current)
    ensures MetricsInUnitRange(Smooth(prev, current))
    ensures RecordInUnitRange(prev + AsRecord(Smooth(prev, current)))
  {
    SmoothBetween(prev, current);
    var s := Smooth(prev, current);
    forall k ensures InUnitRange(Metric(s, k)) {
      var c := Metric(current, k);
      assert InUnitRange(c);
      assert InUnitRange(EffectivePrevious(prev, k, c));
    }
  }

  /** A face held still at a value already stored (and non-zero) stays there. */
  lemma SmoothFixedPoint(prev: map<MetricKey, real>, current: Metrics)
    requires forall k :: k in prev && prev[k] == Metric(current, k) && prev[k] != 0.0
    ensures Smooth(prev, current) == current
  {
    forall k ensures Metric(Smooth(prev, current), k) == Metric(current, k) {
    }
    MetricsExtensional(Smooth(prev, current), current);
  }

  /** The record after the first `count` keys of one smoothMetrics pass. */
  function SmoothedPrefix(prev: map<MetricKey, real>, current: Metrics, count: nat): map<MetricKey, real>
    requires count <= |MetricKeys|
  {
    if count == 0 then map[]
    else
      var k := MetricKeys[count - 1];
      SmoothedPrefix(prev, current, count - 1)[k := SmoothedKey(prev, current, k)]
  }

  lemma {:induction false} SmoothedPrefixKeys(prev: map<MetricKey, real>, current: Metrics, count: nat)
    requires count <= |MetricKeys|
    ensures forall k :: k in SmoothedPrefix(prev, current, count) <==> KeyRank(k) < count
    ensures forall k :: k in SmoothedPrefix(prev, current, count) ==>
      SmoothedPrefix(prev, current, count)[k] == SmoothedKey(prev, current, k)
  {
    if count > 0 {
      SmoothedPrefixKeys(prev, current, count - 1);
      assert KeyRank(MetricKeys[count - 1]) == count - 1;
    }
  }

  lemma SmoothedPrefixComplete(prev: map<MetricKey, real>, current: Metrics)
    ensures SmoothedPrefix(prev, current, |MetricKeys|) == AsRecord(Smooth(prev, current))
  {
    SmoothedPrefixKeys(prev, current, |MetricKeys|);
    var full := SmoothedPrefix(prev, current, |MetricKeys|);
    assert forall k :: k in full <==> k in MetricKeySet;
  }

  /** What face-api returns for one frame with a face in it. */
  datatype FaceReading = FaceReading(expressions: Expressions, landmarks: seq<Point>)

  /** The object detectEmotion resolves to; `landmarks` holds the smoothed metrics. */
  datatype Detection = Detection(
    expressions: Expressions, landmarks: Metrics, learningState: LearningState,
    confidence: real, faceDetected: bool, timestamp: int)

  class FaceDetectionService {
    var modelsLoaded: bool
    var isLoading: bool
    var previousMetrics: map<MetricKey, real>
    var metricsHistory: seq<Metrics>

    ghost predicate Valid()
      reads this
    {
      |metricsHistory| <= MaxHistoryLength
    }

    /** Every stored value is in [0, 1]: the record and each frame of the history. */
    ghost predicate Calibrated()
      reads this
    {
      && RecordInUnitRange(previousMetrics)
      && forall i :: 0 <= i < |metricsHistory| ==> MetricsInUnitRange(metricsHistory[i])
    }

    constructor()
      ensures Valid() && Calibrated()
      ensures !modelsLoaded && !isLoading
      ensures previousMetrics == InitialPreviousMetrics && metricsHistory == []
    {
      modelsLoaded := false;
      isLoading := false;
      previousMetrics := InitialPreviousMetrics;
      metricsHistory := [];
    }

    /** loadModels, with the outcome of loading the three networks as a parameter:
        a call while loaded or loading only reports modelsLoaded. */
    method LoadModels(networksLoad: bool) returns (ok: bool)
      modifies this
      ensures old(modelsLoaded) || old(isLoading) ==> ok == old(modelsLoaded) && unchanged(this)
      ensures !old(modelsLoaded) && !old(isLoading) ==>
        ok == networksLoad && modelsLoaded == networksLoad && !isLoading
      ensures previousMetrics == old(previousMetrics) && metricsHistory == old(metricsHistory)
    {
      if modelsLoaded || isLoading {
        return modelsLoaded;
      }
      isLoading := true;
      if networksLoad {
        modelsLoaded := true;
        isLoading := false;
        return true;
      }
      isLoading := false;
      return false;
    }

    /** smoothMetrics: one pass over the six keys, each smoothed against the stored
        record and written back to it, then the result appended to the history. */
    method SmoothMetrics(current: Metrics) returns (smoothed: Metrics)
      requires Valid()
      modifies this
      ensures Valid()
      ensures smoothed == Smooth(old(previousMetrics), current)
      ensures previousMetrics == old(previousMetrics) + AsRecord(smoothed)
      ensures metricsHistory == PushBounded(old(metricsHistory), smoothed)
      ensures modelsLoaded == old(modelsLoaded) && isLoading == old(isLoading)
    {
      ghost var prev := previousMetrics;
      var values := SmoothKeys(current);
      smoothed := MetricsFromMap(values);
      MetricsExtensional(smoothed, Smooth(prev, current));
      var pushed := metricsHistory + [smoothed];
      if |pushed| > MaxHistoryLength {
        pushed := pushed[1..];
      }
      metricsHistory := pushed;
    }

    /** The key loop of smoothMetrics: the values it computes, which it also writes
        into the stored record. */
    method SmoothKeys(current: Metrics) returns (values: map<MetricKey, real>)
      modifies this
      ensures values == AsRecord(Smooth(old(previousMetrics), current))
      ensures previousMetrics == old(previousMetrics) + values
      ensures metricsHistory == old(metricsHistory)
      ensures modelsLoaded == old(modelsLoaded) && isLoading == old(isLoading)
    {
      values := map[];
      var i := 0;
      while i < |MetricKeys|
        invariant 0 <= i <= |MetricKeys|
        invariant values == SmoothedPrefix(old(previousMetrics), current, i)
        invariant previousMetrics == old(previousMetrics) + values
        invariant metricsHistory == old(metricsHistory)
        invariant modelsLoaded == old(modelsLoaded) && isLoading == old(isLoading)
      {
        var key := MetricKeys[i];
        SmoothedPrefixKeys(old(previousMetrics), current, i);
        assert KeyRank(key) == i;
        var currentValue := Metric(current, key);
        var previous := if key in previousMetrics && previousMetrics[key] != 0.0 then previousMetrics[key] else currentValue;
        var value := SmoothingAlpha * currentValue + (1.0 - SmoothingAlpha) * previous;
        values := values[key := value];
        previousMetrics := previousMetrics[key := value];
        i := i + 1;
      }
      SmoothedPrefixComplete(old(previousMetrics), current);
    }

    /** detectEmotion on one frame. The face model's answer is a parameter: None when
        it finds no face or fails. Nothing changes, and the result is null, when the
        models are not loaded, the video is not ready or there is no face. */
    method DetectEmotion(videoReady: bool, reading: Option<FaceReading>, now: int) returns (result: Option<Detection>)
      requires Valid()
      requires reading.Some? ==> WellFormed(reading.value.landmarks)
      modifies this
      ensures Valid()
      ensures !old(modelsLoaded) || !videoReady || reading.None? ==> result.None? && unchanged(this)
      ensures old(modelsLoaded) && videoReady && reading.Some? ==>
        var e := reading.value.expressions;
        var smoothed := Smooth(old(previousMetrics), AnalyzeLandmarks(reading.value.landmarks));
        var state := MapToLearningStateAdvanced(e, smoothed);
        && metricsHistory == PushBounded(old(metricsHistory), smoothed)
        && previousMetrics == old(previousMetrics) + AsRecord(smoothed)
        && result == Some(Detection(e, smoothed, state, AdvancedConfidence(e, smoothed, state, metricsHistory), true, now))
      ensures result.Some? ==> 0.3 <= result.value.confidence <= 1.0 && result.value.faceDetected
      ensures result.Some? ==>
        && result.value.timestamp == now
        && result.value.learningState == MapToLearningStateAdvanced(result.value.expressions, result.value.landmarks)
      ensures old(Calibrated()) ==> Calibrated() && (result.Some? ==> MetricsInUnitRange(result.value.landmarks))
      ensures modelsLoaded == old(modelsLoaded) && isLoading == old(isLoading)
    {
      if !modelsLoaded || !videoReady || reading.None? {
        return None;
      }
      var expressions := reading.value.expressions;
      var landmarkMetrics := AnalyzeLandmarks(reading.value.landmarks);
      ghost var wasCalibrated := Calibrated();
      ghost var oldHistory := metricsHistory;
      if wasCalibrated {
        SmoothKeepsUnitRange(previousMetrics, landmarkMetrics);
      }
      var smoothedMetrics := SmoothMetrics(landmarkMetrics);
      if wasCalibrated {
        PushBoundedInUnitRange(oldHistory, smoothedMetrics);
      }
      var learningState := MapToLearningStateAdvanced(expressions, smoothedMetrics);
      var confidence := AdvancedConfidence(expressions, smoothedMetrics, learningState, metricsHistory);
      result := Some(Detection(expressions, smoothedMetrics, learningState, confidence, true, now));
    }
  }
}
