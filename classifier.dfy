/** The state classifiers of FaceDetectionService: the fused landmark-and-expression
    classifier mapToLearningStateAdvanced, and the older expression-only
    mapToLearningState the source keeps as a fallback. Both are ordered decision
    lists: the first rule that fires decides, and "focused" is the default. */
module Classifier {
  import opened Types

  // ---- mapToLearningStateAdvanced ----

  function ConfusionScore(e: Expressions, m: Metrics): real
  {
    m.eyebrowRaise * 0.4 + m.mouthOpen * 0.2 + m.browFurrow * 0.2 + e.surprised * 0.15 + e.fearful * 0.05
  }

  predicate ConfusedRule(e: Expressions, m: Metrics)
  {
    ConfusionScore(e, m) > 0.15 || m.eyebrowRaise > 0.3 || e.surprised > 0.2
  }

  function TiredScore(e: Expressions, m: Metrics): real
  {
    (1.0 - m.eyeOpenness) * 0.45 + (1.0 - m.smileWidth) * 0.15 + e.neutral * 0.15 + e.sad * 0.15
      + (1.0 - m.eyebrowRaise) * 0.1
  }

  predicate TiredRule(e: Expressions, m: Metrics)
  {
    TiredScore(e, m) > 0.20 || m.eyeOpenness < 0.55 || (e.neutral > 0.6 && m.eyeOpenness < 0.65)
  }

  function BoredScore(e: Expressions, m: Metrics): real
  {
    m.mouthCornersDown * 0.30 + e.sad * 0.25 + (1.0 - m.smileWidth) * 0.20 + e.neutral * 0.15
      + e.disgusted * 0.10
  }

  predicate BoredRule(e: Expressions, m: Metrics)
  {
    || BoredScore(e, m) > 0.12
    || m.mouthCornersDown > 0.25
    || e.sad > 0.10
    || (e.neutral > 0.55 && m.smileWidth < 0.35)
    || (m.mouthCornersDown > 0.15 && e.neutral > 0.4)
  }

  function MapToLearningStateAdvanced(e: Expressions, m: Metrics): (r: LearningState)
    // the strong single signals always mean confusion
    ensures m.eyebrowRaise > 0.3 || e.surprised > 0.2 ==> r == Confused
    // rules are tried in the order confused, tired, bored
    ensures r == Confused <==> ConfusedRule(e, m)
    ensures r == Tired <==> !ConfusedRule(e, m) && TiredRule(e, m)
    ensures r == Bored <==> !ConfusedRule(e, m) && !TiredRule(e, m) && BoredRule(e, m)
    ensures r == Focused <==> !ConfusedRule(e, m) && !TiredRule(e, m) && !BoredRule(e, m)
  {
    if ConfusedRule(e, m) then Confused
    else if TiredRule(e, m) then Tired
    else if BoredRule(e, m) then Bored
    else Focused
  }

  /** What a "focused" verdict tells about the face: eyes well open, brows not
      raised, no surprise, no sadness, mouth corners not drooping. */
  lemma FocusedMeansAttentiveFace(e: Expressions, m: Metrics)
    requires MapToLearningStateAdvanced(e, m) == Focused
    ensures m.eyeOpenness >= 0.55
    ensures m.eyebrowRaise <= 0.3 && e.surprised <= 0.2
    ensures e.sad <= 0.10 && m.mouthCornersDown <= 0.25
    ensures e.neutral > 0.6 ==> m.eyeOpenness >= 0.65
  {
  }

  /** With every metric in [0, 1] a "focused" face has eyes more than 0.7 open
      and some smile: the fatigue score stays at or below 0.20 only when the eye
      term and the smile term are both small. */
  lemma {:induction false} FocusedNeedsOpenEyesAndSmile(e: Expressions, m: Metrics)
    requires MetricsInUnitRange(m)
    requires e.neutral >= 0.0 && e.sad >= 0.0
    requires MapToLearningStateAdvanced(e, m) == Focused
    ensures m.eyeOpenness > 0.7
    ensures m.smileWidth > 0.1
  {
    assert InUnitRange(Metric(m, EyebrowRaise));
    assert m.eyebrowRaise <= 0.3;
    assert (1.0 - m.eyebrowRaise) * 0.1 >= 0.07;
    assert InUnitRange(Metric(m, SmileWidth));
    assert InUnitRange(Metric(m, EyeOpenness));
    assert TiredScore(e, m) <= 0.20;
  }

  /** Closing eyes is enough for "tired" once the confusion signals are absent. */
  lemma ClosedEyesWithoutConfusionIsTired(e: Expressions, m: Metrics)
    requires m.eyeOpenness < 0.55 && !ConfusedRule(e, m)
    ensures MapToLearningStateAdvanced(e, m) == Tired
  {
  }

  // ---- mapToLearningState (expression vector only) ----

  /** `values.filter(v => v > threshold).length` */
  function CountAbove(values: seq<real>, threshold: real): (n: nat)
    ensures n <= |values|
  {
    if |values| == 0 then 0
    else (if values[0] > threshold then 1 else 0) + CountAbove(values[1..], threshold)
  }

  /** The positions whose value passes the filter. */
  ghost function AboveIndices(values: seq<real>, threshold: real): set<int>
  {
    set i | 0 <= i < |values| && values[i] > threshold
  }

  lemma {:induction false} CountAboveSnoc(a: seq<real>, x: real, threshold: real)
    ensures CountAbove(a + [x], threshold) == CountAbove(a, threshold) + (if x > threshold then 1 else 0)
  {
    if |a| > 0 {
      assert (a + [x])[1..] == a[1..] + [x];
      CountAboveSnoc(a[1..], x, threshold);
    }
  }

  /** The filtered length is the number of values above the threshold. */
  lemma {:induction false} CountAboveCounts(values: seq<real>, threshold: real)
    ensures CountAbove(values, threshold) == |AboveIndices(values, threshold)|
    decreases |values|
  {
    if |values| == 0 {
      assert AboveIndices(values, threshold) == {};
    } else {
      var k := |values| - 1;
      var a := values[..k];
      assert values == a + [values[k]];
      CountAboveSnoc(a, values[k], threshold);
      CountAboveCounts(a, threshold);
      if values[k] > threshold {
        assert AboveIndices(values, threshold) == AboveIndices(a, threshold) + {k};
        assert k !in AboveIndices(a, threshold);
      } else {
        assert AboveIndices(values, threshold) == AboveIndices(a, threshold);
      }
    }
  }

  /** How many of the six non-neutral expressions exceed 0.12. */
  function SignificantEmotions(e: Expressions): nat
  {
    CountAbove([e.happy, e.sad, e.angry, e.fearful, e.disgusted, e.surprised], 0.12)
  }

  predicate LegacyConfusedRule(e: Expressions)
  {
    (e.surprised > 0.25 || e.fearful > 0.2) || (SignificantEmotions(e) >= 3 && e.neutral < 0.4)
  }

  predicate LegacyBoredRule(e: Expressions)
  {
    (e.sad > 0.25 || e.disgusted > 0.2) || (e.neutral > 0.75 && e.happy < 0.1 && e.surprised < 0.1)
  }

  predicate LegacyTiredRule(e: Expressions)
  {
    || (e.neutral > 0.45 && e.sad > 0.15 && e.sad < 0.35 && e.happy < 0.15)
    || (e.angry > 0.2 && e.angry < 0.5 && e.happy < 0.12 && e.surprised < 0.12)
  }

  function MapToLearningState(e: Expressions): (r: LearningState)
    ensures e.surprised > 0.25 || e.fearful > 0.2 ==> r == Confused
    ensures r == Confused <==> LegacyConfusedRule(e)
    ensures r == Bored <==> !LegacyConfusedRule(e) && LegacyBoredRule(e)
    ensures r == Tired <==> !LegacyConfusedRule(e) && !LegacyBoredRule(e) && LegacyTiredRule(e)
    ensures r == Focused <==> !LegacyConfusedRule(e) && !LegacyBoredRule(e) && !LegacyTiredRule(e)
  {
    if e.surprised > 0.25 || e.fearful > 0.2 then Confused
    else if SignificantEmotions(e) >= 3 && e.neutral < 0.4 then Confused
    else if e.sad > 0.25 || e.disgusted > 0.2 then Bored
    else if e.neutral > 0.75 && e.happy < 0.1 && e.surprised < 0.1 then Bored
    else if e.neutral > 0.45 && e.sad > 0.15 && e.sad < 0.35 && e.happy < 0.15 then Tired
    else if e.angry > 0.2 && e.angry < 0.5 && e.happy < 0.12 && e.surprised < 0.12 then Tired
    else if e.happy > 0.25 then Focused
    else if e.neutral >= 0.35 && e.neutral <= 0.65 && e.happy >= 0.12 && e.sad < 0.15 then Focused
    else Focused
  }

  /** The tired rule's upper bound sad < 0.35 is shadowed by the earlier bored
      rule: a legacy "tired" verdict always has sad at most 0.25. */
  lemma LegacyTiredHasMildSadness(e: Expressions)
    requires MapToLearningState(e) == Tired
    ensures e.sad <= 0.25 && e.disgusted <= 0.2
    ensures e.surprised <= 0.25 && e.fearful <= 0.2
  {
  }

  /** Three or more clear non-neutral expressions with little neutrality read as confusion. */
  lemma {:induction false} MixedExpressionsAreConfused(e: Expressions)
    requires e.happy > 0.12 && e.sad > 0.12 && e.angry > 0.12 && e.neutral < 0.4
    ensures MapToLearningState(e) == Confused
  {
    var v := [e.happy, e.sad, e.angry, e.fearful, e.disgusted, e.surprised];
    assert v[1..] == [e.sad, e.angry, e.fearful, e.disgusted, e.surprised];
    assert v[1..][1..] == [e.angry, e.fearful, e.disgusted, e.surprised];
    assert CountAbove(v, 0.12) == 2 + CountAbove(v[1..][1..], 0.12);
  }
}
