/** The useWebcam hook as an object: its state variables and refs become fields,
    and each callback a method that updates them in the order the source does. */
module Webcam {
  import opened Types
  import opened Landmarks
  import opened Classifier
  import opened FaceDetection
  import opened EmotionHistory
  import opened Confidence

  const HistoryCapacity: nat := 20
  const ManualHistoryCapacity: nat := 10
  const AcceptThreshold: real := 0.4

  /** The arguments the hook passes to its registered emotion-change callback. */
  datatype Transition = Transition(from: LearningState, to: LearningState)

  /** The acceptance gate: a confident detection, or one repeating the last accepted state. */
  predicate Accepts(confidence: real, state: LearningState, last: Option<LearningState>)
  {
    confidence > AcceptThreshold || last == Some(state)
  }

  /** The transition an accepted state produces after `last`: only a change between
      two known states is reported. */
  function TransitionAfter(last: Option<LearningState>, state: LearningState): (t: Option<Transition>)
    ensures t.Some? <==> last.Some? && last.value != state
    ensures t.Some? ==> t.value.from == last.value && t.value.to == state && t.value.from != t.value.to
  {
    if last.Some? && last.value != state then Some(Transition(last.value, state)) else None
  }

  class WebcamState {
    var isWebcamActive: bool
    var modelsLoaded: bool
    var isLoadingModels: bool
    /** Whether videoRef.current is set. */
    var videoAttached: bool
    var currentEmotion: Option<LearningState>
    var previousEmotion: Option<LearningState>
    /** lastDetectionRef: the last accepted state. */
    var lastDetection: Option<LearningState>
    var emotionHistory: seq<HistoryEntry>
    /** detectionStats */
    var total: nat
    var successful: nat
    var failed: nat

    ghost predicate Valid()
      reads this
    {
      successful + failed <= total && |emotionHistory| <= HistoryCapacity
    }

    constructor()
      ensures Valid()
      ensures !isWebcamActive && !modelsLoaded && !isLoadingModels && !videoAttached
      ensures currentEmotion.None? && previousEmotion.None? && lastDetection.None?
      ensures emotionHistory == [] && total == 0 && successful == 0 && failed == 0
    {
      isWebcamActive := false;
      modelsLoaded := false;
      isLoadingModels := false;
      videoAttached := false;
      currentEmotion := None;
      previousEmotion := None;
      lastDetection := None;
      emotionHistory := [];
      total := 0;
      successful := 0;
      failed := 0;
    }

    /** The mount effect: ask the service to load its models and record the answer. */
    method LoadModels(detector: FaceDetectionService, networksLoad: bool)
      modifies this, detector
      ensures modelsLoaded == detector.modelsLoaded
      ensures modelsLoaded == if old(detector.modelsLoaded) || old(detector.isLoading)
        then old(detector.modelsLoaded) else networksLoad
      ensures !isLoadingModels
      ensures detector.previousMetrics == old(detector.previousMetrics)
      ensures detector.metricsHistory == old(detector.metricsHistory)
      ensures currentEmotion == old(currentEmotion) && previousEmotion == old(previousEmotion)
      ensures lastDetection == old(lastDetection) && emotionHistory == old(emotionHistory)
      ensures total == old(total) && successful == old(successful) && failed == old(failed)
      ensures videoAttached == old(videoAttached) && isWebcamActive == old(isWebcamActive)
    {
      isLoadingModels := true;
      var loaded := detector.LoadModels(networksLoad);
      modelsLoaded := loaded;
      isLoadingModels := false;
    }

    /** setVideoRef */
    method SetVideoAttached(attached: bool)
      modifies this
      ensures videoAttached == attached
      ensures isWebcamActive == old(isWebcamActive) && modelsLoaded == old(modelsLoaded)
      ensures isLoadingModels == old(isLoadingModels)
      ensures currentEmotion == old(currentEmotion) && previousEmotion == old(previousEmotion)
      ensures lastDetection == old(lastDetection) && emotionHistory == old(emotionHistory)
      ensures total == old(total) && successful == old(successful) && failed == old(failed)
    {
      videoAttached := attached;
    }

    /** handleFrameCapture on one tick. `videoReady` is the video element's ready
        state and `reading` what the face model finds in the frame; the returned
        detection is what detectEmotion resolved to, and the returned transition
        the call made to the emotion-change callback, if any. */
    method HandleFrameCapture(detector: FaceDetectionService, videoReady: bool, reading: Option<FaceReading>, now: int)
      returns (detection: Option<Detection>, transition: Option<Transition>)
      requires Valid() && detector.Valid()
      requires reading.Some? ==> WellFormed(reading.value.landmarks)
      modifies this, detector
      ensures Valid() && detector.Valid()
      ensures modelsLoaded == old(modelsLoaded) && videoAttached == old(videoAttached)
      ensures isLoadingModels == old(isLoadingModels) && isWebcamActive == old(isWebcamActive)
      // before the models are loaded or the video is attached nothing at all changes
      ensures !modelsLoaded || !videoAttached ==>
        detection.None? && transition.None? && unchanged(this) && unchanged(detector)
      // every analysed frame counts once
      ensures modelsLoaded && videoAttached ==> total == old(total) + 1
      ensures detection.Some? <==> modelsLoaded && videoAttached && old(detector.modelsLoaded) && videoReady && reading.Some?
      ensures detection.Some? ==>
        && detection.value.learningState == MapToLearningStateAdvanced(detection.value.expressions, detection.value.landmarks)
        && 0.3 <= detection.value.confidence <= 1.0
        && detection.value.timestamp == now
      // the detection is the detector's analysis of this reading
      ensures detection.Some? ==>
        var e := reading.value.expressions;
        var smoothed := Smooth(old(detector.previousMetrics), AnalyzeLandmarks(reading.value.landmarks));
        var state := MapToLearningStateAdvanced(e, smoothed);
        && detector.metricsHistory == PushBounded(old(detector.metricsHistory), smoothed)
        && detector.previousMetrics == old(detector.previousMetrics) + AsRecord(smoothed)
        && detection == Some(Detection(e, smoothed, state, AdvancedConfidence(e, smoothed, state, detector.metricsHistory), true, now))
      ensures detection.None? ==> unchanged(detector)
      // a frame without a detection is a failure and changes nothing else
      ensures modelsLoaded && videoAttached && detection.None? ==>
        && failed == old(failed) + 1 && successful == old(successful) && transition.None?
        && currentEmotion == old(currentEmotion) && previousEmotion == old(previousEmotion)
        && lastDetection == old(lastDetection) && emotionHistory == old(emotionHistory)
      ensures detection.Some? ==> failed == old(failed)
      // the acceptance gate
      ensures successful == old(successful) + 1 <==>
        detection.Some? && Accepts(detection.value.confidence, detection.value.learningState, old(lastDetection))
      ensures detection.Some? && !Accepts(detection.value.confidence, detection.value.learningState, old(lastDetection)) ==>
        && successful == old(successful) && transition.None?
        && currentEmotion == old(currentEmotion) && previousEmotion == old(previousEmotion)
        && lastDetection == old(lastDetection) && emotionHistory == old(emotionHistory)
      ensures detection.Some? && Accepts(detection.value.confidence, detection.value.learningState, old(lastDetection)) ==>
        var d := detection.value;
        && currentEmotion == Some(d.learningState) && lastDetection == Some(d.learningState)
        && transition == TransitionAfter(old(lastDetection), d.learningState)
        && previousEmotion == (if transition.Some? then old(lastDetection) else old(previousEmotion))
        && emotionHistory == AppendBounded(old(emotionHistory),
             HistoryEntry(d.learningState, Some(d.expressions), Some(d.confidence), now), HistoryCapacity - 1)
    {
      transition := None;
      detection := None;
      if !modelsLoaded {
        return;
      }
      if !videoAttached {
        return;
      }
      total := total + 1;
      detection := detector.DetectEmotion(videoReady, reading, now);
      if detection.Some? {
        transition := RecordDetection(detection.value, now);
      } else {
        failed := failed + 1;
      }
    }

    /** The `if (result)` branch of handleFrameCapture: the acceptance gate, the
        transition callback, the 20-entry history and the success counter. */
    method RecordDetection(d: Detection, now: int) returns (transition: Option<Transition>)
      requires successful + failed < total && |emotionHistory| <= HistoryCapacity
      modifies this
      ensures Valid()
      ensures total == old(total) && failed == old(failed)
      ensures modelsLoaded == old(modelsLoaded) && videoAttached == old(videoAttached)
      ensures isLoadingModels == old(isLoadingModels) && isWebcamActive == old(isWebcamActive)
      ensures successful == old(successful) + 1 <==> Accepts(d.confidence, d.learningState, old(lastDetection))
      ensures !Accepts(d.confidence, d.learningState, old(lastDetection)) ==>
        && successful == old(successful) && transition.None?
        && currentEmotion == old(currentEmotion) && previousEmotion == old(previousEmotion)
        && lastDetection == old(lastDetection) && emotionHistory == old(emotionHistory)
      ensures Accepts(d.confidence, d.learningState, old(lastDetection)) ==>
        && currentEmotion == Some(d.learningState) && lastDetection == Some(d.learningState)
        && transition == TransitionAfter(old(lastDetection), d.learningState)
        && previousEmotion == (if transition.Some? then old(lastDetection) else old(previousEmotion))
        && emotionHistory == AppendBounded(old(emotionHistory),
             HistoryEntry(d.learningState, Some(d.expressions), Some(d.confidence), now), HistoryCapacity - 1)
    {
      transition := None;
      var learningState := d.learningState;
      var confidence := d.confidence;
      var shouldUpdate := confidence > AcceptThreshold || lastDetection == Some(learningState);
      if shouldUpdate {
        if lastDetection.Some? && lastDetection.value != learningState {
          var previousState := lastDetection.value;
          transition := Some(Transition(previousState, learningState));
          previousEmotion := Some(previousState);
        }
        currentEmotion := Some(learningState);
        lastDetection := Some(learningState);
        var entry := HistoryEntry(learningState, Some(d.expressions), Some(confidence), now);
        emotionHistory := (if |emotionHistory| > HistoryCapacity - 1
          then emotionHistory[|emotionHistory| - (HistoryCapacity - 1)..] else emotionHistory) + [entry];
        successful := successful + 1;
      }
    }

    /** handleEmotionDetected: a manually reported state, kept in a ten-entry history. */
    method HandleEmotionDetected(emotion: LearningState, now: int)
      requires Valid()
      modifies this
      ensures Valid()
      ensures currentEmotion == Some(emotion)
      ensures emotionHistory == AppendBounded(old(emotionHistory), HistoryEntry(emotion, None, None, now), ManualHistoryCapacity - 1)
      ensures |emotionHistory| <= ManualHistoryCapacity
      ensures previousEmotion == old(previousEmotion) && lastDetection == old(lastDetection)
      ensures total == old(total) && successful == old(successful) && failed == old(failed)
      ensures modelsLoaded == old(modelsLoaded) && videoAttached == old(videoAttached)
      ensures isLoadingModels == old(isLoadingModels) && isWebcamActive == old(isWebcamActive)
    {
      currentEmotion := Some(emotion);
      var entry := HistoryEntry(emotion, None, None, now);
      emotionHistory := (if |emotionHistory| > ManualHistoryCapacity - 1
        then emotionHistory[|emotionHistory| - (ManualHistoryCapacity - 1)..] else emotionHistory) + [entry];
    }

    /** toggleWebcam */
    method ToggleWebcam()
      modifies this
      ensures isWebcamActive == !old(isWebcamActive)
      ensures modelsLoaded == old(modelsLoaded) && videoAttached == old(videoAttached)
      ensures isLoadingModels == old(isLoadingModels)
      ensures currentEmotion == old(currentEmotion) && previousEmotion == old(previousEmotion)
      ensures lastDetection == old(lastDetection) && emotionHistory == old(emotionHistory)
      ensures total == old(total) && successful == old(successful) && failed == old(failed)
    {
      isWebcamActive := !isWebcamActive;
    }

    /** getMostFrequentEmotion: filter the history to the last 30 seconds, add up
        each state's scores in a dictionary, then reduce its entries to the top one. */
    method GetMostFrequentEmotion(now: int) returns (top: Option<LearningState>)
      ensures top == MostFrequent(emotionHistory, currentEmotion, now)
    {
      if |emotionHistory| == 0 {
        return currentEmotion;
      }
      var recentEmotions := FilterRecent(emotionHistory, now);
      if |recentEmotions| == 0 {
        return currentEmotion;
      }
      var emotionScores, keys := ScoreEntries(recentEmotions);
      KeysUpToOrdered(recentEmotions, |recentEmotions|);
      ScoresUpToMeaning(recentEmotions, |recentEmotions|);
      assert Occurs(recentEmotions, recentEmotions[0].emotion, |recentEmotions|);
      var best := ReduceTop(keys, emotionScores);
      top := Some(best);
    }
  }

  /** `emotionHistory.filter(item => now - item.timestamp.getTime() < 30000)` */
  method FilterRecent(history: seq<HistoryEntry>, now: int) returns (recentEmotions: seq<HistoryEntry>)
    ensures recentEmotions == Window(history, now)
  {
    recentEmotions := [];
    var i := 0;
    while i < |history|
      invariant 0 <= i <= |history|
      invariant recentEmotions == Window(history[..i], now)
    {
      assert history[..i + 1][..i] == history[..i];
      if now - history[i].timestamp < WindowMs {
        recentEmotions := recentEmotions + [history[i]];
      }
      i := i + 1;
    }
    assert history[..i] == history;
  }

  /** The forEach that fills `emotionScores`; `keys` lists its keys in insertion order. */
  method ScoreEntries(recentEmotions: seq<HistoryEntry>) returns (emotionScores: map<LearningState, real>, keys: seq<LearningState>)
    ensures emotionScores == ScoresUpTo(recentEmotions, |recentEmotions|)
    ensures keys == KeysUpTo(recentEmotions, |recentEmotions|)
  {
    emotionScores := map[];
    keys := [];
    var index := 0;
    while index < |recentEmotions|
      invariant 0 <= index <= |recentEmotions|
      invariant emotionScores == ScoresUpTo(recentEmotions, index)
      invariant keys == KeysUpTo(recentEmotions, index)
    {
      var item := recentEmotions[index];
      var score := EntryScore(recentEmotions, index);
      if item.emotion !in keys {
        keys := keys + [item.emotion];
      }
      emotionScores := emotionScores[item.emotion :=
        (if item.emotion in emotionScores then emotionScores[item.emotion] else 0.0) + score];
      index := index + 1;
    }
  }

  /** `Object.entries(emotionScores).reduce((a, b) => a[1] > b[1] ? a : b)[0]` */
  method ReduceTop(keys: seq<LearningState>, emotionScores: map<LearningState, real>) returns (best: LearningState)
    requires |keys| > 0
    requires forall k :: k in keys ==> k in emotionScores
    ensures best == keys[PickIndex(keys, emotionScores, |keys|)]
  {
    best := keys[0];
    var j := 1;
    while j < |keys|
      invariant 1 <= j <= |keys|
      invariant best == keys[PickIndex(keys, emotionScores, j)]
    {
      if !(emotionScores[best] > emotionScores[keys[j]]) {
        best := keys[j];
      }
      j := j + 1;
    }
  }
}
