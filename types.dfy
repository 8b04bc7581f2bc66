/** The values the detection pipeline passes between its stages: learning states,
    the face model's expression vector and the landmark metric set. */
module Types {

  datatype Option<T> = None | Some(value: T)

  /** The four learning states, named in the source by the strings
      'focused', 'confused', 'bored' and 'tired'. */
  datatype LearningState = Focused | Confused | Bored | Tired

  function StateName(s: LearningState): (r: string)
    ensures |r| > 0
  {
    match s
    case Focused => "focused"
    case Confused => "confused"
    case Bored => "bored"
    case Tired => "tired"
  }

  lemma StateNameInjective(a: LearningState, b: LearningState)
    requires StateName(a) == StateName(b)
    ensures a == b
  {
    assert StateName(a)[0] == StateName(b)[0];
    assert |StateName(a)| == |StateName(b)|;
  }

  /** The labels of the face model's expression vector. */
  datatype Emotion = Neutral | Happy | Sad | Angry | Fearful | Disgusted | Surprised

  /** The order in which the face model lays out the labels of an expression vector;
      Object.keys, Object.values and Object.entries enumerate it in this order. */
  const EmotionOrder: seq<Emotion> := [Neutral, Happy, Sad, Angry, Fearful, Disgusted, Surprised]

  lemma EmotionOrderComplete(e: Emotion)
    ensures e in EmotionOrder
  {
  }

  /** Position of a label in EmotionOrder. */
  function Rank(e: Emotion): (r: nat)
    ensures r < |EmotionOrder| && EmotionOrder[r] == e
  {
    match e
    case Neutral => 0
    case Happy => 1
    case Sad => 2
    case Angry => 3
    case Fearful => 4
    case Disgusted => 5
    case Surprised => 6
  }

  /** One frame's expression probabilities. */
  datatype Expressions = Expressions(
    neutral: real, happy: real, sad: real, angry: real,
    fearful: real, disgusted: real, surprised: real)

  function Probability(e: Expressions, k: Emotion): real
  {
    match k
    case Neutral => e.neutral
    case Happy => e.happy
    case Sad => e.sad
    case Angry => e.angry
    case Fearful => e.fearful
    case Disgusted => e.disgusted
    case Surprised => e.surprised
  }

  /** Object.values(expressions). */
  function ExpressionValues(e: Expressions): (r: seq<real>)
    ensures |r| == |EmotionOrder|
    ensures forall i :: 0 <= i < |r| ==> r[i] == Probability(e, EmotionOrder[i])
  {
    [e.neutral, e.happy, e.sad, e.angry, e.fearful, e.disgusted, e.surprised]
  }

  /** The six landmark metrics, in the order the extractor builds them. */
  datatype MetricKey = EyebrowRaise | SmileWidth | EyeOpenness | MouthOpen | BrowFurrow | MouthCornersDown

  const MetricKeys: seq<MetricKey> := [EyebrowRaise, SmileWidth, EyeOpenness, MouthOpen, BrowFurrow, MouthCornersDown]

  const MetricKeySet: set<MetricKey> := {EyebrowRaise, SmileWidth, EyeOpenness, MouthOpen, BrowFurrow, MouthCornersDown}

  /** Position of a key in MetricKeys. */
  function KeyRank(k: MetricKey): (r: nat)
    ensures r < |MetricKeys| && MetricKeys[r] == k
  {
    match k
    case EyebrowRaise => 0
    case SmileWidth => 1
    case EyeOpenness => 2
    case MouthOpen => 3
    case BrowFurrow => 4
    case MouthCornersDown => 5
  }

  lemma MetricKeysDistinct()
    ensures forall i, j :: 0 <= i < j < |MetricKeys| ==> MetricKeys[i] != MetricKeys[j]
    ensures forall k :: k in MetricKeySet <==> k in MetricKeys
  {
  }

  datatype Metrics = Metrics(
    eyebrowRaise: real, smileWidth: real, eyeOpenness: real,
    mouthOpen: real, browFurrow: real, mouthCornersDown: real)

  function Metric(m: Metrics, k: MetricKey): real
  {
    match k
    case EyebrowRaise => m.eyebrowRaise
    case SmileWidth => m.smileWidth
    case EyeOpenness => m.eyeOpenness
    case MouthOpen => m.mouthOpen
    case BrowFurrow => m.browFurrow
    case MouthCornersDown => m.mouthCornersDown
  }

  /** The metric set whose entries a complete map over the six keys gives. */
  function MetricsFromMap(values: map<MetricKey, real>): (m: Metrics)
    requires MetricKeySet <= values.Keys
    ensures forall k :: k in MetricKeySet ==> Metric(m, k) == values[k]
  {
    Metrics(values[EyebrowRaise], values[SmileWidth], values[EyeOpenness],
            values[MouthOpen], values[BrowFurrow], values[MouthCornersDown])
  }

  predicate InUnitRange(x: real)
  {
    0.0 <= x <= 1.0
  }

  predicate MetricsInUnitRange(m: Metrics)
  {
    forall k :: InUnitRange(Metric(m, k))
  }
}
