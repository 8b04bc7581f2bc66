/** The accepted-detection history kept by the webcam hook, and the weighted vote
    getMostFrequentEmotion takes over its last 30 seconds. */
module EmotionHistory {
  import opened Types

  const WindowMs: int := 30000

  /** One history entry. Entries written by handleEmotionDetected carry neither
      expressions nor a confidence. */
  datatype HistoryEntry = HistoryEntry(
    emotion: LearningState, expressions: Option<Expressions>, confidence: Option<real>, timestamp: int)

  /** `[...prev.slice(-keep), x]`: the last `keep` old entries, in order, then x. */
  function AppendBounded<T>(h: seq<T>, x: T, keep: nat): (r: seq<T>)
    requires keep > 0
    ensures |r| == (if |h| < keep then |h| else keep) + 1
    ensures r[|r| - 1] == x
    ensures r[..|r| - 1] == h[|h| - (|r| - 1)..]
  {
    (if |h| > keep then h[|h| - keep..] else h) + [x]
  }

  /** `now - item.timestamp.getTime() < 30000` */
  predicate InWindow(x: HistoryEntry, now: int)
  {
    now - x.timestamp < WindowMs
  }

  /** The entries of the last 30 seconds, in history order. */
  function Window(h: seq<HistoryEntry>, now: int): seq<HistoryEntry>
  {
    if |h| == 0 then []
    else Window(h[..|h| - 1], now) + (if InWindow(h[|h| - 1], now) then [h[|h| - 1]] else [])
  }

  /** The window is no longer than the history, holds exactly its entries of the
      last 30 seconds, and is empty exactly when none is that young. */
  lemma {:induction false} WindowMembers(h: seq<HistoryEntry>, now: int)
    ensures |Window(h, now)| <= |h|
    ensures forall x :: x in Window(h, now) <==> x in h && InWindow(x, now)
    ensures |Window(h, now)| == 0 <==> forall i :: 0 <= i < |h| ==> !InWindow(h[i], now)
    decreases |h|
  {
    if |h| > 0 {
      var init := h[..|h| - 1];
      WindowMembers(init, now);
      assert h == init + [h[|h| - 1]];
    }
  }

  /** One entry is kept exactly when it is in the window. */
  lemma WindowSingle(x: HistoryEntry, now: int)
    ensures Window([x], now) == if InWindow(x, now) then [x] else []
  {
    assert [x][..0] == [];
  }

  /** The filter keeps order and multiplicity: filtering a concatenation is
      concatenating the filtered parts. */
  lemma {:induction false} WindowAppend(h1: seq<HistoryEntry>, h2: seq<HistoryEntry>, now: int)
    ensures Window(h1 + h2, now) == Window(h1, now) + Window(h2, now)
    decreases |h2|
  {
    if |h2| == 0 {
      assert h1 + h2 == h1;
    } else {
      var k := |h2| - 1;
      var h := h1 + h2;
      var tail := if InWindow(h2[k], now) then [h2[k]] else [];
      assert h[..|h| - 1] == h1 + h2[..k];
      assert h[|h| - 1] == h2[k];
      WindowAppend(h1, h2[..k], now);
      var a, b := Window(h1, now), Window(h2[..k], now);
      assert Window(h, now) == (a + b) + tail;
      assert Window(h2, now) == b + tail;
      assert (a + b) + tail == a + (b + tail);
    }
  }

  /** `item.confidence || 0.5`: a missing or zero confidence counts as 0.5. */
  function EntryConfidence(x: HistoryEntry): real
  {
    if x.confidence.Some? && x.confidence.value != 0.0 then x.confidence.value else 0.5
  }

  /** Score of the i-th windowed entry: confidence weight 0.7, recency weight 0.3. */
  function EntryScore(w: seq<HistoryEntry>, i: nat): real
    requires i < |w|
  {
    EntryConfidence(w[i]) * 0.7 + ((i + 1) as real / |w| as real) * 0.3
  }

  /** Reference definition: the total score state s collects over the first n entries. */
  function ScoreOf(w: seq<HistoryEntry>, s: LearningState, n: nat): real
    requires n <= |w|
  {
    if n == 0 then 0.0
    else ScoreOf(w, s, n - 1) + (if w[n - 1].emotion == s then EntryScore(w, n - 1) else 0.0)
  }

  predicate Occurs(w: seq<HistoryEntry>, s: LearningState, n: nat)
    requires n <= |w|
  {
    exists i :: 0 <= i < n && w[i].emotion == s
  }

  lemma {:induction false} ScoreOfAbsent(w: seq<HistoryEntry>, s: LearningState, n: nat)
    requires n <= |w|
    ensures !Occurs(w, s, n) ==> ScoreOf(w, s, n) == 0.0
  {
    if n > 0 && !Occurs(w, s, n) {
      assert forall i :: 0 <= i < n - 1 ==> w[i].emotion != s;
      ScoreOfAbsent(w, s, n - 1);
    }
  }

  /** The `emotionScores` dictionary after the first n windowed entries. */
  function ScoresUpTo(w: seq<HistoryEntry>, n: nat): map<LearningState, real>
    requires n <= |w|
  {
    if n == 0 then map[]
    else
      var m := ScoresUpTo(w, n - 1);
      var s := w[n - 1].emotion;
      m[s := (if s in m then m[s] else 0.0) + EntryScore(w, n - 1)]
  }

  /** The dictionary holds exactly the states seen so far, each with its total score. */
  lemma {:induction false} ScoresUpToMeaning(w: seq<HistoryEntry>, n: nat)
    requires n <= |w|
    ensures forall s :: s in ScoresUpTo(w, n) <==> Occurs(w, s, n)
    ensures forall s :: s in ScoresUpTo(w, n) ==> ScoresUpTo(w, n)[s] == ScoreOf(w, s, n)
  {
    if n > 0 {
      ScoresUpToMeaning(w, n - 1);
      ScoreOfAbsent(w, w[n - 1].emotion, n - 1);
      OccursStep(w, n);
    }
  }

  /** State a first shows up (within the first n entries) before state b does. */
  predicate AppearsBefore(w: seq<HistoryEntry>, n: nat, a: LearningState, b: LearningState)
    requires n <= |w|
  {
    exists i :: 0 <= i < n && w[i].emotion == a && forall j :: 0 <= j <= i ==> w[j].emotion != b
  }

  /** The keys of `emotionScores` in insertion order, the order Object.entries
      enumerates them: each state where it first shows up. */
  function KeysUpTo(w: seq<HistoryEntry>, n: nat): seq<LearningState>
    requires n <= |w|
  {
    if n == 0 then []
    else
      var ks := KeysUpTo(w, n - 1);
      var s := w[n - 1].emotion;
      if s in ks then ks else ks + [s]
  }

  /** The first n entries hold t exactly when the first n - 1 do or entry n - 1 is t. */
  lemma OccursStep(w: seq<HistoryEntry>, n: nat)
    requires 0 < n <= |w|
    ensures forall t :: Occurs(w, t, n) <==> Occurs(w, t, n - 1) || t == w[n - 1].emotion
  {
    forall t ensures Occurs(w, t, n) <==> Occurs(w, t, n - 1) || t == w[n - 1].emotion {
      if Occurs(w, t, n) {
        var i :| 0 <= i < n && w[i].emotion == t;
        if i < n - 1 { assert Occurs(w, t, n - 1); }
      }
      if Occurs(w, t, n - 1) {
        var i :| 0 <= i < n - 1 && w[i].emotion == t;
        assert 0 <= i < n;
      }
      if t == w[n - 1].emotion { assert w[n - 1].emotion == t; }
    }
  }

  /** The keys are the states seen so far, each listed once; of two keys the
      earlier one showed up first. */
  lemma {:induction false} KeysUpToOrdered(w: seq<HistoryEntry>, n: nat)
    requires n <= |w|
    ensures forall s :: s in KeysUpTo(w, n) <==> Occurs(w, s, n)
    ensures forall p, q :: 0 <= p < q < |KeysUpTo(w, n)| ==> KeysUpTo(w, n)[p] != KeysUpTo(w, n)[q]
    ensures forall p, q :: 0 <= p < q < |KeysUpTo(w, n)| ==> AppearsBefore(w, n, KeysUpTo(w, n)[p], KeysUpTo(w, n)[q])
  {
    if n > 0 {
      KeysUpToOrdered(w, n - 1);
      OccursStep(w, n);
      var ks := KeysUpTo(w, n - 1);
      var s := w[n - 1].emotion;
      var r := KeysUpTo(w, n);
      assert r == if s in ks then ks else ks + [s];
      forall p, q | 0 <= p < q < |r| ensures r[p] != r[q] && AppearsBefore(w, n, r[p], r[q]) {
        if q < |ks| {
          assert AppearsBefore(w, n - 1, ks[p], ks[q]);
          var i :| 0 <= i < n - 1 && w[i].emotion == ks[p] && forall j :: 0 <= j <= i ==> w[j].emotion != ks[q];
        } else {
          assert r[q] == s && !Occurs(w, s, n - 1);
          assert forall j :: 0 <= j < n - 1 ==> w[j].emotion != s;
          assert Occurs(w, ks[p], n - 1);
          var i :| 0 <= i < n - 1 && w[i].emotion == ks[p];
        }
      }
    }
  }

  /** Index of the pair `Object.entries(scores).reduce((a, b) => a[1] > b[1] ? a : b)`
      holds after the first j keys: a largest score, and no later key reaches it. */
  function PickIndex(keys: seq<LearningState>, scores: map<LearningState, real>, j: nat): (p: nat)
    requires 1 <= j <= |keys|
    requires forall k :: k in keys ==> k in scores
    ensures p < j
    ensures forall t :: 0 <= t < j ==> scores[keys[t]] <= scores[keys[p]]
    ensures forall t :: p < t < j ==> scores[keys[t]] < scores[keys[p]]
  {
    if j == 1 then 0
    else
      var a := PickIndex(keys, scores, j - 1);
      if scores[keys[a]] > scores[keys[j - 1]] then a else j - 1
  }

  /** The state the reduce over the scored window keeps. */
  function TopState(w: seq<HistoryEntry>): LearningState
    requires |w| > 0
  {
    var keys := KeysUpTo(w, |w|);
    var scores := ScoresUpTo(w, |w|);
    KeysUpToOrdered(w, |w|);
    ScoresUpToMeaning(w, |w|);
    assert Occurs(w, w[0].emotion, |w|);
    keys[PickIndex(keys, scores, |keys|)]
  }

  /** The kept state is seen in the window with the largest total score; of two
      states with equal scores it is the one that first showed up later. */
  lemma TopStateIsTopScorer(w: seq<HistoryEntry>)
    requires |w| > 0
    ensures Occurs(w, TopState(w), |w|)
    ensures forall s :: Occurs(w, s, |w|) ==> ScoreOf(w, s, |w|) <= ScoreOf(w, TopState(w), |w|)
    ensures forall s ::
      (Occurs(w, s, |w|) && s != TopState(w) && ScoreOf(w, s, |w|) == ScoreOf(w, TopState(w), |w|))
      ==> AppearsBefore(w, |w|, s, TopState(w))
  {
    var keys := KeysUpTo(w, |w|);
    var scores := ScoresUpTo(w, |w|);
    KeysUpToOrdered(w, |w|);
    ScoresUpToMeaning(w, |w|);
    assert Occurs(w, w[0].emotion, |w|);
    var p := PickIndex(keys, scores, |keys|);
    var winner := keys[p];
    assert winner in keys;
    forall s | Occurs(w, s, |w|)
      ensures ScoreOf(w, s, |w|) <= ScoreOf(w, winner, |w|)
      ensures s != winner && ScoreOf(w, s, |w|) == ScoreOf(w, winner, |w|) ==> AppearsBefore(w, |w|, s, winner)
    {
      var t :| 0 <= t < |keys| && keys[t] == s;
      assert scores[keys[t]] <= scores[winner];
      if s != winner && ScoreOf(w, s, |w|) == ScoreOf(w, winner, |w|) {
        assert t < p;
      }
    }
  }

  /** getMostFrequentEmotion, with Date.now() passed in as `now`. */
  function MostFrequent(h: seq<HistoryEntry>, current: Option<LearningState>, now: int): Option<LearningState>
  {
    if |h| == 0 then current
    else
      var w := Window(h, now);
      if |w| == 0 then current else Some(TopState(w))
  }

  /** The vote falls back to the current state exactly when no entry is younger
      than 30 seconds; otherwise it names the top scorer of the window. */
  lemma MostFrequentFallback(h: seq<HistoryEntry>, current: Option<LearningState>, now: int)
    ensures (forall i :: 0 <= i < |h| ==> !InWindow(h[i], now)) ==> MostFrequent(h, current, now) == current
    ensures (exists i :: 0 <= i < |h| && InWindow(h[i], now)) ==>
      |Window(h, now)| > 0 && MostFrequent(h, current, now) == Some(TopState(Window(h, now)))
  {
    var w := Window(h, now);
    WindowMembers(h, now);
    if exists i :: 0 <= i < |h| && InWindow(h[i], now) {
      var i :| 0 <= i < |h| && InWindow(h[i], now);
      assert h[i] in w;
    }
  }
}
