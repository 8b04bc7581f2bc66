/** Two read-only views of an expression vector kept by FaceDetectionService:
    the dominant label (getDominantExpression) and the percentage breakdown
    sorted from largest to smallest (getEmotionBreakdown). */
module ExpressionSummary {
  import opened Numeric
  import opened Text
  import opened Types

  // ---- getDominantExpression ----

  /** The label the scan settles on: when some probability is positive, one with
      the largest probability, earlier than every other label of that probability;
      otherwise the initial 'neutral'. */
  ghost predicate IsDominant(e: Expressions, winner: Emotion)
  {
    if exists k :: Probability(e, k) > 0.0 then
      && (forall k :: Probability(e, k) <= Probability(e, winner))
      && (forall k :: Rank(k) < Rank(winner) ==> Probability(e, k) < Probability(e, winner))
    else
      winner == Neutral
  }

  method GetDominantExpression(e: Expressions) returns (maxExpression: Emotion)
    ensures IsDominant(e, maxExpression)
  {
    maxExpression := Neutral;
    var maxValue := 0.0;
    var i := 0;
    while i < |EmotionOrder|
      invariant 0 <= i <= |EmotionOrder|
      invariant maxValue == 0.0 ==> maxExpression == Neutral
      invariant maxValue == 0.0 || (maxValue > 0.0 && maxValue == Probability(e, maxExpression) && Rank(maxExpression) < i)
      invariant forall j :: 0 <= j < i ==> Probability(e, EmotionOrder[j]) <= maxValue
      invariant forall j :: 0 <= j < Rank(maxExpression) && j < i ==> Probability(e, EmotionOrder[j]) < maxValue
    {
      var expression := EmotionOrder[i];
      if Probability(e, expression) > maxValue {
        maxValue := Probability(e, expression);
        maxExpression := expression;
      }
      i := i + 1;
    }
    forall k ensures Probability(e, k) <= maxValue {
      assert EmotionOrder[Rank(k)] == k;
    }
    if maxValue > 0.0 {
      forall k | Rank(k) < Rank(maxExpression) ensures Probability(e, k) < maxValue {
        assert EmotionOrder[Rank(k)] == k;
      }
    }
  }

  // ---- getEmotionBreakdown ----

  datatype BreakdownEntry = BreakdownEntry(emotion: Emotion, value: int, percentage: string)

  /** `{ emotion, value: Math.round(value * 100), percentage: `${...}%` }` */
  function EntryFor(e: Expressions, k: Emotion): BreakdownEntry
  {
    var rounded := Round(Probability(e, k) * 100.0);
    BreakdownEntry(k, rounded, IntToString(rounded) + "%")
  }

  /** Object.entries(expressions).map(...) before sorting. */
  function Entries(e: Expressions): (r: seq<BreakdownEntry>)
    ensures |r| == |EmotionOrder|
    ensures forall i :: 0 <= i < |r| ==> r[i] == EntryFor(e, EmotionOrder[i])
  {
    seq(|EmotionOrder|, i requires 0 <= i < |EmotionOrder| => EntryFor(e, EmotionOrder[i]))
  }

  /** The order a stable sort by descending value produces: larger values first,
      and among equal values the label that came first in the input. */
  predicate Precedes(a: BreakdownEntry, b: BreakdownEntry)
  {
    a.value > b.value || (a.value == b.value && Rank(a.emotion) < Rank(b.emotion))
  }

  predicate Ordered(s: seq<BreakdownEntry>)
  {
    forall i, j :: 0 <= i < j < |s| ==> Precedes(s[i], s[j])
  }

  predicate RanksIncreasing(s: seq<BreakdownEntry>)
  {
    forall i, j :: 0 <= i < j < |s| ==> Rank(s[i].emotion) < Rank(s[j].emotion)
  }

  /** Insert x in front of the first entry with a strictly smaller value. */
  function Insert(x: BreakdownEntry, s: seq<BreakdownEntry>): (r: seq<BreakdownEntry>)
    ensures multiset(r) == multiset(s) + multiset{x}
  {
    if |s| == 0 || x.value >= s[0].value then [x] + s
    else
      assert s == [s[0]] + s[1..];
      [s[0]] + Insert(x, s[1..])
  }

  /** A stable sort by descending value, `.sort((a, b) => b.value - a.value)`. */
  function SortByValueDescending(s: seq<BreakdownEntry>): (r: seq<BreakdownEntry>)
    ensures multiset(r) == multiset(s)
  {
    if |s| == 0 then []
    else
      assert s == [s[0]] + s[1..];
      Insert(s[0], SortByValueDescending(s[1..]))
  }

  lemma {:induction false} InsertOrdered(x: BreakdownEntry, s: seq<BreakdownEntry>)
    requires Ordered(s)
    requires forall y :: y in s ==> Rank(x.emotion) < Rank(y.emotion)
    ensures Ordered(Insert(x, s))
  {
    if |s| == 0 || x.value >= s[0].value {
      var r := [x] + s;
      forall i, j | 0 <= i < j < |r| ensures Precedes(r[i], r[j]) {
        if i == 0 {
          assert r[j] in s;
          if j > 1 {
            assert Precedes(s[0], s[j - 1]);
          }
        } else {
          assert Precedes(s[i - 1], s[j - 1]);
        }
      }
    } else {
      var tail := s[1..];
      assert forall y :: y in tail ==> y in s;
      assert Ordered(tail) by {
        forall i, j | 0 <= i < j < |tail| ensures Precedes(tail[i], tail[j]) {
          assert Precedes(s[i + 1], s[j + 1]);
        }
      }
      InsertOrdered(x, tail);
      var inner := Insert(x, tail);
      var r := [s[0]] + inner;
      assert forall y :: y in inner ==> y == x || y in tail by {
        forall y | y in inner ensures y == x || y in tail {
          assert y in multiset(inner);
        }
      }
      forall i, j | 0 <= i < j < |r| ensures Precedes(r[i], r[j]) {
        if i == 0 {
          var y := r[j];
          assert y in inner;
          if y != x {
            var k :| 0 <= k < |tail| && tail[k] == y;
            assert Precedes(s[0], s[k + 1]);
          }
        } else {
          assert Precedes(inner[i - 1], inner[j - 1]);
        }
      }
    }
  }

  lemma {:induction false} SortOrdered(s: seq<BreakdownEntry>)
    requires RanksIncreasing(s)
    ensures Ordered(SortByValueDescending(s))
  {
    if |s| > 0 {
      var tail := s[1..];
      assert RanksIncreasing(tail) by {
        forall i, j | 0 <= i < j < |tail| ensures Rank(tail[i].emotion) < Rank(tail[j].emotion) {
          assert tail[i] == s[i + 1] && tail[j] == s[j + 1];
        }
      }
      SortOrdered(tail);
      var sorted := SortByValueDescending(tail);
      forall y | y in sorted ensures Rank(s[0].emotion) < Rank(y.emotion) {
        assert y in multiset(sorted);
        assert y in tail;
        var k :| 0 <= k < |tail| && tail[k] == y;
        assert s[k + 1] == y;
      }
      InsertOrdered(s[0], sorted);
    }
  }

  function GetEmotionBreakdown(e: Expressions): (r: seq<BreakdownEntry>)
    ensures multiset(r) == multiset(Entries(e))
  {
    SortByValueDescending(Entries(e))
  }

  /** Every entry carries the rounded percentage of its own label. */
  predicate Faithful(e: Expressions, s: seq<BreakdownEntry>)
  {
    forall x :: x in s ==> x == EntryFor(e, x.emotion)
  }

  lemma EntriesFaithful(e: Expressions)
    ensures Faithful(e, Entries(e))
  {
    var entries := Entries(e);
    forall x | x in entries ensures x == EntryFor(e, x.emotion) {
      var i :| 0 <= i < |entries| && entries[i] == x;
      assert x.emotion == EmotionOrder[i];
    }
  }

  /** Before sorting the entries follow the key order of the expressions. */
  lemma EntriesInKeyOrder(e: Expressions)
    ensures RanksIncreasing(Entries(e))
  {
    var entries := Entries(e);
    forall i, j | 0 <= i < j < |entries| ensures Rank(entries[i].emotion) < Rank(entries[j].emotion) {
      assert entries[i].emotion == EmotionOrder[i] && entries[j].emotion == EmotionOrder[j];
    }
  }

  lemma PermutationKeepsFaithful(e: Expressions, s: seq<BreakdownEntry>, t: seq<BreakdownEntry>)
    requires multiset(s) == multiset(t) && Faithful(e, s)
    ensures Faithful(e, t) && |t| == |s|
  {
    assert |multiset(s)| == |multiset(t)|;
    forall x | x in t ensures x == EntryFor(e, x.emotion) {
      assert x in multiset(t);
      assert x in s;
    }
  }

  /** The breakdown lists each of the seven labels once, with its rounded
      percentage, from the largest value to the smallest, ties in label order. */
  lemma BreakdownSorted(e: Expressions)
    ensures |GetEmotionBreakdown(e)| == |EmotionOrder|
    ensures Ordered(GetEmotionBreakdown(e))
    ensures Faithful(e, GetEmotionBreakdown(e))
  {
    EntriesFaithful(e);
    EntriesInKeyOrder(e);
    SortOrdered(Entries(e));
    PermutationKeepsFaithful(e, Entries(e), GetEmotionBreakdown(e));
  }
}
