/** The landmark metric extractor: six normalised ratios computed from the 68
    facial points of one frame (FaceDetectionService.analyzeLandmarks). */
module Landmarks {
  import opened Numeric
  import opened Types

  datatype Point = Point(x: real, y: real)

  const LandmarkCount: nat := 68

  /** Horizontal distance between the two ends of the jaw line (points 0 and 16). */
  function JawWidth(points: seq<Point>): real
    requires |points| == LandmarkCount
  {
    Abs(points[16].x - points[0].x)
  }

  /** The readings the extractor can divide by: 68 points and a jaw of non-zero width. */
  predicate WellFormed(points: seq<Point>)
  {
    |points| == LandmarkCount && JawWidth(points) > 0.0
  }

  // The raw, unclamped ratios, one per metric.

  function BrowEyeGap(p: seq<Point>): real
    requires |p| == LandmarkCount
  {
    var rightBrowY := (p[19].y + p[20].y) / 2.0;
    var rightEyeY := (p[37].y + p[38].y) / 2.0;
    var leftBrowY := (p[23].y + p[24].y) / 2.0;
    var leftEyeY := (p[43].y + p[44].y) / 2.0;
    ((rightBrowY - rightEyeY) + (leftBrowY - leftEyeY)) / 2.0
  }

  function MouthWidth(p: seq<Point>): real
    requires |p| == LandmarkCount
  {
    Abs(p[54].x - p[48].x)
  }

  function EyeHeight(p: seq<Point>): real
    requires |p| == LandmarkCount
  {
    (Abs(p[37].y - p[41].y) + Abs(p[43].y - p[47].y)) / 2.0
  }

  function MouthHeight(p: seq<Point>): real
    requires |p| == LandmarkCount
  {
    Abs(p[66].y - p[62].y)
  }

  function InnerBrowDistance(p: seq<Point>): real
    requires |p| == LandmarkCount
  {
    Abs(p[21].x - p[22].x)
  }

  /** How far the mouth corners sit below the upper-lip centre (point 62). */
  function CornerDrop(p: seq<Point>): real
    requires |p| == LandmarkCount
  {
    (p[48].y + p[54].y) / 2.0 - p[62].y
  }

  function AnalyzeLandmarks(p: seq<Point>): (m: Metrics)
    requires WellFormed(p)
    ensures MetricsInUnitRange(m)
  {
    var eyebrowRaise := Max(0.0, Min(1.0, BrowEyeGap(p) / 15.0));
    var smileWidth := Min(1.0, MouthWidth(p) / (JawWidth(p) * 0.6));
    var eyeOpenness := Min(1.0, EyeHeight(p) / 8.0);
    var mouthOpen := Min(1.0, MouthHeight(p) / 20.0);
    var browFurrow := Max(0.0, Min(1.0, 1.0 - InnerBrowDistance(p) / 20.0));
    var mouthCornersDown := Max(0.0, Min(1.0, CornerDrop(p) / 10.0));
    Metrics(eyebrowRaise, smileWidth, eyeOpenness, mouthOpen, browFurrow, mouthCornersDown)
  }

  /** Where each metric saturates: a metric is 1 exactly when its raw measure
      reaches the calibration constant, the clamped ones are 0 exactly when their
      measure is at or below zero, and in between each is the measure scaled by
      its constant. */
  lemma Saturation(p: seq<Point>)
    requires WellFormed(p)
    ensures var m := AnalyzeLandmarks(p);
      && (m.eyebrowRaise == 1.0 <==> BrowEyeGap(p) >= 15.0)
      && (m.eyebrowRaise == 0.0 <==> BrowEyeGap(p) <= 0.0)
      && (0.0 < BrowEyeGap(p) < 15.0 ==> m.eyebrowRaise == BrowEyeGap(p) / 15.0)
      && (m.smileWidth == 1.0 <==> MouthWidth(p) >= JawWidth(p) * 0.6)
      && (MouthWidth(p) < JawWidth(p) * 0.6 ==> m.smileWidth == MouthWidth(p) / (JawWidth(p) * 0.6))
      && (m.eyeOpenness == 1.0 <==> EyeHeight(p) >= 8.0)
      && (EyeHeight(p) < 8.0 ==> m.eyeOpenness == EyeHeight(p) / 8.0)
      && (m.mouthOpen == 1.0 <==> MouthHeight(p) >= 20.0)
      && (MouthHeight(p) < 20.0 ==> m.mouthOpen == MouthHeight(p) / 20.0)
      && (m.browFurrow == 0.0 <==> InnerBrowDistance(p) >= 20.0)
      && (m.browFurrow == 1.0 <==> InnerBrowDistance(p) == 0.0)
      && (InnerBrowDistance(p) < 20.0 ==> m.browFurrow == 1.0 - InnerBrowDistance(p) / 20.0)
      && (m.mouthCornersDown == 0.0 <==> CornerDrop(p) <= 0.0)
      && (m.mouthCornersDown == 1.0 <==> CornerDrop(p) >= 10.0)
      && (0.0 < CornerDrop(p) < 10.0 ==> m.mouthCornersDown == CornerDrop(p) / 10.0)
  {
    RatioAtLeastOne(MouthWidth(p), JawWidth(p) * 0.6);
  }

  /** For a positive divisor, the ratio reaches 1 exactly when the dividend reaches the divisor. */
  lemma RatioAtLeastOne(a: real, w: real)
    requires w > 0.0
    ensures a / w >= 1.0 <==> a >= w
  {
    assert (a / w) * w == a;
    if a / w >= 1.0 {
      assert (a / w) * w >= 1.0 * w;
    }
    if a >= w {
      assert a / w >= w / w;
    }
  }

  /** Every point moved by the same offset. */
  function Translate(p: seq<Point>, dx: real, dy: real): (r: seq<Point>)
    ensures |r| == |p|
    ensures forall i :: 0 <= i < |p| ==> r[i] == Point(p[i].x + dx, p[i].y + dy)
  {
    seq(|p|, i requires 0 <= i < |p| => Point(p[i].x + dx, p[i].y + dy))
  }

  /** The metrics depend only on differences of coordinates, so moving the
      face within the frame does not change them. */
  lemma TranslationInvariant(p: seq<Point>, dx: real, dy: real)
    requires WellFormed(p)
    ensures WellFormed(Translate(p, dx, dy))
    ensures AnalyzeLandmarks(Translate(p, dx, dy)) == AnalyzeLandmarks(p)
  {
    var q := Translate(p, dx, dy);
    assert JawWidth(q) == JawWidth(p) by {
      assert q[16].x - q[0].x == p[16].x - p[0].x;
    }
    assert BrowEyeGap(q) == BrowEyeGap(p);
    assert MouthWidth(q) == MouthWidth(p) by {
      assert q[54].x - q[48].x == p[54].x - p[48].x;
    }
    assert EyeHeight(q) == EyeHeight(p) by {
      assert q[37].y - q[41].y == p[37].y - p[41].y;
      assert q[43].y - q[47].y == p[43].y - p[47].y;
    }
    assert MouthHeight(q) == MouthHeight(p) by {
      assert q[66].y - q[62].y == p[66].y - p[62].y;
    }
    assert InnerBrowDistance(q) == InnerBrowDistance(p) by {
      assert q[21].x - q[22].x == p[21].x - p[22].x;
    }
    assert CornerDrop(q) == CornerDrop(p);
  }

  /** Negating every y coordinate (mirroring the face top to bottom) leaves the
      unsigned heights and widths alone: eye openness, mouth openness and smile
      width do not depend on which way the y axis points. */
  lemma OpennessIgnoresVerticalFlip(p: seq<Point>)
    requires WellFormed(p)
    ensures var q := seq(|p|, i requires 0 <= i < |p| => Point(p[i].x, -p[i].y));
      WellFormed(q) &&
      AnalyzeLandmarks(q).eyeOpenness == AnalyzeLandmarks(p).eyeOpenness &&
      AnalyzeLandmarks(q).mouthOpen == AnalyzeLandmarks(p).mouthOpen &&
      AnalyzeLandmarks(q).smileWidth == AnalyzeLandmarks(p).smileWidth
  {
    var q := seq(|p|, i requires 0 <= i < |p| => Point(p[i].x, -p[i].y));
    assert JawWidth(q) == JawWidth(p);
    assert EyeHeight(q) == EyeHeight(p) by {
      assert q[37].y - q[41].y == -(p[37].y - p[41].y);
      assert q[43].y - q[47].y == -(p[43].y - p[47].y);
    }
    assert MouthHeight(q) == MouthHeight(p) by {
      assert q[66].y - q[62].y == -(p[66].y - p[62].y);
    }
    assert MouthWidth(q) == MouthWidth(p);
  }
}
