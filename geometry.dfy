/** Points and boxes in image coordinates, and the keypoint-to-box rule
    `kpt2bbox` used to give every pose its bounding box. */
module Geometry {

  /** A keypoint position (x, y) as the pose estimator reports it. */
  datatype Point = Point(x: real, y: real)

  /** An axis-aligned box in top-left/bottom-right form (x1, y1, x2, y2). */
  datatype Box = Box(x1: real, y1: real, x2: real, y2: real)

  /** A point and a box after numpy's `astype(int)`. */
  datatype Pixel = Pixel(x: int, y: int)
  datatype PixelBox = PixelBox(x1: int, y1: int, x2: int, y2: int)

  /** The default widening of `kpt2bbox`, in pixels. */
  const DefaultMargin: real := 20.0

  /** The smallest element of a non-empty sequence (numpy's `min`). */
  function MinOf(s: seq<real>): (m: real)
    requires |s| > 0
    ensures forall i :: 0 <= i < |s| ==> m <= s[i]
    ensures exists i :: 0 <= i < |s| && s[i] == m
  {
    if |s| == 1 then s[0]
    else
      var rest := MinOf(s[1..]);
      assert exists i :: 1 <= i < |s| && s[i] == rest by {
        var i :| 0 <= i < |s[1..]| && s[1..][i] == rest;
        assert s[i + 1] == rest;
      }
      if s[0] <= rest then s[0] else rest
  }

  /** The largest element of a non-empty sequence (numpy's `max`). */
  function MaxOf(s: seq<real>): (m: real)
    requires |s| > 0
    ensures forall i :: 0 <= i < |s| ==> s[i] <= m
    ensures exists i :: 0 <= i < |s| && s[i] == m
  {
    if |s| == 1 then s[0]
    else
      var rest := MaxOf(s[1..]);
      assert exists i :: 1 <= i < |s| && s[i] == rest by {
        var i :| 0 <= i < |s[1..]| && s[1..][i] == rest;
        assert s[i + 1] == rest;
      }
      if s[0] >= rest then s[0] else rest
  }

  /** Column 0 of an (N, 2) keypoint array. */
  function Xs(kpts: seq<Point>): (r: seq<real>)
    ensures |r| == |kpts|
    ensures forall i :: 0 <= i < |kpts| ==> r[i] == kpts[i].x
  {
    seq(|kpts|, i requires 0 <= i < |kpts| => kpts[i].x)
  }

  /** Column 1 of an (N, 2) keypoint array. */
  function Ys(kpts: seq<Point>): (r: seq<real>)
    ensures |r| == |kpts|
    ensures forall i :: 0 <= i < |kpts| ==> r[i] == kpts[i].y
  {
    seq(|kpts|, i requires 0 <= i < |kpts| => kpts[i].y)
  }

  /** Every keypoint lies inside `b` at least `ex` away from each side. */
  ghost predicate EnclosesWithMargin(b: Box, kpts: seq<Point>, ex: real)
  {
    forall i :: 0 <= i < |kpts| ==>
      && kpts[i].x - b.x1 >= ex && b.x2 - kpts[i].x >= ex
      && kpts[i].y - b.y1 >= ex && b.y2 - kpts[i].y >= ex
  }

  /** Each side of the box is exactly `ex` from some keypoint. */
  ghost predicate TightWithMargin(r: Box, kpts: seq<Point>, ex: real)
  {
    && (exists i :: 0 <= i < |kpts| && kpts[i].x == r.x1 + ex)
    && (exists i :: 0 <= i < |kpts| && kpts[i].y == r.y1 + ex)
    && (exists i :: 0 <= i < |kpts| && kpts[i].x == r.x2 - ex)
    && (exists i :: 0 <= i < |kpts| && kpts[i].y == r.y2 - ex)
  }

  /** `kpt2bbox`: the box holding all keypoints, widened by `ex` on every
      side. Each side of the box is exactly `ex` from some keypoint. */
  function KptToBbox(kpts: seq<Point>, ex: real): (r: Box)
    requires |kpts| > 0
    ensures EnclosesWithMargin(r, kpts, ex)
    ensures TightWithMargin(r, kpts, ex)
  {
    var xs, ys := Xs(kpts), Ys(kpts);
    Box(MinOf(xs) - ex, MinOf(ys) - ex, MaxOf(xs) + ex, MaxOf(ys) + ex)
  }

  /** The box of `kpt2bbox` is the smallest one that encloses the keypoints
      with margin `ex`: any other such box contains it. */
  lemma KptToBboxIsSmallest(kpts: seq<Point>, ex: real, b: Box)
    requires |kpts| > 0
    requires EnclosesWithMargin(b, kpts, ex)
    ensures var r := KptToBbox(kpts, ex);
      b.x1 <= r.x1 && b.y1 <= r.y1 && r.x2 <= b.x2 && r.y2 <= b.y2
  {
  }

  /** With a non-negative margin the box is well ordered, and it is at least
      `2 * ex` wide and high. */
  lemma KptToBboxOrdered(kpts: seq<Point>, ex: real)
    requires |kpts| > 0
    requires ex >= 0.0
    ensures var r := KptToBbox(kpts, ex);
      r.x1 <= r.x2 && r.y1 <= r.y2 && r.x2 - r.x1 >= 2.0 * ex && r.y2 - r.y1 >= 2.0 * ex
  {
  }

  /** Keypoints `i` and `j` are a leftmost and a rightmost keypoint. */
  ghost predicate XExtremes(kpts: seq<Point>, i: nat, j: nat)
    requires i < |kpts| && j < |kpts|
  {
    forall k :: 0 <= k < |kpts| ==> kpts[i].x <= kpts[k].x <= kpts[j].x
  }

  /** Keypoints `i` and `j` are a topmost and a bottommost keypoint. */
  ghost predicate YExtremes(kpts: seq<Point>, i: nat, j: nat)
    requires i < |kpts| && j < |kpts|
  {
    forall k :: 0 <= k < |kpts| ==> kpts[i].y <= kpts[k].y <= kpts[j].y
  }

  /** A box that encloses the keypoints with margin `ex` and each of whose
      sides is `ex` from some keypoint spans from a leftmost to a rightmost
      keypoint, and from a topmost to a bottommost one, plus `ex` each side. */
  lemma SpanOfTightBox(kpts: seq<Point>, ex: real, r: Box)
    requires EnclosesWithMargin(r, kpts, ex)
    requires TightWithMargin(r, kpts, ex)
    ensures exists i, j :: 0 <= i < |kpts| && 0 <= j < |kpts| && XExtremes(kpts, i, j) && r.x2 - r.x1 == kpts[j].x - kpts[i].x + 2.0 * ex
    ensures exists i, j :: 0 <= i < |kpts| && 0 <= j < |kpts| && YExtremes(kpts, i, j) && r.y2 - r.y1 == kpts[j].y - kpts[i].y + 2.0 * ex
  {
  }

  /** The box's width is the distance from the leftmost to the rightmost
      keypoint plus the margin counted twice, and its height the distance
      from the topmost to the bottommost keypoint plus twice the margin. */
  lemma KptToBboxExtent(kpts: seq<Point>, ex: real)
    requires |kpts| > 0
    ensures var r := KptToBbox(kpts, ex);
      && (exists i, j :: 0 <= i < |kpts| && 0 <= j < |kpts| && XExtremes(kpts, i, j)
            && r.x2 - r.x1 == kpts[j].x - kpts[i].x + 2.0 * ex)
      && (exists i, j :: 0 <= i < |kpts| && 0 <= j < |kpts| && YExtremes(kpts, i, j)
            && r.y2 - r.y1 == kpts[j].y - kpts[i].y + 2.0 * ex)
  {
    SpanOfTightBox(kpts, ex, KptToBbox(kpts, ex));
  }

  /** The margin only widens the tight box: `kpt2bbox(kpt, ex)` is
      `kpt2bbox(kpt, 0)` moved out by `ex` on every side. */
  lemma KptToBboxWidensTightBox(kpts: seq<Point>, ex: real)
    requires |kpts| > 0
    ensures var t := KptToBbox(kpts, 0.0);
      KptToBbox(kpts, ex) == Box(t.x1 - ex, t.y1 - ex, t.x2 + ex, t.y2 + ex)
  {
  }

  /** numpy's `astype(int)` on a float: truncation toward zero. */
  function Truncate(r: real): (n: int)
    ensures 0.0 <= r ==> n as real <= r < n as real + 1.0
    ensures r < 0.0 ==> n as real - 1.0 < r <= n as real
  {
    if r >= 0.0 then r.Floor else -((-r).Floor)
  }

  function TruncatePoint(p: Point): (q: Pixel)
  {
    Pixel(Truncate(p.x), Truncate(p.y))
  }

  function TruncateBox(b: Box): (q: PixelBox)
  {
    PixelBox(Truncate(b.x1), Truncate(b.y1), Truncate(b.x2), Truncate(b.y2))
  }
}
