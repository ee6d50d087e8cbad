/** Building the tracker's input for one frame: the detector's rows merged
    with the tracks' predicted boxes, then one `Detection` per pose the pose
    estimator returns for those rows. */
module Detections {
  import opened Outcomes
  import opened Geometry
  import opened Tracks

  /** One row of the detector's output tensor:
      (x1, y1, x2, y2, object confidence, class confidence, class index). */
  datatype Row = Row(box: Box, score: real, classScore: real, classIndex: real)

  /** One entry of the pose estimator's output: an (N, 2) `keypoints` array
      and its (N, 1) `kp_score` column. */
  datatype Pose = Pose(keypoints: seq<Point>, kpScores: seq<real>)

  /** The extra row that stands for a track's predicted box: its box followed
      by the neutral scores 0.5, 1.0 and 0.0. */
  function PredictedRow(t: TrackView): Row
  {
    Row(t.box, 0.5, 1.0, 0.0)
  }

  /** The detector's rows, or none when it returned `None`. */
  function DetectorRows(detected: Option<seq<Row>>): seq<Row>
  {
    if detected.Some? then detected.value else []
  }

  /** The merged tensor in closed form: `None` when there is nothing at all,
      otherwise the detector's rows followed by one row per track. */
  function MergedRows(detected: Option<seq<Row>>, tracks: seq<TrackView>): Option<seq<Row>>
  {
    if detected.None? && tracks == [] then None
    else Some(DetectorRows(detected) + seq(|tracks|, j requires 0 <= j < |tracks| => PredictedRow(tracks[j])))
  }

  /** The merge loop: each track of the tracker, in order, appends its
      predicted row to `detected` (or becomes the first row when the detector
      returned `None`). */
  method MergePredicted(detected: Option<seq<Row>>, tracks: seq<TrackView>) returns (merged: Option<seq<Row>>)
    ensures merged.None? <==> detected.None? && tracks == []
    ensures merged.Some? ==> |merged.value| == |DetectorRows(detected)| + |tracks|
    ensures merged.Some? ==> merged.value[..|DetectorRows(detected)|] == DetectorRows(detected)
    ensures merged.Some? ==> forall j :: 0 <= j < |tracks| ==>
      merged.value[|DetectorRows(detected)| + j] == Row(tracks[j].box, 0.5, 1.0, 0.0)
    ensures merged == MergedRows(detected, tracks)
  {
    ghost var base := DetectorRows(detected);
    merged := detected;
    var i := 0;
    while i < |tracks|
      invariant 0 <= i <= |tracks|
      invariant merged.None? <==> detected.None? && i == 0
      invariant merged.Some? ==> |merged.value| == |base| + i
      invariant merged.Some? ==> merged.value[..|base|] == base
      invariant merged.Some? ==> forall j :: 0 <= j < i ==> merged.value[|base| + j] == PredictedRow(tracks[j])
    {
      var det := [PredictedRow(tracks[i])];
      merged := if merged.Some? then Some(merged.value + det) else Some(det);
      i := i + 1;
    }
    assert merged.Some? ==> merged.value == MergedRows(detected, tracks).value;
  }

  /** `detected[:, 0:4]`: the boxes handed to the pose estimator. */
  function Boxes(rows: seq<Row>): seq<Box>
  {
    seq(|rows|, i requires 0 <= i < |rows| => rows[i].box)
  }

  /** `detected[:, 4]`: the scores handed to the pose estimator. */
  function Scores(rows: seq<Row>): seq<real>
  {
    seq(|rows|, i requires 0 <= i < |rows| => rows[i].score)
  }

  function Sum(s: seq<real>): real
  {
    if s == [] then 0.0 else s[0] + Sum(s[1..])
  }

  /** A sum of values in [lo, hi] lies between |s| * lo and |s| * hi. */
  lemma {:induction false} SumBounds(s: seq<real>, lo: real, hi: real)
    requires forall i :: 0 <= i < |s| ==> lo <= s[i] <= hi
    ensures |s| as real * lo <= Sum(s) <= |s| as real * hi
  {
    if s != [] {
      SumBounds(s[1..], lo, hi);
      assert |s| as real * lo == lo + |s[1..]| as real * lo;
      assert |s| as real * hi == hi + |s[1..]| as real * hi;
    }
  }

  /** Dividing by a positive count keeps a value between the bounds scaled
      by that count. */
  lemma QuotientBounds(total: real, n: real, lo: real, hi: real)
    requires n > 0.0
    requires n * lo <= total <= n * hi
    ensures lo <= total / n <= hi
  {
  }

  /** numpy's `mean` of a non-empty column. */
  function Mean(s: seq<real>): real
    requires |s| > 0
  {
    Sum(s) / |s| as real
  }

  /** The mean of a non-empty column of values in [lo, hi] is in [lo, hi]. */
  lemma MeanBetween(s: seq<real>, lo: real, hi: real)
    requires |s| > 0
    requires forall i :: 0 <= i < |s| ==> lo <= s[i] <= hi
    ensures lo <= Mean(s) <= hi
  {
    SumBounds(s, lo, hi);
    QuotientBounds(Sum(s), |s| as real, lo, hi);
  }

  /** `np.concatenate((keypoints, kp_score), axis=1)` for equal row counts. */
  function WithScores(kpts: seq<Point>, scores: seq<real>): seq<Keypoint>
    requires |scores| == |kpts|
  {
    seq(|kpts|, i requires 0 <= i < |kpts| => Keypoint(kpts[i].x, kpts[i].y, scores[i]))
  }

  /** The `Detection` built from one pose: `kpt2bbox` of its keypoints with
      the default margin, the keypoints with their scores appended, and the
      mean keypoint score. */
  function BuildDetection(p: Pose): Result<Detection>
  {
    if |p.keypoints| == 0 then Err(EmptyKeypoints)
    else if |p.kpScores| != |p.keypoints| then Err(ScoreRowMismatch)
    else Ok(Detection(KptToBbox(p.keypoints, DefaultMargin),
                      WithScores(p.keypoints, p.kpScores),
                      Mean(p.kpScores)))
  }

  /** A pose gives a detection exactly when it has keypoints and one score
      per keypoint; numpy fails otherwise. The detection's box encloses every
      keypoint with the default margin, its keypoints are the pose's with
      their scores appended, and its confidence lies between the smallest and
      the largest keypoint score. */
  lemma BuildDetectionSpec(p: Pose)
    ensures var r := BuildDetection(p);
      && (r.Err? <==> |p.keypoints| == 0 || |p.kpScores| != |p.keypoints|)
      && (|p.keypoints| == 0 ==> r == Err(EmptyKeypoints))
      && (|p.keypoints| > 0 && |p.kpScores| != |p.keypoints| ==> r == Err(ScoreRowMismatch))
      && (r.Ok? ==> EnclosesWithMargin(r.value.box, p.keypoints, DefaultMargin))
      && (r.Ok? ==> r.value.box == KptToBbox(p.keypoints, DefaultMargin))
      && (r.Ok? ==> |r.value.keypoints| == |p.keypoints|)
      && (r.Ok? ==> forall i :: 0 <= i < |p.keypoints| ==>
            r.value.keypoints[i] == Keypoint(p.keypoints[i].x, p.keypoints[i].y, p.kpScores[i]))
      && (r.Ok? ==> r.value.confidence == Mean(p.kpScores))
      && (r.Ok? ==> MinOf(p.kpScores) <= r.value.confidence <= MaxOf(p.kpScores))
  {
    if |p.keypoints| > 0 && |p.kpScores| == |p.keypoints| {
      MeanBetween(p.kpScores, MinOf(p.kpScores), MaxOf(p.kpScores));
    }
  }

  /** A Python list comprehension whose element expression may raise: `f`
      applied to every element in order, where the first failure ends the
      whole comprehension. */
  function Collect<A, B>(xs: seq<A>, f: A -> Result<B>): (r: Result<seq<B>>)
    ensures r.Ok? <==> forall i :: 0 <= i < |xs| ==> f(xs[i]).Ok?
    ensures r.Ok? ==> |r.value| == |xs|
    ensures r.Ok? ==> forall i :: 0 <= i < |xs| ==> r.value[i] == f(xs[i]).value
    ensures r.Err? ==> exists k :: 0 <= k < |xs| && FailsFirstAt(xs, f, k, r.error)
  {
    if xs == [] then Ok([])
    else
      match f(xs[0])
      case Err(e) =>
        assert FailsFirstAt(xs, f, 0, e);
        Err(e)
      case Ok(y) =>
        var rest := Collect(xs[1..], f);
        assert forall i :: 1 <= i < |xs| ==> xs[i] == xs[1..][i - 1];
        match rest
        case Err(e) =>
          assert exists k :: 1 <= k < |xs| && FailsFirstAt(xs, f, k, e) by {
            var k :| 0 <= k < |xs[1..]| && FailsFirstAt(xs[1..], f, k, e);
            assert FailsFirstAt(xs, f, k + 1, e);
          }
          Err(e)
        case Ok(ys) => Ok([y] + ys)
  }

  /** The detections of the poses: one per pose, in pose order, or the
      failure of the first pose that has none. */
  function DetectionsOf(poses: seq<Pose>): Result<seq<Detection>>
  {
    Collect(poses, BuildDetection)
  }

  /** The detections of one frame: none when the merge produced nothing (the
      pose estimator is then not consulted), otherwise one detection per pose
      the estimator returns for the merged boxes and scores, in pose order,
      or the failure of the first pose that has none. */
  function FrameDetections(merged: Option<seq<Row>>, estimate: (seq<Box>, seq<real>) -> seq<Pose>): (r: Result<seq<Detection>>)
    ensures merged.None? ==> r == Ok([])
    ensures merged.Some? ==> r == DetectionsOf(estimate(Boxes(merged.value), Scores(merged.value)))
    ensures merged.Some? ==>
      var poses := estimate(Boxes(merged.value), Scores(merged.value));
      && (r.Ok? <==> forall i :: 0 <= i < |poses| ==> BuildDetection(poses[i]).Ok?)
      && (r.Ok? ==> |r.value| == |poses|)
      && (r.Ok? ==> forall i :: 0 <= i < |poses| ==> r.value[i] == BuildDetection(poses[i]).value)
      && (r.Err? ==> exists k :: 0 <= k < |poses| && FailsFirstAt(poses, BuildDetection, k, r.error))
  {
    if merged.None? then Ok([])
    else DetectionsOf(estimate(Boxes(merged.value), Scores(merged.value)))
  }
}
