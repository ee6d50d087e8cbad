/** One iteration of the frame loop of `generate_action_model_frame`, from
    the detector's output to the per-track decisions. The foreign models and
    the tracker are parameters: the detector's output and the tracks after
    `tracker.predict()` are inputs, the pose estimator, `tracker.update` and
    the action classifier are functions. */
module Driver {
  import opened Outcomes
  import opened Geometry
  import opened Tracks
  import opened Detections
  import opened Labelling

  /** The pose estimator: the poses for the given boxes and scores. */
  type PoseEstimator = (seq<Box>, seq<real>) -> seq<Pose>

  /** `tracker.update(detections)` followed by reading `tracker.tracks`. */
  type TrackerUpdate = seq<Detection> -> seq<TrackView>

  /** What one frame produces: the merged rows, the detections handed to the
      tracker, the tracks after the update and the decisions for them. */
  datatype FrameResult = FrameResult(
    merged: Option<seq<Row>>,
    detections: seq<Detection>,
    tracks: seq<TrackView>,
    decisions: seq<Decision>)

  /** One frame: merge the predicted boxes into the detector's rows, build
      one detection per pose, update the tracker and decide for every track.
      The frame fails exactly when building the detections or deciding for
      the updated tracks fails, and then with the error of the first of the
      two steps that fails. */
  method ProcessFrame(
    detected: Option<seq<Row>>,
    predicted: seq<TrackView>,
    estimate: PoseEstimator,
    update: TrackerUpdate,
    classify: Classifier,
    names: seq<string>,
    shape: (int, int))
    returns (r: Result<FrameResult>)
    ensures r.Ok? ==> (r.value.merged.None? <==> detected.None? && predicted == [])
    ensures r.Ok? ==> r.value.merged == MergedRows(detected, predicted)
    ensures r.Ok? && r.value.merged.None? ==> r.value.detections == []
    ensures r.Ok? ==> FrameDetections(r.value.merged, estimate) == Ok(r.value.detections)
    ensures r.Ok? ==> r.value.tracks == update(r.value.detections)
    ensures r.Ok? ==> FrameDecisions(r.value.tracks, classify, names, shape) == Ok(r.value.decisions)
    ensures var dets := FrameDetections(MergedRows(detected, predicted), estimate);
      r.Err? <==> dets.Err? || FrameDecisions(update(dets.value), classify, names, shape).Err?
    ensures var dets := FrameDetections(MergedRows(detected, predicted), estimate);
      r.Err? ==> r.error == (if dets.Err? then dets.error else FrameDecisions(update(dets.value), classify, names, shape).error)
  {
    var merged := MergePredicted(detected, predicted);
    var dets := FrameDetections(merged, estimate);
    if dets.Err? {
      return Err(dets.error);
    }
    var tracks := update(dets.value);
    var decisions := LabelTracks(tracks, classify, names, shape);
    if decisions.Err? {
      return Err(decisions.error);
    }
    return Ok(FrameResult(merged, dets.value, tracks, decisions.value));
  }
}
