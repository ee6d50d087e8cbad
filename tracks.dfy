/** The pose-based detection record handed to the tracker, and the view of a
    track that the driver reads. The tracker itself (motion filter,
    association, lifecycle) is not part of this model. */
module Tracks {
  import opened Geometry

  /** One row of a keypoint array with its confidence appended: (x, y, score). */
  datatype Keypoint = Keypoint(x: real, y: real, score: real)

  /** `Detection(bbox, keypoints, confidence)` as the driver builds it. */
  datatype Detection = Detection(box: Box, keypoints: seq<Keypoint>, confidence: real)

  /** What the driver reads of a track: `track_id`, `to_tlbr()`,
      `get_center()`, `is_confirmed()`, `keypoints_list` and
      `time_since_update`. */
  datatype TrackView = TrackView(
    trackId: nat,
    box: Box,
    center: Point,
    confirmed: bool,
    keypointsList: seq<seq<Keypoint>>,
    timeSinceUpdate: nat)
}
