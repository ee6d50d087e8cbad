# Action-recognition frame driver: a Dafny model

This project models the per-frame glue logic of the action-recognition stream
in `generate_action_model_frame` (StreamServer). On each frame the driver:

1. takes the person detector's output rows (or `None`);
2. appends one row per tracked person to those rows. The row holds the box the
   tracker predicted for that person, then the scores 0.5, 1.0 and 0.0;
3. runs the pose estimator on the merged rows and builds one `Detection` per
   returned pose. A detection's box comes from the pose's keypoints through
   `kpt2bbox`, which widens it by 20 pixels on every side. Its keypoints carry
   their scores, and its confidence is the mean keypoint score;
4. hands these detections to the tracker;
5. decides, for every confirmed track, its action label, the label's colour
   and whether the track is drawn.

The model is split into modules:

- `Geometry` holds points, boxes, `kpt2bbox` and numpy's `astype(int)`.
- `Tracks` holds the `Detection` record and the view of a track that the driver
  reads.
- `Detections` holds the merge loop and how detections are built.
- `Labelling` holds the per-track decision and the loop over tracks.
- `Driver` holds one whole frame.

Foreign parts of the system are inputs or function parameters:

- The detector's output and the tracks after `tracker.predict()` are inputs.
- The pose estimator (`PoseEstimator`) is a function parameter.
- `tracker.update` followed by reading `tracker.tracks` (`TrackerUpdate`) is a
  function parameter.
- The action classifier (`Classifier`) is a function parameter. It returns the
  single probability row `out[0]`.
- The class names are an input.

Coordinates and scores are `real`.

The model covers the driver's Python exceptions as `Err` results:

- a pose with no keypoints (`min` of an empty array);
- a score column whose length differs from the keypoint count (`np.concatenate`);
- an empty classifier row (`argmax`);
- an argmax that is not an index of the class names;
- a track with no keypoint history that has to be drawn (`keypoints_list[-1]`).

numpy's `argmax` is modelled as the first index of a largest element.

## Model

| member | source | states |
|---|---|---|
| `Geometry.MinOf` | StreamServer/src/analytic/action/action_model.py:48 | numpy `min` of a non-empty column is a lower bound of the column and is one of its elements |
| `Geometry.MaxOf` | StreamServer/src/analytic/action/action_model.py:49 | numpy `max` of a non-empty column is an upper bound of the column and is one of its elements |
| `Geometry.KptToBbox` | StreamServer/src/analytic/action/action_model.py:43-49 | every keypoint lies at least `ex` inside each side of the box, and each side is exactly `ex` from some keypoint; a non-empty keypoint array is required |
| `Geometry.KptToBboxIsSmallest` | StreamServer/src/analytic/action/action_model.py:43-49 | every box that encloses all keypoints with margin `ex` contains the box of `kpt2bbox`, so that box is the tightest one |
| `Geometry.KptToBboxOrdered` | StreamServer/src/analytic/action/action_model.py:48-49 | with `ex >= 0` the box is well ordered (`x1 <= x2`, `y1 <= y2`) and at least `2*ex` wide and high |
| `Geometry.KptToBboxExtent` | StreamServer/src/analytic/action/action_model.py:48-49 | the width is the x distance from a leftmost to a rightmost keypoint plus `2*ex` (max x minus min x plus twice the margin), and the height likewise from a topmost to a bottommost keypoint |
| `Geometry.KptToBboxWidensTightBox` | StreamServer/src/analytic/action/action_model.py:43-47 | the box with margin `ex` is the margin-0 box moved out by `ex` on every side |
| `Geometry.Truncate` | StreamServer/src/analytic/action/action_model.py:112-113 | `astype(int)` truncates toward zero: the result is the integer part of the float, for both signs |
| `Detections.MergePredicted` | StreamServer/src/analytic/action/action_model.py:79-83 | the result is `None` exactly when the detector returned `None` and there are no tracks. Otherwise it holds the detector's rows in order, then exactly one row per track in track order: that track's predicted box followed by 0.5, 1.0 and 0.0 |
| `Detections.SumBounds` | StreamServer/src/analytic/action/action_model.py:95 | a sum of scores that all lie in `[lo, hi]` lies between `n*lo` and `n*hi` |
| `Detections.MeanBetween` | StreamServer/src/analytic/action/action_model.py:95 | the mean of a non-empty score column whose values all lie in `[lo, hi]` also lies in `[lo, hi]` |
| `Detections.BuildDetectionSpec` | StreamServer/src/analytic/action/action_model.py:92-95 | a pose gives a detection exactly when it has keypoints and one score per keypoint, and each failure case is named. The detection's box is `kpt2bbox` with the default margin of 20 and encloses every keypoint. Its keypoints are the pose's with scores appended. Its confidence is the mean of the keypoint scores and so lies within their range |
| `Detections.Collect` | StreamServer/src/analytic/action/action_model.py:92-95 | the comprehension over the poses succeeds exactly when every pose gives a detection. It then holds one detection per pose, in pose order. Otherwise its error is that of the first pose that fails |
| `Detections.FrameDetections` | StreamServer/src/analytic/action/action_model.py:85-95 | when the merge gave `None`, the detection list is empty and the pose estimator is not consulted. Otherwise the poses are those the estimator returns for `detected[:, 0:4]` and `detected[:, 4]` (the `Boxes` and `Scores` columns of the merged rows). The frame's detections succeed exactly when every pose gives a detection; they are then one detection per pose, in pose order, and otherwise the error is that of the first pose that fails |
| `Labelling.ArgMax` | StreamServer/src/analytic/action/action_model.py:121 | numpy `argmax` returns an index whose probability is the largest, and no earlier index reaches that value |
| `Labelling.UnconfirmedSkipped` | StreamServer/src/analytic/action/action_model.py:107-109 | an unconfirmed track gets no label, no classifier call and no drawing, whatever the classifier |
| `Labelling.ConfirmedDecided` | StreamServer/src/analytic/action/action_model.py:107-111 | if nothing fails, a confirmed track gets a decision under its own `track_id` |
| `Labelling.PendingUnlessFullHistory` | StreamServer/src/analytic/action/action_model.py:115-118 | unless the history has exactly 30 entries, the classifier is not consulted (any two classifiers give the same outcome) and the label is `pending` in `(0,255,0)` |
| `Labelling.FullHistoryClassified` | StreamServer/src/analytic/action/action_model.py:118-122 | with exactly 30 entries of history, the label is the class name at the first index of the largest probability, and its confidence is that probability |
| `Labelling.ColourRule` | StreamServer/src/analytic/action/action_model.py:116-126 | the colour is `(255,0,0)` exactly for `Fall Down` and `(255,200,0)` exactly for `Lying Down`; for every other class and for `pending` it is `(0,255,0)` |
| `Labelling.DrawnIffUpdated` | StreamServer/src/analytic/action/action_model.py:129-133 | a track is drawn exactly when `time_since_update == 0`. The drawing uses the last keypoint set and the box and centre truncated to integers |
| `Labelling.DecideTrackFailures` | StreamServer/src/analytic/action/action_model.py:107-131 | a track's decision fails exactly in these cases, all for a confirmed track: an empty classifier output or an argmax past the class names at full history, or a track to be drawn with an empty history |
| `Labelling.Confirmed` | StreamServer/src/analytic/action/action_model.py:107-109 | the tracks the loop does not skip are all confirmed |
| `Labelling.ConfirmedKeepsEveryConfirmedTrack` | StreamServer/src/analytic/action/action_model.py:107-109 | every confirmed track is kept as often as it occurs in `tracker.tracks`, and no unconfirmed track is kept |
| `Labelling.FrameDecisionsErrPersists` | StreamServer/src/analytic/action/action_model.py:107-131 | once a prefix of the track list fails, the frame ends with that prefix's failure, whatever tracks follow |
| `Labelling.OnlyConfirmedMatter` | StreamServer/src/analytic/action/action_model.py:107-109 | the frame's decisions are the same as for the subsequence of confirmed tracks alone |
| `Labelling.FrameDecisionsPerConfirmedTrack` | StreamServer/src/analytic/action/action_model.py:107-136 | the frame succeeds exactly when every track's decision does; then there is exactly one decision per confirmed track, in track order, each the one for that track |
| `Labelling.FrameDecisionsFirstFailure` | StreamServer/src/analytic/action/action_model.py:107-131 | a failing frame reports the error of the first track whose decision fails: that track fails with it and every earlier track succeeds |
| `Labelling.LabelTracks` | StreamServer/src/analytic/action/action_model.py:107-136 | the loop over `tracker.tracks` produces exactly the frame's decisions, and when it fails, it fails with the error of the first track whose decision fails |
| `Driver.ProcessFrame` | StreamServer/src/analytic/action/action_model.py:75-136 | one frame runs in order: merge, detections, tracker update on exactly those detections, then decisions for the updated tracks. The merge is `None` only with no detector output and no tracks, and then there are no detections. The frame fails exactly when building the detections or deciding for the updated tracks fails, and it reports the error of the first of these two steps that fails |

## Left out

- The tracker (`Track/Tracker`): the Kalman motion model, association, track lifecycle and the keypoint history buffer. Their source is not part of this model. The driver sees tracks only through `TrackView`. The tracks after `tracker.predict()` are an input, and `tracker.update` is an opaque function.
- The foreign pretrained models: the detector, the pose estimator and the action classifier. Loading them, and running them on the GPU, is outside the model. The detector's output is an input, and the other two are opaque functions.
- The attributes each model takes are left out: the detector's `need_resize` and `expand_bb`, the pose estimator's frame, and the classifier's batch dimension (only `out[0]` is modelled).
- Camera capture by `CamLoader`, the `while cam.grabbed()` loop and the frame counter `f`. These are I/O and a producer thread.
- Pre-processing (`preproc`, resizing, colour conversion), because it is image processing.
- All OpenCV drawing and the final resize and channel flip. The model records what is drawn for each track (skeleton, box, id position, label and colour) as a `Drawing` and a `Decision`, not the pixels.
- The detector-box drawing under `SHOW_DETECTED`. It is dead code because `SHOW_DETECTED` is `False`. `SHOW_SKELETON` is taken as its constant `True`.
- The FPS overlay and `time.time()`, because they are wall-clock and float formatting.
- JPEG encoding, the `HTTPException` on encoding failure and the multipart byte stream. These are I/O.
- The label text `'{}: {:.2f}%'`: the model keeps the class name and the raw probability instead of the formatted string.
- Floating point: numbers are exact reals. float32 rounding of the merged rows, NaN handling in `min`/`max`/`argmax`/`mean`, and `astype(int)` overflow are not modelled.
- Tensor shapes are not modelled. The model does not check that the detector rows have seven columns or that the pose estimator returns one pose per box. The driver does not check the second either; it uses whatever poses come back.
- `output_action_detection` is an empty function.
- The React dashboard and the configuration loading are outside this driver.
