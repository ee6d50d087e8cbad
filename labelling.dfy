/** The per-track decision of the driver after the tracker's update: which
    tracks are labelled, when the action classifier is consulted, the colour
    of the label and whether the track is drawn on this frame. */
module Labelling {
  import opened Outcomes
  import opened Geometry
  import opened Tracks

  /** The number of keypoint frames the action classifier takes. */
  const HistoryLength: nat := 30

  /** An RGB triple as the driver writes it. */
  datatype Colour = Colour(r: int, g: int, b: int)

  const Green := Colour(0, 255, 0)
  const Red := Colour(255, 0, 0)
  const Amber := Colour(255, 200, 0)

  /** The label of a track: still waiting for history, or the chosen class
      with its probability (shown as a percentage). */
  datatype Action = Pending | Recognised(name: string, confidence: real)

  /** What is drawn for a track updated on this frame: its latest skeleton,
      its box, and its id at its centre, all at integer pixel positions. */
  datatype Drawing = Drawing(skeleton: seq<Keypoint>, box: PixelBox, center: Pixel)

  /** The outcome for one confirmed track. */
  datatype Decision = Decision(trackId: nat, action: Action, colour: Colour, drawing: Option<Drawing>)

  /** The action classifier: class probabilities from a keypoint history and
      the frame's (height, width). */
  type Classifier = (seq<seq<Keypoint>>, (int, int)) -> seq<real>

  /** numpy's `argmax`: the first index of a largest element. */
  function ArgMax(s: seq<real>): (k: nat)
    requires |s| > 0
    ensures k < |s|
    ensures forall j :: 0 <= j < |s| ==> s[j] <= s[k]
    ensures forall j :: 0 <= j < k ==> s[j] < s[k]
  {
    if |s| == 1 then 0
    else
      var k := ArgMax(s[..|s| - 1]);
      if s[|s| - 1] > s[k] then |s| - 1 else k
  }

  /** The label colour for a class name. */
  function ColourFor(name: string): Colour
  {
    if name == "Fall Down" then Red
    else if name == "Lying Down" then Amber
    else Green
  }

  /** The class at the argmax of the classifier's output, with its
      probability and colour; fails on an empty output or an argmax past the
      end of the class names. */
  function Recognise(probs: seq<real>, names: seq<string>): Result<(Action, Colour)>
  {
    if |probs| == 0 then Err(EmptyClassifierOutput)
    else
      var k := ArgMax(probs);
      if k >= |names| then Err(ClassIndexOutOfRange)
      else Ok((Recognised(names[k], probs[k]), ColourFor(names[k])))
  }

  /** The action, colour and drawing for one track, or `None` for a track
      that is not confirmed. */
  function DecideTrack(t: TrackView, classify: Classifier, names: seq<string>, shape: (int, int)): Result<Option<Decision>>
  {
    if !t.confirmed then Ok(None)
    else
      var labelled :=
        if |t.keypointsList| == HistoryLength then Recognise(classify(t.keypointsList, shape), names)
        else Ok((Pending, Green));
      match labelled
      case Err(e) => Err(e)
      case Ok((action, colour)) =>
        if t.timeSinceUpdate != 0 then Ok(Some(Decision(t.trackId, action, colour, None)))
        else if |t.keypointsList| == 0 then Err(EmptyKeypointHistory)
        else
          var skeleton := t.keypointsList[|t.keypointsList| - 1];
          Ok(Some(Decision(t.trackId, action, colour,
                           Some(Drawing(skeleton, TruncateBox(t.box), TruncatePoint(t.center))))))
  }

  /** A track that is not confirmed gets nothing: no label, no classifier
      call and no drawing. */
  lemma UnconfirmedSkipped(t: TrackView, classify: Classifier, names: seq<string>, shape: (int, int))
    requires !t.confirmed
    ensures DecideTrack(t, classify, names, shape) == Ok(None)
  {
  }

  /** A confirmed track always gets a decision under its own id when nothing
      fails. */
  lemma ConfirmedDecided(t: TrackView, classify: Classifier, names: seq<string>, shape: (int, int))
    requires t.confirmed
    ensures var r := DecideTrack(t, classify, names, shape);
      r.Ok? ==> r.value.Some? && r.value.value.trackId == t.trackId
  {
  }

  /** Without exactly 30 frames of history the classifier is not consulted:
      any two classifiers give the same outcome, and the label is `pending`
      in green. */
  lemma PendingUnlessFullHistory(t: TrackView, c1: Classifier, c2: Classifier, names: seq<string>, shape: (int, int))
    requires |t.keypointsList| != HistoryLength
    ensures DecideTrack(t, c1, names, shape) == DecideTrack(t, c2, names, shape)
    ensures var r := DecideTrack(t, c1, names, shape);
      r.Ok? && r.value.Some? ==> r.value.value.action == Pending && r.value.value.colour == Green
  {
  }

  /** With exactly 30 frames of history the label is the class at the first
      index of the largest probability, and the confidence is that largest
      probability. */
  lemma FullHistoryClassified(t: TrackView, classify: Classifier, names: seq<string>, shape: (int, int))
    requires t.confirmed && |t.keypointsList| == HistoryLength
    ensures var r := DecideTrack(t, classify, names, shape);
      var probs := classify(t.keypointsList, shape);
      r.Ok? ==>
        && r.value.Some?
        && r.value.value.action.Recognised?
        && exists k :: 0 <= k < |probs| && k < |names|
             && r.value.value.action == Recognised(names[k], probs[k])
             && (forall j :: 0 <= j < |probs| ==> probs[j] <= probs[k])
             && (forall j :: 0 <= j < k ==> probs[j] < probs[k])
  {
  }

  /** The colour rule: red for `Fall Down`, amber for `Lying Down`, green for
      every other class and for `pending`. */
  lemma ColourRule(t: TrackView, classify: Classifier, names: seq<string>, shape: (int, int))
    ensures var r := DecideTrack(t, classify, names, shape);
      r.Ok? && r.value.Some? ==>
        var d := r.value.value;
        && (d.colour == Red <==> d.action.Recognised? && d.action.name == "Fall Down")
        && (d.colour == Amber <==> d.action.Recognised? && d.action.name == "Lying Down")
        && (d.colour == Green <==> !(d.action.Recognised? && d.action.name in {"Fall Down", "Lying Down"}))
  {
  }

  /** A track is drawn exactly when it was updated on this frame, with its
      latest keypoint set and its box and centre truncated to pixels. */
  lemma DrawnIffUpdated(t: TrackView, classify: Classifier, names: seq<string>, shape: (int, int))
    ensures var r := DecideTrack(t, classify, names, shape);
      r.Ok? && r.value.Some? ==>
        var d := r.value.value;
        && (d.drawing.Some? <==> t.timeSinceUpdate == 0)
        && (d.drawing.Some? ==>
              && |t.keypointsList| > 0
              && d.drawing.value.skeleton == t.keypointsList[|t.keypointsList| - 1]
              && d.drawing.value.box == TruncateBox(t.box)
              && d.drawing.value.center == TruncatePoint(t.center))
  {
  }

  /** The decision for one track fails exactly when a confirmed track has a
      full history and the classifier's output is empty or its argmax has no
      class name, or when a track without history is to be drawn. */
  lemma DecideTrackFailures(t: TrackView, classify: Classifier, names: seq<string>, shape: (int, int))
    ensures var r := DecideTrack(t, classify, names, shape);
      var probs := classify(t.keypointsList, shape);
      && (r.Err? <==>
            t.confirmed &&
            (if |t.keypointsList| == HistoryLength then |probs| == 0 || ArgMax(probs) >= |names|
             else t.timeSinceUpdate == 0 && |t.keypointsList| == 0))
      && (r == Err(EmptyKeypointHistory) ==> t.timeSinceUpdate == 0 && |t.keypointsList| == 0)
  {
  }

  /** The decisions for a whole track list, in order; the first track whose
      decision fails makes the frame fail. */
  function FrameDecisions(ts: seq<TrackView>, classify: Classifier, names: seq<string>, shape: (int, int)): Result<seq<Decision>>
  {
    if ts == [] then Ok([])
    else
      match FrameDecisions(ts[..|ts| - 1], classify, names, shape)
      case Err(e) => Err(e)
      case Ok(ds) =>
        match DecideTrack(ts[|ts| - 1], classify, names, shape)
        case Err(e) => Err(e)
        case Ok(None) => Ok(ds)
        case Ok(Some(d)) => Ok(ds + [d])
  }

  /** The confirmed tracks of a list, in order. */
  function Confirmed(ts: seq<TrackView>): (cs: seq<TrackView>)
    ensures forall i :: 0 <= i < |cs| ==> cs[i].confirmed
  {
    if ts == [] then []
    else Confirmed(ts[..|ts| - 1]) + (if ts[|ts| - 1].confirmed then [ts[|ts| - 1]] else [])
  }

  /** Every confirmed track is kept, as often as it occurs, and nothing
      else is. */
  lemma {:induction false} ConfirmedKeepsEveryConfirmedTrack(ts: seq<TrackView>)
    ensures forall t :: multiset(Confirmed(ts))[t] == if t.confirmed then multiset(ts)[t] else 0
  {
    if ts != [] {
      ConfirmedKeepsEveryConfirmedTrack(ts[..|ts| - 1]);
      assert ts == ts[..|ts| - 1] + [ts[|ts| - 1]];
    }
  }

  /** Track `k` is the first whose decision fails, and it fails with `e`. */
  ghost predicate FirstFailingTrack(ts: seq<TrackView>, classify: Classifier, names: seq<string>, shape: (int, int), k: nat, e: Failure)
    requires k < |ts|
  {
    && DecideTrack(ts[k], classify, names, shape) == Err(e)
    && forall i :: 0 <= i < k ==> DecideTrack(ts[i], classify, names, shape).Ok?
  }

  /** Once a prefix of the track list fails, the whole frame fails with the
      same error, whatever tracks follow the prefix. */
  lemma {:induction false} FrameDecisionsErrPersists(ts: seq<TrackView>, i: nat, classify: Classifier, names: seq<string>, shape: (int, int))
    requires i <= |ts|
    requires FrameDecisions(ts[..i], classify, names, shape).Err?
    ensures FrameDecisions(ts, classify, names, shape) == FrameDecisions(ts[..i], classify, names, shape)
  {
    if i < |ts| {
      var init := ts[..|ts| - 1];
      assert init[..i] == ts[..i];
      FrameDecisionsErrPersists(init, i, classify, names, shape);
    } else {
      assert ts[..i] == ts;
    }
  }

  /** Unconfirmed tracks are skipped entirely: the frame's decisions are
      those of its confirmed tracks alone. */
  lemma {:induction false} OnlyConfirmedMatter(ts: seq<TrackView>, classify: Classifier, names: seq<string>, shape: (int, int))
    ensures FrameDecisions(ts, classify, names, shape) == FrameDecisions(Confirmed(ts), classify, names, shape)
  {
    if ts != [] {
      var init, last := ts[..|ts| - 1], ts[|ts| - 1];
      OnlyConfirmedMatter(init, classify, names, shape);
      var cs := Confirmed(init);
      if last.confirmed {
        var cs' := cs + [last];
        assert Confirmed(ts) == cs';
        assert cs'[..|cs'| - 1] == cs && cs'[|cs'| - 1] == last;
        StepAgrees(ts, cs', classify, names, shape);
      } else {
        assert Confirmed(ts) == cs;
        UnconfirmedSkipped(last, classify, names, shape);
      }
    }
  }

  /** Two non-empty track lists whose prefixes give the same decisions and
      whose last tracks are the same give the same decisions. */
  lemma StepAgrees(ts: seq<TrackView>, us: seq<TrackView>, classify: Classifier, names: seq<string>, shape: (int, int))
    requires ts != [] && us != []
    requires ts[|ts| - 1] == us[|us| - 1]
    requires FrameDecisions(ts[..|ts| - 1], classify, names, shape) == FrameDecisions(us[..|us| - 1], classify, names, shape)
    ensures FrameDecisions(ts, classify, names, shape) == FrameDecisions(us, classify, names, shape)
  {
  }

  /** When a frame succeeds there is exactly one decision per confirmed
      track, in track order, each the one for that track; the frame succeeds
      exactly when every track's decision does. */
  lemma {:induction false} FrameDecisionsPerConfirmedTrack(ts: seq<TrackView>, classify: Classifier, names: seq<string>, shape: (int, int))
    ensures var r := FrameDecisions(ts, classify, names, shape);
      && (r.Ok? <==> forall i :: 0 <= i < |ts| ==> DecideTrack(ts[i], classify, names, shape).Ok?)
      && (r.Ok? ==>
            var cs := Confirmed(ts);
            && |r.value| == |cs|
            && forall k :: 0 <= k < |cs| ==> DecideTrack(cs[k], classify, names, shape) == Ok(Some(r.value[k])))
  {
    if ts != [] {
      var init, last := ts[..|ts| - 1], ts[|ts| - 1];
      FrameDecisionsPerConfirmedTrack(init, classify, names, shape);
      assert forall i :: 0 <= i < |init| ==> init[i] == ts[i];
      var r := FrameDecisions(ts, classify, names, shape);
      if r.Ok? {
        var cs := Confirmed(init);
        if last.confirmed {
          assert Confirmed(ts) == cs + [last];
        } else {
          UnconfirmedSkipped(last, classify, names, shape);
          assert Confirmed(ts) == cs;
        }
      }
    }
  }

  /** A frame that fails reports the error of the first track whose
      decision fails. */
  lemma {:induction false} FrameDecisionsFirstFailure(ts: seq<TrackView>, classify: Classifier, names: seq<string>, shape: (int, int))
    ensures var r := FrameDecisions(ts, classify, names, shape);
      r.Err? ==> exists k :: 0 <= k < |ts| && FirstFailingTrack(ts, classify, names, shape, k, r.error)
  {
    if ts != [] {
      var init := ts[..|ts| - 1];
      var r := FrameDecisions(ts, classify, names, shape);
      if r.Err? {
        if FrameDecisions(init, classify, names, shape).Err? {
          FrameDecisionsFirstFailure(init, classify, names, shape);
          var k :| 0 <= k < |init| && FirstFailingTrack(init, classify, names, shape, k, r.error);
          assert FirstFailingTrack(ts, classify, names, shape, k, r.error);
        } else {
          FrameDecisionsPerConfirmedTrack(init, classify, names, shape);
          assert forall i :: 0 <= i < |init| ==> init[i] == ts[i];
          assert FirstFailingTrack(ts, classify, names, shape, |ts| - 1, r.error);
        }
      }
    }
  }

  /** The loop over the tracker's tracks after its update: unconfirmed tracks
      are skipped, the label starts as `pending` in green and is replaced by
      the classifier's choice when the history holds 30 frames, and tracks
      updated on this frame are drawn. */
  method LabelTracks(tracks: seq<TrackView>, classify: Classifier, names: seq<string>, shape: (int, int))
    returns (r: Result<seq<Decision>>)
    ensures r == FrameDecisions(tracks, classify, names, shape)
    ensures r.Err? ==> exists k :: 0 <= k < |tracks| && FirstFailingTrack(tracks, classify, names, shape, k, r.error)
  {
    FrameDecisionsFirstFailure(tracks, classify, names, shape);
    var decisions: seq<Decision> := [];
    for i := 0 to |tracks|
      invariant FrameDecisions(tracks[..i], classify, names, shape) == Ok(decisions)
    {
      var t := tracks[i];
      assert tracks[..i + 1][..i] == tracks[..i];
      if !t.confirmed {
        continue;
      }
      var action := Pending;
      var colour := Green;
      if |t.keypointsList| == HistoryLength {
        var out := classify(t.keypointsList, shape);
        if |out| == 0 {
          FrameDecisionsErrPersists(tracks, i + 1, classify, names, shape);
          return Err(EmptyClassifierOutput);
        }
        var k := ArgMax(out);
        if k >= |names| {
          FrameDecisionsErrPersists(tracks, i + 1, classify, names, shape);
          return Err(ClassIndexOutOfRange);
        }
        var name := names[k];
        action := Recognised(name, out[k]);
        if name == "Fall Down" {
          colour := Red;
        } else if name == "Lying Down" {
          colour := Amber;
        }
      }
      var drawing := None;
      if t.timeSinceUpdate == 0 {
        if |t.keypointsList| == 0 {
          FrameDecisionsErrPersists(tracks, i + 1, classify, names, shape);
          return Err(EmptyKeypointHistory);
        }
        var skeleton := t.keypointsList[|t.keypointsList| - 1];
        drawing := Some(Drawing(skeleton, TruncateBox(t.box), TruncatePoint(t.center)));
      }
      decisions := decisions + [Decision(t.trackId, action, colour, drawing)];
    }
    assert tracks[..|tracks|] == tracks;
    return Ok(decisions);
  }
}
