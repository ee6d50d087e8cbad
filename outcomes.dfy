/** Optional values and the failures the action-recognition driver can raise. */
module Outcomes {

  /** A value that may be missing, as the detector's `None` output. */
  datatype Option<+T> = None | Some(value: T)

  /** The exceptions the per-frame driver can raise on its own (not those of
      the foreign models it calls). */
  datatype Failure =
    | EmptyKeypoints         // min()/max() of a pose with no keypoints
    | ScoreRowMismatch       // keypoints and kp_score with different row counts
    | EmptyClassifierOutput  // argmax of an empty probability row
    | ClassIndexOutOfRange   // the argmax index is not an index of class_names
    | EmptyKeypointHistory   // keypoints_list[-1] of a track with no history

  /** The outcome of a step that may raise one of the failures above. */
  datatype Result<+T> = Ok(value: T) | Err(error: Failure)

  /** Element `k` is the first on which `f` fails, and it fails with `e`. */
  ghost predicate FailsFirstAt<A, B>(xs: seq<A>, f: A -> Result<B>, k: nat, e: Failure)
    requires k < |xs|
  {
    && f(xs[k]) == Err(e)
    && forall i :: 0 <= i < k ==> f(xs[i]).Ok?
  }
}
