/**
 Identity of a captured frame and the lexicographic "strictly after" order that the
 recorder, the sidecar, the frame slot, the preview cache and the MJPEG session share.
 */
module FrameIdentity {
  datatype Identity = Identity(generation: nat, number: nat, timestampNs: int, unixNs: int)

  /** Lexicographic on (generation, number); the timestamps play no part. */
  predicate StrictlyAfter(candidate: Identity, previous: Identity) {
    candidate.generation > previous.generation ||
    (candidate.generation == previous.generation && candidate.number > previous.number)
  }

  /** Every later identity is strictly after every earlier one. */
  ghost predicate Increasing(ids: seq<Identity>) {
    forall i, j :: 0 <= i < j < |ids| ==> StrictlyAfter(ids[j], ids[i])
  }

  /** Appending keeps the order as soon as the new identity is after the LAST one. */
  lemma IncreasingAppend(ids: seq<Identity>, next: Identity)
    requires Increasing(ids)
    requires ids == [] || StrictlyAfter(next, ids[|ids| - 1])
    ensures Increasing(ids + [next])
  {
    forall i, j | 0 <= i < j < |ids + [next]|
      ensures StrictlyAfter((ids + [next])[j], (ids + [next])[i])
    {
      if j == |ids| && i < |ids| - 1 {
        assert StrictlyAfter(ids[|ids| - 1], ids[i]);
      }
    }
  }
}
