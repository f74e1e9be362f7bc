/**
 The latest-wins stores between capture, encoder and streams: the frame slot, the two preview
 slots, and the encoder that moves frames from one to the other.
 */
module LatestStores {
  import opened Wrappers
  import opened FrameIdentity

  /** A captured frame: its identity, and those of its color and depth preview views. */
  datatype Captured = Captured(identity: Identity, color: Option<Identity>, depth: Option<Identity>)

  datatype Preview = ColorPreview | DepthPreview

  // ----- as values -----

  /** Does the slot take the candidate? */
  predicate Wins(slot: Option<Identity>, candidate: Identity) {
    slot.Some? ==> StrictlyAfter(candidate, slot.value)
  }

  function IdentityOf(frame: Option<Captured>): Option<Identity> {
    if frame.Some? then Some(frame.value.identity) else None
  }

  function PublishInto(slot: Option<Captured>, frame: Captured): Option<Captured> {
    if Wins(IdentityOf(slot), frame.identity) then Some(frame) else slot
  }

  /** The slot after publishing all of them, from an empty slot. */
  function LatestOf(published: seq<Captured>): Option<Captured>
    decreases |published|
  {
    if published == [] then None
    else PublishInto(LatestOf(published[..|published| - 1]), published[|published| - 1])
  }

  /** The slot holds the lexicographic maximum of everything published. */
  lemma {:induction false} LatestIsTheMaximum(published: seq<Captured>)
    ensures LatestOf(published).None? <==> published == []
    ensures LatestOf(published).Some? ==>
              && LatestOf(published).value in published
              && forall f | f in published :: !StrictlyAfter(f.identity, LatestOf(published).value.identity)
    decreases |published|
  {
    if published != [] {
      LatestIsTheMaximum(published[..|published| - 1]);
      assert published == published[..|published| - 1] + [published[|published| - 1]];
    }
  }

  /** A frame is accepted exactly when it is a new maximum. */
  lemma AcceptedIffNewMaximum(published: seq<Captured>, frame: Captured)
    ensures Wins(IdentityOf(LatestOf(published)), frame.identity) <==>
              forall f | f in published :: StrictlyAfter(frame.identity, f.identity)
  {
    LatestIsTheMaximum(published);
  }

  function Publish(slot: Option<Identity>, preview: Option<Identity>): Option<Identity> {
    if preview.Some? && Wins(slot, preview.value) then preview else slot
  }

  function Invalidate(slot: Option<Identity>, generation: nat): Option<Identity> {
    if slot.Some? && slot.value.generation != generation then None else slot
  }

  // ----- the objects -----

  class FrameStore {
    var latest: Option<Captured>
    ghost var published: seq<Captured>       // since the last clear

    ghost predicate Valid()
      reads this
    {
      latest == LatestOf(published)
    }

    constructor ()
      ensures Valid() && published == []
    {
      latest, published := None, [];
    }

    method PublishFrame(frame: Option<Captured>) returns (accepted: bool)
      requires Valid()
      modifies this
      ensures Valid()
      ensures published == old(published) + (if frame.Some? then [frame.value] else [])
      ensures accepted <==> frame.Some? && forall f | f in old(published) :: StrictlyAfter(frame.value.identity, f.identity)
      ensures latest == if accepted then frame else old(latest)
    {
      if frame.None? { return false; }
      AcceptedIffNewMaximum(published, frame.value);
      published := published + [frame.value];
      assert published[..|published| - 1] == old(published);
      if latest.Some? && !StrictlyAfter(frame.value.identity, latest.value.identity) { return false; }
      latest := frame;
      return true;
    }

    /** The wait returns on a newer frame or at its deadline. */
    method WaitForFrameAfter(identity: Identity) returns (frame: Option<Captured>)
      requires Valid()
      ensures frame.Some? <==> exists f | f in published :: StrictlyAfter(f.identity, identity)
      ensures frame.Some? ==> frame == latest && StrictlyAfter(frame.value.identity, identity)
    {
      LatestIsTheMaximum(published);
      if latest.Some? && StrictlyAfter(latest.value.identity, identity) { return latest; }
      return None;
    }

    method Clear()
      modifies this
      ensures Valid() && published == []
    {
      latest, published := None, [];
    }
  }

  class PreviewCache {
    var color: Option<Identity>
    var depth: Option<Identity>

    constructor ()
      ensures color == None && depth == None
    {
      color, depth := None, None;
    }

    /** None stands for a missing preview and for an empty picture. */
    method PublishPreview(kind: Preview, preview: Option<Identity>) returns (accepted: bool)
      modifies this
      ensures color == if kind.ColorPreview? then Publish(old(color), preview) else old(color)
      ensures depth == if kind.DepthPreview? then Publish(old(depth), preview) else old(depth)
      ensures accepted <==> preview.Some? && Wins(if kind.ColorPreview? then old(color) else old(depth), preview.value)
    {
      if preview.None? { return false; }
      var slot := if kind.ColorPreview? then color else depth;
      if slot.Some? && !StrictlyAfter(preview.value, slot.value) { return false; }
      if kind.ColorPreview? { color := preview; } else { depth := preview; }
      return true;
    }

    method InvalidateGeneration(generation: nat)
      modifies this
      ensures color == Invalidate(old(color), generation) && depth == Invalidate(old(depth), generation)
    {
      if color.Some? && color.value.generation != generation { color := None; }
      if depth.Some? && depth.value.generation != generation { depth := None; }
    }

    method Clear()
      modifies this
      ensures color == None && depth == None
    {
      color, depth := None, None;
    }
  }

  // ----- the encoder, interleaved with everybody else -----

  datatype Stage = AwaitingFrame | Invalidating(frame: Captured) | EncodingColor(frame: Captured) | EncodingDepth(frame: Captured)

  /** `handled` and `everPublished` belong to the observer. */
  datatype Pipeline = Pipeline(
    slot: Option<Captured>,
    color: Option<Identity>,
    depth: Option<Identity>,
    last: Identity,
    stage: Stage,
    handled: seq<Captured>,
    everPublished: set<Captured>)

  const ZeroIdentity := Identity(0, 0, 0, 0)

  const InitialPipeline := Pipeline(None, None, None, ZeroIdentity, AwaitingFrame, [], {})

  /** Blocks under the stores' mutexes; `encoded` says whether the JPEG came out. */
  datatype Step = PublishStep(frame: Captured) | ClearFrames | ClearPreviews | EncoderStep(encoded: bool)

  function Encoded(view: Option<Identity>, encoded: bool): Option<Identity> {
    if encoded then view else None
  }

  function Encode(p: Pipeline, encoded: bool): Pipeline {
    match p.stage
    case AwaitingFrame =>
      if p.slot.Some? && StrictlyAfter(p.slot.value.identity, p.last) then
        p.(last := p.slot.value.identity, handled := p.handled + [p.slot.value], stage := Invalidating(p.slot.value))
      else p
    case Invalidating(f) =>
      p.(color := Invalidate(p.color, f.identity.generation), depth := Invalidate(p.depth, f.identity.generation),
         stage := EncodingColor(f))
    case EncodingColor(f) => p.(color := Publish(p.color, Encoded(f.color, encoded)), stage := EncodingDepth(f))
    case EncodingDepth(f) => p.(depth := Publish(p.depth, Encoded(f.depth, encoded)), stage := AwaitingFrame)
  }

  function Advance(p: Pipeline, step: Step): Pipeline {
    match step
    case PublishStep(frame) => p.(slot := PublishInto(p.slot, frame), everPublished := p.everPublished + {frame})
    case ClearFrames => p.(slot := None)
    case ClearPreviews => p.(color := None, depth := None)
    case EncoderStep(encoded) => Encode(p, encoded)
  }

  function AdvanceAll(p: Pipeline, run: seq<Step>): Pipeline
    decreases |run|
  {
    if run == [] then p else AdvanceAll(Advance(p, run[0]), run[1..])
  }

  /** The adapters give both views the generation of their frame. */
  ghost predicate ViewsAgree(f: Captured) {
    && (f.color.Some? ==> f.color.value.generation == f.identity.generation)
    && (f.depth.Some? ==> f.depth.value.generation == f.identity.generation)
  }

  predicate EmptyOrOf(slot: Option<Identity>, generation: nat) {
    slot.Some? ==> slot.value.generation == generation
  }

  function HandledIdentities(p: Pipeline): seq<Identity> {
    seq(|p.handled|, i requires 0 <= i < |p.handled| => p.handled[i].identity)
  }

  function FrameOf(stage: Stage): Option<Captured> {
    if stage.AwaitingFrame? then None else Some(stage.frame)
  }

  ghost predicate PipelineOk(p: Pipeline) {
    && Increasing([ZeroIdentity] + HandledIdentities(p))
    && (forall i :: 0 <= i < |p.handled| ==> p.handled[i] in p.everPublished)
    && (p.slot.Some? ==> p.slot.value in p.everPublished)
    && (if p.handled == [] then p.last == ZeroIdentity && p.color.None? && p.depth.None? && p.stage.AwaitingFrame?
        else p.last == p.handled[|p.handled| - 1].identity)
    && (!p.stage.AwaitingFrame? ==> p.handled != [] && p.stage.frame == p.handled[|p.handled| - 1])
    && ((forall f | f in p.everPublished :: ViewsAgree(f)) && !p.stage.Invalidating? ==>
          EmptyOrOf(p.color, p.last.generation) && EmptyOrOf(p.depth, p.last.generation))
  }

  lemma AdvanceOk(p: Pipeline, step: Step)
    requires PipelineOk(p)
    ensures PipelineOk(Advance(p, step))
  {
    var p' := Advance(p, step);
    if p'.handled != p.handled {
      var ids := [ZeroIdentity] + HandledIdentities(p);
      assert ids[|ids| - 1] == p.last;
      IncreasingAppend(ids, p'.last);
      assert [ZeroIdentity] + HandledIdentities(p') == ids + [p'.last];
    } else {
      assert HandledIdentities(p') == HandledIdentities(p);
      assert forall f | f in p.everPublished :: f in p'.everPublished;
    }
  }

  lemma {:induction false} AdvanceAllOk(p: Pipeline, run: seq<Step>)
    requires PipelineOk(p)
    ensures PipelineOk(AdvanceAll(p, run))
    decreases |run|
  {
    if run != [] {
      AdvanceOk(p, run[0]);
      AdvanceAllOk(Advance(p, run[0]), run[1..]);
    }
  }

  /**
   In every interleaving the encoder handles frames that were published, with strictly increasing
   identities beyond (0, 0).
   */
  lemma EncoderHandlesIncreasingFrames(run: seq<Step>, i: nat, j: nat)
    requires i < j < |AdvanceAll(InitialPipeline, run).handled|
    ensures var p := AdvanceAll(InitialPipeline, run);
            && StrictlyAfter(p.handled[j].identity, p.handled[i].identity)
            && StrictlyAfter(p.handled[i].identity, ZeroIdentity)
            && p.handled[i] in p.everPublished
  {
    AdvanceAllOk(InitialPipeline, run);
    var p := AdvanceAll(InitialPipeline, run);
    var ids := [ZeroIdentity] + HandledIdentities(p);
    assert StrictlyAfter(ids[j + 1], ids[i + 1]) && StrictlyAfter(ids[i + 1], ids[0]);
  }

  /**
   After each handled frame, and in fact as soon as its invalidation is done, both preview slots
   are empty or of that frame's generation.
   */
  lemma PreviewsAreOfTheLastGeneration(run: seq<Step>)
    requires var p := AdvanceAll(InitialPipeline, run);
             && (forall f | f in p.everPublished :: ViewsAgree(f))
             && p.handled != [] && !p.stage.Invalidating?
    ensures var p := AdvanceAll(InitialPipeline, run);
            var generation := p.handled[|p.handled| - 1].identity.generation;
            EmptyOrOf(p.color, generation) && EmptyOrOf(p.depth, generation)
  {
    AdvanceAllOk(InitialPipeline, run);
  }

  /** One pass of the encoder loop on the objects themselves, with nobody in between. */
  method EncoderPass(store: FrameStore, cache: PreviewCache, last: Identity, colorOk: bool, depthOk: bool)
    returns (handled: Identity)
    requires store.Valid()
    modifies cache
    ensures var p := Pipeline(store.latest, old(cache.color), old(cache.depth), last, AwaitingFrame, [], {});
            var q := Encode(p, true);
            && handled == q.last
            && (q.stage.AwaitingFrame? ==> cache.color == p.color && cache.depth == p.depth)
            && (!q.stage.AwaitingFrame? ==>
                  var r := Encode(Encode(Encode(q, true), colorOk), depthOk);
                  cache.color == r.color && cache.depth == r.depth)
  {
    var frame := store.WaitForFrameAfter(last);
    LatestIsTheMaximum(store.published);
    if frame.None? { return last; }
    handled := frame.value.identity;
    cache.InvalidateGeneration(handled.generation);
    var colorTaken := cache.PublishPreview(ColorPreview, Encoded(frame.value.color, colorOk));
    var depthTaken := cache.PublishPreview(DepthPreview, Encoded(frame.value.depth, depthOk));
  }
}
