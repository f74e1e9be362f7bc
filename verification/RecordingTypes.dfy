/** Values of the recording lifecycle: requests, frames, sidecar lines, manifests. */
module RecordingTypes {
  import opened Wrappers
  import opened FrameIdentity

  /** A recording identity: one path component, compared as a whole. */
  datatype RecId = RecId(name: string)

  datatype RecordingState = Idle | Preparing | Recording | Finalizing | Finalized | Faulted

  datatype StopReason = Requested | MaxDuration | ApplicationShutdown

  datatype Request = Request(requestId: string, recordingId: RecId, canonicalJson: string)

  /** A captured frame: its snapshot identity, and that of its color view if it has one. */
  datatype Frame = Frame(identity: Identity, color: Option<Identity>)

  /** One line of `frames.jsonl`. */
  datatype Entry = Entry(index: nat, pts: int, identity: Identity)

  datatype Clock = Clock(mono: int, unix: int)

  datatype Digests = Digests(video: string, sidecar: string)

  /** The typed content of `recording_manifest.json`; constant profile fields are omitted. */
  datatype Manifest = Manifest(
    recordingId: RecId,
    started: Clock,
    stopped: Clock,
    admitted: nat,
    submitted: nat,
    drops: nat,
    first: Identity,
    last: Identity,
    hasFrames: bool,
    startRequestId: Option<string>,
    stopRequestId: Option<string>,      // null in the JSON text when there is none
    stopReason: StopReason,
    digests: Digests)

  /**
   Everything the lifecycle takes from outside: the ring capacity, and the JSON and digest
   texts, which are arbitrary functions here.
   */
  datatype Config = Config(
    capacity: nat,
    startJson: (string, RecId) -> string,
    stopJson: (string, RecId) -> string,
    internalStopJson: (RecId, StopReason) -> string,
    manifestJson: Manifest -> string,
    videoDigest: seq<Frame> -> string,
    sidecarDigest: seq<Entry> -> string)

  const MAX_REQUEST_FILE_BYTES: nat := 1048576

  predicate LowercaseAlphanumeric(c: char) {
    'a' <= c <= 'z' || '0' <= c <= '9'
  }

  predicate ValidRecordingId(id: RecId) {
    && 0 < |id.name| <= 64
    && LowercaseAlphanumeric(id.name[0])
    && forall i :: 0 <= i < |id.name| ==>
         LowercaseAlphanumeric(id.name[i]) || id.name[i] in ['.', '_', '-']
  }

  predicate ValidRequestId(id: string) {
    && 0 < |id| <= 128
    && forall i :: 0 <= i < |id| ==>
         '!' <= id[i] <= '~' && id[i] != '/' && id[i] != '\\'
  }

  predicate ValidRequest(r: Request) {
    ValidRequestId(r.requestId) && ValidRecordingId(r.recordingId)
  }

  function StartCanonical(cfg: Config, r: Request): string {
    if r.canonicalJson != "" then r.canonicalJson else cfg.startJson(r.requestId, r.recordingId)
  }

  function StopCanonical(cfg: Config, r: Request): string {
    if r.canonicalJson != "" then r.canonicalJson else cfg.stopJson(r.requestId, r.recordingId)
  }

  /** Why a recording stopped, with the evidence text that must reach `stop_request.json`. */
  datatype Cause = Cause(reason: StopReason, requestId: Option<string>, bytes: string)

  ghost predicate CauseOk(cfg: Config, id: RecId, cause: Cause) {
    if cause.reason == Requested then
      cause.requestId.Some?
    else
      cause.requestId.None? && cause.bytes == cfg.internalStopJson(id, cause.reason)
  }

  /** The value checks of the manifest serializer that the lifecycle can fail. */
  predicate ManifestAccepted(m: Manifest) {
    && ValidRecordingId(m.recordingId)
    && m.started.mono <= m.stopped.mono
    && m.started.unix <= m.stopped.unix
    && m.submitted <= m.admitted
  }

  /** Line i of the sidecar of `frames`: index i, PTS i, identity of frame i. */
  function LinesOf(frames: seq<Frame>): seq<Entry> {
    seq(|frames|, i requires 0 <= i < |frames| => Entry(i, i, frames[i].identity))
  }

  function IdentitiesOf(frames: seq<Frame>): seq<Identity> {
    seq(|frames|, i requires 0 <= i < |frames| => frames[i].identity)
  }

  /** Strictly increasing identities, all of one capture generation. */
  ghost predicate Ordered(frames: seq<Frame>) {
    && Increasing(IdentitiesOf(frames))
    && forall i, j :: 0 <= i < |frames| && 0 <= j < |frames| ==>
         frames[i].identity.generation == frames[j].identity.generation
  }

  lemma LinesAppend(frames: seq<Frame>, f: Frame)
    ensures LinesOf(frames + [f]) == LinesOf(frames) + [Entry(|frames|, |frames|, f.identity)]
  {
  }

  lemma OrderedAppend(frames: seq<Frame>, f: Frame)
    requires Ordered(frames)
    requires frames != [] ==>
               var last := frames[|frames| - 1].identity;
               StrictlyAfter(f.identity, last) && f.identity.generation == last.generation
    ensures Ordered(frames + [f])
  {
    IncreasingAppend(IdentitiesOf(frames), f.identity);
    assert IdentitiesOf(frames + [f]) == IdentitiesOf(frames) + [f.identity];
  }
}
