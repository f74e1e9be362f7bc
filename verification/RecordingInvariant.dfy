/** What holds of the recording system in every state of every run. */
module RecordingInvariant {
  import opened Wrappers
  import opened FrameIdentity
  import opened RecordingTypes
  import opened RecordingStore
  import opened RecordingLifecycle

  // ----- one recording identity -----

  ghost predicate StopMatches(m: Manifest, log: Chronicle) {
    if log.failed
    then m.stopReason == ApplicationShutdown && m.stopRequestId == None
    else m.stopReason == log.cause.reason && m.stopRequestId == log.cause.requestId
  }

  /** Once the attempt is over the stop file holds its text, unless it failed before the rename. */
  ghost predicate StopTextIs(slot: Slot, log: Chronicle) {
    slot.active == if log.lost then None else Some(log.cause.bytes)
  }

  ghost predicate FramesMatch(cfg: Config, m: Manifest, log: Chronicle) {
    && m.admitted == |log.admitted| && m.submitted == |log.admitted|
    && m.admitted + m.drops == log.offered
    && m.hasFrames == (log.admitted != [])
    && (log.admitted != [] ==>
          && m.first == log.admitted[0].identity
          && m.last == log.admitted[|log.admitted| - 1].identity)
    && m.digests == Digests(cfg.videoDigest(log.admitted), cfg.sidecarDigest(LinesOf(log.admitted)))
  }

  /** The manifest tells the recording's own story: counts, order, digests, stop cause. */
  ghost predicate ManifestMatches(cfg: Config, id: RecId, m: Manifest, log: Chronicle) {
    m.recordingId == id && FramesMatch(cfg, m, log) && StopMatches(m, log)
  }

  ghost predicate MediaClosed(dir: Directory, frames: seq<Frame>) {
    dir.video == ClosedFile(frames) && dir.sidecar == ClosedFile(LinesOf(frames))
  }

  /** A finalized directory is complete and holds exactly the admitted frames. */
  ghost predicate FinalOk(cfg: Config, id: RecId, dir: Directory, log: Chronicle) {
    && log.starts == 1 && log.stops == 1
    && dir.start.active.Some?
    && MediaClosed(dir, log.admitted)
    && Ordered(log.admitted)
    && log.manifest.Some?
    && dir.manifest.active == Some(cfg.manifestJson(log.manifest.value))
    && ManifestMatches(cfg, id, log.manifest.value, log)
    && StopTextIs(dir.stop, log)
  }

  ghost predicate LogOk(cfg: Config, id: RecId, log: Chronicle) {
    && log.starts <= 1
    && log.stops <= log.starts
    && (log.starts == 0 ==> log.admitted == [] && log.offered == 0)
    && (log.stops == 0 ==> !log.failed)
    && (log.lost ==> log.failed)
    && (log.stops == 1 ==> CauseOk(cfg, id, log.cause))
  }

  ghost predicate AnswersOk(r: Record) {
    && (forall t | t in r.log.startAnswers :: Holds(r.place, StartRequest, t))
    && (forall t | t in r.log.stopAnswers :: Holds(r.place, StopRequest, t))
  }

  ghost predicate RecordOk(cfg: Config, id: RecId, r: Record) {
    && PlaceOk(r.place)
    && LogOk(cfg, id, r.log)
    && AnswersOk(r)
    && (r.log.starts == 1 ==> r.place.staged.Some? || r.place.final.Some?)
    && (r.place.final.Some? ==> FinalOk(cfg, id, r.place.final.value, r.log))
  }

  ghost predicate ArchiveOk(cfg: Config, archive: map<RecId, Record>) {
    forall id | id in archive :: RecordOk(cfg, id, archive[id])
  }

  // ----- control -----

  predicate StartStage(c: Caller) {
    c.CreatingStaging? || c.WritingStart? || c.OpeningVideo? || c.OpeningSidecar? || c.Committing?
  }

  predicate InLoop(w: Worker) {
    w.Waiting? || w.WritingEvidence? || w.Dequeued? || w.Encoding? || w.Appending? || w.Counting?
  }

  /** The worker may still write to its staged directory. */
  predicate Working(w: Worker) {
    InLoop(w) || w.Closing?
  }

  /** The worker will not touch the mutex again. */
  predicate Gone(w: Worker) {
    w.NoWorker? || w.Finished?
  }

  predicate Busy(state: RecordingState) {
    state == Recording || state == Finalizing
  }

  ghost predicate ControlOk(state: RecordingState, admitting: bool, stopRequested: bool, caller: Caller, worker: Worker) {
    && (admitting <==> state == Recording)
    && (state == Recording ==> !stopRequested)
    && (state == Finalizing ==> stopRequested)
    && (!stopRequested && !Gone(worker) ==> state == Recording)
    && (state == Preparing <==> StartStage(caller))
    && (state == Preparing ==> worker.NoWorker?)
    && (worker.WritingEvidence? ==> state == Finalizing && !CallerHoldsMutex(caller))
    && (caller.WritingStop? ==> state == Finalizing && (InLoop(worker) || worker.Catching?))
    && (caller.Joining? ==> !Active(state) && !worker.NoWorker? && ValidRequest(caller.request))
    && (caller.ShutdownJoining? ==> state != Recording)
    && (state == Recording ==> InLoop(worker) || worker.Catching?)
    && (Busy(state) ==> !Gone(worker))
    && !worker.Underflowed?
  }

  /** The requests the manager would replay from memory have that very text on disk. */
  ghost predicate LedgerOk(ledger: Ledger, p: Place) {
    && (ledger.start.Some? ==> Holds(p, StartRequest, ledger.start.value.canonical))
    && (ledger.stop.Some? ==> Holds(p, StopRequest, ledger.stop.value.canonical))
  }

  ghost predicate MemoryOk(s: System) {
    && LedgerOk(s.mem.ledger, At(s, s.mem.ledger.recordingId).place)
    && (s.mem.state == Finalized || s.worker.SyncingParents? || s.worker.Publishing? ==>
          At(s, s.mem.ledger.recordingId).place.final.Some?)
  }

  /** A start in progress owns a staging directory of its own that was never started. */
  ghost predicate StartingOk(cfg: Config, caller: Caller, artifact: Option<RecId>, rec: Record)
    requires StartStage(caller)
  {
    var r := caller.request;
    && ValidRequest(r)
    && (!caller.CreatingStaging? ==>
          && rec.place.staged.Some? && rec.log.starts == 0
          && rec.place.staged.value.stop.opens == 0 && rec.place.staged.value.manifest.opens == 0)
    && (caller.WritingStart? ==>
          && caller.job.id == r.recordingId && caller.job.kind == StartRequest
          && caller.job.bytes == StartCanonical(cfg, r) && JobOk(rec.place, caller.job))
    && (caller.OpeningVideo? || caller.OpeningSidecar? || caller.Committing? ==>
          && rec.place.staged.value.start.active == Some(StartCanonical(cfg, r))
          && artifact == Some(r.recordingId))
  }

  ghost predicate StartOk(cfg: Config, s: System) {
    StartStage(s.caller) ==>
      StartingOk(cfg, s.caller, s.mem.artifact, At(s, s.caller.request.recordingId))
  }

  /** Memory was handed to another recording only if that one is finalized. */
  ghost predicate ArtifactOk(s: System) {
    Working(s.worker) && s.mem.artifact != Some(s.media.id) ==>
      s.mem.artifact.Some? && At(s, s.mem.artifact.value).place.final.Some?
  }

  ghost predicate ManifestJobOk(s: System) {
    s.worker.Closing? && s.worker.stage.WritingManifest? ==>
      var job := s.worker.stage.job;
      job.kind == ManifestFile && JobOk(At(s, job.id).place, job)
  }

  // ----- the worker and its recording -----

  ghost predicate WorkerOk(m: Memory, caller: Caller, w: Worker, id: RecId, rec: Record) {
    && (Working(w) ==> rec.place.staged.Some? && rec.log.starts == 1)
    && (w.SyncingParents? || w.Publishing? ==> rec.place.final.Some?)
    && (Busy(m.state) ==>
          m.ledger.recordingId == id && m.artifact == Some(id) && rec.log.starts == 1)
    && (m.state == Recording || caller.WritingStop? ==> rec.place.staged.Some?)
    && (!Busy(m.state) && !Gone(w) ==> rec.log.failed)
  }

  /** The worker is at work and nothing has replaced its recording in memory. */
  predicate Live(m: Memory, w: Worker, id: RecId) {
    Working(w) && m.artifact == Some(id)
  }

  function InFlight(w: Worker): seq<Frame> {
    match w
    case Dequeued(f) => [f]
    case Encoding(f) => [f]
    case Appending(f, _) => [f]
    case Counting(f) => [f]
    case Catching(lost) => if lost.Some? then [lost.value] else []
    case _ => []
  }

  /** Conservation of frames. */
  ghost predicate CountsOk(cfg: Config, flow: Flow, w: Worker, log: Chronicle) {
    && flow.admitted == flow.submitted + |flow.queue| + |InFlight(w)|
    && flow.admitted == |log.admitted|
    && log.offered == flow.admitted + flow.fullDrops + flow.contentionDrops
    && |flow.queue| <= cfg.capacity
  }

  /** Frames that went through the whole loop body. */
  function Counted(w: Worker, media: Media): seq<Frame> {
    if (w.Appending? || w.Counting?) && media.video != []
    then media.video[..|media.video| - 1] else media.video
  }

  /** Frames that have a sidecar line. */
  function Lined(w: Worker, media: Media): seq<Frame> {
    if w.Appending? && media.video != [] then media.video[..|media.video| - 1] else media.video
  }

  ghost predicate SeenOk(seen: Seen, frames: seq<Frame>) {
    && (seen.Seen? <==> frames != [])
    && (seen.Seen? ==>
          && seen.first == frames[0].identity
          && seen.last == frames[|frames| - 1].identity)
  }

  /** Admitted frames are the counted ones, the one in flight, and the queue, in this order. */
  ghost predicate QueueOk(flow: Flow, seen: Seen, w: Worker, media: Media, admitted: seq<Frame>) {
    && admitted == Counted(w, media) + InFlight(w) + flow.queue
    && flow.submitted == |Counted(w, media)|
    && media.lines == LinesOf(Lined(w, media))
    && Ordered(media.video)
    && (w.Appending? || w.Counting? ==> media.video != [] && media.video[|media.video| - 1] == w.frame)
    && (w.Appending? ==> w.index == |media.video| - 1)
    && SeenOk(seen, Counted(w, media))
  }

  ghost predicate StageOk(cfg: Config, id: RecId, stage: FinalizeStage, dir: Directory, frames: seq<Frame>, log: Chronicle)
  {
    match stage
    case CheckVideo => dir.manifest.opens == 0
    case CloseVideo => dir.manifest.opens == 0
    case CheckSidecar => dir.manifest.opens == 0 && dir.video == ClosedFile(frames)
    case CloseSidecar => dir.manifest.opens == 0 && dir.video == ClosedFile(frames)
    case CheckDigest => dir.manifest.opens == 0 && MediaClosed(dir, frames)
    case ComputeDigest => dir.manifest.opens == 0 && MediaClosed(dir, frames)
    case CheckCompose(d) =>
      && dir.manifest.opens == 0 && MediaClosed(dir, frames)
      && d == Digests(cfg.videoDigest(frames), cfg.sidecarDigest(LinesOf(frames)))
    case Compose(d) =>
      && dir.manifest.opens == 0 && MediaClosed(dir, frames)
      && d == Digests(cfg.videoDigest(frames), cfg.sidecarDigest(LinesOf(frames)))
    case Composed(m) =>
      dir.manifest.opens == 0 && MediaClosed(dir, frames) && ManifestMatches(cfg, id, m, log)
    case WritingManifest(m, job) =>
      && MediaClosed(dir, frames) && ManifestMatches(cfg, id, m, log)
      && job.id == id && job.bytes == cfg.manifestJson(m)
    case CheckActivate(m) =>
      && MediaClosed(dir, frames) && ManifestMatches(cfg, id, m, log)
      && dir.manifest.active == Some(cfg.manifestJson(m))
    case Activate(m) =>
      && MediaClosed(dir, frames) && ManifestMatches(cfg, id, m, log)
      && dir.manifest.active == Some(cfg.manifestJson(m))
  }

  ghost predicate LiveOk(cfg: Config, m: Memory, w: Worker, media: Media, rec: Record)
  {
    && m.ledger.recordingId == media.id
    && rec.place.staged.Some?
    && rec.place.staged.value.start.active.Some?
    && QueueOk(m.flow, m.seen, w, media, rec.log.admitted)
    && (InLoop(w) ==> rec.place.staged.value.manifest.opens == 0)
    && (w.Closing? ==>
          && m.flow.queue == [] && m.stopRequested && rec.log.stops == 1
          && StageOk(cfg, media.id, w.stage, rec.place.staged.value, media.video, rec.log))
  }

  ghost predicate DefaultStop(m: Memory) {
    m.stopReason == ApplicationShutdown && m.ledger.stop == None
  }

  /** A stop-evidence write in progress for the current recording. */
  ghost predicate StopJobOk(m: Memory, job: WriteJob, cause: Cause, id: RecId, rec: Record) {
    && rec.log.stops == 1 && rec.log.cause == cause && !rec.log.failed
    && job.id == id && job.kind == StopRequest && job.bytes == cause.bytes
    && JobOk(rec.place, job)
    && DefaultStop(m)
  }

  function CurrentDirectory(p: Place): Directory {
    if p.staged.Some? then p.staged.value else if p.final.Some? then p.final.value else EmptyDirectory
  }

  /** Stop evidence on disk and the stop reason in memory agree. */
  ghost predicate StopSettled(m: Memory, rec: Record) {
    && rec.log.stops == 1 && !rec.log.failed
    && CurrentDirectory(rec.place).stop.active == Some(rec.log.cause.bytes)
    && m.stopReason == rec.log.cause.reason
    && m.ledger.stop ==
       (if rec.log.cause.requestId.Some?
        then Some(Ticket(rec.log.cause.requestId.value, rec.log.cause.bytes)) else None)
  }

  ghost predicate StopOk(m: Memory, caller: Caller, w: Worker, id: RecId, rec: Record) {
    && (w.WritingEvidence? ==> StopJobOk(m, w.job, w.cause, id, rec))
    && (caller.WritingStop? ==> StopJobOk(m, caller.job, caller.cause, id, rec))
    && (m.state == Recording ==>
          rec.log.stops == 0 && DefaultStop(m) && CurrentDirectory(rec.place).stop.opens == 0)
    && (m.state == Finalizing && !w.WritingEvidence? && !caller.WritingStop? ==> StopSettled(m, rec))
    && (Live(m, w, id) && !Busy(m.state) ==>
          rec.log.stops == 1 && DefaultStop(m) && StopTextIs(CurrentDirectory(rec.place).stop, rec.log))
  }

  /** Everything about the recording the worker belongs to. */
  ghost predicate CurrentOk(cfg: Config, m: Memory, caller: Caller, w: Worker, media: Media, rec: Record) {
    && WorkerOk(m, caller, w, media.id, rec)
    && (Live(m, w, media.id) || Busy(m.state) ==> CountsOk(cfg, m.flow, w, rec.log))
    && (Live(m, w, media.id) ==> LiveOk(cfg, m, w, media, rec))
    && StopOk(m, caller, w, media.id, rec)
  }

  /** Control flow, and what memory and the callers say about the disk. */
  ghost predicate OuterOk(cfg: Config, s: System) {
    && ControlOk(s.mem.state, s.mem.admitting, s.mem.stopRequested, s.caller, s.worker)
    && MemoryOk(s)
    && StartOk(cfg, s)
    && ArtifactOk(s)
    && ManifestJobOk(s)
  }

  ghost predicate Inv(cfg: Config, s: System) {
    && ArchiveOk(cfg, s.archive)
    && OuterOk(cfg, s)
    && CurrentOk(cfg, s.mem, s.caller, s.worker, s.media, At(s, s.media.id))
  }
}
