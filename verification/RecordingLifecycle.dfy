/**
 The recording manager as a state machine. Every mutex-protected block and every filesystem or
 encoder call is one step; scheduling, clocks and I/O results come with the event. An event
 that is not enabled (a thread waiting for the mutex, a rejected request) leaves the state as
 it is. `Crash` drops everything in memory and keeps the disk.
 */
module RecordingLifecycle {
  import opened Wrappers
  import opened FrameIdentity
  import opened RecordingTypes
  import opened RecordingStore

  // ----- memory -----

  /** A request id and the canonical text it came with. */
  datatype Ticket = Ticket(requestId: string, canonical: string)

  /** The recording in memory and the start and stop requests it would replay. */
  datatype Ledger = Ledger(recordingId: RecId, start: Option<Ticket>, stop: Option<Ticket>)

  /** The ring as a queue, and the counters of the current recording. */
  datatype Flow = Flow(queue: seq<Frame>, admitted: nat, submitted: nat, fullDrops: nat, contentionDrops: nat)

  /** First and last identity that went through the worker. */
  datatype Seen = Unseen | Seen(first: Identity, last: Identity)

  /** The fields of the manager that its mutex guards. */
  datatype Memory = Memory(
    state: RecordingState,
    admitting: bool,
    stopRequested: bool,
    ledger: Ledger,
    stopReason: StopReason,
    flow: Flow,
    seen: Seen,
    started: Clock,
    artifact: Option<RecId>)

  const EmptyFlow := Flow([], 0, 0, 0, 0)
  const NoId := RecId("")
  const NoClock := Clock(0, 0)

  const InitialMemory :=
    Memory(Idle, false, false, Ledger(NoId, None, None), ApplicationShutdown, EmptyFlow, Unseen, NoClock, None)

  /** The video writer and the sidecar writer of the latest started recording. */
  datatype Media = Media(id: RecId, video: seq<Frame>, lines: seq<Entry>)

  // ----- threads -----

  datatype StopOrigin = FromHttp | FromShutdown

  /** What the calling thread (HTTP or shutdown) is doing. */
  datatype Caller =
    | CallerIdle
    | Joining(request: Request)                            // join under the mutex
    | CreatingStaging(request: Request)
    | WritingStart(request: Request, job: WriteJob)
    | OpeningVideo(request: Request)
    | OpeningSidecar(request: Request)
    | Committing(request: Request)
    | WritingStop(job: WriteJob, cause: Cause, origin: StopOrigin)
    | ShutdownJoining                                      // join without the mutex

  datatype FinalizeStage =
    | CheckVideo
    | CloseVideo
    | CheckSidecar
    | CloseSidecar
    | CheckDigest
    | ComputeDigest
    | CheckCompose(digests: Digests)
    | Compose(digests: Digests)
    | Composed(manifest: Manifest)
    | WritingManifest(manifest: Manifest, job: WriteJob)
    | CheckActivate(manifest: Manifest)
    | Activate(manifest: Manifest)

  /** Where the worker thread is. */
  datatype Worker =
    | NoWorker
    | Waiting
    | WritingEvidence(job: WriteJob, cause: Cause)         // maximum duration, under the mutex
    | Dequeued(frame: Frame)
    | Encoding(frame: Frame)
    | Appending(frame: Frame, index: nat)
    | Counting(frame: Frame)
    | Closing(stage: FinalizeStage)
    | SyncingParents
    | Publishing
    | Catching(lost: Option<Frame>)
    | Finished                                             // returned, not yet joined
    | Underflowed                                          // would take a frame from an empty ring

  // ----- disk and observers -----

  /** What an observer has seen of one recording identity; no operation reads it. */
  datatype Chronicle = Chronicle(
    starts: nat,                   // answers e_STARTED
    offered: nat,                  // frames offered while admitting
    admitted: seq<Frame>,          // frames admitted, in admission order
    stops: nat,                    // attempts to write stop evidence
    cause: Cause,                  // cause of the latest attempt
    failed: bool,                  // stop evidence failed or was late
    lost: bool,                    // it failed before its text was renamed into place
    manifest: Option<Manifest>,    // the manifest in the directory that was activated
    startAnswers: set<string>,     // canonical texts of successful start answers
    stopAnswers: set<string>)      // canonical texts of successful stop answers

  const NoChronicle :=
    Chronicle(0, 0, [], 0, Cause(ApplicationShutdown, None, ""), false, false, None, {}, {})

  /** One recording identity: its directories on disk and its chronicle. */
  datatype Record = Record(place: Place, log: Chronicle)

  const NoRecord := Record(Nowhere, NoChronicle)

  datatype System = System(
    mem: Memory,
    caller: Caller,
    worker: Worker,
    media: Media,
    archive: map<RecId, Record>)

  const InitialSystem := System(InitialMemory, CallerIdle, NoWorker, Media(NoId, [], []), map[])

  datatype Event =
    | Submit(frame: Frame, contended: bool)
    | CallStart(request: Request, readOk: bool)
    | CallStop(request: Request, readOk: bool)
    | CallShutdown
    | CallerStep(io: Io, readOk: bool, late: bool, clock: Clock)
    | WorkerStep(io: Io, late: bool, timedOut: bool, clock: Clock)
    | Crash

  function At(s: System, id: RecId): Record {
    if id in s.archive then s.archive[id] else NoRecord
  }

  function PutPlace(s: System, id: RecId, p: Place): System {
    s.(archive := s.archive[id := At(s, id).(place := p)])
  }

  function PutLog(s: System, id: RecId, log: Chronicle): System {
    s.(archive := s.archive[id := At(s, id).(log := log)])
  }

  predicate CallerHoldsMutex(c: Caller) {
    !c.CallerIdle? && !c.ShutdownJoining?
  }

  predicate MutexFree(s: System) {
    !CallerHoldsMutex(s.caller) && !s.worker.WritingEvidence?
  }

  /** The manager accepts no start in these states. */
  predicate Active(state: RecordingState) {
    state == Preparing || state == Recording || state == Finalizing
  }

  // ----- capture thread -----

  function DropContended(s: System): System {
    var f, id := s.mem.flow, s.mem.ledger.recordingId;
    var log := At(s, id).log;
    PutLog(s.(mem := s.mem.(flow := f.(contentionDrops := f.contentionDrops + 1))),
           id, log.(offered := log.offered + 1))
  }

  function DropFull(s: System): System {
    var f, id := s.mem.flow, s.mem.ledger.recordingId;
    var log := At(s, id).log;
    PutLog(s.(mem := s.mem.(flow := f.(fullDrops := f.fullDrops + 1))),
           id, log.(offered := log.offered + 1))
  }

  function Admit(s: System, frame: Frame): System {
    var f, id := s.mem.flow, s.mem.ledger.recordingId;
    var log := At(s, id).log;
    PutLog(s.(mem := s.mem.(flow := f.(queue := f.queue + [frame], admitted := f.admitted + 1))),
           id, log.(offered := log.offered + 1, admitted := log.admitted + [frame]))
  }

  function DoSubmit(cfg: Config, s: System, frame: Frame, contended: bool): System {
    if contended || !MutexFree(s) then
      if s.mem.admitting then DropContended(s) else s
    else if s.mem.state != Recording then s
    else if |s.mem.flow.queue| == cfg.capacity then DropFull(s)
    else Admit(s, frame)
  }

  // ----- start -----

  function AnswerStart(s: System, id: RecId, canonical: string): System {
    var log := At(s, id).log;
    PutLog(s, id, log.(startAnswers := log.startAnswers + {canonical}))
  }

  function AnswerStop(s: System, id: RecId, canonical: string): System {
    var log := At(s, id).log;
    PutLog(s, id, log.(stopAnswers := log.stopAnswers + {canonical}))
  }

  /** Adopt a persisted artifact. */
  function RestoreMemory(m: Memory, id: RecId, finalized: bool, start: Option<Ticket>,
                         stop: Option<Ticket>, reason: StopReason): Memory {
    m.(artifact := Some(id),
       ledger := Ledger(id, start, stop),
       flow := EmptyFlow, seen := Unseen, started := NoClock, stopReason := reason,
       stopRequested := true, admitting := false,
       state := if finalized then Finalized else Faulted)
  }

  function ReplayPersisted(s: System, r: Request, finalized: bool, canonical: string): System {
    var start := if canonical != "" then Some(Ticket(r.requestId, canonical)) else None;
    AnswerStart(
      s.(mem := RestoreMemory(s.mem, r.recordingId, finalized, start, None, ApplicationShutdown),
         caller := CallerIdle),
      r.recordingId, canonical)
  }

  function EnterPreparing(s: System, r: Request): System {
    s.(mem := s.mem.(state := Preparing), caller := CreatingStaging(r))
  }

  /** The rest of a start once no worker is left to join. */
  function AfterJoin(cfg: Config, s: System, r: Request, readOk: bool): System {
    match Find(At(s, r.recordingId).place, readOk)
    case Unreadable => s.(caller := CallerIdle)
    case Missing => EnterPreparing(s, r)
    case Found(finalized, start, _) =>
      if start != StartCanonical(cfg, r) then s.(caller := CallerIdle)
      else ReplayPersisted(s, r, finalized, StartCanonical(cfg, r))
  }

  function DoCallStart(cfg: Config, s: System, r: Request, readOk: bool): System {
    var ledger := s.mem.ledger;
    if !s.caller.CallerIdle? || !MutexFree(s) || !ValidRequest(r) then s
    else if r.recordingId == ledger.recordingId && ledger.start.Some? && r.requestId == ledger.start.value.requestId then
      if StartCanonical(cfg, r) == ledger.start.value.canonical
      then AnswerStart(s, r.recordingId, StartCanonical(cfg, r)) else s
    else if Active(s.mem.state) then s
    else if s.worker.NoWorker? then AfterJoin(cfg, s, r, readOk)
    else s.(caller := Joining(r))
  }

  function FailStart(s: System): System {
    s.(mem := s.mem.(state := Faulted, admitting := false), caller := CallerIdle)
  }

  function MakeStaging(cfg: Config, s: System, r: Request): System {
    var p := At(s, r.recordingId).place;
    PutPlace(s, r.recordingId, p.(staged := Some(EmptyDirectory))).(
      caller := WritingStart(r, NewJob(r.recordingId, StartRequest, StartCanonical(cfg, r))))
  }

  function DoCreateStaging(cfg: Config, s: System, r: Request, io: Io): System {
    var p := At(s, r.recordingId).place;
    if io.Fail? || p.final.Some? || p.staged.Some? then FailStart(s) else MakeStaging(cfg, s, r)
  }

  function StartWritten(s: System, r: Request): System {
    s.(mem := s.mem.(artifact := Some(r.recordingId)), caller := OpeningVideo(r))
  }

  function DoWriteStart(s: System, r: Request, job: WriteJob, io: Io): System {
    match JobStep(At(s, job.id).place, job, io)
    case Running(p, job') => PutPlace(s, job.id, p).(caller := WritingStart(r, job'))
    case Completed => StartWritten(s, r)
    case JobFailed => FailStart(s)
  }

  /** Creating the video file and then the sidecar file in the staged directory. */
  function DoOpenVideo(s: System, r: Request, io: Io): System {
    var p := At(s, r.recordingId).place;
    if io.Fail? || p.staged.None? then FailStart(s)
    else
      PutPlace(s, r.recordingId, p.(staged := Some(p.staged.value.(video := OpenFile)))).(
        caller := OpeningSidecar(r))
  }

  function DoOpenSidecar(s: System, r: Request, io: Io): System {
    var p := At(s, r.recordingId).place;
    if io.Fail? || p.staged.None? then FailStart(s)
    else
      PutPlace(s, r.recordingId, p.(staged := Some(p.staged.value.(sidecar := OpenFile)))).(
        caller := Committing(r))
  }

  /** Field reset of a start that has its evidence, its video file and its sidecar. */
  function CommitMemory(cfg: Config, m: Memory, r: Request, clock: Clock, threadOk: bool): Memory {
    m.(ledger := Ledger(r.recordingId, Some(Ticket(r.requestId, StartCanonical(cfg, r))), None),
       flow := EmptyFlow, seen := Unseen, started := clock,
       stopRequested := false, stopReason := ApplicationShutdown,
       state := if threadOk then Recording else Faulted,
       admitting := threadOk)
  }

  function CommitStarted(cfg: Config, s: System, r: Request, clock: Clock): System {
    var log := At(s, r.recordingId).log;
    PutLog(System(CommitMemory(cfg, s.mem, r, clock, true), CallerIdle, Waiting,
                  Media(r.recordingId, [], []), s.archive),
           r.recordingId,
           log.(starts := log.starts + 1, startAnswers := log.startAnswers + {StartCanonical(cfg, r)}))
  }

  function DoCommit(cfg: Config, s: System, r: Request, threadOk: bool, clock: Clock): System {
    if threadOk then CommitStarted(cfg, s, r, clock)
    else s.(mem := CommitMemory(cfg, s.mem, r, clock, false), caller := CallerIdle)
  }

  // ----- stop -----

  /** Entering finalization: no frame is admitted from here on. */
  function BeginMemory(m: Memory): Memory {
    m.(state := Finalizing, admitting := false, stopRequested := true)
  }

  function StopJob(m: Memory, cause: Cause): WriteJob {
    NewJob(if m.artifact.Some? then m.artifact.value else NoId, StopRequest, cause.bytes)
  }

  /** The observer notes that stop evidence for this cause is being written. */
  function NoteStop(s: System, cause: Cause): System {
    var id := s.mem.ledger.recordingId;
    var log := At(s, id).log;
    PutLog(s, id, log.(stops := log.stops + 1, cause := cause))
  }

  function BeginFromCaller(s: System, cause: Cause, origin: StopOrigin): System {
    NoteStop(s, cause).(mem := BeginMemory(s.mem),
                        caller := WritingStop(StopJob(s.mem, cause), cause, origin))
  }

  function BeginFromWorker(s: System, cause: Cause): System {
    NoteStop(s, cause).(mem := BeginMemory(s.mem),
                        worker := WritingEvidence(StopJob(s.mem, cause), cause))
  }

  /** The observer notes a failed stop, and whether it failed before its text was in place. */
  function FailedLog(log: Chronicle, stage: JobStage): Chronicle {
    log.(failed := true, lost := stage != SyncingDirectory)
  }

  /** Stop evidence failed or came late: the state faults, nothing else is recorded. */
  function StopFailed(s: System, job: WriteJob): System {
    PutLog(s, job.id, FailedLog(At(s, job.id).log, job.stage)).(mem := s.mem.(state := Faulted))
  }

  function AcceptStop(m: Memory, cause: Cause): Memory {
    var stop := if cause.requestId.Some? then Some(Ticket(cause.requestId.value, cause.bytes)) else None;
    m.(stopReason := cause.reason, ledger := m.ledger.(stop := stop))
  }

  function StopTail(cfg: Config, s: System, r: Request): System {
    if r.recordingId != s.mem.ledger.recordingId || s.mem.state != Recording then s
    else BeginFromCaller(s, Cause(Requested, Some(r.requestId), StopCanonical(cfg, r)), FromHttp)
  }

  function RestoreFinalized(s: System, r: Request, canonical: string): System {
    AnswerStop(
      s.(mem := RestoreMemory(s.mem, r.recordingId, true, None, Some(Ticket(r.requestId, canonical)), Requested)),
      r.recordingId, canonical)
  }

  /** A stop request whose evidence is already on disk. */
  function StopPersisted(cfg: Config, s: System, r: Request, finalized: bool, stop: string): System {
    var canonical := StopCanonical(cfg, r);
    if stop != canonical then s
    else if finalized then
      if s.mem.state != Recording && s.mem.state != Finalizing
      then RestoreFinalized(s, r, canonical)
      else AnswerStop(s, r.recordingId, canonical)
    else if s.mem.state != Finalizing || r.recordingId != s.mem.ledger.recordingId then s
    else StopTail(cfg, s, r)
  }

  function DoCallStop(cfg: Config, s: System, r: Request, readOk: bool): System {
    var ledger, canonical := s.mem.ledger, StopCanonical(cfg, r);
    if !s.caller.CallerIdle? || !MutexFree(s) || !ValidRequest(r) then s
    else if r.recordingId == ledger.recordingId && ledger.stop.Some? && r.requestId == ledger.stop.value.requestId then
      if canonical == ledger.stop.value.canonical && s.mem.state != Faulted
      then AnswerStop(s, r.recordingId, canonical) else s
    else
      match Find(At(s, r.recordingId).place, readOk)
      case Unreadable => s
      case Missing => StopTail(cfg, s, r)
      case Found(finalized, _, stop) =>
        if stop.None? then StopTail(cfg, s, r) else StopPersisted(cfg, s, r, finalized, stop.value)
  }

  function DoCallShutdown(cfg: Config, s: System): System {
    var id := s.mem.ledger.recordingId;
    if !s.caller.CallerIdle? || !MutexFree(s) || s.mem.state == Idle || s.mem.state == Preparing then s
    else if s.mem.state == Recording then
      BeginFromCaller(s, Cause(ApplicationShutdown, None, cfg.internalStopJson(id, ApplicationShutdown)), FromShutdown)
    else s.(caller := ShutdownJoining)
  }

  function AfterStop(origin: StopOrigin): Caller {
    if origin == FromHttp then CallerIdle else ShutdownJoining
  }

  function StopAccepted(s: System, job: WriteJob, cause: Cause, origin: StopOrigin): System {
    var s1 := s.(mem := AcceptStop(s.mem, cause), caller := AfterStop(origin));
    if origin == FromHttp then AnswerStop(s1, job.id, cause.bytes) else s1
  }

  function DoWriteStop(s: System, job: WriteJob, cause: Cause, origin: StopOrigin, io: Io, late: bool): System {
    match JobStep(At(s, job.id).place, job, io)
    case Running(p, job') => PutPlace(s, job.id, p).(caller := WritingStop(job', cause, origin))
    case Completed =>
      if late then StopFailed(s, job).(caller := AfterStop(origin))
      else StopAccepted(s, job, cause, origin)
    case JobFailed => StopFailed(s, job).(caller := AfterStop(origin))
  }

  function DoCallerStep(cfg: Config, s: System, io: Io, readOk: bool, late: bool, clock: Clock): System {
    match s.caller
    case CallerIdle => s
    case Joining(r) =>
      if s.worker.Finished? then AfterJoin(cfg, s.(worker := NoWorker), r, readOk) else s
    case CreatingStaging(r) => DoCreateStaging(cfg, s, r, io)
    case WritingStart(r, job) => DoWriteStart(s, r, job, io)
    case OpeningVideo(r) => DoOpenVideo(s, r, io)
    case OpeningSidecar(r) => DoOpenSidecar(s, r, io)
    case Committing(r) => DoCommit(cfg, s, r, !io.Fail?, clock)
    case WritingStop(job, cause, origin) => DoWriteStop(s, job, cause, origin, io, late)
    case ShutdownJoining =>
      if s.worker.Finished? || s.worker.NoWorker?
      then s.(worker := NoWorker, caller := CallerIdle) else s
  }

  // ----- worker -----

  /** The frame checks of the worker loop, before anything is encoded. */
  predicate FrameAccepted(seen: Seen, f: Frame) {
    && f.color.Some?
    && f.color.value.generation == f.identity.generation
    && f.color.value.number == f.identity.number
    && (seen.Seen? ==>
          StrictlyAfter(f.identity, seen.last) && f.identity.generation == seen.last.generation)
  }

  /** The sidecar writer's own order check on its next line. */
  predicate SidecarAccepts(lines: seq<Entry>, e: Entry) {
    && e.index == |lines|
    && 0 <= e.pts
    && (lines != [] ==> StrictlyAfter(e.identity, lines[|lines| - 1].identity))
  }

  /** Taking the head of the ring; nothing in this block checks that there is one. */
  function Take(s: System): System {
    var f := s.mem.flow;
    if f.queue == [] then s.(worker := Underflowed)
    else s.(mem := s.mem.(flow := f.(queue := f.queue[1..])), worker := Dequeued(f.queue[0]))
  }

  /** End of the worker's locked block: leave the loop, or take the head of the ring. */
  function TakeOrLeave(s: System): System {
    if s.mem.flow.queue == [] && s.mem.stopRequested then s.(worker := Closing(CheckVideo)) else Take(s)
  }

  function DoWait(cfg: Config, s: System, timedOut: bool): System {
    var id := s.mem.ledger.recordingId;
    if !MutexFree(s) then s
    else if !s.mem.stopRequested && timedOut then
      BeginFromWorker(s, Cause(MaxDuration, None, cfg.internalStopJson(id, MaxDuration)))
    else if s.mem.flow.queue == [] && !s.mem.stopRequested then s       // keeps waiting
    else TakeOrLeave(s)
  }

  function DoWriteEvidence(s: System, job: WriteJob, cause: Cause, io: Io, late: bool): System {
    match JobStep(At(s, job.id).place, job, io)
    case Running(p, job') => PutPlace(s, job.id, p).(worker := WritingEvidence(job', cause))
    case Completed =>
      if late then StopFailed(s, job).(worker := Catching(None))
      else TakeOrLeave(s.(mem := AcceptStop(s.mem, cause), worker := Waiting))
    case JobFailed => StopFailed(s, job).(worker := Catching(None))
  }

  /** Deadline check of the worker: passes to `next`, or gives up, once the mutex is free. */
  function DeadlineCheck(s: System, late: bool, next: Worker, lost: Option<Frame>): System {
    if !MutexFree(s) then s
    else if s.mem.stopRequested && late then s.(worker := Catching(lost))
    else s.(worker := next)
  }

  function DoEncode(s: System, f: Frame, io: Io): System {
    if !FrameAccepted(s.mem.seen, f) || io.Fail? then s.(worker := Catching(Some(f)))
    else s.(media := s.media.(video := s.media.video + [f]), worker := Appending(f, |s.media.video|))
  }

  function DoAppend(s: System, f: Frame, index: nat, io: Io): System {
    var e := Entry(index, index, f.identity);
    if !SidecarAccepts(s.media.lines, e) || io.Fail? then s.(worker := Catching(Some(f)))
    else s.(media := s.media.(lines := s.media.lines + [e]), worker := Counting(f))
  }

  function DoCount(s: System, f: Frame): System {
    var flow := s.mem.flow;
    var seen := Seen(if s.mem.seen.Seen? then s.mem.seen.first else f.identity, f.identity);
    if !MutexFree(s) then s
    else s.(mem := s.mem.(seen := seen, flow := flow.(submitted := flow.submitted + 1)), worker := Waiting)
  }

  function ManifestOf(m: Memory, clock: Clock, digests: Digests): Manifest {
    var none := Identity(0, 0, 0, 0);
    Manifest(m.ledger.recordingId, m.started, clock, m.flow.admitted, m.flow.submitted,
             m.flow.fullDrops + m.flow.contentionDrops,
             if m.seen.Seen? then m.seen.first else none, if m.seen.Seen? then m.seen.last else none,
             m.seen.Seen?,
             if m.ledger.start.Some? then Some(m.ledger.start.value.requestId) else None,
             if m.ledger.stop.Some? then Some(m.ledger.stop.value.requestId) else None,
             m.stopReason, digests)
  }

  function DoCloseVideo(s: System, io: Io): System {
    var p := At(s, s.media.id).place;
    if io.Fail? || p.staged.None? then s.(worker := Catching(None))
    else
      PutPlace(s, s.media.id, p.(staged := Some(p.staged.value.(video := ClosedFile(s.media.video))))).(
        worker := Closing(CheckSidecar))
  }

  function DoCloseSidecar(s: System, io: Io): System {
    var p := At(s, s.media.id).place;
    if io.Fail? || p.staged.None? then s.(worker := Catching(None))
    else
      PutPlace(s, s.media.id, p.(staged := Some(p.staged.value.(sidecar := ClosedFile(s.media.lines))))).(
        worker := Closing(CheckDigest))
  }

  /** The staged directory that `m_artifact_paths` names, if there is one. */
  function ArtifactStaged(s: System): Option<Directory> {
    if s.mem.artifact.None? then None else At(s, s.mem.artifact.value).place.staged
  }

  function DoDigest(cfg: Config, s: System, io: Io): System {
    var dir := ArtifactStaged(s);
    if io.Fail? || dir.None? || !dir.value.video.ClosedFile? || !dir.value.sidecar.ClosedFile?
    then s.(worker := Catching(None))
    else
      s.(worker := Closing(CheckCompose(Digests(cfg.videoDigest(dir.value.video.contents),
                                                cfg.sidecarDigest(dir.value.sidecar.contents)))))
  }

  function DoCompose(s: System, clock: Clock, digests: Digests): System {
    if !MutexFree(s) then s
    else s.(worker := Closing(Composed(ManifestOf(s.mem, clock, digests))))
  }

  function DoOpenManifest(cfg: Config, s: System, m: Manifest): System {
    if !ManifestAccepted(m) || s.mem.artifact.None? then s.(worker := Catching(None))
    else
      s.(worker := Closing(WritingManifest(m, NewJob(s.mem.artifact.value, ManifestFile, cfg.manifestJson(m)))))
  }

  function DoWriteManifest(s: System, m: Manifest, job: WriteJob, io: Io): System {
    match JobStep(At(s, job.id).place, job, io)
    case Running(p, job') => PutPlace(s, job.id, p).(worker := Closing(WritingManifest(m, job')))
    case Completed => s.(worker := Closing(CheckActivate(m)))
    case JobFailed => s.(worker := Catching(None))
  }

  function Rename(s: System, id: RecId, manifest: Manifest): System {
    var r := At(s, id);
    s.(archive := s.archive[id := Record(Place(None, r.place.staged), r.log.(manifest := Some(manifest)))],
       worker := SyncingParents)
  }

  /** The one rename that turns a staged directory into a finalized one. */
  function DoActivate(s: System, manifest: Manifest, io: Io): System {
    if io.Fail? || s.mem.artifact.None? then s.(worker := Catching(None))
    else
      var p := At(s, s.mem.artifact.value).place;
      if p.staged.None? || p.final.Some? then s.(worker := Catching(None))
      else Rename(s, s.mem.artifact.value, manifest)
  }

  function DoClosing(cfg: Config, s: System, stage: FinalizeStage, io: Io, late: bool, clock: Clock): System {
    match stage
    case CheckVideo => DeadlineCheck(s, late, Closing(CloseVideo), None)
    case CloseVideo => DoCloseVideo(s, io)
    case CheckSidecar => DeadlineCheck(s, late, Closing(CloseSidecar), None)
    case CloseSidecar => DoCloseSidecar(s, io)
    case CheckDigest => DeadlineCheck(s, late, Closing(ComputeDigest), None)
    case ComputeDigest => DoDigest(cfg, s, io)
    case CheckCompose(d) => DeadlineCheck(s, late, Closing(Compose(d)), None)
    case Compose(d) => DoCompose(s, clock, d)
    case Composed(m) => DoOpenManifest(cfg, s, m)
    case WritingManifest(m, job) => DoWriteManifest(s, m, job, io)
    case CheckActivate(m) => DeadlineCheck(s, late, Closing(Activate(m)), None)
    case Activate(m) => DoActivate(s, m, io)
  }

  function DoPublish(s: System): System {
    if !MutexFree(s) then s else s.(mem := s.mem.(state := Finalized), worker := Finished)
  }

  function DoCatch(s: System): System {
    if !MutexFree(s) then s
    else s.(mem := s.mem.(state := Faulted, admitting := false, stopRequested := true), worker := Finished)
  }

  function DoWorkerStep(cfg: Config, s: System, io: Io, late: bool, timedOut: bool, clock: Clock): System {
    match s.worker
    case NoWorker => s
    case Waiting => DoWait(cfg, s, timedOut)
    case WritingEvidence(job, cause) => DoWriteEvidence(s, job, cause, io, late)
    case Dequeued(f) => DeadlineCheck(s, late, Encoding(f), Some(f))
    case Encoding(f) => DoEncode(s, f, io)
    case Appending(f, index) => DoAppend(s, f, index, io)
    case Counting(f) => DoCount(s, f)
    case Closing(stage) => DoClosing(cfg, s, stage, io, late, clock)
    case SyncingParents => if io.Fail? then s.(worker := Catching(None)) else s.(worker := Publishing)
    case Publishing => DoPublish(s)
    case Catching(_) => DoCatch(s)
    case Finished => s
    case Underflowed => s
  }

  // ----- runs -----

  function Apply(cfg: Config, s: System, e: Event): System {
    match e
    case Submit(frame, contended) => DoSubmit(cfg, s, frame, contended)
    case CallStart(r, readOk) => DoCallStart(cfg, s, r, readOk)
    case CallStop(r, readOk) => DoCallStop(cfg, s, r, readOk)
    case CallShutdown => DoCallShutdown(cfg, s)
    case CallerStep(io, readOk, late, clock) => DoCallerStep(cfg, s, io, readOk, late, clock)
    case WorkerStep(io, late, timedOut, clock) => DoWorkerStep(cfg, s, io, late, timedOut, clock)
    case Crash => InitialSystem.(archive := s.archive)
  }

  function Exec(cfg: Config, s: System, events: seq<Event>): System
    decreases |events|
  {
    if events == [] then s else Exec(cfg, Apply(cfg, s, events[0]), events[1..])
  }
}
