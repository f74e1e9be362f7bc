/** Every step of the recording system preserves the invariant: stop evidence and the worker. */
module RecordingWorkerSafety {
  import opened Wrappers
  import opened FrameIdentity
  import opened RecordingTypes
  import opened RecordingStore
  import opened RecordingLifecycle
  import opened RecordingInvariant
  import opened RecordingSafety

  // ----- stop evidence -----

  /** The staged directory of the current recording grows by one step of an evidence write. */
  lemma CurrentStopStep(cfg: Config, m: Memory, caller: Caller, w: Worker, media: Media, rec: Record,
                        job: WriteJob, cause: Cause, io: Io)
    requires CurrentOk(cfg, m, caller, w, media, rec) && PlaceOk(rec.place)
    requires ControlOk(m.state, m.admitting, m.stopRequested, caller, w)
    requires StopJobOk(m, job, cause, media.id, rec)
    requires JobStep(rec.place, job, io).Running?
    ensures var r := JobStep(rec.place, job, io);
            var rec' := rec.(place := r.place);
            && (forall origin | caller == WritingStop(job, cause, origin) ::
                  CurrentOk(cfg, m, WritingStop(r.job, cause, origin), w, media, rec'))
            && (w == WritingEvidence(job, cause) ==>
                  CurrentOk(cfg, m, caller, WritingEvidence(r.job, cause), media, rec'))
  {
    hide Ordered, LinesOf, SeenOk, StageOk, LogOk, JobStep;
    JobStepOk(rec.place, job, io);
    if w == WritingEvidence(job, cause) {} else {}
  }

  /** Growing the staged directory of a started recording, outside any start. */
  lemma OuterWork(cfg: Config, s: System, s': System, id: RecId, p: Place)
    requires OuterOk(cfg, s) && !StartStage(s.caller)
    requires s'.archive == s.archive[id := At(s, id).(place := p)]
    requires s'.mem.ledger == s.mem.ledger && s'.mem.artifact == s.mem.artifact
    requires s'.mem.state == s.mem.state
    requires ControlOk(s'.mem.state, s'.mem.admitting, s'.mem.stopRequested, s'.caller, s'.worker)
    requires s'.media.id == s.media.id
    requires PlaceGrows(At(s, id).place, p)
    requires Working(s'.worker) ==> Working(s.worker)
    requires !s'.worker.SyncingParents? && !s'.worker.Publishing?
    requires ManifestJobOk(s')
    ensures OuterOk(cfg, s')
  {
    var before, after := At(s, s.mem.ledger.recordingId).place, At(s', s.mem.ledger.recordingId).place;
    assert PlaceGrows(before, after) || before == after;
    if s.mem.artifact.Some? {
      var a, b := At(s, s.mem.artifact.value).place, At(s', s.mem.artifact.value).place;
      assert PlaceGrows(a, b) || a == b;
    }
  }

  lemma StopRunningOk(cfg: Config, s: System, s': System, job: WriteJob, cause: Cause, io: Io)
    requires Inv(cfg, s)
    requires JobStep(At(s, job.id).place, job, io).Running?
    requires var r := JobStep(At(s, job.id).place, job, io);
             || (exists origin :: s.caller == WritingStop(job, cause, origin) &&
                   s' == PutPlace(s, job.id, r.place).(caller := WritingStop(r.job, cause, origin)))
             || (s.worker == WritingEvidence(job, cause) &&
                   s' == PutPlace(s, job.id, r.place).(worker := WritingEvidence(r.job, cause)))
    ensures Inv(cfg, s')
  {
    hide RecordOk, ArchiveOk, CurrentOk, JobStep;
    var rec := At(s, job.id);
    StopFacts(cfg, s, job, cause);
    AtOk(cfg, s, job.id);
    JobStepOk(rec.place, job, io);
    var p := JobStep(rec.place, job, io).place;
    StagedRecord(cfg, job.id, rec, p);
    ArchivePut(cfg, s.archive, job.id, rec.(place := p));
    OuterWork(cfg, s, s', job.id, p);
    CurrentStopStep(cfg, s.mem, s.caller, s.worker, s.media, rec, job, cause, io);
  }

  lemma FailCurrent(cfg: Config, m: Memory, caller: Caller, w: Worker, media: Media, rec: Record,
                    caller': Caller, w': Worker, job: WriteJob, cause: Cause)
    requires CurrentOk(cfg, m, caller, w, media, rec)
    requires ControlOk(m.state, m.admitting, m.stopRequested, caller, w)
    requires StopJobOk(m, job, cause, media.id, rec) && PlaceOk(rec.place) && LogOk(cfg, media.id, rec.log)
    requires (w == WritingEvidence(job, cause) && w' == Catching(None) && caller' == caller)
             || (caller.WritingStop? && caller.job == job && caller.cause == cause && w' == w
                 && caller' == AfterStop(caller.origin))
    ensures CurrentOk(cfg, m.(state := Faulted), caller', w', media, rec.(log := FailedLog(rec.log, job.stage)))
  {
  }

  lemma FailRecord(cfg: Config, id: RecId, rec: Record, stage: JobStage)
    requires RecordOk(cfg, id, rec) && rec.place.final.None? && rec.log.stops == 1
    ensures RecordOk(cfg, id, rec.(log := FailedLog(rec.log, stage)))
  {
  }

  lemma FailOuter(cfg: Config, s: System, s': System, job: WriteJob)
    requires OuterOk(cfg, s) && s.mem.state == Finalizing
    requires s' == StopFailed(s, job).(caller := s'.caller, worker := s'.worker)
    requires (s'.worker == s.worker && s'.caller == AfterStop(FromHttp))
             || (s'.worker == s.worker && s'.caller == AfterStop(FromShutdown))
             || (s'.worker == Catching(None) && s'.caller == s.caller && !s.caller.WritingStop?)
    requires s.worker.WritingEvidence? ==> s'.worker != s.worker
    ensures OuterOk(cfg, s')
  {
    OuterLog(cfg, s, job.id, FailedLog(At(s, job.id).log, job.stage));
  }

  lemma StopFacts(cfg: Config, s: System, job: WriteJob, cause: Cause)
    requires Inv(cfg, s)
    requires s.worker == WritingEvidence(job, cause)
             || (s.caller.WritingStop? && s.caller.job == job && s.caller.cause == cause)
    ensures StopJobOk(s.mem, job, cause, s.media.id, At(s, s.media.id))
    ensures At(s, job.id).place.final.None? && s.mem.state == Finalizing && PlaceOk(At(s, job.id).place)
  {
    AtOk(cfg, s, s.media.id);
  }

  lemma StopFailedOk(cfg: Config, s: System, s': System, job: WriteJob, cause: Cause)
    requires Inv(cfg, s)
    requires s' == StopFailed(s, job).(caller := s'.caller, worker := s'.worker)
    requires (s.worker == WritingEvidence(job, cause) && s'.worker == Catching(None) && s'.caller == s.caller)
             || (s.caller.WritingStop? && s.caller.job == job && s.caller.cause == cause
                 && s'.worker == s.worker && s'.caller == AfterStop(s.caller.origin))
    ensures Inv(cfg, s')
  {
    hide CurrentOk, RecordOk;
    var rec := At(s, s.media.id);
    StopFacts(cfg, s, job, cause);
    AtOk(cfg, s, job.id);
    RecordParts(cfg, job.id, rec);
    FailRecord(cfg, job.id, rec, job.stage);
    ArchivePut(cfg, s.archive, job.id, rec.(log := FailedLog(rec.log, job.stage)));
    FailCurrent(cfg, s.mem, s.caller, s.worker, s.media, rec, s'.caller, s'.worker, job, cause);
    FailOuter(cfg, s, s', job);
  }

  lemma AcceptCurrent(cfg: Config, m: Memory, caller: Caller, w: Worker, media: Media, rec: Record,
                      job: WriteJob, cause: Cause)
    requires CurrentOk(cfg, m, caller, w, media, rec)
    requires ControlOk(m.state, m.admitting, m.stopRequested, caller, w)
    requires StopJobOk(m, job, cause, media.id, rec)
    requires rec.place.staged.Some? && rec.place.staged.value.stop.active == Some(job.bytes)
    ensures var m' := AcceptStop(m, cause);
            && (forall origin | caller == WritingStop(job, cause, origin) ::
                  CurrentOk(cfg, m', AfterStop(origin), w, media, rec))
            && (w == WritingEvidence(job, cause) ==> CurrentOk(cfg, m', caller, Waiting, media, rec))
  {
    hide StageOk, Ordered, LogOk;
  }

  lemma AcceptOuter(cfg: Config, s: System, s': System, cause: Cause)
    requires OuterOk(cfg, s) && !StartStage(s.caller)
    requires s' == s.(mem := AcceptStop(s.mem, cause), caller := s'.caller, worker := s'.worker)
    requires ControlOk(s'.mem.state, s'.mem.admitting, s'.mem.stopRequested, s'.caller, s'.worker)
    requires s'.worker == s.worker || (s'.worker.Waiting? && Working(s.worker))
    requires Holds(At(s, s.mem.ledger.recordingId).place, StopRequest, cause.bytes)
    ensures OuterOk(cfg, s')
  {
  }

  lemma StopAcceptedOk(cfg: Config, s: System, job: WriteJob, cause: Cause, origin: StopOrigin, io: Io)
    requires Inv(cfg, s) && s.caller == WritingStop(job, cause, origin)
    requires JobStep(At(s, job.id).place, job, io).Completed?
    ensures Inv(cfg, StopAccepted(s, job, cause, origin))
  {
    var rec := At(s, s.media.id);
    AtOk(cfg, s, s.media.id);
    JobStepOk(rec.place, job, io);
    var s1 := s.(mem := AcceptStop(s.mem, cause), caller := AfterStop(origin));
    AcceptCurrent(cfg, s.mem, s.caller, s.worker, s.media, rec, job, cause);
    AcceptOuter(cfg, s, s1, cause);
    if origin == FromHttp {
      AnswerStopOk(cfg, s1, job.id, cause.bytes);
    }
  }

  lemma WriteStopOk(cfg: Config, s: System, job: WriteJob, cause: Cause, origin: StopOrigin, io: Io, late: bool)
    requires Inv(cfg, s) && s.caller == WritingStop(job, cause, origin)
    ensures Inv(cfg, DoWriteStop(s, job, cause, origin, io, late))
  {
    hide Inv;
    match JobStep(At(s, job.id).place, job, io)
    case Running(p, job') => StopRunningOk(cfg, s, DoWriteStop(s, job, cause, origin, io, late), job, cause, io);
    case Completed =>
      if late { StopFailedOk(cfg, s, DoWriteStop(s, job, cause, origin, io, late), job, cause); }
      else { StopAcceptedOk(cfg, s, job, cause, origin, io); }
    case JobFailed => StopFailedOk(cfg, s, DoWriteStop(s, job, cause, origin, io, late), job, cause);
  }

  // ----- worker: the loop -----

  /** A worker step that touches neither the disk nor the memory. */
  lemma WorkerOnly(cfg: Config, s: System, w: Worker)
    requires Inv(cfg, s)
    requires ControlOk(s.mem.state, s.mem.admitting, s.mem.stopRequested, s.caller, w)
    requires Working(w) ==> Working(s.worker)
    requires w.Publishing? ==> s.worker.SyncingParents?
    requires !w.SyncingParents?
    requires w.Closing? && w.stage.WritingManifest? ==> ManifestJobOk(s.(worker := w))
    requires CurrentOk(cfg, s.mem, s.caller, w, s.media, At(s, s.media.id))
    ensures Inv(cfg, s.(worker := w))
  {
    hide CurrentOk;
  }

  lemma CatchCurrent(cfg: Config, m: Memory, caller: Caller, w: Worker, media: Media, rec: Record, lost: Option<Frame>)
    requires CurrentOk(cfg, m, caller, w, media, rec)
    requires ControlOk(m.state, m.admitting, m.stopRequested, caller, w)
    requires !w.WritingEvidence? && !Gone(w) && !w.Catching?
    requires InFlight(w) == if lost.Some? then [lost.value] else []
    ensures CurrentOk(cfg, m, caller, Catching(lost), media, rec)
  {
    hide StageOk, Ordered, LogOk;
  }

  lemma CatchOk(cfg: Config, s: System, lost: Option<Frame>)
    requires Inv(cfg, s)
    requires !s.worker.WritingEvidence? && !Gone(s.worker) && !s.worker.Catching?
    requires InFlight(s.worker) == if lost.Some? then [lost.value] else []
    requires s.worker.Closing? || s.worker.SyncingParents? ==> !s.caller.WritingStop?
    ensures Inv(cfg, s.(worker := Catching(lost)))
  {
    CatchCurrent(cfg, s.mem, s.caller, s.worker, s.media, At(s, s.media.id), lost);
    WorkerOnly(cfg, s, Catching(lost));
  }

  lemma LeaveCurrent(cfg: Config, m: Memory, caller: Caller, media: Media, rec: Record)
    requires CurrentOk(cfg, m, caller, Waiting, media, rec)
    requires ControlOk(m.state, m.admitting, m.stopRequested, caller, Waiting)
    requires m.flow.queue == [] && m.stopRequested && !caller.WritingStop?
    ensures CurrentOk(cfg, m, caller, Closing(CheckVideo), media, rec)
  {
  }

  lemma TakeQueue(flow: Flow, seen: Seen, media: Media, admitted: seq<Frame>)
    requires QueueOk(flow, seen, Waiting, media, admitted) && flow.queue != []
    ensures QueueOk(flow.(queue := flow.queue[1..]), seen, Dequeued(flow.queue[0]), media, admitted)
  {
    hide Ordered, LinesOf, SeenOk;
    assert flow.queue == [flow.queue[0]] + flow.queue[1..];
  }

  lemma TakeCurrent(cfg: Config, m: Memory, caller: Caller, media: Media, rec: Record)
    requires CurrentOk(cfg, m, caller, Waiting, media, rec)
    requires m.flow.queue != []
    ensures CurrentOk(cfg, m.(flow := m.flow.(queue := m.flow.queue[1..])), caller, Dequeued(m.flow.queue[0]), media, rec)
  {
    hide QueueOk, StageOk, LogOk;
    if Live(m, Waiting, media.id) {
      TakeQueue(m.flow, m.seen, media, rec.log.admitted);
    }
  }

  lemma TakeOrLeaveOk(cfg: Config, s: System)
    requires Inv(cfg, s) && s.worker.Waiting? && MutexFree(s)
    requires s.mem.flow.queue != [] || s.mem.stopRequested
    ensures Inv(cfg, TakeOrLeave(s))
  {
    hide CurrentOk, RecordOk;
    var rec := At(s, s.media.id);
    if s.mem.flow.queue == [] {
      LeaveCurrent(cfg, s.mem, s.caller, s.media, rec);
      WorkerOnly(cfg, s, Closing(CheckVideo));
    } else {
      TakeCurrent(cfg, s.mem, s.caller, s.media, rec);
    }
  }

  lemma WaitOk(cfg: Config, s: System, timedOut: bool)
    requires Inv(cfg, s) && s.worker.Waiting?
    ensures Inv(cfg, DoWait(cfg, s, timedOut))
  {
    if MutexFree(s) {
      if !s.mem.stopRequested && timedOut {
        var cause := Cause(MaxDuration, None, cfg.internalStopJson(s.mem.ledger.recordingId, MaxDuration));
        TimeoutOk(cfg, s, cause);
      } else if s.mem.flow.queue != [] || s.mem.stopRequested {
        TakeOrLeaveOk(cfg, s);
      }
    }
  }

  lemma TimeoutOk(cfg: Config, s: System, cause: Cause)
    requires Inv(cfg, s) && s.worker.Waiting? && MutexFree(s) && !s.mem.stopRequested
    requires CauseOk(cfg, s.mem.ledger.recordingId, cause)
    ensures Inv(cfg, BeginFromWorker(s, cause))
  {
    BeginOk(cfg, s, cause, FromShutdown);
  }

  lemma WriteEvidenceOk(cfg: Config, s: System, job: WriteJob, cause: Cause, io: Io, late: bool)
    requires Inv(cfg, s) && s.worker == WritingEvidence(job, cause)
    ensures Inv(cfg, DoWriteEvidence(s, job, cause, io, late))
  {
    hide Inv;
    match JobStep(At(s, job.id).place, job, io)
    case Running(p, job') => StopRunningOk(cfg, s, DoWriteEvidence(s, job, cause, io, late), job, cause, io);
    case Completed =>
      if late { StopFailedOk(cfg, s, DoWriteEvidence(s, job, cause, io, late), job, cause); }
      else { EvidenceAcceptedOk(cfg, s, job, cause, io); }
    case JobFailed => StopFailedOk(cfg, s, DoWriteEvidence(s, job, cause, io, late), job, cause);
  }

  lemma EvidenceAcceptedOk(cfg: Config, s: System, job: WriteJob, cause: Cause, io: Io)
    requires Inv(cfg, s) && s.worker == WritingEvidence(job, cause)
    requires JobStep(At(s, job.id).place, job, io).Completed?
    ensures Inv(cfg, TakeOrLeave(s.(mem := AcceptStop(s.mem, cause), worker := Waiting)))
  {
    hide RecordOk;
    var rec := At(s, s.media.id);
    AtOk(cfg, s, s.media.id);
    JobStepOk(rec.place, job, io);
    var s1 := s.(mem := AcceptStop(s.mem, cause), worker := Waiting);
    AcceptCurrent(cfg, s.mem, s.caller, s.worker, s.media, rec, job, cause);
    AcceptOuter(cfg, s, s1, cause);
    StopRequestedWhenFinalizing(cfg, s);
    TakeOrLeaveOk(cfg, s1);
  }

  lemma StopRequestedWhenFinalizing(cfg: Config, s: System)
    requires Inv(cfg, s) && s.worker.WritingEvidence?
    ensures s.mem.stopRequested
  {
  }

  lemma CheckFrameOk(cfg: Config, s: System, f: Frame, late: bool)
    requires Inv(cfg, s) && s.worker == Dequeued(f)
    ensures Inv(cfg, DeadlineCheck(s, late, Encoding(f), Some(f)))
  {
    hide CurrentOk;
    if MutexFree(s) {
      if s.mem.stopRequested && late { CatchOk(cfg, s, Some(f)); }
      else {
        CheckFrameCurrent(cfg, s.mem, s.caller, s.media, At(s, s.media.id), f);
        WorkerOnly(cfg, s, Encoding(f));
      }
    }
  }

  lemma CheckFrameCurrent(cfg: Config, m: Memory, caller: Caller, media: Media, rec: Record, f: Frame)
    requires CurrentOk(cfg, m, caller, Dequeued(f), media, rec)
    ensures CurrentOk(cfg, m, caller, Encoding(f), media, rec)
  {
  }

  lemma EncodeQueue(flow: Flow, seen: Seen, media: Media, admitted: seq<Frame>, f: Frame)
    requires QueueOk(flow, seen, Encoding(f), media, admitted) && FrameAccepted(seen, f)
    ensures QueueOk(flow, seen, Appending(f, |media.video|), media.(video := media.video + [f]), admitted)
  {
    hide Ordered, LinesOf;
    var video := media.video + [f];
    assert video[..|video| - 1] == media.video;
    OrderedAppend(media.video, f);
  }

  lemma EncodeCurrent(cfg: Config, m: Memory, caller: Caller, media: Media, rec: Record, f: Frame)
    requires CurrentOk(cfg, m, caller, Encoding(f), media, rec)
    requires FrameAccepted(m.seen, f)
    ensures CurrentOk(cfg, m, caller, Appending(f, |media.video|), media.(video := media.video + [f]), rec)
  {
    hide QueueOk, StageOk, LogOk, FrameAccepted;
    if Live(m, Encoding(f), media.id) {
      EncodeQueue(m.flow, m.seen, media, rec.log.admitted, f);
    }
  }

  lemma EncodeOk(cfg: Config, s: System, f: Frame, io: Io)
    requires Inv(cfg, s) && s.worker == Encoding(f)
    ensures Inv(cfg, DoEncode(s, f, io))
  {
    hide CurrentOk;
    if !FrameAccepted(s.mem.seen, f) || io.Fail? {
      CatchOk(cfg, s, Some(f));
    } else {
      EncodeCurrent(cfg, s.mem, s.caller, s.media, At(s, s.media.id), f);
    }
  }

  lemma AppendQueue(flow: Flow, seen: Seen, media: Media, admitted: seq<Frame>, f: Frame, index: nat)
    requires QueueOk(flow, seen, Appending(f, index), media, admitted)
    ensures QueueOk(flow, seen, Counting(f), media.(lines := media.lines + [Entry(index, index, f.identity)]), admitted)
  {
    hide Ordered, LinesOf, SeenOk;
    var before := media.video[..|media.video| - 1];
    assert media.video == before + [f];
    LinesAppend(before, f);
  }

  lemma AppendCurrent(cfg: Config, m: Memory, caller: Caller, media: Media, rec: Record, f: Frame, index: nat)
    requires CurrentOk(cfg, m, caller, Appending(f, index), media, rec)
    ensures CurrentOk(cfg, m, caller, Counting(f), media.(lines := media.lines + [Entry(index, index, f.identity)]), rec)
  {
    hide QueueOk, StageOk, LogOk;
    if Live(m, Appending(f, index), media.id) {
      AppendQueue(m.flow, m.seen, media, rec.log.admitted, f, index);
    }
  }

  lemma AppendOk(cfg: Config, s: System, f: Frame, index: nat, io: Io)
    requires Inv(cfg, s) && s.worker == Appending(f, index)
    ensures Inv(cfg, DoAppend(s, f, index, io))
  {
    hide CurrentOk;
    if !SidecarAccepts(s.media.lines, Entry(index, index, f.identity)) || io.Fail? {
      CatchOk(cfg, s, Some(f));
    } else {
      AppendCurrent(cfg, s.mem, s.caller, s.media, At(s, s.media.id), f, index);
    }
  }

  lemma CountQueue(flow: Flow, seen: Seen, media: Media, admitted: seq<Frame>, f: Frame)
    requires QueueOk(flow, seen, Counting(f), media, admitted)
    ensures QueueOk(flow.(submitted := flow.submitted + 1),
                    Seen(if seen.Seen? then seen.first else f.identity, f.identity), Waiting, media, admitted)
  {
    hide Ordered, LinesOf;
    var before := media.video[..|media.video| - 1];
    assert media.video == before + [f];
    if before == [] {} else {}
  }

  lemma CountCurrent(cfg: Config, m: Memory, caller: Caller, media: Media, rec: Record, f: Frame)
    requires CurrentOk(cfg, m, caller, Counting(f), media, rec)
    ensures var flow := m.flow.(submitted := m.flow.submitted + 1);
            var seen := Seen(if m.seen.Seen? then m.seen.first else f.identity, f.identity);
            CurrentOk(cfg, m.(seen := seen, flow := flow), caller, Waiting, media, rec)
  {
    hide QueueOk, StageOk, LogOk;
    if Live(m, Counting(f), media.id) {
      CountQueue(m.flow, m.seen, media, rec.log.admitted, f);
    }
  }

  lemma CountOk(cfg: Config, s: System, f: Frame)
    requires Inv(cfg, s) && s.worker == Counting(f)
    ensures Inv(cfg, DoCount(s, f))
  {
    hide CurrentOk, RecordOk;
    CountCurrent(cfg, s.mem, s.caller, s.media, At(s, s.media.id), f);
  }

  // ----- worker: closing the artifact -----

  lemma CheckStageCurrent(cfg: Config, m: Memory, caller: Caller, media: Media, rec: Record,
                          stage: FinalizeStage, next: FinalizeStage)
    requires CurrentOk(cfg, m, caller, Closing(stage), media, rec)
    requires next == match stage
                     case CheckVideo => CloseVideo
                     case CheckSidecar => CloseSidecar
                     case CheckDigest => ComputeDigest
                     case CheckCompose(d) => Compose(d)
                     case CheckActivate(m) => Activate(m)
                     case _ => stage
    ensures CurrentOk(cfg, m, caller, Closing(next), media, rec)
  {
    hide Ordered, LinesOf, SeenOk, ManifestMatches, MediaClosed, LogOk;
    match stage
    case CheckVideo =>
    case CheckSidecar =>
    case CheckDigest =>
    case CheckCompose(_) =>
    case CheckActivate(_) =>
    case _ =>
  }

  lemma CheckStageOk(cfg: Config, s: System, stage: FinalizeStage, next: FinalizeStage, late: bool)
    requires Inv(cfg, s) && s.worker == Closing(stage)
    requires stage.CheckVideo? || stage.CheckSidecar? || stage.CheckDigest? || stage.CheckCompose? || stage.CheckActivate?
    requires next == match stage
                     case CheckVideo => CloseVideo
                     case CheckSidecar => CloseSidecar
                     case CheckDigest => ComputeDigest
                     case CheckCompose(d) => Compose(d)
                     case CheckActivate(m) => Activate(m)
                     case _ => stage
    ensures Inv(cfg, DeadlineCheck(s, late, Closing(next), None))
  {
    hide CurrentOk;
    if MutexFree(s) {
      if s.mem.stopRequested && late { CatchOk(cfg, s, None); }
      else {
        CheckStageCurrent(cfg, s.mem, s.caller, s.media, At(s, s.media.id), stage, next);
        WorkerOnly(cfg, s, Closing(next));
      }
    }
  }

  lemma CloseVideoCurrent(cfg: Config, m: Memory, caller: Caller, media: Media, rec: Record)
    requires rec.place.staged.Some? && !caller.WritingStop?
    ensures var dir := rec.place.staged.value;
            var rec' := rec.(place := rec.place.(staged := Some(dir.(video := ClosedFile(media.video)))));
            CurrentOk(cfg, m, caller, Closing(CloseVideo), media, rec) ==>
              CurrentOk(cfg, m, caller, Closing(CheckSidecar), media, rec')
  {
    hide RecordOk;
  }

  lemma CloseSidecarCurrent(cfg: Config, m: Memory, caller: Caller, media: Media, rec: Record)
    requires rec.place.staged.Some? && !caller.WritingStop?
    ensures var dir := rec.place.staged.value;
            var rec' := rec.(place := rec.place.(staged := Some(dir.(sidecar := ClosedFile(media.lines)))));
            CurrentOk(cfg, m, caller, Closing(CloseSidecar), media, rec) ==>
              CurrentOk(cfg, m, caller, Closing(CheckDigest), media, rec')
  {
    hide RecordOk;
  }

  lemma WorkingStaged(cfg: Config, s: System)
    requires Inv(cfg, s) && Working(s.worker)
    ensures var p := At(s, s.media.id).place;
            p.staged.Some? && p.final.None? && PlaceOk(p)
    ensures s.worker.Closing? ==> !s.caller.WritingStop? && !StartStage(s.caller)
  {
    AtOk(cfg, s, s.media.id);
  }

  lemma CloseFileOk(cfg: Config, s: System, io: Io)
    requires Inv(cfg, s)
    ensures s.worker == Closing(CloseVideo) ==> Inv(cfg, DoCloseVideo(s, io))
    ensures s.worker == Closing(CloseSidecar) ==> Inv(cfg, DoCloseSidecar(s, io))
  {
    hide CurrentOk, RecordOk;
    if s.worker == Closing(CloseVideo) || s.worker == Closing(CloseSidecar) {
      WorkingStaged(cfg, s);
      if io.Fail? {
        CatchOk(cfg, s, None);
      } else {
        var id, rec := s.media.id, At(s, s.media.id);
        var dir := rec.place.staged.value;
        AtOk(cfg, s, id);
        CloseVideoCurrent(cfg, s.mem, s.caller, s.media, rec);
        CloseSidecarCurrent(cfg, s.mem, s.caller, s.media, rec);
        if s.worker == Closing(CloseVideo) {
          var p := rec.place.(staged := Some(dir.(video := ClosedFile(s.media.video))));
          StagedRecord(cfg, id, rec, p);
          ArchivePut(cfg, s.archive, id, rec.(place := p));
          OuterWork(cfg, s, DoCloseVideo(s, io), id, p);
        } else {
          var p := rec.place.(staged := Some(dir.(sidecar := ClosedFile(s.media.lines))));
          StagedRecord(cfg, id, rec, p);
          ArchivePut(cfg, s.archive, id, rec.(place := p));
          OuterWork(cfg, s, DoCloseSidecar(s, io), id, p);
        }
      }
    }
  }

  /** The artifact named in memory is staged only if it is the worker's own recording. */
  lemma ArtifactIsOwn(cfg: Config, s: System)
    requires Inv(cfg, s) && Working(s.worker)
    ensures s.mem.artifact.Some?
    ensures s.mem.artifact.value != s.media.id ==>
              At(s, s.mem.artifact.value).place.staged.None? && At(s, s.mem.artifact.value).place.final.Some?
  {
    if s.mem.artifact != Some(s.media.id) {
      AtOk(cfg, s, s.mem.artifact.value);
    }
  }

  lemma DigestCurrent(cfg: Config, m: Memory, caller: Caller, media: Media, rec: Record, d: Digests)
    requires CurrentOk(cfg, m, caller, Closing(ComputeDigest), media, rec) && Live(m, Closing(ComputeDigest), media.id)
    requires rec.place.staged.Some?
    requires rec.place.staged.value.video.ClosedFile? && rec.place.staged.value.sidecar.ClosedFile?
    requires d == Digests(cfg.videoDigest(rec.place.staged.value.video.contents),
                          cfg.sidecarDigest(rec.place.staged.value.sidecar.contents))
    ensures CurrentOk(cfg, m, caller, Closing(CheckCompose(d)), media, rec)
  {
  }

  lemma DigestOk(cfg: Config, s: System, io: Io)
    requires Inv(cfg, s) && s.worker == Closing(ComputeDigest)
    ensures Inv(cfg, DoDigest(cfg, s, io))
  {
    hide CurrentOk, RecordOk;
    WorkingStaged(cfg, s);
    ArtifactIsOwn(cfg, s);
    var s' := DoDigest(cfg, s, io);
    if s'.worker.Catching? {
      CatchOk(cfg, s, None);
    } else {
      DigestCurrent(cfg, s.mem, s.caller, s.media, At(s, s.media.id), s'.worker.stage.digests);
      WorkerOnly(cfg, s, s'.worker);
    }
  }

  lemma ComposeCurrent(cfg: Config, m: Memory, caller: Caller, media: Media, rec: Record, clock: Clock, d: Digests)
    requires CurrentOk(cfg, m, caller, Closing(Compose(d)), media, rec)
    requires ControlOk(m.state, m.admitting, m.stopRequested, caller, Closing(Compose(d)))
    requires !caller.WritingStop? && LogOk(cfg, media.id, rec.log)
    ensures CurrentOk(cfg, m, caller, Closing(Composed(ManifestOf(m, clock, d))), media, rec)
  {
    if Live(m, Closing(Compose(d)), media.id) {
      hide Ordered, LinesOf, CauseOk;
      assert rec.log.admitted == media.video;
      if m.seen.Seen? {} else {}
    }
  }

  lemma ComposeOk(cfg: Config, s: System, clock: Clock, d: Digests)
    requires Inv(cfg, s) && s.worker == Closing(Compose(d))
    ensures Inv(cfg, DoCompose(s, clock, d))
  {
    hide CurrentOk;
    if MutexFree(s) {
      AtOk(cfg, s, s.media.id);
      ComposeCurrent(cfg, s.mem, s.caller, s.media, At(s, s.media.id), clock, d);
      WorkerOnly(cfg, s, Closing(Composed(ManifestOf(s.mem, clock, d))));
    }
  }

  lemma OpenManifestCurrent(cfg: Config, m: Memory, caller: Caller, media: Media, rec: Record, mf: Manifest)
    requires CurrentOk(cfg, m, caller, Closing(Composed(mf)), media, rec) && m.artifact.Some?
    ensures var job := NewJob(m.artifact.value, ManifestFile, cfg.manifestJson(mf));
            CurrentOk(cfg, m, caller, Closing(WritingManifest(mf, job)), media, rec)
  {
  }

  lemma ComposedUnopened(cfg: Config, m: Memory, caller: Caller, media: Media, rec: Record, mf: Manifest)
    requires CurrentOk(cfg, m, caller, Closing(Composed(mf)), media, rec) && m.artifact == Some(media.id)
    ensures rec.place.staged.Some? && rec.place.staged.value.manifest.opens == 0
  {
  }

  lemma OpenManifestOk(cfg: Config, s: System, m: Manifest)
    requires Inv(cfg, s) && s.worker == Closing(Composed(m))
    ensures Inv(cfg, DoOpenManifest(cfg, s, m))
  {
    hide CurrentOk, RecordOk;
    WorkingStaged(cfg, s);
    ArtifactIsOwn(cfg, s);
    if !ManifestAccepted(m) {
      CatchOk(cfg, s, None);
    } else {
      var job := NewJob(s.mem.artifact.value, ManifestFile, cfg.manifestJson(m));
      OpenManifestCurrent(cfg, s.mem, s.caller, s.media, At(s, s.media.id), m);
      if s.mem.artifact == Some(s.media.id) {
        ComposedUnopened(cfg, s.mem, s.caller, s.media, At(s, s.media.id), m);
      }
      WorkerOnly(cfg, s, Closing(WritingManifest(m, job)));
    }
  }

  lemma WriteManifestCurrent(cfg: Config, m: Memory, caller: Caller, media: Media, rec: Record,
                             mf: Manifest, job: WriteJob, p: Place, job': WriteJob)
    requires CurrentOk(cfg, m, caller, Closing(WritingManifest(mf, job)), media, rec)
    requires !caller.WritingStop? && job'.id == job.id && job'.bytes == job.bytes
    requires rec.place.staged.Some? && rec.place.final.None? && p.staged.Some? && p.final.None?
    requires p.staged.value == rec.place.staged.value.(manifest := p.staged.value.manifest)
    ensures CurrentOk(cfg, m, caller, Closing(WritingManifest(mf, job')), media, rec.(place := p))
  {
    hide ManifestMatches, LogOk, Ordered;
  }

  lemma ManifestWrittenCurrent(cfg: Config, m: Memory, caller: Caller, media: Media, rec: Record, mf: Manifest, job: WriteJob)
    requires CurrentOk(cfg, m, caller, Closing(WritingManifest(mf, job)), media, rec)
    requires job.id == media.id ==>
               rec.place.staged.Some? && rec.place.staged.value.manifest.active == Some(job.bytes)
    ensures CurrentOk(cfg, m, caller, Closing(CheckActivate(mf)), media, rec)
  {
    hide Ordered, ManifestMatches, LogOk;
  }

  lemma ManifestRunningOk(cfg: Config, s: System, m: Manifest, job: WriteJob, io: Io)
    requires Inv(cfg, s) && s.worker == Closing(WritingManifest(m, job))
    requires JobStep(At(s, job.id).place, job, io).Running?
    ensures Inv(cfg, DoWriteManifest(s, m, job, io))
  {
    hide CurrentOk, RecordOk, JobStep;
    WorkingStaged(cfg, s);
    var rec, s' := At(s, job.id), DoWriteManifest(s, m, job, io);
    AtOk(cfg, s, job.id);
    RecordParts(cfg, job.id, rec);
    JobStepOk(rec.place, job, io);
    var r := JobStep(rec.place, job, io);
    StagedRecord(cfg, job.id, rec, r.place);
    ArchivePut(cfg, s.archive, job.id, rec.(place := r.place));
    WriteManifestCurrent(cfg, s.mem, s.caller, s.media, At(s, s.media.id), m, job, At(s', s.media.id).place, r.job);
    OuterWork(cfg, s, s', job.id, r.place);
  }

  lemma WriteManifestOk(cfg: Config, s: System, m: Manifest, job: WriteJob, io: Io)
    requires Inv(cfg, s) && s.worker == Closing(WritingManifest(m, job))
    ensures Inv(cfg, DoWriteManifest(s, m, job, io))
  {
    hide CurrentOk, RecordOk, JobStep;
    match JobStep(At(s, job.id).place, job, io)
    case Running(_, _) => ManifestRunningOk(cfg, s, m, job, io);
    case Completed =>
      WorkingStaged(cfg, s);
      AtOk(cfg, s, job.id);
      RecordParts(cfg, job.id, At(s, job.id));
      JobStepOk(At(s, job.id).place, job, io);
      ManifestWrittenCurrent(cfg, s.mem, s.caller, s.media, At(s, s.media.id), m, job);
      WorkerOnly(cfg, s, Closing(CheckActivate(m)));
    case JobFailed =>
      CatchOk(cfg, s, None);
  }

  // ----- worker: activation -----

  lemma ActivateRecord(cfg: Config, m: Memory, caller: Caller, media: Media, rec: Record, mf: Manifest)
    requires CurrentOk(cfg, m, caller, Closing(Activate(mf)), media, rec)
    requires ControlOk(m.state, m.admitting, m.stopRequested, caller, Closing(Activate(mf)))
    requires RecordOk(cfg, media.id, rec) && m.artifact == Some(media.id) && !caller.WritingStop?
    ensures rec.place.staged.Some? && m.ledger.recordingId == media.id
    ensures RecordOk(cfg, media.id, Record(Place(None, rec.place.staged), rec.log.(manifest := Some(mf))))
  {
    assert rec.log.admitted == media.video;
    var p := Place(None, rec.place.staged);
    forall t | t in rec.log.startAnswers ensures Holds(p, StartRequest, t) {
      assert Holds(rec.place, StartRequest, t);
    }
    forall t | t in rec.log.stopAnswers ensures Holds(p, StopRequest, t) {
      assert Holds(rec.place, StopRequest, t);
    }
  }

  lemma ActivateCurrent(cfg: Config, m: Memory, caller: Caller, media: Media, rec: Record, mf: Manifest)
    requires CurrentOk(cfg, m, caller, Closing(Activate(mf)), media, rec)
    requires ControlOk(m.state, m.admitting, m.stopRequested, caller, Closing(Activate(mf)))
    requires m.artifact == Some(media.id) && !caller.WritingStop? && rec.place.staged.Some?
    ensures CurrentOk(cfg, m, caller, SyncingParents, media,
                      Record(Place(None, rec.place.staged), rec.log.(manifest := Some(mf))))
  {
  }

  lemma ActivateOuter(cfg: Config, s: System, mf: Manifest)
    requires OuterOk(cfg, s) && s.worker == Closing(Activate(mf)) && !StartStage(s.caller)
    requires s.mem.ledger.recordingId == s.media.id
    requires At(s, s.media.id).place.staged.Some? && At(s, s.media.id).place.final.None?
    requires !s.caller.WritingStop?
    ensures OuterOk(cfg, Rename(s, s.media.id, mf))
  {
    var s' := Rename(s, s.media.id, mf);
    var before, after := At(s, s.mem.ledger.recordingId).place, At(s', s.mem.ledger.recordingId).place;
    assert PlaceGrows(before, after) || before == after;
  }

  lemma ActivateOk(cfg: Config, s: System, mf: Manifest, io: Io)
    requires Inv(cfg, s) && s.worker == Closing(Activate(mf))
    ensures Inv(cfg, DoActivate(s, mf, io))
  {
    hide CurrentOk, RecordOk;
    WorkingStaged(cfg, s);
    ArtifactIsOwn(cfg, s);
    var id, rec := s.media.id, At(s, s.media.id);
    if io.Fail? || s.mem.artifact.value != id {
      CatchOk(cfg, s, None);
    } else {
      AtOk(cfg, s, id);
      ActivateRecord(cfg, s.mem, s.caller, s.media, rec, mf);
      ActivateCurrent(cfg, s.mem, s.caller, s.media, rec, mf);
      ActivateOuter(cfg, s, mf);
      ArchivePut(cfg, s.archive, id, Record(Place(None, rec.place.staged), rec.log.(manifest := Some(mf))));
    }
  }

  lemma ClosingOk(cfg: Config, s: System, stage: FinalizeStage, io: Io, late: bool, clock: Clock)
    requires Inv(cfg, s) && s.worker == Closing(stage)
    ensures Inv(cfg, DoClosing(cfg, s, stage, io, late, clock))
  {
    hide Inv;
    match stage
    case CheckVideo => CheckStageOk(cfg, s, stage, CloseVideo, late);
    case CloseVideo => CloseFileOk(cfg, s, io);
    case CheckSidecar => CheckStageOk(cfg, s, stage, CloseSidecar, late);
    case CloseSidecar => CloseFileOk(cfg, s, io);
    case CheckDigest => CheckStageOk(cfg, s, stage, ComputeDigest, late);
    case ComputeDigest => DigestOk(cfg, s, io);
    case CheckCompose(d) => CheckStageOk(cfg, s, stage, Compose(d), late);
    case Compose(d) => ComposeOk(cfg, s, clock, d);
    case Composed(m) => OpenManifestOk(cfg, s, m);
    case WritingManifest(m, job) => WriteManifestOk(cfg, s, m, job, io);
    case CheckActivate(m) => CheckStageOk(cfg, s, stage, Activate(m), late);
    case Activate(m) => ActivateOk(cfg, s, m, io);
  }

  // ----- worker: end -----

  lemma SyncedCurrent(cfg: Config, m: Memory, caller: Caller, media: Media, rec: Record)
    requires CurrentOk(cfg, m, caller, SyncingParents, media, rec) && !caller.WritingStop?
    ensures CurrentOk(cfg, m, caller, Publishing, media, rec)
  {
    hide LiveOk, LogOk;
  }

  lemma SyncParentsOk(cfg: Config, s: System, io: Io)
    requires Inv(cfg, s) && s.worker.SyncingParents?
    ensures Inv(cfg, if io.Fail? then s.(worker := Catching(None)) else s.(worker := Publishing))
  {
    hide CurrentOk, RecordOk;
    if io.Fail? {
      CatchOk(cfg, s, None);
    } else {
      SyncedCurrent(cfg, s.mem, s.caller, s.media, At(s, s.media.id));
      WorkerOnly(cfg, s, Publishing);
    }
  }

  lemma PublishCurrent(cfg: Config, m: Memory, caller: Caller, media: Media, rec: Record)
    requires CurrentOk(cfg, m, caller, Publishing, media, rec) && !caller.WritingStop?
    ensures CurrentOk(cfg, m.(state := Finalized), caller, Finished, media, rec)
  {
    hide CountsOk, LiveOk, LogOk;
  }

  lemma PublishOuter(cfg: Config, s: System)
    requires OuterOk(cfg, s) && s.worker.Publishing? && MutexFree(s)
    ensures OuterOk(cfg, DoPublish(s))
  {
  }

  lemma PublishOk(cfg: Config, s: System)
    requires Inv(cfg, s) && s.worker.Publishing?
    ensures Inv(cfg, DoPublish(s))
  {
    hide CurrentOk, RecordOk;
    if MutexFree(s) {
      PublishCurrent(cfg, s.mem, s.caller, s.media, At(s, s.media.id));
      PublishOuter(cfg, s);
    }
  }

  lemma CaughtCurrent(cfg: Config, m: Memory, caller: Caller, media: Media, rec: Record, lost: Option<Frame>)
    requires CurrentOk(cfg, m, caller, Catching(lost), media, rec) && !caller.WritingStop?
    ensures CurrentOk(cfg, m.(state := Faulted, admitting := false, stopRequested := true), caller, Finished, media, rec)
  {
    hide CountsOk, LiveOk, LogOk;
  }

  lemma CaughtOk(cfg: Config, s: System)
    requires Inv(cfg, s) && s.worker.Catching?
    ensures Inv(cfg, DoCatch(s))
  {
    hide CurrentOk, RecordOk;
    if MutexFree(s) {
      CaughtCurrent(cfg, s.mem, s.caller, s.media, At(s, s.media.id), s.worker.lost);
    }
  }

  lemma WorkerStepOk(cfg: Config, s: System, io: Io, late: bool, timedOut: bool, clock: Clock)
    requires Inv(cfg, s)
    ensures Inv(cfg, DoWorkerStep(cfg, s, io, late, timedOut, clock))
  {
    hide Inv;
    match s.worker
    case NoWorker =>
    case Waiting => WaitOk(cfg, s, timedOut);
    case WritingEvidence(job, cause) => WriteEvidenceOk(cfg, s, job, cause, io, late);
    case Dequeued(f) => CheckFrameOk(cfg, s, f, late);
    case Encoding(f) => EncodeOk(cfg, s, f, io);
    case Appending(f, index) => AppendOk(cfg, s, f, index, io);
    case Counting(f) => CountOk(cfg, s, f);
    case Closing(stage) => ClosingOk(cfg, s, stage, io, late, clock);
    case SyncingParents => SyncParentsOk(cfg, s, io);
    case Publishing => PublishOk(cfg, s);
    case Catching(_) => CaughtOk(cfg, s);
    case Finished =>
    case Underflowed =>
  }

  lemma JoinFacts(cfg: Config, s: System)
    requires Inv(cfg, s) && s.caller.Joining?
    ensures !Active(s.mem.state) && ValidRequest(s.caller.request)
  {
    hide CurrentOk, RecordOk;
  }

  lemma CallerStepOk(cfg: Config, s: System, io: Io, readOk: bool, late: bool, clock: Clock)
    requires Inv(cfg, s)
    ensures Inv(cfg, DoCallerStep(cfg, s, io, readOk, late, clock))
  {
    hide Inv;
    match s.caller
    case CallerIdle =>
    case Joining(r) =>
      if s.worker.Finished? {
        var s1 := s.(worker := NoWorker, caller := CallerIdle);
        JoinFacts(cfg, s);
        JoinedOk(cfg, s);
        AfterJoinOk(cfg, s1, r, readOk);
        assert AfterJoin(cfg, s.(worker := NoWorker), r, readOk) == AfterJoin(cfg, s1, r, readOk);
      }
    case CreatingStaging(r) => CreateStagingOk(cfg, s, r, io);
    case WritingStart(r, job) => WriteStartOk(cfg, s, r, job, io);
    case OpeningVideo(r) => OpenFileOk(cfg, s, r, io);
    case OpeningSidecar(r) => OpenFileOk(cfg, s, r, io);
    case Committing(r) => CommitOk(cfg, s, r, !io.Fail?, clock);
    case WritingStop(job, cause, origin) => WriteStopOk(cfg, s, job, cause, origin, io, late);
    case ShutdownJoining =>
      if Gone(s.worker) {
        JoinedOk(cfg, s);
        assert s.(worker := NoWorker, caller := CallerIdle) == DoCallerStep(cfg, s, io, readOk, late, clock);
      }
  }

  /** Every event of every thread, and every crash, preserves the invariant. */
  lemma StepOk(cfg: Config, s: System, e: Event)
    requires Inv(cfg, s)
    ensures Inv(cfg, Apply(cfg, s, e))
  {
    hide Inv;
    match e
    case Submit(frame, contended) => SubmitOk(cfg, s, frame, contended);
    case CallStart(r, readOk) => CallStartOk(cfg, s, r, readOk);
    case CallStop(r, readOk) => CallStopOk(cfg, s, r, readOk);
    case CallShutdown => CallShutdownOk(cfg, s);
    case CallerStep(io, readOk, late, clock) => CallerStepOk(cfg, s, io, readOk, late, clock);
    case WorkerStep(io, late, timedOut, clock) => WorkerStepOk(cfg, s, io, late, timedOut, clock);
    case Crash => CrashOk(cfg, s);
  }

  /** The invariant holds in every state of every run from an empty archive. */
  lemma {:induction false} RunOk(cfg: Config, s: System, events: seq<Event>)
    requires Inv(cfg, s)
    ensures Inv(cfg, Exec(cfg, s, events))
    decreases |events|
  {
    hide Inv;
    if events != [] {
      StepOk(cfg, s, events[0]);
      RunOk(cfg, Apply(cfg, s, events[0]), events[1..]);
    }
  }
}
