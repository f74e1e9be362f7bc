/** Every step of the recording system preserves the invariant: capture and caller threads. */
module RecordingSafety {
  import opened Wrappers
  import opened FrameIdentity
  import opened RecordingTypes
  import opened RecordingStore
  import opened RecordingLifecycle
  import opened RecordingInvariant

  lemma InitialOk(cfg: Config)
    ensures Inv(cfg, InitialSystem)
  {
  }

  lemma CrashOk(cfg: Config, s: System)
    requires Inv(cfg, s)
    ensures Inv(cfg, Apply(cfg, s, Crash))
  {
    hide CurrentOk, RecordOk, ArchiveOk;
    var s' := Apply(cfg, s, Crash);
    QuietCurrent(cfg, s'.mem, s'.caller, s'.media, At(s', s'.media.id));
  }

  lemma ArchivePut(cfg: Config, archive: map<RecId, Record>, id: RecId, r: Record)
    requires ArchiveOk(cfg, archive) && RecordOk(cfg, id, r)
    ensures ArchiveOk(cfg, archive[id := r])
  {
  }

  lemma AtOk(cfg: Config, s: System, id: RecId)
    requires ArchiveOk(cfg, s.archive)
    ensures RecordOk(cfg, id, At(s, id))
  {
  }

  lemma RecordParts(cfg: Config, id: RecId, rec: Record)
    requires RecordOk(cfg, id, rec)
    ensures PlaceOk(rec.place) && LogOk(cfg, id, rec.log)
  {
  }

  // ----- capture thread -----

  lemma AdmitRecord(cfg: Config, id: RecId, r: Record, frames: seq<Frame>)
    requires RecordOk(cfg, id, r) && r.place.staged.Some? && r.log.starts == 1
    ensures RecordOk(cfg, id, r.(log := r.log.(offered := r.log.offered + 1, admitted := r.log.admitted + frames)))
  {
  }

  lemma AdmitCurrent(cfg: Config, m: Memory, caller: Caller, w: Worker, media: Media, rec: Record, frame: Frame)
    requires CurrentOk(cfg, m, caller, w, media, rec)
    requires ControlOk(m.state, m.admitting, m.stopRequested, caller, w)
    requires m.state == Recording && |m.flow.queue| < cfg.capacity
    ensures CurrentOk(cfg, m.(flow := m.flow.(queue := m.flow.queue + [frame], admitted := m.flow.admitted + 1)),
                      caller, w, media,
                      rec.(log := rec.log.(offered := rec.log.offered + 1, admitted := rec.log.admitted + [frame])))
  {
  }

  lemma AdmitOk(cfg: Config, s: System, frame: Frame)
    requires Inv(cfg, s) && s.mem.state == Recording && |s.mem.flow.queue| < cfg.capacity
    ensures Inv(cfg, Admit(s, frame))
  {
    hide RecordOk;
    AtOk(cfg, s, s.media.id);
    AdmitRecord(cfg, s.media.id, At(s, s.media.id), [frame]);
    AdmitCurrent(cfg, s.mem, s.caller, s.worker, s.media, At(s, s.media.id), frame);
  }

  lemma DropCurrent(cfg: Config, m: Memory, flow': Flow, caller: Caller, w: Worker, media: Media, rec: Record)
    requires CurrentOk(cfg, m, caller, w, media, rec)
    requires ControlOk(m.state, m.admitting, m.stopRequested, caller, w)
    requires m.state == Recording
    requires flow' == m.flow.(fullDrops := flow'.fullDrops, contentionDrops := flow'.contentionDrops)
    requires flow'.fullDrops + flow'.contentionDrops == m.flow.fullDrops + m.flow.contentionDrops + 1
    ensures CurrentOk(cfg, m.(flow := flow'), caller, w, media, rec.(log := rec.log.(offered := rec.log.offered + 1)))
  {
  }

  lemma DropOk(cfg: Config, s: System, s': System)
    requires Inv(cfg, s) && s.mem.state == Recording
    requires s' == DropContended(s) || s' == DropFull(s)
    ensures Inv(cfg, s')
  {
    hide RecordOk;
    var rec := At(s, s.media.id);
    AtOk(cfg, s, s.media.id);
    AdmitRecord(cfg, s.media.id, rec, []);
    assert rec.log.admitted + [] == rec.log.admitted;
    DropCurrent(cfg, s.mem, s'.mem.flow, s.caller, s.worker, s.media, rec);
  }

  lemma SubmitOk(cfg: Config, s: System, frame: Frame, contended: bool)
    requires Inv(cfg, s)
    ensures Inv(cfg, DoSubmit(cfg, s, frame, contended))
  {
    if contended || !MutexFree(s) {
      if s.mem.admitting { DropOk(cfg, s, DropContended(s)); }
    } else if s.mem.state == Recording {
      if |s.mem.flow.queue| == cfg.capacity { DropOk(cfg, s, DropFull(s)); } else { AdmitOk(cfg, s, frame); }
    }
  }

  // ----- answers -----

  lemma AnswerStage(cfg: Config, id: RecId, stage: FinalizeStage, dir: Directory, frames: seq<Frame>, log: Chronicle,
                    starts: set<string>, stops: set<string>)
    requires StageOk(cfg, id, stage, dir, frames, log)
    ensures StageOk(cfg, id, stage, dir, frames, log.(startAnswers := starts, stopAnswers := stops))
  {
    hide MediaClosed;
  }

  lemma AnswerStops(m: Memory, caller: Caller, w: Worker, id: RecId, rec: Record, starts: set<string>, stops: set<string>)
    requires StopOk(m, caller, w, id, rec)
    ensures StopOk(m, caller, w, id, rec.(log := rec.log.(startAnswers := starts, stopAnswers := stops)))
  {
    hide JobOk, Live;
  }

  /** The observers of answers play no part in the rest of the invariant. */
  lemma AnswerCurrent(cfg: Config, m: Memory, caller: Caller, w: Worker, media: Media, rec: Record,
                      starts: set<string>, stops: set<string>)
    requires CurrentOk(cfg, m, caller, w, media, rec)
    ensures CurrentOk(cfg, m, caller, w, media, rec.(log := rec.log.(startAnswers := starts, stopAnswers := stops)))
  {
    hide StageOk, StopOk, QueueOk;
    AnswerStops(m, caller, w, media.id, rec, starts, stops);
    if Live(m, w, media.id) {
      if w.Closing? {
        AnswerStage(cfg, media.id, w.stage, rec.place.staged.value, media.video, rec.log, starts, stops);
      }
    }
  }

  /** A change of one chronicle that leaves the start count alone. */
  lemma OuterLog(cfg: Config, s: System, id: RecId, log: Chronicle)
    requires OuterOk(cfg, s) && log.starts == At(s, id).log.starts
    ensures OuterOk(cfg, PutLog(s, id, log))
  {
    assert At(PutLog(s, id, log), s.mem.ledger.recordingId).place == At(s, s.mem.ledger.recordingId).place;
  }

  lemma AnswerRecord(cfg: Config, id: RecId, rec: Record, starts: set<string>, stops: set<string>)
    requires RecordOk(cfg, id, rec)
    requires forall t | t in starts :: t in rec.log.startAnswers || Holds(rec.place, StartRequest, t)
    requires forall t | t in stops :: t in rec.log.stopAnswers || Holds(rec.place, StopRequest, t)
    ensures RecordOk(cfg, id, rec.(log := rec.log.(startAnswers := starts, stopAnswers := stops)))
  {
    hide PlaceOk, CauseOk, Ordered, LinesOf, Holds;
    if rec.place.final.Some? {} else {}
  }

  lemma AnsweredOk(cfg: Config, s: System, id: RecId, starts: set<string>, stops: set<string>)
    requires Inv(cfg, s)
    requires forall t | t in starts :: t in At(s, id).log.startAnswers || Holds(At(s, id).place, StartRequest, t)
    requires forall t | t in stops :: t in At(s, id).log.stopAnswers || Holds(At(s, id).place, StopRequest, t)
    ensures Inv(cfg, PutLog(s, id, At(s, id).log.(startAnswers := starts, stopAnswers := stops)))
  {
    var log := At(s, id).log.(startAnswers := starts, stopAnswers := stops);
    hide RecordOk, CurrentOk, OuterOk;
    AtOk(cfg, s, id);
    AnswerRecord(cfg, id, At(s, id), starts, stops);
    ArchivePut(cfg, s.archive, id, At(s, id).(log := log));
    OuterLog(cfg, s, id, log);
    AnswerCurrent(cfg, s.mem, s.caller, s.worker, s.media, At(s, s.media.id), starts, stops);
  }

  lemma AnswerStartOk(cfg: Config, s: System, id: RecId, text: string)
    requires Inv(cfg, s) && Holds(At(s, id).place, StartRequest, text)
    ensures Inv(cfg, AnswerStart(s, id, text))
  {
    hide Inv, Holds;
    var log := At(s, id).log;
    AnsweredOk(cfg, s, id, log.startAnswers + {text}, log.stopAnswers);
    assert log.(startAnswers := log.startAnswers + {text}) ==
           log.(startAnswers := log.startAnswers + {text}, stopAnswers := log.stopAnswers);
  }

  lemma AnswerStopOk(cfg: Config, s: System, id: RecId, text: string)
    requires Inv(cfg, s) && Holds(At(s, id).place, StopRequest, text)
    ensures Inv(cfg, AnswerStop(s, id, text))
  {
    hide Inv, Holds;
    var log := At(s, id).log;
    AnsweredOk(cfg, s, id, log.startAnswers, log.stopAnswers + {text});
    assert log.(stopAnswers := log.stopAnswers + {text}) ==
           log.(startAnswers := log.startAnswers, stopAnswers := log.stopAnswers + {text});
  }

  // ----- start -----

  /** With no worker and nothing recording, the worker's part of the invariant is void. */
  lemma QuietCurrent(cfg: Config, m: Memory, caller: Caller, media: Media, rec: Record)
    requires !Busy(m.state) && !caller.WritingStop?
    ensures CurrentOk(cfg, m, caller, NoWorker, media, rec)
  {
  }

  lemma ReplayPersistedOk(cfg: Config, s: System, r: Request, finalized: bool, canonical: string)
    requires Inv(cfg, s) && s.caller.CallerIdle? && s.worker.NoWorker?
    requires Holds(At(s, r.recordingId).place, StartRequest, canonical)
    requires finalized ==> At(s, r.recordingId).place.final.Some?
    ensures Inv(cfg, ReplayPersisted(s, r, finalized, canonical))
  {
    hide CurrentOk, RecordOk;
    var start := if canonical != "" then Some(Ticket(r.requestId, canonical)) else None;
    var s1 := s.(mem := RestoreMemory(s.mem, r.recordingId, finalized, start, None, ApplicationShutdown));
    QuietCurrent(cfg, s1.mem, s1.caller, s1.media, At(s1, s1.media.id));
    AnswerStartOk(cfg, s1, r.recordingId, canonical);
  }

  lemma FindHolds(p: Place, readOk: bool)
    requires Find(p, readOk).Found?
    ensures var f := Find(p, readOk);
            && Holds(p, StartRequest, f.start)
            && (f.stop.Some? ==> Holds(p, StopRequest, f.stop.value))
            && (f.finalized ==> p.final.Some?)
  {
  }

  lemma AfterJoinOk(cfg: Config, s: System, r: Request, readOk: bool)
    requires Inv(cfg, s) && s.caller.CallerIdle? && s.worker.NoWorker?
    requires !Active(s.mem.state) && ValidRequest(r)
    ensures Inv(cfg, AfterJoin(cfg, s, r, readOk))
  {
    hide CurrentOk, RecordOk;
    var p := At(s, r.recordingId).place;
    match Find(p, readOk)
    case Unreadable =>
      assert AfterJoin(cfg, s, r, readOk) == s;
    case Missing =>
      QuietCurrent(cfg, s.mem.(state := Preparing), CreatingStaging(r), s.media, At(s, s.media.id));
    case Found(finalized, start, _) =>
      FindHolds(p, readOk);
      if start == StartCanonical(cfg, r) {
        ReplayPersistedOk(cfg, s, r, finalized, start);
      } else {
        assert AfterJoin(cfg, s, r, readOk) == s;
      }
  }

  lemma CallStartOk(cfg: Config, s: System, r: Request, readOk: bool)
    requires Inv(cfg, s)
    ensures Inv(cfg, DoCallStart(cfg, s, r, readOk))
  {
    hide RecordOk;
    var s' := DoCallStart(cfg, s, r, readOk);
    var ledger := s.mem.ledger;
    if !s.caller.CallerIdle? || !MutexFree(s) || !ValidRequest(r) {
    } else if r.recordingId == ledger.recordingId && ledger.start.Some? && r.requestId == ledger.start.value.requestId {
      if StartCanonical(cfg, r) == ledger.start.value.canonical {
        AnswerStartOk(cfg, s, r.recordingId, StartCanonical(cfg, r));
      }
    } else if !Active(s.mem.state) && s.worker.NoWorker? {
      AfterJoinOk(cfg, s, r, readOk);
    }
  }

  lemma JoinedOk(cfg: Config, s: System)
    requires Inv(cfg, s) && (s.caller.Joining? || s.caller.ShutdownJoining?) && Gone(s.worker)
    ensures Inv(cfg, s.(worker := NoWorker, caller := CallerIdle))
  {
    hide CurrentOk, RecordOk, ArchiveOk;
    QuietCurrent(cfg, s.mem, CallerIdle, s.media, At(s, s.media.id));
  }

  lemma FailStartOk(cfg: Config, s: System)
    requires Inv(cfg, s) && StartStage(s.caller)
    ensures Inv(cfg, FailStart(s))
  {
    hide CurrentOk, RecordOk, ArchiveOk;
    QuietCurrent(cfg, FailStart(s).mem, CallerIdle, s.media, At(s, s.media.id));
  }

  lemma OuterPlace(cfg: Config, s: System, s': System, id: RecId, p: Place)
    requires OuterOk(cfg, s) && StartStage(s.caller) && StartStage(s'.caller)
    requires s' == PutPlace(s, id, p).(caller := s'.caller)
    requires PlaceGrows(At(s, id).place, p)
    requires StartingOk(cfg, s'.caller, s.mem.artifact, At(s', s'.caller.request.recordingId))
    ensures OuterOk(cfg, s')
  {
    var before, after := At(s, s.mem.ledger.recordingId).place, At(s', s.mem.ledger.recordingId).place;
    assert PlaceGrows(before, after) || before == after;
  }

  /** Replacing the place of one identity by a later one, while no recording is running. */
  lemma QuietPlaceOk(cfg: Config, s: System, s': System, id: RecId, p: Place)
    requires Inv(cfg, s) && StartStage(s.caller) && StartStage(s'.caller)
    requires s' == PutPlace(s, id, p).(caller := s'.caller)
    requires PlaceGrows(At(s, id).place, p)
    requires RecordOk(cfg, id, At(s, id).(place := p))
    requires StartingOk(cfg, s'.caller, s.mem.artifact, At(s', s'.caller.request.recordingId))
    ensures Inv(cfg, s')
  {
    OuterPlace(cfg, s, s', id, p);
    ArchivePut(cfg, s.archive, id, At(s, id).(place := p));
    QuietCurrent(cfg, s'.mem, s'.caller, s'.media, At(s', s'.media.id));
  }

  /** Growing a staged directory keeps the record conforming. */
  lemma StagedRecord(cfg: Config, id: RecId, rec: Record, p: Place)
    requires RecordOk(cfg, id, rec) && PlaceOk(p) && PlaceGrows(rec.place, p)
    requires p.staged.Some? && p.final.None?
    ensures RecordOk(cfg, id, rec.(place := p))
  {
    forall t | t in rec.log.startAnswers ensures Holds(p, StartRequest, t) {
      HoldsGrows(rec.place, p, StartRequest, t);
    }
    forall t | t in rec.log.stopAnswers ensures Holds(p, StopRequest, t) {
      HoldsGrows(rec.place, p, StopRequest, t);
    }
  }

  lemma CreateStagingOk(cfg: Config, s: System, r: Request, io: Io)
    requires Inv(cfg, s) && s.caller == CreatingStaging(r)
    ensures Inv(cfg, DoCreateStaging(cfg, s, r, io))
  {
    var rec := At(s, r.recordingId);
    AtOk(cfg, s, r.recordingId);
    if io.Fail? || rec.place.final.Some? || rec.place.staged.Some? {
      FailStartOk(cfg, s);
    } else {
      var p := rec.place.(staged := Some(EmptyDirectory));
      StagedRecord(cfg, r.recordingId, rec, p);
      QuietPlaceOk(cfg, s, MakeStaging(cfg, s, r), r.recordingId, p);
    }
  }

  lemma WriteStartOk(cfg: Config, s: System, r: Request, job: WriteJob, io: Io)
    requires Inv(cfg, s) && s.caller == WritingStart(r, job)
    ensures Inv(cfg, DoWriteStart(s, r, job, io))
  {
    hide CurrentOk, RecordOk, ArchiveOk, JobStep;
    var rec := At(s, job.id);
    AtOk(cfg, s, job.id);
    RecordParts(cfg, job.id, rec);
    JobStepOk(rec.place, job, io);
    match JobStep(rec.place, job, io)
    case Running(p, job') =>
      StagedRecord(cfg, job.id, rec, p);
      QuietPlaceOk(cfg, s, DoWriteStart(s, r, job, io), job.id, p);
    case Completed =>
      QuietCurrent(cfg, StartWritten(s, r).mem, OpeningVideo(r), s.media, At(s, s.media.id));
    case JobFailed =>
      FailStartOk(cfg, s);
  }

  lemma OpenFileOk(cfg: Config, s: System, r: Request, io: Io)
    requires Inv(cfg, s)
    ensures s.caller == OpeningVideo(r) ==> Inv(cfg, DoOpenVideo(s, r, io))
    ensures s.caller == OpeningSidecar(r) ==> Inv(cfg, DoOpenSidecar(s, r, io))
  {
    hide StageOk, Ordered, LogOk;
    var rec := At(s, r.recordingId);
    AtOk(cfg, s, r.recordingId);
    if s.caller == OpeningVideo(r) || s.caller == OpeningSidecar(r) {
      if io.Fail? {
        FailStartOk(cfg, s);
      } else {
        var dir := rec.place.staged.value;
        var pv := rec.place.(staged := Some(dir.(video := OpenFile)));
        var ps := rec.place.(staged := Some(dir.(sidecar := OpenFile)));
        StagedRecord(cfg, r.recordingId, rec, pv);
        StagedRecord(cfg, r.recordingId, rec, ps);
        if s.caller == OpeningVideo(r) {
          QuietPlaceOk(cfg, s, DoOpenVideo(s, r, io), r.recordingId, pv);
        } else {
          QuietPlaceOk(cfg, s, DoOpenSidecar(s, r, io), r.recordingId, ps);
        }
      }
    }
  }

  lemma CommitCurrent(cfg: Config, m: Memory, r: Request, clock: Clock, rec: Record)
    requires RecordOk(cfg, r.recordingId, rec)
    requires StartingOk(cfg, Committing(r), m.artifact, rec)
    ensures CurrentOk(cfg, CommitMemory(cfg, m, r, clock, true), CallerIdle, Waiting, Media(r.recordingId, [], []),
                      rec.(log := rec.log.(starts := rec.log.starts + 1)))
  {
  }

  lemma CommitRecord(cfg: Config, r: Request, rec: Record, m: Memory)
    requires RecordOk(cfg, r.recordingId, rec)
    requires StartingOk(cfg, Committing(r), m.artifact, rec)
    ensures RecordOk(cfg, r.recordingId,
                     rec.(log := rec.log.(starts := rec.log.starts + 1,
                                          startAnswers := rec.log.startAnswers + {StartCanonical(cfg, r)})))
  {
  }

  lemma CommitOk(cfg: Config, s: System, r: Request, threadOk: bool, clock: Clock)
    requires Inv(cfg, s) && s.caller == Committing(r)
    ensures Inv(cfg, DoCommit(cfg, s, r, threadOk, clock))
  {
    hide CurrentOk, RecordOk;
    var s' := DoCommit(cfg, s, r, threadOk, clock);
    var rec := At(s, r.recordingId);
    AtOk(cfg, s, r.recordingId);
    if threadOk {
      CommitRecord(cfg, r, rec, s.mem);
      CommitCurrent(cfg, s.mem, r, clock, rec);
      AnswerCurrent(cfg, s'.mem, CallerIdle, Waiting, s'.media, rec.(log := rec.log.(starts := rec.log.starts + 1)),
                    rec.log.startAnswers + {StartCanonical(cfg, r)}, rec.log.stopAnswers);
    } else {
      QuietCurrent(cfg, s'.mem, CallerIdle, s.media, At(s, s.media.id));
    }
  }

  // ----- stop -----

  lemma BeginRecord(cfg: Config, id: RecId, rec: Record, cause: Cause)
    requires RecordOk(cfg, id, rec) && rec.place.staged.Some? && rec.log.starts == 1 && rec.log.stops == 0
    requires CauseOk(cfg, id, cause)
    ensures RecordOk(cfg, id, rec.(log := rec.log.(stops := rec.log.stops + 1, cause := cause)))
  {
  }

  lemma BeginCurrent(cfg: Config, m: Memory, caller: Caller, w: Worker, media: Media, rec: Record, cause: Cause, origin: StopOrigin)
    requires CurrentOk(cfg, m, caller, w, media, rec)
    requires ControlOk(m.state, m.admitting, m.stopRequested, caller, w)
    requires m.state == Recording && caller.CallerIdle? && !w.WritingEvidence?
    requires PlaceOk(rec.place) && LogOk(cfg, media.id, rec.log)
    ensures var rec' := rec.(log := rec.log.(stops := rec.log.stops + 1, cause := cause));
            && CurrentOk(cfg, BeginMemory(m), WritingStop(StopJob(m, cause), cause, origin), w, media, rec')
            && (w.Waiting? ==>
                  CurrentOk(cfg, BeginMemory(m), caller, WritingEvidence(StopJob(m, cause), cause), media, rec'))
  {
  }

  lemma BeginOk(cfg: Config, s: System, cause: Cause, origin: StopOrigin)
    requires Inv(cfg, s) && s.mem.state == Recording && s.caller.CallerIdle? && MutexFree(s)
    requires CauseOk(cfg, s.mem.ledger.recordingId, cause)
    ensures Inv(cfg, BeginFromCaller(s, cause, origin))
    ensures s.worker.Waiting? ==> Inv(cfg, BeginFromWorker(s, cause))
  {
    hide RecordOk;
    var rec := At(s, s.media.id);
    AtOk(cfg, s, s.media.id);
    BeginRecord(cfg, s.media.id, rec, cause);
    BeginCurrent(cfg, s.mem, s.caller, s.worker, s.media, rec, cause, origin);
  }

  /** The worker may still be at work on another recording when a finalized one is restored. */
  lemma RestoreCurrent(cfg: Config, m: Memory, caller: Caller, w: Worker, media: Media, rec: Record,
                       id: RecId, stop: Ticket)
    requires CurrentOk(cfg, m, caller, w, media, rec)
    requires ControlOk(m.state, m.admitting, m.stopRequested, caller, w)
    requires PlaceOk(rec.place)
    requires !Busy(m.state) && caller.CallerIdle? && !w.WritingEvidence?
    requires id == media.id ==> rec.place.final.Some?
    ensures CurrentOk(cfg, RestoreMemory(m, id, true, None, Some(stop), Requested), caller, w, media, rec)
  {
  }

  lemma RestoreFinalizedOk(cfg: Config, s: System, r: Request, canonical: string)
    requires Inv(cfg, s) && s.caller.CallerIdle? && MutexFree(s) && !Busy(s.mem.state)
    requires At(s, r.recordingId).place.final.Some?
    requires Holds(At(s, r.recordingId).place, StopRequest, canonical)
    ensures Inv(cfg, RestoreFinalized(s, r, canonical))
  {
    hide CurrentOk, RecordOk;
    AtOk(cfg, s, s.media.id);
    var stop := Ticket(r.requestId, canonical);
    var s1 := s.(mem := RestoreMemory(s.mem, r.recordingId, true, None, Some(stop), Requested));
    RestoreCurrent(cfg, s.mem, s.caller, s.worker, s.media, At(s, s.media.id), r.recordingId, stop);
    AnswerStopOk(cfg, s1, r.recordingId, canonical);
  }

  lemma StopTailOk(cfg: Config, s: System, r: Request)
    requires Inv(cfg, s) && s.caller.CallerIdle? && MutexFree(s)
    ensures Inv(cfg, StopTail(cfg, s, r))
  {
    if r.recordingId == s.mem.ledger.recordingId && s.mem.state == Recording {
      BeginOk(cfg, s, Cause(Requested, Some(r.requestId), StopCanonical(cfg, r)), FromHttp);
    }
  }

  lemma CallStopOk(cfg: Config, s: System, r: Request, readOk: bool)
    requires Inv(cfg, s)
    ensures Inv(cfg, DoCallStop(cfg, s, r, readOk))
  {
    hide CurrentOk, RecordOk;
    var ledger, canonical, p := s.mem.ledger, StopCanonical(cfg, r), At(s, r.recordingId).place;
    if !s.caller.CallerIdle? || !MutexFree(s) || !ValidRequest(r) {
    } else if r.recordingId == ledger.recordingId && ledger.stop.Some? && r.requestId == ledger.stop.value.requestId {
      if canonical == ledger.stop.value.canonical && s.mem.state != Faulted {
        AnswerStopOk(cfg, s, r.recordingId, canonical);
      }
    } else {
      StopTailOk(cfg, s, r);
      match Find(p, readOk)
      case Unreadable =>
      case Missing =>
      case Found(finalized, _, stop) =>
        FindHolds(p, readOk);
        if stop.Some? && stop.value == canonical && finalized {
          if Busy(s.mem.state) {
            AnswerStopOk(cfg, s, r.recordingId, canonical);
          } else {
            RestoreFinalizedOk(cfg, s, r, canonical);
          }
        }
    }
  }

  lemma CallShutdownOk(cfg: Config, s: System)
    requires Inv(cfg, s)
    ensures Inv(cfg, DoCallShutdown(cfg, s))
  {
    hide RecordOk;
    var id := s.mem.ledger.recordingId;
    if s.caller.CallerIdle? && MutexFree(s) && s.mem.state == Recording {
      BeginOk(cfg, s, Cause(ApplicationShutdown, None, cfg.internalStopJson(id, ApplicationShutdown)), FromShutdown);
    }
  }
}
