/**
 Replay across restarts: exactly when a start or a stop that was answered is answered again after
 a crash, and what an evidence file beyond the read bound does to its recording.
 */
module RecordingRestart {
  import opened Wrappers
  import opened FrameIdentity
  import opened RecordingTypes
  import opened RecordingStore
  import opened RecordingLifecycle
  import opened RecordingInvariant
  import opened RecordingSafety
  import opened RecordingWorkerSafety
  import opened RecordingTheorems
  import opened RecordingTraces

  /** The stop evidence of a place, if there is any, can be read back. */
  predicate StopReadable(p: Place) {
    CurrentDirectory(p).stop.active.Some? ==> Readable(CurrentDirectory(p).stop.active.value)
  }

  /** A crash, and one call to the restarted process. */
  lemma RestartOnce(cfg: Config, run: seq<Event>, e: Event)
    ensures After(cfg, run + [Crash, e]) == Apply(cfg, InitialSystem.(archive := After(cfg, run).archive), e)
  {
    ExecAppend(cfg, InitialSystem, run, [Crash, e]);
    ExecTwo(cfg, After(cfg, run), Crash, e);
  }

  lemma RecordAfter(cfg: Config, run: seq<Event>, id: RecId)
    ensures RecordOk(cfg, id, At(After(cfg, run), id))
  {
    Reached(cfg, run, id);
  }

  // ----- starts -----

  /**
   Starts are idempotent across a crash at any point: when an identity was ever answered with some
   text, the first start after the restart is replayed if and only if its text is that one, the
   text is within the read bound, so is the stop evidence if there is any, and reading succeeds;
   the state is then FINALIZED or FAULTED as the disk says. Any other start is refused without any effect. In
   neither case does a recording start or the disk change.
   */
  lemma RestartReplaysTheSameStart(cfg: Config, run: seq<Event>, r: Request, readOk: bool, text: string)
    requires ValidRequest(r) && text in At(After(cfg, run), r.recordingId).log.startAnswers
    ensures var s := After(cfg, run + [Crash, CallStart(r, readOk)]);
            var rec, rec' := At(After(cfg, run), r.recordingId), At(s, r.recordingId);
            && rec'.place == rec.place && rec'.log.starts == rec.log.starts && s.worker.NoWorker?
            && (s.mem.ledger.recordingId == r.recordingId <==>
                  readOk && StartCanonical(cfg, r) == text && Readable(text) && StopReadable(rec.place))
            && (if s.mem.ledger.recordingId == r.recordingId
                then s.mem.state == (if rec.place.final.Some? then Finalized else Faulted)
                     && text in rec'.log.startAnswers
                else s.mem == InitialMemory && rec' == rec)
  {
    RecordAfter(cfg, run, r.recordingId);
    RestartOnce(cfg, run, CallStart(r, readOk));
    StartAgain(cfg, After(cfg, run), r, readOk, text);
  }

  lemma StartAgain(cfg: Config, s0: System, r: Request, readOk: bool, text: string)
    requires ValidRequest(r) && RecordOk(cfg, r.recordingId, At(s0, r.recordingId))
    requires text in At(s0, r.recordingId).log.startAnswers
    ensures var s := DoCallStart(cfg, InitialSystem.(archive := s0.archive), r, readOk);
            var rec, rec' := At(s0, r.recordingId), At(s, r.recordingId);
            && rec'.place == rec.place && rec'.log.starts == rec.log.starts && s.worker.NoWorker?
            && (s.mem.ledger.recordingId == r.recordingId <==>
                  readOk && StartCanonical(cfg, r) == text && Readable(text) && StopReadable(rec.place))
            && (if s.mem.ledger.recordingId == r.recordingId
                then s.mem.state == (if rec.place.final.Some? then Finalized else Faulted)
                     && text in rec'.log.startAnswers
                else s.mem == InitialMemory && rec' == rec)
  {
    hide FinalOk, LogOk;
    assert Holds(At(s0, r.recordingId).place, StartRequest, text);
    assert r.recordingId != NoId;
  }

  /**
   On an empty archive every valid start whose text exceeds the read bound is accepted when its
   I/O succeeds, and the same start is refused after a crash.
   */
  lemma LongStartIsNeverReplayed(cfg: Config, r: Request, clock: Clock)
    requires ValidRequest(r) && |StartCanonical(cfg, r)| > MAX_REQUEST_FILE_BYTES
    ensures var run := [CallStart(r, true)] + Calls(9, clock);
            && At(After(cfg, run), r.recordingId).log.starts == 1
            && StartCanonical(cfg, r) in At(After(cfg, run), r.recordingId).log.startAnswers
            && After(cfg, run + [Crash, CallStart(r, true)]).mem == InitialMemory
  {
    var run := [CallStart(r, true)] + Calls(9, clock);
    StartSucceeds(cfg, r, clock);
    RestartReplaysTheSameStart(cfg, run, r, true, StartCanonical(cfg, r));
    assert r.recordingId != NoId;
  }

  // ----- every HTTP stop read the start evidence -----

  /** The start evidence of a place is there and can be read back. */
  predicate StartReadable(p: Place) {
    || (p.staged.Some? && p.staged.value.start.active.Some? && Readable(p.staged.value.start.active.value))
    || (p.final.Some? && p.final.value.start.active.Some? && Readable(p.final.value.start.active.value))
  }

  lemma ReadableGrows(p: Place, p': Place)
    requires PlaceGrows(p, p') && StartReadable(p)
    ensures StartReadable(p')
  {
  }

  ghost predicate CauseRead(s: System, cause: Cause) {
    cause.requestId.Some? ==> StartReadable(At(s, s.mem.ledger.recordingId).place)
  }

  /** Whatever an HTTP stop left in memory, in a caller or in an answer, its start could be read. */
  ghost predicate StopsRead(s: System) {
    && (s.mem.ledger.stop.Some? ==> StartReadable(At(s, s.mem.ledger.recordingId).place))
    && (s.caller.WritingStop? ==>
          && CauseRead(s, s.caller.cause) && s.caller.job.id == s.mem.ledger.recordingId
          && (s.caller.origin == FromHttp ==> s.caller.cause.requestId.Some?))
    && (s.worker.WritingEvidence? ==> s.worker.cause.requestId.None?)
    && (forall id | id in s.archive && s.archive[id].log.stopAnswers != {} :: StartReadable(s.archive[id].place))
  }

  /** Steps that leave the ledger and the stops alone, or forget them. */
  ghost predicate StopsKept(s: System, s': System) {
    && (s'.mem.ledger.stop.None? || s'.mem.ledger == s.mem.ledger)
    && (s'.caller.WritingStop? ==>
          && s.caller.WritingStop? && s'.caller.cause == s.caller.cause && s'.caller.origin == s.caller.origin
          && s'.caller.job.id == s.caller.job.id && s'.mem.ledger == s.mem.ledger)
    && (s'.worker.WritingEvidence? ==> s'.worker == s.worker || s'.worker.cause.requestId.None?)
  }

  /** What no step does: take back a file, or add a stop answer to an identity. */
  ghost predicate RecordKept(r: Record, r': Record) {
    PlaceGrows(r.place, r'.place) && r'.log.stopAnswers == r.log.stopAnswers
  }

  lemma KeptIsRead(s: System, s': System)
    requires StopsRead(s) && StopsKept(s, s')
    requires forall id :: RecordKept(At(s, id), At(s', id))
    ensures StopsRead(s')
  {
    var ledger := s.mem.ledger.recordingId;
    assert RecordKept(At(s, ledger), At(s', ledger));
    if StartReadable(At(s, ledger).place) { ReadableGrows(At(s, ledger).place, At(s', ledger).place); }
    forall id | id in s'.archive && s'.archive[id].log.stopAnswers != {} ensures StartReadable(s'.archive[id].place) {
      assert RecordKept(At(s, id), At(s', id));
      ReadableGrows(At(s, id).place, At(s', id).place);
    }
  }

  /** `StopsKept`, and no new stop answer for this identity. */
  ghost predicate Keeps(s: System, s': System, id: RecId) {
    StopsKept(s, s') && At(s', id).log.stopAnswers == At(s, id).log.stopAnswers
  }

  lemma LoopKeeps(cfg: Config, s: System, f: Frame, index: nat, io: Io, timedOut: bool, id: RecId)
    ensures Keeps(s, DoWait(cfg, s, timedOut), id)
    ensures Keeps(s, DoEncode(s, f, io), id)
    ensures Keeps(s, DoAppend(s, f, index, io), id)
    ensures Keeps(s, DoCount(s, f), id)
  {
    hide FrameAccepted, SidecarAccepts;
  }

  lemma EvidenceKeeps(cfg: Config, s: System, io: Io, late: bool, id: RecId)
    requires StopsRead(s) && s.worker.WritingEvidence? && !s.caller.WritingStop?
    ensures Keeps(s, DoWriteEvidence(s, s.worker.job, s.worker.cause, io, late), id)
  {
    hide JobStep;
  }

  lemma ClosingKeeps(cfg: Config, s: System, stage: FinalizeStage, io: Io, late: bool, clock: Clock, id: RecId)
    ensures Keeps(s, DoClosing(cfg, s, stage, io, late, clock), id)
  {
    hide JobStep, ManifestAccepted, ManifestOf;
  }

  lemma EndKeeps(cfg: Config, s: System, io: Io, late: bool, timedOut: bool, clock: Clock, id: RecId)
    requires !InLoop(s.worker) || s.worker.Dequeued?
    requires !s.worker.Closing?
    ensures Keeps(s, DoWorkerStep(cfg, s, io, late, timedOut, clock), id)
  {
    hide DoWait, DoEncode, DoAppend, DoCount, DoWriteEvidence, DoClosing;
  }

  lemma EvidenceIsAlone(cfg: Config, s: System)
    requires Inv(cfg, s) && s.worker.WritingEvidence?
    ensures !s.caller.WritingStop?
  {
    hide RecordOk;
  }

  lemma WorkerKeeps(cfg: Config, s: System, io: Io, late: bool, timedOut: bool, clock: Clock, id: RecId)
    requires Inv(cfg, s) && StopsRead(s)
    ensures Keeps(s, DoWorkerStep(cfg, s, io, late, timedOut, clock), id)
  {
    hide Inv, StopsRead, Keeps, DoWait, DoEncode, DoAppend, DoCount, DoWriteEvidence, DoClosing;
    match s.worker
    case WritingEvidence(_, _) =>
      EvidenceIsAlone(cfg, s);
      EvidenceKeeps(cfg, s, io, late, id);
    case Closing(stage) => ClosingKeeps(cfg, s, stage, io, late, clock, id);
    case Encoding(f) => LoopKeeps(cfg, s, f, 0, io, timedOut, id);
    case Appending(f, index) => LoopKeeps(cfg, s, f, index, io, timedOut, id);
    case Counting(f) => LoopKeeps(cfg, s, f, 0, io, timedOut, id);
    case Waiting => LoopKeeps(cfg, s, AnyFrame, 0, io, timedOut, id);
    case _ => EndKeeps(cfg, s, io, late, timedOut, clock, id);
  }

  lemma JoinKeeps(cfg: Config, s: System, r: Request, readOk: bool, id: RecId)
    requires s.caller.Joining?
    ensures Keeps(s, AfterJoin(cfg, s.(worker := NoWorker), r, readOk), id)
  {
    hide Find;
  }

  lemma CallerKeeps(cfg: Config, s: System, io: Io, readOk: bool, late: bool, clock: Clock, id: RecId)
    requires !s.caller.WritingStop?
    ensures Keeps(s, DoCallerStep(cfg, s, io, readOk, late, clock), id)
  {
    hide JobStep, AfterJoin;
    if s.caller.Joining? { JoinKeeps(cfg, s, s.caller.request, readOk, id); }
  }

  lemma SubmitKeeps(cfg: Config, s: System, frame: Frame, contended: bool, id: RecId)
    ensures Keeps(s, DoSubmit(cfg, s, frame, contended), id)
  {
  }

  lemma StartCallKeeps(cfg: Config, s: System, r: Request, readOk: bool, id: RecId)
    ensures Keeps(s, DoCallStart(cfg, s, r, readOk), id)
  {
    hide Find, ValidRequest;
  }

  lemma CallKeeps(cfg: Config, s: System, e: Event, id: RecId)
    requires e.Submit? || e.CallStart? || e.Crash?
    ensures Keeps(s, Apply(cfg, s, e), id)
  {
    hide DoSubmit, DoCallStart;
    match e
    case Submit(frame, contended) => SubmitKeeps(cfg, s, frame, contended, id);
    case CallStart(r, readOk) => StartCallKeeps(cfg, s, r, readOk, id);
    case Crash =>
  }

  lemma ShutdownReads(cfg: Config, s: System)
    requires Inv(cfg, s) && StopsRead(s)
    ensures StopsRead(DoCallShutdown(cfg, s))
  {
    hide RecordOk;
  }

  lemma StopAnsweredReads(s: System, job: WriteJob, cause: Cause, origin: StopOrigin)
    requires StopsRead(s) && s.caller == WritingStop(job, cause, origin)
    ensures StopsRead(StopAccepted(s, job, cause, origin))
  {
    hide StartReadable;
    assert At(StopAccepted(s, job, cause, origin), job.id).place == At(s, job.id).place;
  }

  lemma StopGoesOnKeeps(cfg: Config, s: System, job: WriteJob, cause: Cause, origin: StopOrigin, io: Io, late: bool, id: RecId)
    requires Inv(cfg, s) && s.caller == WritingStop(job, cause, origin)
    requires late || !JobStep(At(s, job.id).place, job, io).Completed?
    ensures var s' := DoWriteStop(s, job, cause, origin, io, late);
            Keeps(s, s', id) && RecordKept(At(s, id), At(s', id))
  {
    hide Inv;
    JobAdvances(cfg, s, job, io);
    JobKeepsItsFile(At(s, job.id).place, job, io);
    hide JobStep, PlaceGrows;
    PlaceGrowsReflexive(At(s, id).place);
  }

  lemma JobKeepsItsFile(p: Place, job: WriteJob, io: Io)
    ensures JobStep(p, job, io).Running? ==> JobStep(p, job, io).job.id == job.id
  {
  }

  /** A stop being written: it goes on, fails, or is answered. */
  lemma StopWrittenReads(cfg: Config, s: System, job: WriteJob, cause: Cause, origin: StopOrigin, io: Io, late: bool)
    requires Inv(cfg, s) && StopsRead(s) && s.caller == WritingStop(job, cause, origin)
    ensures StopsRead(DoWriteStop(s, job, cause, origin, io, late))
  {
    var s' := DoWriteStop(s, job, cause, origin, io, late);
    if JobStep(At(s, job.id).place, job, io).Completed? && !late {
      StopAnsweredReads(s, job, cause, origin);
    } else {
      hide Inv, StopsRead, DoWriteStop, JobStep, RecordKept;
      forall id ensures RecordKept(At(s, id), At(s', id)) && Keeps(s, s', id) {
        StopGoesOnKeeps(cfg, s, job, cause, origin, io, late, id);
      }
      assert RecordKept(At(s, NoId), At(s', NoId));
      KeptIsRead(s, s');
    }
  }

  /** A recording is staged, so its start evidence is either read or refused, never missing. */
  lemma RecordingIsFound(cfg: Config, s: System, readOk: bool)
    requires Inv(cfg, s) && s.mem.state == Recording
    ensures !Find(At(s, s.mem.ledger.recordingId).place, readOk).Missing?
  {
    hide RecordOk;
  }

  lemma FoundIsReadable(p: Place, readOk: bool)
    requires Find(p, readOk).Found?
    ensures StartReadable(p)
  {
  }

  lemma StopCallReads(cfg: Config, s: System, r: Request, readOk: bool)
    requires Inv(cfg, s) && StopsRead(s)
    ensures StopsRead(DoCallStop(cfg, s, r, readOk))
  {
    hide Find, Inv, StartReadable, ValidRequest;
    var p := At(s, r.recordingId).place;
    if s.mem.state == Recording {
      RecordingIsFound(cfg, s, readOk);
      RecordingIsCurrent(cfg, s);
    }
    match Find(p, readOk)
    case Unreadable =>
    case Missing =>
    case Found(_, _, _) => FoundIsReadable(p, readOk);
  }

  lemma RecordingIsCurrent(cfg: Config, s: System)
    requires Inv(cfg, s) && s.mem.state == Recording
    ensures s.mem.artifact == Some(s.mem.ledger.recordingId)
  {
    hide RecordOk;
  }

  lemma StepReads(cfg: Config, s: System, e: Event)
    requires Inv(cfg, s) && StopsRead(s)
    ensures StopsRead(Apply(cfg, s, e))
  {
    hide Inv, StopsRead, DoCallStop, DoCallShutdown, DoWriteStop, DoWorkerStep;
    if e.CallStop? {
      StopCallReads(cfg, s, e.request, e.readOk);
    } else if e.CallShutdown? {
      ShutdownReads(cfg, s);
    } else if e.CallerStep? && s.caller.WritingStop? {
      StopWrittenReads(cfg, s, s.caller.job, s.caller.cause, s.caller.origin, e.io, e.late);
    } else {
      QuietReads(cfg, s, e);
    }
  }

  lemma QuietReads(cfg: Config, s: System, e: Event)
    requires Inv(cfg, s) && StopsRead(s)
    requires !e.CallStop? && !e.CallShutdown? && !(e.CallerStep? && s.caller.WritingStop?)
    ensures StopsRead(Apply(cfg, s, e))
  {
    hide Inv, StopsRead, StopsKept, DoCallerStep, DoWorkerStep, DoSubmit, DoCallStart, PlaceGrows;
    var s' := Apply(cfg, s, e);
    forall id ensures RecordKept(At(s, id), At(s', id)) && StopsKept(s, s') {
      match e {
        case CallerStep(io, readOk, late, clock) =>
          CallerKeeps(cfg, s, io, readOk, late, clock, id);
          CallerAdvances(cfg, s, io, readOk, late, clock, id);
        case WorkerStep(io, late, timedOut, clock) =>
          WorkerKeeps(cfg, s, io, late, timedOut, clock, id);
          WorkerAdvances(cfg, s, io, late, timedOut, clock, id);
        case _ =>
          CallKeeps(cfg, s, e, id);
          CallAdvances(cfg, s, e, id);
      }
    }
    assert RecordKept(At(s, NoId), At(s', NoId));
    KeptIsRead(s, s');
  }

  lemma {:induction false} RunReads(cfg: Config, s: System, run: seq<Event>)
    requires Inv(cfg, s) && StopsRead(s)
    ensures StopsRead(Exec(cfg, s, run))
    decreases |run|
  {
    hide Inv, StopsRead;
    if run != [] {
      StepReads(cfg, s, run[0]);
      StepOk(cfg, s, run[0]);
      RunReads(cfg, Apply(cfg, s, run[0]), run[1..]);
    }
  }

  lemma ReachedReads(cfg: Config, run: seq<Event>)
    ensures StopsRead(After(cfg, run))
  {
    InitialOk(cfg);
    RunReads(cfg, InitialSystem, run);
  }

  // ----- stops -----

  /** The start evidence of a recording was read before any HTTP stop of it was answered. */
  lemma StopAnswersNeedAReadableStart(cfg: Config, run: seq<Event>, id: RecId)
    requires At(After(cfg, run), id).log.stopAnswers != {}
    ensures StartReadable(At(After(cfg, run), id).place)
  {
    ReachedReads(cfg, run);
  }

  /**
   In every run, a recording whose start evidence exceeds the read bound refuses every HTTP stop:
   the call has no effect, whatever its request.
   */
  lemma LongStartRefusesEveryStop(cfg: Config, run: seq<Event>, r: Request, readOk: bool, text: string)
    requires Holds(At(After(cfg, run), r.recordingId).place, StartRequest, text) && |text| > MAX_REQUEST_FILE_BYTES
    ensures After(cfg, run + [CallStop(r, readOk)]) == After(cfg, run)
  {
    ReachedReads(cfg, run);
    RecordAfter(cfg, run, r.recordingId);
    ExecAppend(cfg, InitialSystem, run, [CallStop(r, readOk)]);
    ExecOne(cfg, After(cfg, run), CallStop(r, readOk));
    LongStartFacts(At(After(cfg, run), r.recordingId).place, text, readOk);
    hide Find, StartReadable, RecordOk, Holds, Exec, After;
  }

  lemma LongStartFacts(p: Place, text: string, readOk: bool)
    requires PlaceOk(p) && Holds(p, StartRequest, text) && |text| > MAX_REQUEST_FILE_BYTES
    ensures Find(p, readOk).Unreadable? && !StartReadable(p)
  {
  }

  /**
   The counterpart for stops: when an HTTP stop of an identity was ever answered with some text,
   the first stop after a restart is replayed if and only if its text is that one, it is within
   the read bound, the recording is finalized on disk, and reading succeeds; any other stop is refused without any
   effect.
   */
  lemma RestartReplaysTheSameStop(cfg: Config, run: seq<Event>, r: Request, readOk: bool, text: string)
    requires ValidRequest(r) && text in At(After(cfg, run), r.recordingId).log.stopAnswers
    ensures var s := After(cfg, run + [Crash, CallStop(r, readOk)]);
            var rec, rec' := At(After(cfg, run), r.recordingId), At(s, r.recordingId);
            && rec'.place == rec.place && s.worker.NoWorker?
            && (s.mem.ledger.recordingId == r.recordingId <==>
                  readOk && StopCanonical(cfg, r) == text && Readable(text) && rec.place.final.Some?)
            && (if s.mem.ledger.recordingId == r.recordingId
                then s.mem.state == Finalized && text in rec'.log.stopAnswers
                     && s.mem.ledger.stop == Some(Ticket(r.requestId, text)) && s.mem.stopReason == Requested
                else s.mem == InitialMemory && rec' == rec)
  {
    RecordAfter(cfg, run, r.recordingId);
    StopAnswersNeedAReadableStart(cfg, run, r.recordingId);
    RestartOnce(cfg, run, CallStop(r, readOk));
    StopAgain(cfg, After(cfg, run), r, readOk, text);
  }

  lemma StopAgain(cfg: Config, s0: System, r: Request, readOk: bool, text: string)
    requires ValidRequest(r) && RecordOk(cfg, r.recordingId, At(s0, r.recordingId))
    requires text in At(s0, r.recordingId).log.stopAnswers && StartReadable(At(s0, r.recordingId).place)
    ensures var s := DoCallStop(cfg, InitialSystem.(archive := s0.archive), r, readOk);
            var rec, rec' := At(s0, r.recordingId), At(s, r.recordingId);
            && rec'.place == rec.place && s.worker.NoWorker?
            && (s.mem.ledger.recordingId == r.recordingId <==>
                  readOk && StopCanonical(cfg, r) == text && Readable(text) && rec.place.final.Some?)
            && (if s.mem.ledger.recordingId == r.recordingId
                then s.mem.state == Finalized && text in rec'.log.stopAnswers
                     && s.mem.ledger.stop == Some(Ticket(r.requestId, text)) && s.mem.stopReason == Requested
                else s.mem == InitialMemory && rec' == rec)
  {
    hide FinalOk, LogOk;
    assert Holds(At(s0, r.recordingId).place, StopRequest, text);
    assert r.recordingId != NoId;
  }
}
