/**
 What the recording manager promises over all runs: every interleaving of submits, starts,
 stops, timeouts, worker steps and I/O results, with crashes and restarts anywhere.
 */
module RecordingTheorems {
  import opened Wrappers
  import opened FrameIdentity
  import opened RecordingTypes
  import opened RecordingStore
  import opened RecordingLifecycle
  import opened RecordingInvariant
  import opened RecordingSafety
  import opened RecordingWorkerSafety

  /** The state after a run from an empty archive. */
  function After(cfg: Config, run: seq<Event>): System {
    Exec(cfg, InitialSystem, run)
  }

  lemma Reached(cfg: Config, run: seq<Event>, id: RecId)
    ensures Inv(cfg, After(cfg, run)) && RecordOk(cfg, id, At(After(cfg, run), id))
  {
    InitialOk(cfg);
    RunOk(cfg, InitialSystem, run);
    AtOk(cfg, After(cfg, run), id);
  }

  lemma {:induction false} ExecAppend(cfg: Config, s: System, run: seq<Event>, more: seq<Event>)
    ensures Exec(cfg, s, run + more) == Exec(cfg, Exec(cfg, s, run), more)
    decreases |run|
  {
    if run == [] {
      assert run + more == more;
    } else {
      assert (run + more)[0] == run[0] && (run + more)[1..] == run[1..] + more;
      ExecAppend(cfg, Apply(cfg, s, run[0]), run[1..], more);
    }
  }

  // ----- finalized artifacts -----

  /**
   A finalized directory holds start evidence, a closed video and a closed sidecar with exactly
   the admitted frames in admission order, at indices and PTS 0, 1, 2, ..., with strictly
   increasing identities of one generation; its manifest counts them, accounts for every frame
   that was offered, and carries the digests of those two files. No hypothesis is needed.
   */
  lemma FinalizedIsExactlyTheAdmittedFrames(cfg: Config, run: seq<Event>, id: RecId)
    requires At(After(cfg, run), id).place.final.Some?
    ensures var log, dir := At(After(cfg, run), id).log, At(After(cfg, run), id).place.final.value;
            && dir.start.active.Some?
            && dir.video == ClosedFile(log.admitted)
            && dir.sidecar.ClosedFile? && |dir.sidecar.contents| == |log.admitted|
            && (forall i | 0 <= i < |log.admitted| ::
                  dir.sidecar.contents[i] == Entry(i, i, log.admitted[i].identity))
            && (forall i, j | 0 <= i < j < |log.admitted| ::
                  && log.admitted[i].identity.generation == log.admitted[j].identity.generation
                  && log.admitted[i].identity.number < log.admitted[j].identity.number)
    ensures var log, dir := At(After(cfg, run), id).log, At(After(cfg, run), id).place.final.value;
            && log.manifest.Some? && dir.manifest.active == Some(cfg.manifestJson(log.manifest.value))
            && var m := log.manifest.value;
               && m.recordingId == id
               && m.admitted == m.submitted == |log.admitted| && m.admitted + m.drops == log.offered
               && m.hasFrames == (log.admitted != [])
               && (m.hasFrames ==>
                     && m.first == log.admitted[0].identity
                     && m.last == log.admitted[|log.admitted| - 1].identity)
               && m.digests == Digests(cfg.videoDigest(dir.video.contents), cfg.sidecarDigest(dir.sidecar.contents))
  {
    Reached(cfg, run, id);
    var log := At(After(cfg, run), id).log;
    forall i, j | 0 <= i < j < |log.admitted|
      ensures log.admitted[i].identity.generation == log.admitted[j].identity.generation
      ensures log.admitted[i].identity.number < log.admitted[j].identity.number
    {
      assert StrictlyAfter(IdentitiesOf(log.admitted)[j], IdentitiesOf(log.admitted)[i]);
    }
  }

  /** `e_FINALIZED` in the manager's status names a recording that is finalized on disk. */
  lemma FinalizedStateIsOnDisk(cfg: Config, run: seq<Event>)
    requires After(cfg, run).mem.state == Finalized
    ensures At(After(cfg, run), After(cfg, run).mem.ledger.recordingId).place.final.Some?
  {
    Reached(cfg, run, NoId);
  }

  /** The manifest names the reason and the request of the stop that won. */
  ghost predicate ManifestNames(m: Manifest, cause: Cause) {
    m.stopReason == cause.reason && m.stopRequestId == cause.requestId
  }

  /**
   Stop evidence is attempted at most once per recording, whichever cause wins. In a finalized one
   - the stop file holds the text of that cause if and only if the attempt did not fail before its
     rename, and is absent otherwise;
   - the manifest names the cause if and only if the attempt did not fail at all, neither before
     the rename nor after it by the directory sync or the deadline, or the cause was the shutdown;
     after any failure it says "application shutdown, no request";
   - so a text on disk and the manifest contradict each other if and only if the attempt of another
     cause failed after its rename.
   */
  lemma StopEvidenceOnce(cfg: Config, run: seq<Event>, id: RecId)
    ensures var rec := At(After(cfg, run), id);
            && rec.log.stops <= rec.log.starts <= 1
            && (rec.log.lost ==> rec.log.failed)
            && (rec.place.final.Some? ==>
                  && rec.log.stops == 1 && rec.log.manifest.Some?
                  && var m, cause, text := rec.log.manifest.value, rec.log.cause, rec.place.final.value.stop.active;
                  && (m.stopRequestId.Some? <==> m.stopReason == Requested)
                  && (text == Some(cause.bytes) <==> !rec.log.lost) && (text.None? <==> rec.log.lost)
                  && (ManifestNames(m, cause) <==> !rec.log.failed || cause.reason == ApplicationShutdown)
                  && (rec.log.failed ==> m.stopReason == ApplicationShutdown && m.stopRequestId == None)
                  && (text.Some? && !ManifestNames(m, cause) <==>
                        rec.log.failed && !rec.log.lost && cause.reason != ApplicationShutdown))
  {
    Reached(cfg, run, id);
  }

  // ----- the disk at any crash point -----

  /**
   At every moment, so at every crash point: no identity is both staged and finalized, every
   evidence file was opened at most once and is absent or holds its complete text, and what a
   temporary holds is a prefix of it.
   */
  lemma DiskIsConsistent(cfg: Config, run: seq<Event>, id: RecId, kind: FileKind)
    ensures var p := At(After(cfg, run), id).place;
            && !(p.staged.Some? && p.final.Some?)
            && (forall dir | p.staged == Some(dir) || p.final == Some(dir) ::
                  && dir.Get(kind).opens <= 1
                  && (dir.Get(kind).active.Some? ==>
                        dir.Get(kind).active.value == dir.Get(kind).target && dir.Get(kind).temp.None?)
                  && (dir.Get(kind).temp.Some? ==> dir.Get(kind).temp.value <= dir.Get(kind).target))
  {
    Reached(cfg, run, id);
  }

  // ----- what one step may change -----

  ghost predicate Advances(r: Record, r': Record) {
    && PlaceGrows(r.place, r'.place)
    && r.log.starts <= r'.log.starts
    && r.log.startAnswers <= r'.log.startAnswers
    && r.log.stopAnswers <= r'.log.stopAnswers
  }

  lemma JobIsOk(cfg: Config, s: System, job: WriteJob)
    requires Inv(cfg, s)
    requires || (s.caller.WritingStart? && s.caller.job == job)
             || (s.caller.WritingStop? && s.caller.job == job)
             || (s.worker.WritingEvidence? && s.worker.job == job)
             || (s.worker.Closing? && s.worker.stage.WritingManifest? && s.worker.stage.job == job)
    ensures PlaceOk(At(s, job.id).place) && JobOk(At(s, job.id).place, job)
  {
    hide QueueOk, StageOk;
    AtOk(cfg, s, job.id);
  }

  lemma JobAdvances(cfg: Config, s: System, job: WriteJob, io: Io)
    requires Inv(cfg, s)
    requires || (s.caller.WritingStart? && s.caller.job == job)
             || (s.caller.WritingStop? && s.caller.job == job)
             || (s.worker.WritingEvidence? && s.worker.job == job)
             || (s.worker.Closing? && s.worker.stage.WritingManifest? && s.worker.stage.job == job)
    ensures JobStep(At(s, job.id).place, job, io).Running? ==>
              PlaceGrows(At(s, job.id).place, JobStep(At(s, job.id).place, job, io).place)
  {
    hide Inv;
    JobIsOk(cfg, s, job);
    JobStepOk(At(s, job.id).place, job, io);
  }

  lemma CallAdvances(cfg: Config, s: System, e: Event, id: RecId)
    requires Inv(cfg, s) && (e.Submit? || e.CallStart? || e.CallStop? || e.CallShutdown? || e.Crash?)
    ensures Advances(At(s, id), At(Apply(cfg, s, e), id))
  {
    hide Inv, Advances, DoSubmit, DoCallStart, DoCallStop, DoCallShutdown, DoCallerStep, DoWorkerStep;
    AdvancesReflexive(At(s, id));
    match e
    case Submit(frame, contended) => SubmitAdvances(cfg, s, frame, contended, id);
    case CallStart(r, readOk) => CallStartAdvances(cfg, s, r, readOk, id);
    case CallStop(r, readOk) => CallStopAdvances(cfg, s, r, readOk, id);
    case CallShutdown => ShutdownAdvances(cfg, s, id);
    case Crash =>
  }

  lemma SubmitAdvances(cfg: Config, s: System, frame: Frame, contended: bool, id: RecId)
    ensures Advances(At(s, id), At(DoSubmit(cfg, s, frame, contended), id))
  {
  }

  lemma CallStartAdvances(cfg: Config, s: System, r: Request, readOk: bool, id: RecId)
    ensures Advances(At(s, id), At(DoCallStart(cfg, s, r, readOk), id))
  {
  }

  lemma CallStopAdvances(cfg: Config, s: System, r: Request, readOk: bool, id: RecId)
    ensures Advances(At(s, id), At(DoCallStop(cfg, s, r, readOk), id))
  {
    hide Find, ValidRequest, PlaceGrows;
    PlaceGrowsReflexive(At(s, id).place);
    match Find(At(s, r.recordingId).place, readOk)
    case Unreadable =>
    case Missing =>
    case Found(_, _, stop) => if stop.None? {} else {}
  }

  lemma ShutdownAdvances(cfg: Config, s: System, id: RecId)
    ensures Advances(At(s, id), At(DoCallShutdown(cfg, s), id))
  {
  }

  lemma JoinAdvances(cfg: Config, s: System, r: Request, readOk: bool, id: RecId)
    ensures Advances(At(s, id), At(AfterJoin(cfg, s, r, readOk), id))
  {
  }

  lemma StartAdvances(cfg: Config, s: System, r: Request, io: Io, clock: Clock, id: RecId)
    ensures Advances(At(s, id), At(DoCreateStaging(cfg, s, r, io), id))
    ensures Advances(At(s, id), At(DoOpenVideo(s, r, io), id))
    ensures Advances(At(s, id), At(DoOpenSidecar(s, r, io), id))
    ensures Advances(At(s, id), At(DoCommit(cfg, s, r, !io.Fail?, clock), id))
  {
  }

  lemma WriteAdvances(s: System, r: Request, job: WriteJob, cause: Cause, origin: StopOrigin, m: Manifest,
                      io: Io, late: bool, id: RecId)
    requires JobStep(At(s, job.id).place, job, io).Running? ==>
               PlaceGrows(At(s, job.id).place, JobStep(At(s, job.id).place, job, io).place)
    ensures Advances(At(s, id), At(DoWriteStart(s, r, job, io), id))
    ensures Advances(At(s, id), At(DoWriteStop(s, job, cause, origin, io, late), id))
    ensures Advances(At(s, id), At(DoWriteEvidence(s, job, cause, io, late), id))
    ensures Advances(At(s, id), At(DoWriteManifest(s, m, job, io), id))
  {
    hide PlaceGrows;
    PlaceGrowsReflexive(At(s, id).place);
  }

  lemma PlaceGrowsReflexive(p: Place)
    ensures PlaceGrows(p, p)
  {
  }

  lemma CallerAdvances(cfg: Config, s: System, io: Io, readOk: bool, late: bool, clock: Clock, id: RecId)
    requires Inv(cfg, s)
    ensures Advances(At(s, id), At(DoCallerStep(cfg, s, io, readOk, late, clock), id))
  {
    hide Inv, Advances, AfterJoin, DoCreateStaging, DoWriteStart, DoOpenVideo, DoOpenSidecar, DoCommit, DoWriteStop;
    AdvancesReflexive(At(s, id));
    match s.caller
    case Joining(r) => JoinAdvances(cfg, s.(worker := NoWorker), r, readOk, id);
    case WritingStart(r, job) =>
      JobAdvances(cfg, s, job, io);
      WriteAdvances(s, r, job, NoChronicle.cause, FromHttp, AnyManifest, io, late, id);
    case WritingStop(job, cause, origin) =>
      JobAdvances(cfg, s, job, io);
      WriteAdvances(s, Request("", NoId, ""), job, cause, origin, AnyManifest, io, late, id);
    case CreatingStaging(r) => StartAdvances(cfg, s, r, io, clock, id);
    case OpeningVideo(r) => StartAdvances(cfg, s, r, io, clock, id);
    case OpeningSidecar(r) => StartAdvances(cfg, s, r, io, clock, id);
    case Committing(r) => StartAdvances(cfg, s, r, io, clock, id);
    case _ =>
  }

  const AnyManifest := ManifestOf(InitialMemory, NoClock, Digests("", ""))

  lemma AdvancesReflexive(r: Record)
    ensures Advances(r, r)
  {
  }

  lemma ClosingAdvances(cfg: Config, s: System, stage: FinalizeStage, io: Io, late: bool, clock: Clock, id: RecId)
    requires !stage.WritingManifest?
    ensures Advances(At(s, id), At(DoClosing(cfg, s, stage, io, late, clock), id))
  {
  }

  lemma LoopAdvances(cfg: Config, s: System, f: Frame, index: nat, io: Io, timedOut: bool, id: RecId)
    ensures Advances(At(s, id), At(DoWait(cfg, s, timedOut), id))
    ensures Advances(At(s, id), At(DoEncode(s, f, io), id))
    ensures Advances(At(s, id), At(DoAppend(s, f, index, io), id))
    ensures Advances(At(s, id), At(DoCount(s, f), id))
  {
    hide FrameAccepted, SidecarAccepts, PlaceGrows;
    PlaceGrowsReflexive(At(s, id).place);
  }

  lemma WorkerAdvances(cfg: Config, s: System, io: Io, late: bool, timedOut: bool, clock: Clock, id: RecId)
    requires Inv(cfg, s)
    ensures Advances(At(s, id), At(DoWorkerStep(cfg, s, io, late, timedOut, clock), id))
  {
    hide Inv, Advances, DoWait, DoEncode, DoAppend, DoCount, DoWriteEvidence, DoWriteManifest;
    AdvancesReflexive(At(s, id));
    match s.worker
    case WritingEvidence(job, cause) =>
      JobAdvances(cfg, s, job, io);
      WriteAdvances(s, Request("", NoId, ""), job, cause, FromHttp, AnyManifest, io, late, id);
    case Closing(stage) =>
      if stage.WritingManifest? {
        JobAdvances(cfg, s, stage.job, io);
        WriteAdvances(s, Request("", NoId, ""), stage.job, NoChronicle.cause, FromHttp, stage.manifest, io, late, id);
      } else {
        ClosingAdvances(cfg, s, stage, io, late, clock, id);
      }
    case Waiting => LoopAdvances(cfg, s, AnyFrame, 0, io, timedOut, id);
    case Encoding(f) => LoopAdvances(cfg, s, f, 0, io, timedOut, id);
    case Appending(f, index) => LoopAdvances(cfg, s, f, index, io, timedOut, id);
    case Counting(f) => LoopAdvances(cfg, s, f, 0, io, timedOut, id);
    case _ =>
  }

  const AnyFrame := Frame(Identity(0, 0, 0, 0), None)

  lemma {:induction false} RunAdvances(cfg: Config, s: System, run: seq<Event>, id: RecId)
    requires Inv(cfg, s)
    ensures Advances(At(s, id), At(Exec(cfg, s, run), id))
    decreases |run|
  {
    hide Inv;
    if run != [] {
      var e := run[0];
      var s1 := Apply(cfg, s, e);
      match e {
        case CallerStep(io, readOk, late, clock) => CallerAdvances(cfg, s, io, readOk, late, clock, id);
        case WorkerStep(io, late, timedOut, clock) => WorkerAdvances(cfg, s, io, late, timedOut, clock, id);
        case _ => CallAdvances(cfg, s, e, id);
      }
      StepOk(cfg, s, e);
      RunAdvances(cfg, s1, run[1..], id);
      PlaceIsOk(cfg, s1, id);
      PlaceGrowsTransitive(At(s, id).place, At(s1, id).place, At(Exec(cfg, s1, run[1..]), id).place);
    }
  }

  lemma PlaceIsOk(cfg: Config, s: System, id: RecId)
    requires Inv(cfg, s)
    ensures PlaceOk(At(s, id).place)
  {
    AtOk(cfg, s, id);
  }

  /** A finalized directory never changes again, through crashes and restarts included. */
  lemma FinalizedNeverChanges(cfg: Config, run: seq<Event>, more: seq<Event>, id: RecId)
    requires At(After(cfg, run), id).place.final.Some?
    ensures At(After(cfg, run + more), id).place.final == At(After(cfg, run), id).place.final
  {
    Reached(cfg, run, id);
    ExecAppend(cfg, InitialSystem, run, more);
    RunAdvances(cfg, After(cfg, run), more, id);
  }

  // ----- answers across restarts -----

  /** Across all crashes and restarts an identity is answered `e_STARTED` at most once. */
  lemma StartedAtMostOnce(cfg: Config, run: seq<Event>, id: RecId)
    ensures At(After(cfg, run), id).log.starts <= 1
  {
    Reached(cfg, run, id);
  }

  /**
   Whoever was ever answered with success, new or replayed, finds the canonical text of that
   request as the evidence of that recording, then and at every later moment.
   */
  lemma AnswersHaveEvidence(cfg: Config, run: seq<Event>, more: seq<Event>, id: RecId, text: string)
    ensures text in At(After(cfg, run), id).log.startAnswers ==>
              Holds(At(After(cfg, run + more), id).place, StartRequest, text)
    ensures text in At(After(cfg, run), id).log.stopAnswers ==>
              Holds(At(After(cfg, run + more), id).place, StopRequest, text)
  {
    Reached(cfg, run, id);
    Reached(cfg, run + more, id);
    ExecAppend(cfg, InitialSystem, run, more);
    RunAdvances(cfg, After(cfg, run), more, id);
  }

  // ----- control -----

  /**
   Admission is open exactly in state RECORDING, no stop is requested there, and the worker never
   takes a frame from an empty ring.
   */
  lemma AdmissionAndRing(cfg: Config, run: seq<Event>)
    ensures var s := After(cfg, run);
            && (s.mem.admitting <==> s.mem.state == Recording)
            && (s.mem.state == Recording ==> !s.mem.stopRequested)
            && !s.worker.Underflowed?
  {
    Reached(cfg, run, NoId);
  }

  /**
   Conservation while recording or finalizing, and after a fault for as long as the worker goes on
   with its recording: admitted frames are submitted, queued, or the one in flight; offered frames
   are admitted or dropped.
   */
  lemma FramesAreConserved(cfg: Config, run: seq<Event>)
    requires var s := After(cfg, run); Busy(s.mem.state) || Live(s.mem, s.worker, s.media.id)
    ensures var s := After(cfg, run);
            var flow, log := s.mem.flow, At(s, s.mem.ledger.recordingId).log;
            && |InFlight(s.worker)| <= 1
            && flow.admitted == flow.submitted + |flow.queue| + |InFlight(s.worker)|
            && flow.admitted == |log.admitted|
            && log.offered == flow.admitted + flow.fullDrops + flow.contentionDrops
            && |flow.queue| <= cfg.capacity
  {
    hide RecordOk, MemoryOk, StartOk, ArtifactOk, StopOk, QueueOk, StageOk;
    Reached(cfg, run, NoId);
  }

  /** What the worker has encoded and what it has written to the sidecar, whatever memory says. */
  ghost predicate MediaOk(w: Worker, media: Media) {
    match w
    case Waiting => media.lines == LinesOf(media.video)
    case WritingEvidence(_, _) => media.lines == LinesOf(media.video)
    case Dequeued(_) => media.lines == LinesOf(media.video)
    case Encoding(_) => media.lines == LinesOf(media.video)
    case Appending(f, index) =>
      && media.video != [] && media.video[|media.video| - 1] == f && index == |media.video| - 1
      && media.lines == LinesOf(media.video[..|media.video| - 1])
    case Counting(_) => media.lines == LinesOf(media.video)
    case _ => true
  }

  lemma LoopKeepsMedia(cfg: Config, s: System, io: Io, late: bool, timedOut: bool, clock: Clock)
    requires MediaOk(s.worker, s.media) && InLoop(s.worker)
    ensures var s' := DoWorkerStep(cfg, s, io, late, timedOut, clock); MediaOk(s'.worker, s'.media)
  {
    match s.worker
    case Encoding(f) => EncodeKeepsMedia(s, f, io);
    case Appending(f, index) => AppendKeepsMedia(s, f, index, io);
    case _ =>
      hide DoWorkerStep, LinesOf;
      QuietLoop(cfg, s, io, late, timedOut, clock);
      var s' := DoWorkerStep(cfg, s, io, late, timedOut, clock);
      if !InLoop(s'.worker) { OutOfLoop(s'.worker, s'.media); }
  }

  lemma EncodeKeepsMedia(s: System, f: Frame, io: Io)
    requires MediaOk(s.worker, s.media) && s.worker == Encoding(f)
    ensures MediaOk(DoEncode(s, f, io).worker, DoEncode(s, f, io).media)
  {
    hide FrameAccepted, LinesOf;
    var video := s.media.video + [f];
    assert video[..|video| - 1] == s.media.video;
  }

  lemma AppendKeepsMedia(s: System, f: Frame, index: nat, io: Io)
    requires MediaOk(s.worker, s.media) && s.worker == Appending(f, index)
    ensures MediaOk(DoAppend(s, f, index, io).worker, DoAppend(s, f, index, io).media)
  {
    hide SidecarAccepts, LinesOf;
    var before := s.media.video[..|s.media.video| - 1];
    assert s.media.video == before + [f];
    LinesAppend(before, f);
  }

  /** Only encoding and appending touch what was encoded and written. */
  lemma QuietLoop(cfg: Config, s: System, io: Io, late: bool, timedOut: bool, clock: Clock)
    requires InLoop(s.worker) && !s.worker.Encoding? && !s.worker.Appending?
    ensures var s' := DoWorkerStep(cfg, s, io, late, timedOut, clock);
            s'.media == s.media && !s'.worker.Appending?
  {
    hide JobStep;
    match s.worker
    case WritingEvidence(job, _) =>
      if JobStep(At(s, job.id).place, job, io).Running? {} else {}
    case Waiting =>
    case Dequeued(_) =>
    case Counting(_) =>
  }

  lemma EndKeepsMedia(cfg: Config, s: System, io: Io, late: bool, timedOut: bool, clock: Clock)
    requires !InLoop(s.worker)
    ensures !InLoop(DoWorkerStep(cfg, s, io, late, timedOut, clock).worker)
  {
    hide JobStep, ManifestAccepted, ManifestOf, DoWait, DoEncode, DoAppend, DoCount, DoWriteEvidence;
  }

  lemma CallerKeepsMedia(cfg: Config, s: System, io: Io, readOk: bool, late: bool, clock: Clock)
    requires MediaOk(s.worker, s.media)
    ensures var s' := DoCallerStep(cfg, s, io, readOk, late, clock); MediaOk(s'.worker, s'.media)
  {
    hide JobStep, Find;
    assert LinesOf([]) == [];
  }

  lemma CallKeepsMedia(cfg: Config, s: System, e: Event)
    requires !e.CallerStep? && !e.WorkerStep?
    ensures var s' := Apply(cfg, s, e); s'.worker.NoWorker? || (s'.worker == s.worker && s'.media == s.media)
  {
    hide Find, ValidRequest;
  }

  lemma {:induction false} MediaIsOk(cfg: Config, s: System, run: seq<Event>)
    requires MediaOk(s.worker, s.media)
    ensures MediaOk(Exec(cfg, s, run).worker, Exec(cfg, s, run).media)
    decreases |run|
  {
    if run != [] {
      hide MediaOk, DoCallerStep, DoWorkerStep, DoSubmit, DoCallStart, DoCallStop, DoCallShutdown;
      var s' := Apply(cfg, s, run[0]);
      match run[0] {
        case CallerStep(io, readOk, late, clock) => CallerKeepsMedia(cfg, s, io, readOk, late, clock);
        case WorkerStep(io, late, timedOut, clock) =>
          if InLoop(s.worker) {
            LoopKeepsMedia(cfg, s, io, late, timedOut, clock);
          } else {
            EndKeepsMedia(cfg, s, io, late, timedOut, clock);
            OutOfLoop(s'.worker, s'.media);
          }
        case _ =>
          CallKeepsMedia(cfg, s, run[0]);
          if s'.worker.NoWorker? { OutOfLoop(s'.worker, s'.media); }
      }
      MediaIsOk(cfg, s', run[1..]);
    }
  }

  lemma OutOfLoop(w: Worker, media: Media)
    requires !InLoop(w)
    ensures MediaOk(w, media)
  {
  }

  /**
   The sidecar's own order check on the line of a frame that passed the worker's check accepts it
   if and only if the frame is strictly after the one encoded before it. As long as memory is
   about the worker's recording, which it is while recording or finalizing, it always is, so the
   append can only fail on I/O.
   */
  lemma SidecarAcceptsWhatTheWorkerPassed(cfg: Config, run: seq<Event>)
    requires After(cfg, run).worker.Appending?
    ensures var s := After(cfg, run);
            var f, n := s.worker.frame, |s.media.video|;
            var accepted := SidecarAccepts(s.media.lines, Entry(s.worker.index, s.worker.index, f.identity));
            && n > 0 && s.media.video[n - 1] == f
            && (accepted <==> n == 1 || StrictlyAfter(f.identity, s.media.video[n - 2].identity))
            && (Busy(s.mem.state) || s.mem.artifact == Some(s.media.id) ==> accepted)
  {
    var s := After(cfg, run);
    MediaIsOk(cfg, InitialSystem, run);
    if Busy(s.mem.state) || s.mem.artifact == Some(s.media.id) {
      OwnRecordingIsOrdered(cfg, run);
    }
  }

  lemma OwnRecordingIsOrdered(cfg: Config, run: seq<Event>)
    requires var s := After(cfg, run);
             s.worker.Appending? && (Busy(s.mem.state) || s.mem.artifact == Some(s.media.id))
    ensures var video := After(cfg, run).media.video;
            |video| > 1 ==> StrictlyAfter(video[|video| - 1].identity, video[|video| - 2].identity)
  {
    hide RecordOk, MemoryOk, StartOk, ArtifactOk, StopOk, StageOk, CountsOk, SeenOk;
    Reached(cfg, run, NoId);
    var video := After(cfg, run).media.video;
    if |video| > 1 {
      assert StrictlyAfter(IdentitiesOf(video)[|video| - 1], IdentitiesOf(video)[|video| - 2]);
    }
  }

  // ----- joining the worker under the mutex -----

  /** A start that joins under the mutex finds a finished worker, unless stop evidence failed. */
  lemma JoinBlocksOnlyAfterFailedEvidence(cfg: Config, run: seq<Event>)
    requires After(cfg, run).caller.Joining? && !After(cfg, run).worker.Finished?
    ensures At(After(cfg, run), After(cfg, run).media.id).log.failed
  {
    Reached(cfg, run, NoId);
  }

  /**
   A start that joins under the mutex is stuck for ever, short of a crash, if and only if the
   worker has not finished when the join begins: finishing takes the mutex the caller holds.
   */
  lemma JoinDeadlocksExactlyWhenWorkerIsAlive(cfg: Config, run: seq<Event>)
    requires After(cfg, run).caller.Joining?
    ensures !After(cfg, run).worker.Finished? <==>
              forall more: seq<Event> | Crash !in more :: After(cfg, run + more).caller.Joining?
  {
    var s := After(cfg, run);
    Reached(cfg, run, NoId);
    if s.worker.Finished? {
      var more := [CallerStep(Ok, false, false, NoClock)];
      ExecAppend(cfg, InitialSystem, run, more);
      assert Exec(cfg, s, more) == Apply(cfg, s, more[0]);
      assert Crash !in more && !After(cfg, run + more).caller.Joining?;
    } else {
      forall more: seq<Event> | Crash !in more ensures After(cfg, run + more).caller.Joining? {
        ExecAppend(cfg, InitialSystem, run, more);
        StuckForEver(cfg, s, more);
      }
    }
  }

  lemma {:induction false} StuckForEver(cfg: Config, s: System, more: seq<Event>)
    requires s.caller.Joining? && !s.worker.Finished? && !s.worker.WritingEvidence? && Crash !in more
    ensures Exec(cfg, s, more).caller == s.caller
    decreases |more|
  {
    if more != [] {
      assert more[0] in more;
      StuckStep(cfg, s, more[0]);
      StuckForEver(cfg, Apply(cfg, s, more[0]), more[1..]);
    }
  }

  lemma StuckStep(cfg: Config, s: System, e: Event)
    requires s.caller.Joining? && !s.worker.Finished? && !s.worker.WritingEvidence? && e != Crash
    ensures var s' := Apply(cfg, s, e);
            s'.caller == s.caller && !s'.worker.Finished? && !s'.worker.WritingEvidence?
  {
  }
}
