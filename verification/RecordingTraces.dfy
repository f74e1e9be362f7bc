/**
 Where the recording manager falls short: what a failed write of stop evidence leads to.
 FAULTED is then not final, a start can block for ever, and a recording can be finalized
 without stop evidence.
 */
module RecordingTraces {
  import opened Wrappers
  import opened FrameIdentity
  import opened RecordingTypes
  import opened RecordingStore
  import opened RecordingLifecycle
  import opened RecordingInvariant
  import opened RecordingSafety
  import opened RecordingTheorems

  // ----- an ordinary start -----

  /** A recording whose worker waits for frames while nobody holds the mutex. */
  predicate Idling(s: System) {
    s.mem.state == Recording && s.worker.Waiting? && s.caller.CallerIdle?
  }

  /** `count` steps of the calling thread with successful I/O, in time. */
  function Calls(count: nat, clock: Clock): seq<Event> {
    seq(count, i => CallerStep(Ok, true, false, clock))
  }

  lemma CallMore(cfg: Config, s: System, count: nat, clock: Clock)
    ensures Exec(cfg, s, Calls(count + 1, clock)) ==
            Exec(cfg, DoCallerStep(cfg, s, Ok, true, false, clock), Calls(count, clock))
  {
    assert Calls(count + 1, clock)[1..] == Calls(count, clock);
  }

  function Preparation(): Memory {
    InitialMemory.(state := Preparing)
  }

  function Starting(cfg: Config, r: Request, dir: Directory, stage: JobStage): System {
    System(Preparation(),
           WritingStart(r, WriteJob(r.recordingId, StartRequest, StartCanonical(cfg, r), stage)),
           NoWorker, InitialSystem.media, map[r.recordingId := Record(Place(Some(dir), None), NoChronicle)])
  }

  lemma StartSlotStep(cfg: Config, r: Request, dir: Directory, stage: JobStage, slot: Slot, stage': JobStage, clock: Clock)
    requires SlotStep(dir.start, StartCanonical(cfg, r), stage, Ok) == SlotRunning(slot, stage')
    ensures DoCallerStep(cfg, Starting(cfg, r, dir, stage), Ok, true, false, clock) ==
            Starting(cfg, r, dir.(start := slot), stage')
  {
    var id := r.recordingId;
    var before := map[id := Record(Place(Some(dir), None), NoChronicle)];
    var after := Record(Place(Some(dir.(start := slot)), None), NoChronicle);
    assert before[id := after] == map[id := after];
  }

  /** Five steps write the evidence of a non-empty start request. */
  lemma StartWrites(cfg: Config, r: Request, clock: Clock)
    requires StartCanonical(cfg, r) != ""
    ensures var text := StartCanonical(cfg, r);
            var dir := EmptyDirectory.(start := Slot(Some(text), None, text, 1));
            Exec(cfg, Starting(cfg, r, EmptyDirectory, Opening), Calls(5, clock)) ==
            StartWritten(Starting(cfg, r, dir, SyncingDirectory), r)
  {
    hide Exec;
    var text := StartCanonical(cfg, r);
    var a, b := Slot(None, Some(""), text, 1), Slot(None, Some(text), text, 1);
    var c := Slot(Some(text), None, text, 1);
    var dir := EmptyDirectory;
    StartSlotStep(cfg, r, dir, Opening, a, Writing(0), clock);
    StartSlotStep(cfg, r, dir.(start := a), Writing(0), b, Writing(|text|), clock);
    StartSlotStep(cfg, r, dir.(start := b), Writing(|text|), b, Renaming, clock);
    StartSlotStep(cfg, r, dir.(start := b), Renaming, c, SyncingDirectory, clock);
    CallMore(cfg, Starting(cfg, r, dir, Opening), 4, clock);
    CallMore(cfg, Starting(cfg, r, dir.(start := a), Writing(0)), 3, clock);
    CallMore(cfg, Starting(cfg, r, dir.(start := b), Writing(|text|)), 2, clock);
    CallMore(cfg, Starting(cfg, r, dir.(start := b), Renaming), 1, clock);
    CallMore(cfg, Starting(cfg, r, dir.(start := c), SyncingDirectory), 0, clock);
    NoCalls(cfg, StartWritten(Starting(cfg, r, dir.(start := c), SyncingDirectory), r), clock);
  }

  lemma NoCalls(cfg: Config, s: System, clock: Clock)
    ensures Exec(cfg, s, Calls(0, clock)) == s
  {
  }

  /** Three more create the media files and start the worker. */
  lemma StartCommits(cfg: Config, r: Request, dir: Directory, clock: Clock)
    ensures var s := Exec(cfg, StartWritten(Starting(cfg, r, dir, SyncingDirectory), r), Calls(3, clock));
            && Idling(s) && s.media == Media(r.recordingId, [], []) && s.mem.flow == EmptyFlow
            && At(s, r.recordingId).place == Place(Some(dir.(video := OpenFile, sidecar := OpenFile)), None)
            && At(s, r.recordingId).log.starts == 1
            && StartCanonical(cfg, r) in At(s, r.recordingId).log.startAnswers
  {
    var s := StartWritten(Starting(cfg, r, dir, SyncingDirectory), r);
    CallMore(cfg, s, 2, clock);
    var s1 := DoCallerStep(cfg, s, Ok, true, false, clock);
    CallMore(cfg, s1, 1, clock);
    var s2 := DoCallerStep(cfg, s1, Ok, true, false, clock);
    CallMore(cfg, s2, 0, clock);
  }

  /**
   On an empty archive every valid request is answered `e_STARTED` when its I/O succeeds: its text
   is the evidence on disk, nothing else is, and the worker waits for frames.
   */
  lemma StartSucceeds(cfg: Config, r: Request, clock: Clock)
    requires ValidRequest(r) && StartCanonical(cfg, r) != ""
    ensures var s := After(cfg, [CallStart(r, true)] + Calls(9, clock));
            var text := StartCanonical(cfg, r);
            && Idling(s) && s.media == Media(r.recordingId, [], []) && s.mem.flow == EmptyFlow
            && At(s, r.recordingId).place ==
               Place(Some(Directory(Slot(Some(text), None, text, 1), EmptySlot, EmptySlot, OpenFile, OpenFile)), None)
            && At(s, r.recordingId).log.starts == 1 && text in At(s, r.recordingId).log.startAnswers
  {
    hide Exec;
    var text := StartCanonical(cfg, r);
    var dir := EmptyDirectory.(start := Slot(Some(text), None, text, 1));
    var s0 := InitialSystem.(mem := Preparation(), caller := CreatingStaging(r));
    ExecOne(cfg, InitialSystem, CallStart(r, true));
    ExecAppend(cfg, InitialSystem, [CallStart(r, true)], Calls(9, clock));
    CallMore(cfg, s0, 8, clock);
    var s1 := Starting(cfg, r, EmptyDirectory, Opening);
    assert DoCallerStep(cfg, s0, Ok, true, false, clock) == s1;
    StartWrites(cfg, r, clock);
    StartCommits(cfg, r, dir, clock);
    assert Calls(8, clock) == Calls(5, clock) + Calls(3, clock);
    ExecAppend(cfg, s1, Calls(5, clock), Calls(3, clock));
  }

  lemma ExecOne(cfg: Config, s: System, a: Event)
    ensures Exec(cfg, s, [a]) == Apply(cfg, s, a)
  {
    assert Exec(cfg, s, [a]) == Exec(cfg, Apply(cfg, s, a), []);
  }

  // ----- a start that blocks for ever -----

  lemma ExecThree(cfg: Config, s: System, a: Event, b: Event, c: Event)
    ensures Exec(cfg, s, [a, b, c]) == Apply(cfg, Apply(cfg, Apply(cfg, s, a), b), c)
  {
    var s1 := Apply(cfg, s, a);
    var s2 := Apply(cfg, s1, b);
    assert [a, b, c][1..] == [b, c] && [b, c][1..] == [c] && [c][1..] == [];
    assert Exec(cfg, s, [a, b, c]) == Exec(cfg, s1, [b, c]) == Exec(cfg, s2, [c]);
    assert Exec(cfg, s2, [c]) == Exec(cfg, Apply(cfg, s2, c), []);
  }

  lemma IdlingFacts(cfg: Config, run: seq<Event>)
    requires Idling(After(cfg, run))
    ensures var s := After(cfg, run);
            && MutexFree(s) && !s.mem.stopRequested
            && s.mem.ledger == s.mem.ledger.(recordingId := s.media.id, stop := None)
            && s.mem.artifact == Some(s.media.id)
            && var p := At(s, s.media.id).place;
               p.staged.Some? && p.final.None? && p.staged.value.stop == p.staged.value.manifest == EmptySlot
  {
    Reached(cfg, run, After(cfg, run).media.id);
  }

  /** A start of another recording that arrives when the state is FAULTED and the worker lives. */
  lemma StartJoins(cfg: Config, s: System, start: Request, readOk: bool)
    requires s.mem.state == Faulted && s.caller.CallerIdle? && MutexFree(s) && !Gone(s.worker)
    requires ValidRequest(start) && start.recordingId != s.mem.ledger.recordingId
    ensures DoCallStart(cfg, s, start, readOk) == s.(caller := Joining(start))
  {
  }

  /**
   In EVERY reachable recording with an idle worker: an HTTP stop whose evidence cannot be
   written, followed by a start of another recording, blocks that caller, and with it the mutex,
   until the process dies.
   */
  lemma FailedHttpStopThenStartDeadlocks(cfg: Config, run: seq<Event>, stop: Request, start: Request, more: seq<Event>)
    requires Idling(After(cfg, run)) && ValidRequest(stop) && ValidRequest(start)
    requires stop.recordingId == After(cfg, run).media.id && start.recordingId != stop.recordingId
    requires Find(At(After(cfg, run), stop.recordingId).place, true).Found?
    requires Crash !in more
    ensures var events := [CallStop(stop, true), CallerStep(Fail, true, false, NoClock), CallStart(start, true)];
            After(cfg, run + events + more).caller == Joining(start)
  {
    var s := After(cfg, run);
    IdlingFacts(cfg, run);
    var cause := Cause(Requested, Some(stop.requestId), StopCanonical(cfg, stop));
    var s1 := BeginFromCaller(s, cause, FromHttp);
    assert DoCallStop(cfg, s, stop, true) == s1;
    var s2 := StopFailed(s1, StopJob(s.mem, cause)).(caller := CallerIdle);
    assert Apply(cfg, s1, CallerStep(Fail, true, false, NoClock)) == s2;
    StartJoins(cfg, s2, start, true);
    ExecThree(cfg, s, CallStop(stop, true), CallerStep(Fail, true, false, NoClock), CallStart(start, true));
    StaysJoined(cfg, run, [CallStop(stop, true), CallerStep(Fail, true, false, NoClock), CallStart(start, true)], more);
  }

  /** The same with no HTTP stop at all: the worker's own maximum-duration evidence fails. */
  lemma FailedTimeoutThenStartDeadlocks(cfg: Config, run: seq<Event>, start: Request, more: seq<Event>)
    requires Idling(After(cfg, run)) && ValidRequest(start)
    requires start.recordingId != After(cfg, run).media.id
    requires Crash !in more
    ensures var events := [WorkerStep(Ok, false, true, NoClock), WorkerStep(Fail, false, false, NoClock), CallStart(start, true)];
            After(cfg, run + events + more).caller == Joining(start)
  {
    var s := After(cfg, run);
    IdlingFacts(cfg, run);
    var cause := Cause(MaxDuration, None, cfg.internalStopJson(s.mem.ledger.recordingId, MaxDuration));
    var s1 := BeginFromWorker(s, cause);
    assert Apply(cfg, s, WorkerStep(Ok, false, true, NoClock)) == s1;
    var s2 := StopFailed(s1, StopJob(s.mem, cause)).(worker := Catching(None));
    assert Apply(cfg, s1, WorkerStep(Fail, false, false, NoClock)) == s2;
    StartJoins(cfg, s2, start, true);
    ExecThree(cfg, s, WorkerStep(Ok, false, true, NoClock), WorkerStep(Fail, false, false, NoClock), CallStart(start, true));
    StaysJoined(cfg, run, [WorkerStep(Ok, false, true, NoClock), WorkerStep(Fail, false, false, NoClock), CallStart(start, true)], more);
  }

  lemma StaysJoined(cfg: Config, run: seq<Event>, events: seq<Event>, more: seq<Event>)
    requires var s := Exec(cfg, After(cfg, run), events);
             s.caller.Joining? && !s.worker.Finished? && !s.worker.WritingEvidence?
    requires Crash !in more
    ensures After(cfg, run + events + more).caller == Exec(cfg, After(cfg, run), events).caller
  {
    ExecAppend(cfg, InitialSystem, run, events);
    ExecAppend(cfg, InitialSystem, run + events, more);
    StuckForEver(cfg, After(cfg, run + events), more);
  }

  // ----- a finalized recording without stop evidence -----

  /** `count` worker steps with successful I/O, in time. */
  function Work(count: nat, clock: Clock): seq<Event> {
    seq(count, i => WorkerStep(Ok, false, false, clock))
  }

  lemma WorkMore(cfg: Config, s: System, count: nat, clock: Clock)
    ensures Exec(cfg, s, Work(count + 1, clock)) ==
            Exec(cfg, DoWorkerStep(cfg, s, Ok, false, false, clock), Work(count, clock))
  {
    assert Work(count + 1, clock)[1..] == Work(count, clock);
  }

  /** The worker of a faulted recording whose evidence failed and whose ring is drained. */
  predicate Orphaned(s: System) {
    && s.mem.state == Faulted && s.worker.Waiting? && !CallerHoldsMutex(s.caller) && s.mem.stopRequested
    && s.mem.flow.queue == [] && s.mem.artifact == Some(s.media.id) && s.mem.ledger.recordingId == s.media.id
    && At(s, s.media.id).place.staged.Some? && At(s, s.media.id).place.final.None?
    && At(s, s.media.id).place.staged.value.manifest == EmptySlot
  }

  function WithStaged(s: System, dir: Directory): System {
    PutPlace(s, s.media.id, Place(Some(dir), None))
  }

  function MediaDigests(cfg: Config, media: Media): Digests {
    Digests(cfg.videoDigest(media.video), cfg.sidecarDigest(media.lines))
  }

  function ClosedDirectory(s: System, dir: Directory): Directory {
    dir.(video := ClosedFile(s.media.video), sidecar := ClosedFile(s.media.lines))
  }

  /** Three steps close the video. */
  lemma OrphanClosesVideo(cfg: Config, s: System, dir: Directory, clock: Clock)
    requires Orphaned(s) && At(s, s.media.id).place == Place(Some(dir), None)
    ensures Exec(cfg, s, Work(3, clock)) ==
            WithStaged(s, dir.(video := ClosedFile(s.media.video))).(worker := Closing(CheckSidecar))
  {
    WorkMore(cfg, s, 2, clock);
    WorkMore(cfg, s.(worker := Closing(CheckVideo)), 1, clock);
    WorkMore(cfg, s.(worker := Closing(CloseVideo)), 0, clock);
  }

  /** Four more close the sidecar and digest both. */
  lemma OrphanClosesSidecar(cfg: Config, s: System, dir: Directory, clock: Clock)
    requires At(s, s.media.id).place == Place(Some(dir), None) && dir.video == ClosedFile(s.media.video)
    requires s.worker == Closing(CheckSidecar) && !CallerHoldsMutex(s.caller) && s.mem.artifact == Some(s.media.id)
    ensures Exec(cfg, s, Work(4, clock)) ==
            WithStaged(s, ClosedDirectory(s, dir)).(worker := Closing(CheckCompose(MediaDigests(cfg, s.media))))
  {
    hide Exec;
    var s1 := WithStaged(s, ClosedDirectory(s, dir)).(worker := Closing(CheckDigest));
    WorkMore(cfg, s, 3, clock);
    assert DoCloseSidecar(s.(worker := Closing(CloseSidecar)), Ok) == s1;
    WorkMore(cfg, s.(worker := Closing(CloseSidecar)), 2, clock);
    OrphanDigests(cfg, s1, ClosedDirectory(s, dir), clock);
  }

  lemma OrphanDigests(cfg: Config, s: System, dir: Directory, clock: Clock)
    requires At(s, s.media.id).place == Place(Some(dir), None)
    requires dir.video == ClosedFile(s.media.video) && dir.sidecar == ClosedFile(s.media.lines)
    requires s.worker == Closing(CheckDigest) && !CallerHoldsMutex(s.caller) && s.mem.artifact == Some(s.media.id)
    ensures Exec(cfg, s, Work(2, clock)) == s.(worker := Closing(CheckCompose(MediaDigests(cfg, s.media))))
  {
    WorkMore(cfg, s, 1, clock);
    WorkMore(cfg, s.(worker := Closing(ComputeDigest)), 0, clock);
  }

  lemma OrphanCloses(cfg: Config, s: System, dir: Directory, clock: Clock)
    requires Orphaned(s) && At(s, s.media.id).place == Place(Some(dir), None)
    ensures Exec(cfg, s, Work(7, clock)) ==
            WithStaged(s, ClosedDirectory(s, dir)).(worker := Closing(CheckCompose(MediaDigests(cfg, s.media))))
  {
    hide Exec;
    var dir1 := dir.(video := ClosedFile(s.media.video));
    var s1 := WithStaged(s, dir1).(worker := Closing(CheckSidecar));
    OrphanClosesVideo(cfg, s, dir, clock);
    OrphanClosesSidecar(cfg, s1, dir1, clock);
    ExecWork(cfg, s, 3, 4, clock);
  }

  function WithManifest(dir: Directory, text: string): Directory {
    dir.(manifest := Slot(Some(text), None, text, 1))
  }

  function InManifest(cfg: Config, s: System, dir: Directory, m: Manifest, stage: JobStage): System {
    WithStaged(s, dir).(
      worker := Closing(WritingManifest(m, WriteJob(s.media.id, ManifestFile, cfg.manifestJson(m), stage))))
  }

  lemma WithStagedTwice(s: System, dir: Directory, dir': Directory)
    ensures WithStaged(WithStaged(s, dir), dir') == WithStaged(s, dir')
    ensures At(s, s.media.id).place == Place(Some(dir), None) ==> WithStaged(s, dir) == s
  {
    var id := s.media.id;
    assert WithStaged(WithStaged(s, dir), dir').archive == WithStaged(s, dir').archive;
    if At(s, id).place == Place(Some(dir), None) {
      assert s.archive[id := s.archive[id]] == s.archive;
    }
  }

  /** One step of the manifest write protocol. */
  lemma ManifestSlotStep(cfg: Config, s: System, dir: Directory, m: Manifest, stage: JobStage,
                         slot: Slot, stage': JobStage, clock: Clock)
    requires SlotStep(dir.manifest, cfg.manifestJson(m), stage, Ok) == SlotRunning(slot, stage')
    ensures DoWorkerStep(cfg, InManifest(cfg, s, dir, m, stage), Ok, false, false, clock) ==
            InManifest(cfg, s, dir.(manifest := slot), m, stage')
  {
    WithStagedTwice(s, dir, dir.(manifest := slot));
  }

  /** Five steps of the write protocol put a non-empty manifest text in place. */
  lemma OrphanWrites(cfg: Config, s: System, dir: Directory, m: Manifest, clock: Clock)
    requires At(s, s.media.id).place == Place(Some(dir), None) && dir.manifest == EmptySlot
    requires cfg.manifestJson(m) != ""
    requires s.worker == Closing(WritingManifest(m, NewJob(s.media.id, ManifestFile, cfg.manifestJson(m))))
    ensures Exec(cfg, s, Work(5, clock)) ==
            WithStaged(s, WithManifest(dir, cfg.manifestJson(m))).(worker := Closing(CheckActivate(m)))
  {
    hide Exec, DoWorkerStep, WithStaged;
    var text := cfg.manifestJson(m);
    var a, b := Slot(None, Some(""), text, 1), Slot(None, Some(text), text, 1);
    ManifestSlotStep(cfg, s, dir, m, Opening, a, Writing(0), clock);
    ManifestSlotStep(cfg, s, dir.(manifest := a), m, Writing(0), b, Writing(|text|), clock);
    ManifestSlotStep(cfg, s, dir.(manifest := b), m, Writing(|text|), b, Renaming, clock);
    ManifestSlotStep(cfg, s, dir.(manifest := b), m, Renaming, WithManifest(dir, text).manifest, SyncingDirectory, clock);
    WithStagedTwice(s, dir, dir);
    WorkMore(cfg, s, 4, clock);
    WorkMore(cfg, InManifest(cfg, s, dir.(manifest := a), m, Writing(0)), 3, clock);
    WorkMore(cfg, InManifest(cfg, s, dir.(manifest := b), m, Writing(|text|)), 2, clock);
    WorkMore(cfg, InManifest(cfg, s, dir.(manifest := b), m, Renaming), 1, clock);
    WithStagedAt(s, WithManifest(dir, text));
    ManifestDone(cfg, InManifest(cfg, s, WithManifest(dir, text), m, SyncingDirectory), WithManifest(dir, text), m, clock);
  }

  lemma WithStagedAt(s: System, dir: Directory)
    ensures At(WithStaged(s, dir), s.media.id).place == Place(Some(dir), None)
    ensures WithStaged(s, dir) == s.(archive := WithStaged(s, dir).archive)
  {
  }

  lemma ManifestDone(cfg: Config, s: System, dir: Directory, m: Manifest, clock: Clock)
    requires At(s, s.media.id).place == Place(Some(dir), None)
    requires s.worker == Closing(WritingManifest(m, WriteJob(s.media.id, ManifestFile, cfg.manifestJson(m), SyncingDirectory)))
    ensures Exec(cfg, s, Work(1, clock)) == s.(worker := Closing(CheckActivate(m)))
  {
    WorkMore(cfg, s, 0, clock);
  }

  /** Four steps activate the directory and publish the state. */
  lemma OrphanPublishes(cfg: Config, s: System, dir: Directory, m: Manifest, clock: Clock)
    requires At(s, s.media.id).place == Place(Some(dir), None) && s.mem.artifact == Some(s.media.id)
    requires s.worker == Closing(CheckActivate(m)) && !CallerHoldsMutex(s.caller)
    ensures var s' := Exec(cfg, s, Work(4, clock));
            && s'.mem.state == Finalized && s'.worker.Finished?
            && At(s', s.media.id) == Record(Place(None, Some(dir)), At(s, s.media.id).log.(manifest := Some(m)))
  {
    hide Exec;
    var s1 := s.(worker := Closing(Activate(m)));
    var s2 := Rename(s, s.media.id, m);
    WorkMore(cfg, s, 3, clock);
    WorkMore(cfg, s1, 2, clock);
    OrphanEnds(cfg, s2, clock);
  }

  lemma OrphanEnds(cfg: Config, s: System, clock: Clock)
    requires s.worker == SyncingParents && !CallerHoldsMutex(s.caller)
    ensures Exec(cfg, s, Work(2, clock)) == s.(mem := s.mem.(state := Finalized), worker := Finished)
  {
    WorkMore(cfg, s, 1, clock);
    WorkMore(cfg, s.(worker := Publishing), 0, clock);
  }

  lemma ExecWork(cfg: Config, s: System, a: nat, b: nat, clock: Clock)
    ensures Exec(cfg, s, Work(a + b, clock)) == Exec(cfg, Exec(cfg, s, Work(a, clock)), Work(b, clock))
  {
    assert Work(a + b, clock) == Work(a, clock) + Work(b, clock);
    ExecAppend(cfg, s, Work(a, clock), Work(b, clock));
  }

  /** Three steps compose the manifest and open its file. */
  lemma OrphanComposes(cfg: Config, s: System, d: Digests, clock: Clock)
    requires s.worker == Closing(CheckCompose(d)) && !CallerHoldsMutex(s.caller) && s.mem.artifact == Some(s.media.id)
    requires ManifestAccepted(ManifestOf(s.mem, clock, d))
    ensures var m := ManifestOf(s.mem, clock, d);
            Exec(cfg, s, Work(3, clock)) ==
            s.(worker := Closing(WritingManifest(m, NewJob(s.media.id, ManifestFile, cfg.manifestJson(m)))))
  {
    hide ManifestAccepted, ManifestOf;
    var m := ManifestOf(s.mem, clock, d);
    WorkMore(cfg, s, 2, clock);
    WorkMore(cfg, s.(worker := Closing(Compose(d))), 1, clock);
    WorkMore(cfg, s.(worker := Closing(Composed(m))), 0, clock);
  }

  /** FAULTED is not final: an orphaned worker goes on to publish FINALIZED. */
  lemma OrphanFinalizes(cfg: Config, s: System, dir: Directory, clock: Clock)
    requires Orphaned(s) && At(s, s.media.id).place == Place(Some(dir), None)
    requires var m := ManifestOf(s.mem, clock, MediaDigests(cfg, s.media));
             ManifestAccepted(m) && cfg.manifestJson(m) != ""
    ensures var s' := Exec(cfg, s, Work(19, clock));
            var m := ManifestOf(s.mem, clock, MediaDigests(cfg, s.media));
            && s'.mem.state == Finalized
            && At(s', s.media.id) ==
               Record(Place(None, Some(WithManifest(ClosedDirectory(s, dir), cfg.manifestJson(m)))),
                      At(s, s.media.id).log.(manifest := Some(m)))
  {
    hide Exec, ManifestAccepted;
    var d := MediaDigests(cfg, s.media);
    var m := ManifestOf(s.mem, clock, d);
    var dir1 := ClosedDirectory(s, dir);
    var dir2 := WithManifest(dir1, cfg.manifestJson(m));
    var s1 := WithStaged(s, dir1).(worker := Closing(CheckCompose(d)));
    var s2 := s1.(worker := Closing(WritingManifest(m, NewJob(s.media.id, ManifestFile, cfg.manifestJson(m)))));
    OrphanCloses(cfg, s, dir, clock);
    OrphanComposes(cfg, s1, d, clock);
    OrphanWrites(cfg, s2, dir1, m, clock);
    OrphanPublishes(cfg, WithStaged(s2, dir2).(worker := Closing(CheckActivate(m))), dir2, m, clock);
    ExecWork(cfg, s, 7, 12, clock);
    ExecWork(cfg, s1, 3, 9, clock);
    ExecWork(cfg, s2, 5, 4, clock);
  }

  /** The worker idles, its ring is empty, and what it would write as a manifest is acceptable. */
  ghost predicate ReadyToEnd(cfg: Config, s: System, clock: Clock) {
    && Idling(s) && s.mem.flow.queue == []
    && var m := ManifestOf(s.mem, clock, MediaDigests(cfg, s.media));
       ManifestAccepted(m) && cfg.manifestJson(m) != ""
  }

  /** What a failed stop leaves behind: everything as it was, but for the stop file. */
  ghost predicate Abandoned(s: System, s': System, cause: Cause, stage: JobStage, slot: Slot) {
    var rec := At(s, s.media.id);
    var log := rec.log.(stops := rec.log.stops + 1, cause := cause);
    && !CallerHoldsMutex(s'.caller) && s'.worker == s.worker && s'.media == s.media
    && s'.mem == BeginMemory(s.mem).(state := Faulted)
    && rec.place.staged.Some?
    && At(s', s.media.id) ==
       Record(Place(Some(rec.place.staged.value.(stop := slot)), None), FailedLog(log, stage))
  }

  /**
   After any failed stop of a reachable recording that is ready to end, its worker finalizes it:
   the stop file stays as the failure left it, and the manifest blames the shutdown.
   */
  lemma AbandonedFinalizes(cfg: Config, run: seq<Event>, s': System, cause: Cause, stage: JobStage, slot: Slot, clock: Clock)
    requires ReadyToEnd(cfg, After(cfg, run), clock) && Abandoned(After(cfg, run), s', cause, stage, slot)
    ensures var end := Exec(cfg, s', Work(19, clock));
            var rec := At(end, s'.media.id);
            && end.mem.state == Finalized
            && rec.place.final.Some? && rec.place.final.value.stop == slot && rec.log.cause == cause
            && rec.log.manifest.Some? && rec.log.manifest.value.stopReason == ApplicationShutdown
            && rec.log.manifest.value.stopRequestId == None
  {
    hide ManifestAccepted, Exec;
    var s := After(cfg, run);
    IdlingFacts(cfg, run);
    DefaultReason(cfg, run);
    var dir := At(s, s.media.id).place.staged.value.(stop := slot);
    assert ManifestOf(s'.mem, clock, MediaDigests(cfg, s.media)) == ManifestOf(s.mem, clock, MediaDigests(cfg, s.media));
    OrphanFinalizes(cfg, s', dir, clock);
  }

  /**
   In EVERY reachable recording that is ready to end: an HTTP stop that fails to open its evidence
   file is refused with FAULTED, yet the worker then finalizes the recording with no stop evidence
   and a manifest that blames the shutdown.
   */
  lemma FinalizedWithoutStopEvidence(cfg: Config, run: seq<Event>, stop: Request, clock: Clock)
    requires var s := After(cfg, run);
             && ReadyToEnd(cfg, s, clock) && ValidRequest(stop) && stop.recordingId == s.media.id
             && Find(At(s, stop.recordingId).place, true).Found?
    ensures var faulted := Exec(cfg, After(cfg, run), [CallStop(stop, true), CallerStep(Fail, true, false, NoClock)]);
            var s' := Exec(cfg, faulted, Work(19, clock));
            var rec := At(s', stop.recordingId);
            && faulted.mem.state == Faulted && s'.mem.state == Finalized
            && rec.place.final.Some? && rec.place.final.value.stop == EmptySlot
            && rec.log.cause.reason == Requested
            && rec.log.manifest.Some? && rec.log.manifest.value.stopReason == ApplicationShutdown
  {
    hide ManifestAccepted, Exec;
    var s := After(cfg, run);
    IdlingFacts(cfg, run);
    var cause := Cause(Requested, Some(stop.requestId), StopCanonical(cfg, stop));
    var s1 := BeginFromCaller(s, cause, FromHttp);
    assert DoCallStop(cfg, s, stop, true) == s1;
    var s2 := StopFailed(s1, StopJob(s.mem, cause)).(caller := CallerIdle);
    assert Apply(cfg, s1, CallerStep(Fail, true, false, NoClock)) == s2;
    ExecTwo(cfg, s, CallStop(stop, true), CallerStep(Fail, true, false, NoClock));
    AbandonedFinalizes(cfg, run, s2, cause, Opening, EmptySlot, clock);
  }

  /**
   The same when the shutdown cannot open its evidence file: there is no stop evidence either, but
   then the manifest names the cause.
   */
  lemma ShutdownWithoutStopEvidence(cfg: Config, run: seq<Event>, clock: Clock)
    requires ReadyToEnd(cfg, After(cfg, run), clock)
    ensures var s' := Exec(cfg, Exec(cfg, After(cfg, run), [CallShutdown, CallerStep(Fail, true, false, NoClock)]), Work(19, clock));
            var rec := At(s', After(cfg, run).media.id);
            && s'.mem.state == Finalized
            && rec.place.final.Some? && rec.place.final.value.stop == EmptySlot
            && rec.log.cause.reason == ApplicationShutdown
            && rec.log.manifest.Some? && ManifestNames(rec.log.manifest.value, rec.log.cause)
  {
    hide ManifestAccepted, Exec;
    var s := After(cfg, run);
    IdlingFacts(cfg, run);
    var cause := Cause(ApplicationShutdown, None, cfg.internalStopJson(s.media.id, ApplicationShutdown));
    var s1 := BeginFromCaller(s, cause, FromShutdown);
    assert DoCallShutdown(cfg, s) == s1;
    var s2 := StopFailed(s1, StopJob(s.mem, cause)).(caller := ShutdownJoining);
    assert Apply(cfg, s1, CallerStep(Fail, true, false, NoClock)) == s2;
    ExecTwo(cfg, s, CallShutdown, CallerStep(Fail, true, false, NoClock));
    AbandonedFinalizes(cfg, run, s2, cause, Opening, EmptySlot, clock);
  }

  // ----- a stop text that contradicts the manifest -----

  /** An HTTP stop under way, with its file and its job at a given point. */
  function StoppingAt(s: System, cause: Cause, slot: Slot, stage: JobStage): System
    requires At(s, s.media.id).place.staged.Some?
  {
    var rec := At(s, s.media.id);
    var dir := rec.place.staged.value.(stop := slot);
    s.(archive := s.archive[s.media.id := Record(Place(Some(dir), None), rec.log.(stops := rec.log.stops + 1, cause := cause))],
       mem := BeginMemory(s.mem),
       caller := WritingStop(WriteJob(s.media.id, StopRequest, cause.bytes, stage), cause, FromHttp))
  }

  lemma StopSlotStep(cfg: Config, s: System, cause: Cause, slot: Slot, stage: JobStage, slot': Slot, stage': JobStage)
    requires At(s, s.media.id).place.staged.Some?
    requires SlotStep(slot, cause.bytes, stage, Ok) == SlotRunning(slot', stage')
    ensures DoCallerStep(cfg, StoppingAt(s, cause, slot, stage), Ok, true, false, NoClock) ==
            StoppingAt(s, cause, slot', stage')
  {
    var a, b := StoppingAt(s, cause, slot, stage), StoppingAt(s, cause, slot', stage');
    var r := JobStep(At(a, s.media.id).place, a.caller.job, Ok);
    assert r.Running? && r.place == At(b, s.media.id).place && r.job == b.caller.job;
    assert PutPlace(a, s.media.id, r.place).archive == b.archive;
  }

  /** Four steps put the stop text in place; only the directory sync is left. */
  lemma StopWrites(cfg: Config, s: System, cause: Cause)
    requires At(s, s.media.id).place.staged.Some? && cause.bytes != ""
    ensures Exec(cfg, StoppingAt(s, cause, EmptySlot, Opening), Calls(4, NoClock)) ==
            StoppingAt(s, cause, Slot(Some(cause.bytes), None, cause.bytes, 1), SyncingDirectory)
  {
    hide Exec, StoppingAt, DoCallerStep;
    var text := cause.bytes;
    var a, b := Slot(None, Some(""), text, 1), Slot(None, Some(text), text, 1);
    var c := Slot(Some(text), None, text, 1);
    StopSlotStep(cfg, s, cause, EmptySlot, Opening, a, Writing(0));
    StopSlotStep(cfg, s, cause, a, Writing(0), b, Writing(|text|));
    StopSlotStep(cfg, s, cause, b, Writing(|text|), b, Renaming);
    StopSlotStep(cfg, s, cause, b, Renaming, c, SyncingDirectory);
    CallMore(cfg, StoppingAt(s, cause, EmptySlot, Opening), 3, NoClock);
    CallMore(cfg, StoppingAt(s, cause, a, Writing(0)), 2, NoClock);
    CallMore(cfg, StoppingAt(s, cause, b, Writing(|text|)), 1, NoClock);
    CallMore(cfg, StoppingAt(s, cause, b, Renaming), 0, NoClock);
    NoCalls(cfg, StoppingAt(s, cause, c, SyncingDirectory), NoClock);
  }

  /**
   An HTTP stop whose evidence is written in full but too late: the text of the request stays in
   the finalized recording, and the manifest denies that there was one.
   */
  lemma LateStopContradictsTheManifest(cfg: Config, run: seq<Event>, stop: Request, clock: Clock)
    requires var s := After(cfg, run);
             && ReadyToEnd(cfg, s, clock) && ValidRequest(stop) && stop.recordingId == s.media.id
             && Find(At(s, stop.recordingId).place, true).Found? && StopCanonical(cfg, stop) != ""
    ensures var s := After(cfg, run);
            var late := [CallStop(stop, true)] + Calls(4, NoClock) + [CallerStep(Ok, true, true, NoClock)];
            var rec := At(Exec(cfg, Exec(cfg, s, late), Work(19, clock)), stop.recordingId);
            && rec.place.final.Some? && rec.place.final.value.stop.active == Some(StopCanonical(cfg, stop))
            && rec.log.cause == Cause(Requested, Some(stop.requestId), StopCanonical(cfg, stop))
            && rec.log.manifest.Some? && rec.log.manifest.value.stopReason == ApplicationShutdown
  {
    hide ManifestAccepted, Exec;
    var s := After(cfg, run);
    IdlingFacts(cfg, run);
    var cause := Cause(Requested, Some(stop.requestId), StopCanonical(cfg, stop));
    var slot := Slot(Some(cause.bytes), None, cause.bytes, 1);
    var first, synced := StoppingAt(s, cause, EmptySlot, Opening), StoppingAt(s, cause, slot, SyncingDirectory);
    HttpStopBegins(cfg, s, stop);
    ExecOne(cfg, s, CallStop(stop, true));
    StopWrites(cfg, s, cause);
    var last := CallerStep(Ok, true, true, NoClock);
    var s2 := Apply(cfg, synced, last);
    ExecOne(cfg, synced, last);
    ExecAppend(cfg, s, [CallStop(stop, true)], Calls(4, NoClock));
    ExecAppend(cfg, s, [CallStop(stop, true)] + Calls(4, NoClock), [last]);
    assert s2 == StopFailed(synced, synced.caller.job).(caller := CallerIdle);
    AbandonedFinalizes(cfg, run, s2, cause, SyncingDirectory, slot, clock);
  }

  lemma HttpStopBegins(cfg: Config, s: System, stop: Request)
    requires Idling(s) && MutexFree(s) && ValidRequest(stop) && stop.recordingId == s.media.id
    requires s.mem.ledger.recordingId == s.media.id && s.mem.ledger.stop.None? && s.mem.artifact == Some(s.media.id)
    requires At(s, s.media.id).place.staged.Some? && At(s, s.media.id).place.final.None?
    requires At(s, s.media.id).place.staged.value.stop == EmptySlot && Find(At(s, s.media.id).place, true).Found?
    ensures DoCallStop(cfg, s, stop, true) ==
            StoppingAt(s, Cause(Requested, Some(stop.requestId), StopCanonical(cfg, stop)), EmptySlot, Opening)
  {
    var cause := Cause(Requested, Some(stop.requestId), StopCanonical(cfg, stop));
    var rec := At(s, s.media.id);
    assert rec.place == Place(Some(rec.place.staged.value.(stop := EmptySlot)), None);
    assert BeginFromCaller(s, cause, FromHttp).archive == StoppingAt(s, cause, EmptySlot, Opening).archive;
  }

  lemma DefaultReason(cfg: Config, run: seq<Event>)
    requires After(cfg, run).mem.state == Recording
    ensures After(cfg, run).mem.stopReason == ApplicationShutdown && After(cfg, run).mem.ledger.stop == None
  {
    Reached(cfg, run, NoId);
  }

  lemma ExecTwo(cfg: Config, s: System, a: Event, b: Event)
    ensures Exec(cfg, s, [a, b]) == Apply(cfg, Apply(cfg, s, a), b)
  {
    assert [a, b][1..] == [b] && [b][1..] == [];
    assert Exec(cfg, Apply(cfg, s, a), [b]) == Exec(cfg, Apply(cfg, Apply(cfg, s, a), b), []);
  }

  // ----- a sidecar that refuses what the worker passed -----

  /**
   The worker of a running recording holds a frame that is not after the last one encoded, so it
   would refuse it. If a stop fails meanwhile and the replay of another, finalized recording's stop
   takes over memory, the worker passes that frame and the sidecar refuses it.
   */
  lemma ReplacedMemoryLetsAnOldFramePass(cfg: Config, run: seq<Event>, stop: Request, again: Request, f: Frame)
    requires var s := After(cfg, run);
             && s.mem.state == Recording && s.worker == Encoding(f) && s.caller.CallerIdle?
             && s.media.video != []
             && !StrictlyAfter(f.identity, s.media.video[|s.media.video| - 1].identity)
             && FrameAccepted(Unseen, f)
             && ValidRequest(stop) && stop.recordingId == s.media.id && Find(At(s, s.media.id).place, true).Found?
             && ValidRequest(again) && again.recordingId != s.media.id
             && Find(At(s, again.recordingId).place, true).Found? && Find(At(s, again.recordingId).place, true).finalized
             && Find(At(s, again.recordingId).place, true).stop == Some(StopCanonical(cfg, again))
    ensures var s := After(cfg, run);
            var events := [CallStop(stop, true), CallerStep(Fail, true, false, NoClock), CallStop(again, true)];
            var s' := Exec(cfg, s, events);
            var passed := DoWorkerStep(cfg, s', Ok, false, false, NoClock);
            && DoWorkerStep(cfg, s, Ok, false, false, NoClock).worker.Catching?
            && passed.worker.Appending?
            && !SidecarAccepts(passed.media.lines, Entry(passed.worker.index, passed.worker.index, f.identity))
  {
    hide Exec;
    var s := After(cfg, run);
    EncodingFacts(cfg, run);
    var cause := Cause(Requested, Some(stop.requestId), StopCanonical(cfg, stop));
    var s1 := BeginFromCaller(s, cause, FromHttp);
    assert DoCallStop(cfg, s, stop, true) == s1;
    var s2 := StopFailed(s1, StopJob(s.mem, cause)).(caller := CallerIdle);
    assert Apply(cfg, s1, CallerStep(Fail, true, false, NoClock)) == s2;
    assert At(s2, again.recordingId).place == At(s, again.recordingId).place;
    OldFramePasses(cfg, s2, again, f);
    ExecThree(cfg, s, CallStop(stop, true), CallerStep(Fail, true, false, NoClock), CallStop(again, true));
  }

  lemma OldFramePasses(cfg: Config, s: System, again: Request, f: Frame)
    requires s.mem.state == Faulted && s.worker == Encoding(f) && s.caller.CallerIdle?
    requires s.media.video != [] && s.media.lines == LinesOf(s.media.video)
    requires !StrictlyAfter(f.identity, s.media.video[|s.media.video| - 1].identity) && FrameAccepted(Unseen, f)
    requires ValidRequest(again) && s.mem.ledger.stop == None
    requires var found := Find(At(s, again.recordingId).place, true);
             found.Found? && found.finalized && found.stop == Some(StopCanonical(cfg, again))
    ensures var passed := DoWorkerStep(cfg, Apply(cfg, s, CallStop(again, true)), Ok, false, false, NoClock);
            && passed.worker.Appending?
            && !SidecarAccepts(passed.media.lines, Entry(passed.worker.index, passed.worker.index, f.identity))
  {
    hide Find, ValidRequest;
    var s' := RestoreFinalized(s, again, StopCanonical(cfg, again));
    assert Apply(cfg, s, CallStop(again, true)) == s';
    assert s'.mem.seen == Unseen && s'.media == s.media && s'.worker == s.worker;
  }

  lemma EncodingFacts(cfg: Config, run: seq<Event>)
    requires After(cfg, run).mem.state == Recording && After(cfg, run).worker.Encoding?
    ensures var s := After(cfg, run);
            var video := s.media.video;
            && s.mem.ledger.recordingId == s.media.id && s.mem.ledger.stop == None && s.mem.artifact == Some(s.media.id)
            && At(s, s.media.id).place.staged.Some? && At(s, s.media.id).place.final.None?
            && At(s, s.media.id).place.staged.value.stop == EmptySlot
            && (video != [] ==> s.mem.seen.Seen? && s.mem.seen.last == video[|video| - 1].identity)
            && s.media.lines == LinesOf(video)
  {
    Reached(cfg, run, After(cfg, run).media.id);
  }
}
