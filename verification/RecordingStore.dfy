/**
 The artifact store: `.staging/<id>` and `finalized/<id>` directories, the write-temporary,
 fsync, rename protocol of the evidence files, and the lookup that restart replay relies on.
 Every filesystem call is one step, so a crash can fall between any two of them.
 */
module RecordingStore {
  import opened Wrappers
  import opened RecordingTypes

  datatype FileKind = StartRequest | StopRequest | ManifestFile

  /** A media file: what an open one holds on disk is unspecified (buffered output). */
  datatype MediaFile<T> = NoFile | OpenFile | ClosedFile(contents: seq<T>)

  /**
   One evidence file: the text under its own name, the text under `<name>.tmp`. The last two
   fields only observe: the text the file was last opened to hold, and how often it was opened.
   */
  datatype Slot = Slot(active: Option<string>, temp: Option<string>, target: string, opens: nat)

  const EmptySlot := Slot(None, None, "", 0)

  datatype Directory = Directory(
    start: Slot,
    stop: Slot,
    manifest: Slot,
    video: MediaFile<Frame>,
    sidecar: MediaFile<Entry>)
  {
    function Get(kind: FileKind): Slot {
      match kind
      case StartRequest => start
      case StopRequest => stop
      case ManifestFile => manifest
    }

    function Put(kind: FileKind, slot: Slot): Directory {
      match kind
      case StartRequest => this.(start := slot)
      case StopRequest => this.(stop := slot)
      case ManifestFile => this.(manifest := slot)
    }
  }

  const EmptyDirectory := Directory(EmptySlot, EmptySlot, EmptySlot, NoFile, NoFile)

  /** `.staging/<id>` and `finalized/<id>` of one recording identity. */
  datatype Place = Place(staged: Option<Directory>, final: Option<Directory>)

  const Nowhere := Place(None, None)

  /** Outcome of one filesystem or encoder call. `Short(n)` is a write(2) of n bytes. */
  datatype Io = Ok | Short(count: nat) | Interrupted | Fail

  // ----- the atomic write protocol -----

  datatype JobStage = Opening | Writing(done: nat) | Renaming | SyncingDirectory

  datatype WriteJob = WriteJob(id: RecId, kind: FileKind, bytes: string, stage: JobStage)

  function NewJob(id: RecId, kind: FileKind, bytes: string): WriteJob {
    WriteJob(id, kind, bytes, Opening)
  }

  datatype SlotResult =
    | SlotRunning(slot: Slot, stage: JobStage)
    | SlotCompleted
    | SlotFailed

  /** One system call of the write protocol, on the file it concerns. */
  function SlotStep(slot: Slot, bytes: string, stage: JobStage, io: Io): (r: SlotResult) {
    match stage
    case Opening =>
      if io.Fail? || slot.temp.Some? then SlotFailed       // O_CREAT | O_EXCL
      else SlotRunning(Slot(slot.active, Some(""), bytes, slot.opens + 1), Writing(0))
    case Writing(done) =>
      if done >= |bytes| then
        if io.Fail? then SlotFailed                        // fsync or close failed
        else SlotRunning(slot, Renaming)
      else
        (match io
         case Interrupted => SlotRunning(slot, stage)            // EINTR: try again
         case Short(n) =>
           if 0 < n <= |bytes| - done then
             SlotRunning(slot.(temp := Some(bytes[..done + n])), Writing(done + n))
           else SlotFailed
         case Ok => SlotRunning(slot.(temp := Some(bytes)), Writing(|bytes|))
         case Fail => SlotFailed)
    case Renaming =>
      if io.Fail? || slot.temp.None? then SlotFailed
      else SlotRunning(slot.(active := slot.temp, temp := None), SyncingDirectory)
    case SyncingDirectory =>
      if io.Fail? then SlotFailed else SlotCompleted
  }

  datatype JobResult =
    | Running(place: Place, job: WriteJob)
    | Completed
    | JobFailed

  /** The same system call on the staged directory; it fails when there is none. */
  function JobStep(p: Place, job: WriteJob, io: Io): (r: JobResult) {
    match p.staged
    case None => JobFailed
    case Some(dir) =>
      match SlotStep(dir.Get(job.kind), job.bytes, job.stage, io)
      case SlotRunning(slot, stage) =>
        Running(p.(staged := Some(dir.Put(job.kind, slot))), job.(stage := stage))
      case SlotCompleted => Completed
      case SlotFailed => JobFailed
  }

  // ----- lookup -----

  datatype Lookup =
    | Unreadable
    | Missing
    | Found(finalized: bool, start: string, stop: Option<string>)

  predicate Readable(text: string) {
    |text| <= MAX_REQUEST_FILE_BYTES
  }

  /** What a reader sees: the activated names of the one directory that exists. */
  function Find(p: Place, readOk: bool): (r: Lookup) {
    if p.staged.Some? && p.final.Some? then Unreadable
    else if p.staged.None? && p.final.None? then Missing
    else
      var dir := if p.final.Some? then p.final.value else p.staged.value;
      if !readOk || dir.start.active.None? || !Readable(dir.start.active.value) then Unreadable
      else if dir.stop.active.Some? && !Readable(dir.stop.active.value) then Unreadable
      else Found(p.final.Some?, dir.start.active.value, dir.stop.active)
  }

  // ----- what a disk can say -----

  /** The place has the activated evidence file `kind` with exactly this text. */
  ghost predicate Holds(p: Place, kind: FileKind, text: string) {
    || (p.staged.Some? && p.staged.value.Get(kind).active == Some(text))
    || (p.final.Some? && p.final.value.Get(kind).active == Some(text))
  }

  /** Every evidence file was opened at most once and is absent, a partial temporary, or complete. */
  ghost predicate SlotOk(slot: Slot) {
    && slot.opens <= 1
    && (slot.opens == 0 ==> slot == EmptySlot)
    && (slot.active.Some? ==> slot.temp.None? && slot.active.value == slot.target)
    && (slot.temp.Some? ==> slot.temp.value <= slot.target)
  }

  ghost predicate DirectoryOk(dir: Directory) {
    SlotOk(dir.start) && SlotOk(dir.stop) && SlotOk(dir.manifest)
  }

  ghost predicate PlaceOk(p: Place) {
    && !(p.staged.Some? && p.final.Some?)
    && (p.staged.Some? ==> DirectoryOk(p.staged.value))
    && (p.final.Some? ==> DirectoryOk(p.final.value))
  }

  ghost predicate SlotKept(slot: Slot, slot': Slot) {
    slot.active.Some? ==> slot'.active == slot.active
  }

  ghost predicate DirectoryKept(dir: Directory, dir': Directory) {
    && SlotKept(dir.start, dir'.start)
    && SlotKept(dir.stop, dir'.stop)
    && SlotKept(dir.manifest, dir'.manifest)
  }

  /**
   How a place may change from one moment to a later one: a finalized directory is untouched,
   and a staged directory stays or is moved, its activated files never rewritten.
   */
  ghost predicate PlaceGrows(p: Place, p': Place) {
    && (p.final.Some? ==> p'.final == p.final)
    && (p.staged.Some? ==>
          || (p'.staged.Some? && DirectoryKept(p.staged.value, p'.staged.value))
          || (p'.final.Some? && DirectoryKept(p.staged.value, p'.final.value)))
  }

  lemma PlaceGrowsTransitive(a: Place, b: Place, c: Place)
    requires PlaceOk(b) && PlaceGrows(a, b) && PlaceGrows(b, c)
    ensures PlaceGrows(a, c)
  {
  }

  lemma HoldsGrows(p: Place, p': Place, kind: FileKind, text: string)
    requires PlaceGrows(p, p') && Holds(p, kind, text)
    ensures Holds(p', kind, text)
  {
  }

  /** What holds of the file a job writes, between the job's steps. */
  ghost predicate SlotStageOk(slot: Slot, bytes: string, stage: JobStage) {
    match stage
    case Opening => slot.opens == 0
    case Writing(done) =>
      slot.target == bytes && done <= |bytes| && slot.temp == Some(bytes[..done]) && slot.active.None?
    case Renaming => slot.target == bytes && slot.temp == Some(bytes) && slot.active.None?
    case SyncingDirectory => slot.active == Some(bytes)
  }

  ghost predicate JobOk(p: Place, job: WriteJob) {
    && (job.stage != Opening ==> p.staged.Some?)
    && (p.staged.Some? ==> SlotStageOk(p.staged.value.Get(job.kind), job.bytes, job.stage))
  }

  lemma SlotStepOk(slot: Slot, bytes: string, stage: JobStage, io: Io)
    requires SlotOk(slot) && SlotStageOk(slot, bytes, stage)
    ensures var r := SlotStep(slot, bytes, stage, io);
            && (r.SlotRunning? ==>
                  && r.stage != Opening
                  && SlotOk(r.slot) && SlotKept(slot, r.slot)
                  && SlotStageOk(r.slot, bytes, r.stage))
            && (r.SlotCompleted? ==> slot.active == Some(bytes))
  {
    assert bytes[..|bytes|] == bytes && bytes[..0] == "";
  }

  /** Every system call of the write protocol keeps the place conforming and the job on track. */
  lemma JobStepOk(p: Place, job: WriteJob, io: Io)
    requires PlaceOk(p) && JobOk(p, job)
    ensures var r := JobStep(p, job, io);
            && (r.Running? ==>
                  && p.staged.Some? && r.place.staged.Some? && r.place.final == p.final
                  && PlaceOk(r.place) && PlaceGrows(p, r.place)
                  && r.place.staged.value ==
                     p.staged.value.Put(job.kind, r.place.staged.value.Get(job.kind))
                  && r.job == job.(stage := r.job.stage) && r.job.stage != Opening
                  && JobOk(r.place, r.job))
            && (r.Completed? ==>
                  p.staged.Some? && p.staged.value.Get(job.kind).active == Some(job.bytes))
  {
    if p.staged.Some? {
      SlotStepOk(p.staged.value.Get(job.kind), job.bytes, job.stage, io);
    }
  }
}
