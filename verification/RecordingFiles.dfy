/**
 The two file writers of a recording as they run: the write loop of an evidence file with its
 short and interrupted writes, and the append-only sidecar with its order check.
 */
module RecordingFiles {
  import opened Wrappers
  import opened FrameIdentity
  import opened RecordingTypes
  import opened RecordingStore
  import opened RecordingLifecycle

  datatype Outcome = Done | Failed | Crashed

  /** The write protocol under a script of call results; running out of script is a crash. */
  function RunSlot(slot: Slot, bytes: string, stage: JobStage, script: seq<Io>): (Slot, Outcome)
    decreases |script|
  {
    if script == [] then (slot, Crashed)
    else
      match SlotStep(slot, bytes, stage, script[0])
      case SlotRunning(slot', stage') => RunSlot(slot', bytes, stage', script[1..])
      case SlotCompleted => (slot, Done)
      case SlotFailed => (slot, Failed)
  }

  /**
   However the calls turn out and wherever the process dies, a fresh evidence file is absent or
   complete, `Done` means complete, and a temporary that stays behind is a prefix.
   */
  lemma {:induction false} AtomicWrite(slot: Slot, bytes: string, stage: JobStage, script: seq<Io>)
    requires SlotOk(slot) && SlotStageOk(slot, bytes, stage)
    ensures var r := RunSlot(slot, bytes, stage, script);
            && (r.0.active.None? || r.0.active == Some(bytes))
            && (r.0.temp.Some? ==> r.0.temp.value <= bytes)
            && (r.1 == Done ==> r.0.active == Some(bytes) && r.0.temp.None?)
    decreases |script|
  {
    SlotBounds(slot, bytes, stage);
    if script != [] {
      SlotStepOk(slot, bytes, stage, script[0]);
      var r := SlotStep(slot, bytes, stage, script[0]);
      if r.SlotRunning? {
        AtomicWrite(r.slot, bytes, r.stage, script[1..]);
      }
    }
  }

  lemma SlotBounds(slot: Slot, bytes: string, stage: JobStage)
    requires SlotOk(slot) && SlotStageOk(slot, bytes, stage)
    ensures slot.active.None? || slot.active == Some(bytes)
    ensures slot.temp.Some? ==> slot.temp.value <= bytes
  {
  }

  /** The last calls, unfolded: fsync, rename, and fsync of the directory. */
  lemma LastCalls(slot: Slot, bytes: string, script: seq<Io>)
    requires slot.temp.Some?
    ensures var r := RunSlot(slot, bytes, Writing(|bytes|), script);
            var renamed := slot.(active := slot.temp, temp := None);
            if script == [] then r == (slot, Crashed)
            else if script[0].Fail? then r == (slot, Failed)
            else if |script| == 1 then r == (slot, Crashed)
            else if script[1].Fail? then r == (slot, Failed)
            else if |script| == 2 then r == (renamed, Crashed)
            else r == (renamed, if script[2].Fail? then Failed else Done)
  {
    if |script| > 0 && !script[0].Fail? {
      assert RunSlot(slot, bytes, Writing(|bytes|), script) == RunSlot(slot, bytes, Renaming, script[1..]);
      if |script| > 1 && !script[1].Fail? {
        assert RunSlot(slot, bytes, Renaming, script[1..]) ==
               RunSlot(slot.(active := slot.temp, temp := None), bytes, SyncingDirectory, script[1..][1..]);
      }
    }
  }

  class EvidenceFile {
    var active: Option<string>
    var temp: Option<string>
    ghost var target: string
    ghost var opens: nat

    ghost function View(): Slot
      reads this
    {
      RecordingStore.Slot(active, temp, target, opens)
    }

    constructor ()
      ensures View() == EmptySlot
    {
      active, temp, target, opens := None, None, "", 0;
    }

    /** Create the temporary, write until everything is out, fsync, rename, fsync the directory. */
    method WriteAtomically(bytes: string, script: seq<Io>) returns (outcome: Outcome)
      modifies this
      ensures (View(), outcome) == RunSlot(old(View()), bytes, Opening, script)
    {
      if script == [] { return Crashed; }
      if script[0].Fail? || temp.Some? { return Failed; }
      temp, target, opens := Some(""), bytes, opens + 1;
      var i, total := 1, 0;
      while total < |bytes|
        invariant 1 <= i <= |script| && 0 <= total <= |bytes| && temp.Some?
        invariant RunSlot(old(View()), bytes, Opening, script) == RunSlot(View(), bytes, Writing(total), script[i..])
        decreases |script| - i
      {
        if i == |script| { return Crashed; }
        var written := script[i];
        i := i + 1;
        if written.Interrupted? { continue; }
        if written.Ok? {
          temp, total := Some(bytes), |bytes|;
        } else if written.Short? && 0 < written.count <= |bytes| - total {
          temp, total := Some(bytes[..total + written.count]), total + written.count;
        } else {
          return Failed;
        }
      }
      LastCalls(View(), bytes, script[i..]);
      if i == |script| { return Crashed; }
      if script[i].Fail? { return Failed; }
      if i + 1 == |script| { return Crashed; }
      if script[i + 1].Fail? { return Failed; }
      active, temp := temp, None;
      if i + 2 == |script| { return Crashed; }
      if script[i + 2].Fail? { return Failed; }
      return Done;
    }
  }

  class SidecarWriter {
    var lines: seq<Entry>
    var entryCount: nat
    var last: Option<Identity>
    var finalized: bool

    ghost predicate Valid()
      reads this
    {
      && entryCount == |lines|
      && (last.None? <==> lines == [])
      && (last.Some? ==> last.value == lines[|lines| - 1].identity)
    }

    constructor ()
      ensures Valid() && lines == [] && !finalized
    {
      lines, entryCount, last, finalized := [], 0, None, false;
    }

    /** Appends exactly when the writer is open, the line is next in order, and the I/O succeeds. */
    method Append(e: Entry, ioOk: bool) returns (ok: bool)
      requires Valid()
      modifies this
      ensures Valid() && finalized == old(finalized)
      ensures ok <==> !old(finalized) && SidecarAccepts(old(lines), e) && ioOk
      ensures lines == if ok then old(lines) + [e] else old(lines)
    {
      if finalized || e.index != entryCount || e.pts < 0 ||
         (last.Some? && !StrictlyAfter(e.identity, last.value)) {
        return false;
      }
      if !ioOk { return false; }
      lines := lines + [e];
      last := Some(e.identity);
      entryCount := entryCount + 1;
      return true;
    }

    method Finalize(ioOk: bool) returns (ok: bool)
      requires Valid()
      modifies this
      ensures Valid() && lines == old(lines)
      ensures ok == (old(finalized) || ioOk) && finalized == ok
    {
      if finalized { return true; }
      if !ioOk { return false; }
      finalized := true;
      return true;
    }
  }
}
