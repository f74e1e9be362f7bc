/**
 The manager object itself: the mutex-guarded fields with their ring of frames, and the blocks
 that the threads run under the mutex. `View` is the memory of the lifecycle state machine;
 every block is proved to compute the state machine's own step on it, so the ring is a queue.
 */
module RecordingManager {
  import opened Wrappers
  import opened FrameIdentity
  import opened RecordingTypes
  import opened RecordingStore
  import opened RecordingLifecycle
  import opened RecordingFiles

  // ----- the ring as a value -----

  /** Index of the k-th slot from the head. */
  function SlotIndex(head: nat, length: nat, k: nat): nat {
    if head + k < length then head + k else head + k - length
  }

  lemma Wraps(length: nat, i: nat)
    requires i < length
    ensures (i + 1) % length == if i + 1 < length then i + 1 else 0
  {
    if i + 1 < length { assert (i + 1) / length == 0; } else { assert (i + 1) / length == 1; }
  }

  /** The `count` slots from the head are taken, the others are empty, the tail is the next one. */
  ghost predicate RingOk(slots: seq<Option<Frame>>, head: nat, tail: nat, count: nat) {
    && head < |slots| && tail < |slots| && count <= |slots|
    && tail == SlotIndex(head, |slots|, if count == |slots| then 0 else count)
    && (forall k :: 0 <= k < count ==> slots[SlotIndex(head, |slots|, k)].Some?)
    && (forall k :: count <= k < |slots| ==> slots[SlotIndex(head, |slots|, k)].None?)
  }

  ghost function QueueOf(slots: seq<Option<Frame>>, head: nat, count: nat): (q: seq<Frame>)
    requires head < |slots| && count <= |slots|
    requires forall k :: 0 <= k < count ==> slots[SlotIndex(head, |slots|, k)].Some?
  {
    seq(count, k requires 0 <= k < count => slots[SlotIndex(head, |slots|, k)].value)
  }

  /** Writing at the tail appends to the queue. */
  lemma PushIsAppend(slots: seq<Option<Frame>>, head: nat, tail: nat, count: nat, f: Frame)
    requires RingOk(slots, head, tail, count) && count < |slots|
    ensures var slots', tail' := slots[tail := Some(f)], (tail + 1) % |slots|;
            && RingOk(slots', head, tail', count + 1)
            && QueueOf(slots', head, count + 1) == QueueOf(slots, head, count) + [f]
  {
    Wraps(|slots|, tail);
    var slots' := slots[tail := Some(f)];
    forall k | 0 <= k < |slots| && k != count
      ensures slots'[SlotIndex(head, |slots|, k)] == slots[SlotIndex(head, |slots|, k)]
    {
    }
  }

  /** Clearing the head removes the first frame of the queue. */
  lemma PopIsTail(slots: seq<Option<Frame>>, head: nat, tail: nat, count: nat)
    requires RingOk(slots, head, tail, count) && count > 0
    ensures var slots', head' := slots[head := None], (head + 1) % |slots|;
            && RingOk(slots', head', tail, count - 1)
            && slots[head] == Some(QueueOf(slots, head, count)[0])
            && QueueOf(slots', head', count - 1) == QueueOf(slots, head, count)[1..]
  {
    Wraps(|slots|, head);
    var slots', head', n := slots[head := None], (head + 1) % |slots|, |slots|;
    assert SlotIndex(head, n, 0) == head;
    forall k | 0 <= k < n - 1
      ensures SlotIndex(head', n, k) == SlotIndex(head, n, k + 1) != head
    {
    }
    assert SlotIndex(head', n, n - 1) == head;
    forall k | 0 <= k < count - 1 ensures slots'[SlotIndex(head', n, k)].Some? {
      assert slots[SlotIndex(head, n, k + 1)].Some?;
    }
    forall k | count - 1 <= k < n ensures slots'[SlotIndex(head', n, k)].None? {
      if k < n - 1 { assert slots[SlotIndex(head, n, k + 1)].None?; }
    }
  }

  lemma EmptyRingOk(slots: seq<Option<Frame>>)
    requires |slots| > 0 && forall k :: 0 <= k < |slots| ==> slots[k].None?
    ensures RingOk(slots, 0, 0, 0) && QueueOf(slots, 0, 0) == []
  {
  }

  class Manager {
    var ring: array<Option<Frame>>
    var head: nat
    var tail: nat
    var count: nat

    var state: RecordingState
    var admitting: bool
    var stopRequested: bool
    var ledger: Ledger
    var stopReason: StopReason
    var admitted: nat
    var submitted: nat
    var fullDrops: nat
    var contentionDrops: nat
    var seen: Seen
    var started: Clock
    var artifact: Option<RecId>

    ghost predicate Valid()
      reads this, ring
    {
      RingOk(ring[..], head, tail, count)
    }

    ghost function Queue(): seq<Frame>
      requires Valid()
      reads this, ring
    {
      QueueOf(ring[..], head, count)
    }

    ghost function View(): Memory
      requires Valid()
      reads this, ring
    {
      Memory(state, admitting, stopRequested, ledger, stopReason,
             Flow(Queue(), admitted, submitted, fullDrops, contentionDrops), seen, started, artifact)
    }

    constructor (capacity: nat)
      requires capacity > 0
      ensures Valid() && fresh(ring) && ring.Length == capacity
      ensures View() == InitialMemory
    {
      ring := new Option<Frame>[capacity](_ => None);
      head, tail, count := 0, 0, 0;
      state, admitting, stopRequested := Idle, false, false;
      ledger := Ledger(NoId, None, None);
      stopReason := ApplicationShutdown;
      admitted, submitted, fullDrops, contentionDrops := 0, 0, 0, 0;
      seen, started, artifact := Unseen, NoClock, None;
      new;
      EmptyRingOk(ring[..]);
    }

    /** The slot at the tail takes the frame. */
    method Push(frame: Frame)
      requires Valid() && count < ring.Length
      modifies ring, `tail, `count
      ensures Valid() && Queue() == old(Queue()) + [frame]
    {
      PushIsAppend(ring[..], head, tail, count, frame);
      ghost var slots := ring[..][tail := Some(frame)];
      ring[tail] := Some(frame);
      assert ring[..] == slots;
      tail := (tail + 1) % ring.Length;
      count := count + 1;
    }

    /** The capture thread's attempt; `contended` is a failed try-lock. */
    method TrySubmitFrame(frame: Frame, contended: bool) returns (accepted: bool)
      requires Valid()
      modifies this, ring
      ensures Valid() && ring == old(ring)
      ensures forall cfg: Config, s: System |
                cfg.capacity == ring.Length && s.mem == old(View()) && (contended || MutexFree(s)) ::
                View() == DoSubmit(cfg, s, frame, contended).mem
      ensures accepted <==> !contended && old(state) == Recording && old(count) < ring.Length
    {
      assert |Queue()| == count <= ring.Length;
      hide RingOk, QueueOf;
      if contended {
        if admitting { contentionDrops := contentionDrops + 1; }
        return false;
      }
      if state != Recording { return false; }
      if count == ring.Length {
        fullDrops := fullDrops + 1;
        return false;
      }
      Push(frame);
      admitted := admitted + 1;
      return true;
    }

    /** End of the worker's locked block: None leaves the loop. */
    method TakeOrLeave() returns (frame: Option<Frame>)
      requires Valid()
      requires count > 0 || stopRequested      // AdmissionAndRing: the ring never underflows
      modifies this, ring
      ensures Valid() && ring == old(ring)
      ensures forall s: System | s.mem == old(View()) ::
                && View() == RecordingLifecycle.TakeOrLeave(s).mem
                && RecordingLifecycle.TakeOrLeave(s).worker ==
                   (if frame.Some? then Dequeued(frame.value) else Closing(CheckVideo))
    {
      if count == 0 && stopRequested { return None; }
      PopIsTail(ring[..], head, tail, count);
      ghost var slots := ring[..][head := None];
      frame := ring[head];
      ring[head] := None;
      assert ring[..] == slots;
      head := (head + 1) % ring.Length;
      count := count - 1;
    }

    /** Account for an encoded frame. */
    method CountFrame(f: Frame)
      requires Valid()
      modifies this
      ensures Valid() && ring == old(ring)
      ensures forall s: System | s.mem == old(View()) && MutexFree(s) :: View() == DoCount(s, f).mem
    {
      seen := if seen.Seen? then Seen(seen.first, f.identity) else Seen(f.identity, f.identity);
      submitted := submitted + 1;
    }

    method ClearRing()
      modifies ring
      ensures forall k :: 0 <= k < ring.Length ==> ring[k].None?
    {
      var i := 0;
      while i < ring.Length
        invariant 0 <= i <= ring.Length
        invariant forall k :: 0 <= k < i ==> ring[k].None?
      {
        ring[i] := None;
        i := i + 1;
      }
    }

    /** Empty the ring and zero the counters. */
    method ResetFlow()
      requires Valid()
      modifies this, ring
      ensures Valid() && ring == old(ring)
      ensures View() == old(View()).(flow := EmptyFlow)
    {
      assert ring.Length > 0;
      ClearRing();
      EmptyRingOk(ring[..]);
      head, tail, count := 0, 0, 0;
      admitted, submitted, fullDrops, contentionDrops := 0, 0, 0, 0;
    }

    /** The end of a start: `threadOk` is false when the worker thread cannot be created. */
    method CommitStart(cfg: Config, r: Request, clock: Clock, threadOk: bool)
      requires Valid()
      modifies this, ring
      ensures Valid() && ring == old(ring)
      ensures View() == CommitMemory(cfg, old(View()), r, clock, threadOk)
    {
      hide RingOk, QueueOf;
      ResetFlow();
      ledger := Ledger(r.recordingId, Some(Ticket(r.requestId, StartCanonical(cfg, r))), None);
      stopRequested := false;
      stopReason := ApplicationShutdown;
      seen := Unseen;
      started := clock;
      state := if threadOk then Recording else Faulted;
      admitting := threadOk;
    }

    method RestorePersisted(id: RecId, finalized: bool, start: Option<Ticket>, stop: Option<Ticket>, reason: StopReason)
      requires Valid()
      modifies this, ring
      ensures Valid() && ring == old(ring)
      ensures View() == RestoreMemory(old(View()), id, finalized, start, stop, reason)
    {
      hide RingOk, QueueOf;
      ResetFlow();
      artifact := Some(id);
      ledger := Ledger(id, start, stop);
      started := NoClock;
      stopReason := reason;
      seen := Unseen;
      stopRequested := true;
      admitting := false;
      state := if finalized then Finalized else Faulted;
    }

    /**
     Entering finalization: write the stop evidence, then look at the clock; `late` is its answer.
     A written text that came late fails like one that was not written.
     */
    method BeginFinalization(cause: Cause, file: EvidenceFile, script: seq<Io>, late: bool) returns (outcome: Outcome)
      requires Valid()
      modifies this, file
      ensures Valid() && ring == old(ring)
      ensures var r := RunSlot(old(file.View()), cause.bytes, Opening, script);
              file.View() == r.0 && outcome == if r.1 == Done && late then Failed else r.1
      ensures outcome != Crashed ==>
                View() == if outcome == Done then AcceptStop(BeginMemory(old(View())), cause)
                          else BeginMemory(old(View())).(state := Faulted)
    {
      hide RingOk, QueueOf, RunSlot;
      state := Finalizing;
      admitting := false;
      stopRequested := true;
      outcome := file.WriteAtomically(cause.bytes, script);
      if outcome == Crashed { return; }
      if outcome == Failed || late {
        state := Faulted;
        return Failed;
      }
      stopReason := cause.reason;
      ledger := ledger.(stop := if cause.requestId.Some? then Some(Ticket(cause.requestId.value, cause.bytes)) else None);
    }

    /** Last locked block of a worker that activated its artifact. */
    method Publish()
      requires Valid()
      modifies this
      ensures Valid() && ring == old(ring)
      ensures forall s: System | s.mem == old(View()) && MutexFree(s) :: View() == DoPublish(s).mem
    {
      state := Finalized;
    }

    /** Last locked block of a worker that caught an exception. */
    method Catch()
      requires Valid()
      modifies this
      ensures Valid() && ring == old(ring)
      ensures forall s: System | s.mem == old(View()) && MutexFree(s) :: View() == DoCatch(s).mem
    {
      state := Faulted;
      admitting := false;
      stopRequested := true;
    }
  }
}
