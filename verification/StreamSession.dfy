/**
 One HTTP session on the I/O thread. Every completion handler is one step, with the error code
 and the preview it would fetch as inputs. A session that streams writes its header, then one
 part per newer preview, and otherwise waits for a notification or for its idle timer.
 */
module StreamSession {
  import opened Wrappers
  import opened FrameIdentity

  datatype Kind = Color | Depth

  /**
   Handlers that have not run yet: of the socket, and of the idle timer. An armed wait can still
   be cancelled; one that has expired runs with success whatever happens, one that was cancelled
   runs with `operation_aborted`.
   */
  datatype Outstanding = Outstanding(
    requests: nat,
    responses: nat,
    headers: nat,
    parts: nat,
    armed: bool,
    expired: nat,
    aborted: nat)

  /** What an observer counts; no handler reads it. */
  datatype Observed = Observed(
    parts: seq<Identity>,        // parts handed to the socket, in order
    closings: nat,               // calls of the closed handler
    notified: nat,               // notifications of this stream since the header was written
    covered: nat,                // value of `notified` at the last fetch of the latest preview
    overtaken: nat)              // expired idle waits that a notification came before

  datatype Session = Session(
    streaming: bool,
    kind: Kind,
    finished: bool,
    writing: bool,
    refresh: bool,
    lastSent: Option<Identity>,
    initial: Option<Identity>,
    part: Option<Identity>,
    ops: Outstanding,
    seen: Observed)

  const InitialSession :=
    Session(false, Color, false, false, false, None, None, None,
            Outstanding(1, 0, 0, 0, false, 0, 0), Observed([], 0, 0, 0, 0))

  /** What the request turns out to be. A stream is Refused when it is disabled. */
  datatype Request = Other | Refused | Stream(kind: Kind)

  datatype Event =
    | ReadDone(error: bool, request: Request, fetched: Option<Identity>, admitted: bool)
    | ResponseDone
    | HeaderDone(error: bool, fetched: Option<Identity>)
    | PartDone(error: bool, fetched: Option<Identity>)
    | Notify(kind: Kind, fetched: Option<Identity>)
    | TimerExpires
    | ExpiredRuns
    | AbortedRuns

  /** Cancelling the timer reaches a wait that is still armed, and no other. */
  function DisarmTimer(o: Outstanding): Outstanding {
    if o.armed then o.(armed := false, aborted := o.aborted + 1) else o
  }

  function CancelSession(s: Session): Session {
    if s.finished then s
    else s.(finished := true, ops := DisarmTimer(s.ops), seen := s.seen.(closings := s.seen.closings + 1))
  }

  function WaitForFrame(s: Session): Session {
    if s.finished then s else s.(ops := DisarmTimer(s.ops).(armed := true))
  }

  predicate Sendable(s: Session, frame: Option<Identity>) {
    frame.Some? && (s.lastSent.Some? ==> StrictlyAfter(frame.value, s.lastSent.value))
  }

  function WritePart(s: Session, frame: Identity): Session {
    s.(part := Some(frame), writing := true, refresh := false,
       ops := s.ops.(parts := s.ops.parts + 1), seen := s.seen.(parts := s.seen.parts + [frame]))
  }

  /** Uses up the initial frame, or fetches the latest preview. */
  function WriteLatest(s: Session, fetched: Option<Identity>): Session {
    if s.finished || s.writing then s
    else
      var frame := if s.initial.Some? then s.initial else fetched;
      var taken :=
        if s.initial.Some? then s.(initial := None) else s.(seen := s.seen.(covered := s.seen.notified));
      if Sendable(s, frame) then WritePart(taken, frame.value) else WaitForFrame(taken)
  }

  function SendResponse(s: Session): Session {
    s.(ops := s.ops.(responses := s.ops.responses + 1))
  }

  /** The stream is admitted only after an initial frame was found. */
  predicate AsksAdmission(e: Event) {
    e.ReadDone? && !e.error && e.request.Stream? && e.fetched.Some?
  }

  function HandleRead(s: Session, e: Event): Session
    requires e.ReadDone?
  {
    if e.error then CancelSession(s)
    else if !AsksAdmission(e) || !e.admitted then SendResponse(s)
    else
      s.(streaming := true, kind := e.request.kind, initial := e.fetched, writing := true,
         ops := s.ops.(headers := s.ops.headers + 1))
  }

  function HandleHeader(s: Session, error: bool, fetched: Option<Identity>): Session {
    var idle := s.(writing := false);
    if error || s.finished then CancelSession(idle) else WriteLatest(idle, fetched)
  }

  function HandlePart(s: Session, error: bool, fetched: Option<Identity>): Session {
    var idle := s.(writing := false);
    if error || s.finished then CancelSession(idle)
    else
      var sent := idle.(lastSent := s.part, part := None);
      if s.refresh then WriteLatest(sent.(refresh := false), fetched) else WaitForFrame(sent)
  }

  predicate HeaderPending(s: Session) {
    s.ops.headers > 0
  }

  function NotifyStreamFrame(s: Session, kind: Kind, fetched: Option<Identity>): Session {
    if s.finished || !s.streaming || kind != s.kind then s
    else
      var noted := s.(seen := s.seen.(notified := s.seen.notified + if HeaderPending(s) then 0 else 1));
      if s.writing then noted.(refresh := true)
      else
        WriteLatest(noted.(ops := DisarmTimer(s.ops), seen := noted.seen.(overtaken := s.ops.expired)), fetched)
  }

  /** Handlers run in the order they became ready, so an overtaken wait runs before a later one. */
  function RunExpired(s: Session): Session
    requires s.ops.expired > 0
  {
    CancelSession(s.(ops := s.ops.(expired := s.ops.expired - 1),
                     seen := s.seen.(overtaken := if s.seen.overtaken > 0 then s.seen.overtaken - 1 else 0)))
  }

  /** One step of the I/O thread; a handler that is not outstanding does not run. */
  function Step(s: Session, e: Event): Session {
    match e
    case ReadDone(_, _, _, _) =>
      if s.ops.requests == 0 then s else HandleRead(s.(ops := s.ops.(requests := s.ops.requests - 1)), e)
    case ResponseDone =>
      if s.ops.responses == 0 then s else CancelSession(s.(ops := s.ops.(responses := s.ops.responses - 1)))
    case HeaderDone(error, fetched) =>
      if s.ops.headers == 0 then s
      else HandleHeader(s.(ops := s.ops.(headers := s.ops.headers - 1)), error, fetched)
    case PartDone(error, fetched) =>
      if s.ops.parts == 0 then s
      else HandlePart(s.(ops := s.ops.(parts := s.ops.parts - 1)), error, fetched)
    case Notify(kind, fetched) => NotifyStreamFrame(s, kind, fetched)
    case TimerExpires =>
      if s.ops.armed then s.(ops := s.ops.(armed := false, expired := s.ops.expired + 1)) else s
    case ExpiredRuns => if s.ops.expired == 0 then s else RunExpired(s)
    case AbortedRuns => if s.ops.aborted == 0 then s else s.(ops := s.ops.(aborted := s.ops.aborted - 1))
  }

  function Exec(s: Session, run: seq<Event>): Session
    decreases |run|
  {
    if run == [] then s else Exec(Step(s, run[0]), run[1..])
  }

  // ----- invariant -----

  /** The idle wait in force: armed, or expired with its handler still to run. */
  function IdleWaits(s: Session): int {
    (if s.ops.armed then 1 else 0) + s.ops.expired - s.seen.overtaken
  }

  function CurrentOperations(s: Session): int {
    s.ops.requests + s.ops.responses + s.ops.headers + s.ops.parts + IdleWaits(s)
  }

  /** The parts so far end with the last one sent, or with the one being written. */
  ghost predicate PartsOk(s: Session) {
    && Increasing(s.seen.parts)
    && (if s.part.Some? then s.seen.parts != [] && s.part == Some(s.seen.parts[|s.seen.parts| - 1])
        else if s.lastSent.Some? then s.seen.parts != [] && s.lastSent == Some(s.seen.parts[|s.seen.parts| - 1])
        else s.seen.parts == [])
  }

  ghost predicate LiveOk(s: Session) {
    && CurrentOperations(s) == 1
    && s.seen.overtaken <= s.ops.expired
    && s.writing == (s.ops.headers + s.ops.parts == 1)
    && s.streaming == (s.ops.requests + s.ops.responses == 0)
    && (!s.streaming ==> s.ops.expired == 0 && s.seen.parts == [] && s.seen.notified == 0)
    && s.initial.Some? == (s.ops.headers == 1)
    && s.part.Some? == (s.ops.parts == 1)
    && (s.ops.headers == 1 ==> s.seen.parts == [] && s.seen.notified == 0)
    && (s.refresh ==> s.writing)
    && s.seen.covered <= s.seen.notified
    && (s.seen.covered < s.seen.notified ==> s.refresh && s.ops.parts == 1)
    && PartsOk(s)
  }

  ghost predicate SessionOk(s: Session) {
    && s.seen.closings == (if s.finished then 1 else 0)
    && Increasing(s.seen.parts)
    && (if s.finished then s.ops.requests == 0 else LiveOk(s))
  }

  lemma StepOk(s: Session, e: Event)
    requires SessionOk(s)
    ensures SessionOk(Step(s, e))
  {
    hide Increasing;
    match e
    case Notify(_, fetched) => if fetched.Some? { PartAppended(s, fetched.value); }
    case PartDone(_, fetched) => if fetched.Some? { PartAppended(s, fetched.value); }
    case HeaderDone(_, _) => if s.initial.Some? { PartAppended(s, s.initial.value); }
    case ReadDone(_, _, _, _) =>
    case ResponseDone =>
    case TimerExpires =>
    case ExpiredRuns =>
    case AbortedRuns =>
  }

  lemma PartAppended(s: Session, frame: Identity)
    requires Increasing(s.seen.parts)
    ensures s.seen.parts == [] || StrictlyAfter(frame, s.seen.parts[|s.seen.parts| - 1]) ==>
              Increasing(s.seen.parts + [frame])
  {
    if s.seen.parts == [] || StrictlyAfter(frame, s.seen.parts[|s.seen.parts| - 1]) {
      IncreasingAppend(s.seen.parts, frame);
    }
  }

  lemma {:induction false} RunOk(s: Session, run: seq<Event>)
    requires SessionOk(s)
    ensures SessionOk(Exec(s, run))
    decreases |run|
  {
    if run != [] {
      StepOk(s, run[0]);
      RunOk(Step(s, run[0]), run[1..]);
    }
  }
}
