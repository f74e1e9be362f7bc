/**
 What can be told from the marks alone, without looking into the client: the session in force,
 whether its catalog was accepted, how many writes it has seen, and the state last delivered.
 `Lawful` is the protocol: which mark may come next.
 */
module PilotObserver {
  import opened Wrappers
  import opened PilotClient

  /** Everything since the last registration request, and a few totals of the client run. */
  datatype View = View(
    last: Option<Message>,               // last message sent
    awaiting: bool,                      // it has not been answered
    registration: Option<Registration>,  // accepted since the last registration request
    catalog: Option<CatalogReply>,       // accepted for that registration
    writes: nat,                         // heartbeats and states sent since then
    delivered: Option<CommonState>,      // state carried by the last accepted registration or write
    refused: bool,                       // the session was refused or a write was not accepted
    faulted: bool,                       // an answer was a contract fault
    ignored: bool,                       // an answer came in after the stop
    publishRests: nat,                   // waits between catalog requests of this registration
    paused: bool,                        // such a wait since the last message
    rested: bool,                        // a backoff wait since the last message
    backoffs: nat,                       // backoff waits since a catalog was last accepted
    sessions: set<string>,               // every session accepted in this client run
    stopped: bool,
    late: seq<Message>)                  // messages sent after the stop was asked for

  const NothingSeen := View(None, false, None, None, 0, None, false, false, false, 0, false, false, 0, {}, false, [])

  function ObserveSent(v: View, m: Message): View {
    var w := v.(last := Some(m), awaiting := true, rested := false, paused := false,
                late := if v.stopped then v.late + [m] else v.late);
    match m
    case Register(_) =>
      w.(registration := None, catalog := None, writes := 0, delivered := None, refused := false, publishRests := 0)
    case Heartbeat(_, _) => w.(writes := w.writes + 1)
    case StateUpdate(_, _, _) => w.(writes := w.writes + 1)
    case _ => w
  }

  function ObserveRegistered(v: View, state: CommonState, r: Response): View {
    if RegistrationAccepted(r) then
      v.(registration := r.registration, delivered := Some(state),
         sessions := v.sessions + {r.registration.value.sessionId})
    else if r.status != 201 && IsContractStatus(r.status) then v.(faulted := true)
    else v.(refused := true)
  }

  function ObservePublished(cfg: PilotConfig, v: View, r: Response): View {
    if v.registration.None? then v
    else if CatalogAccepted(cfg, v.registration.value.serverInstanceId, r) then v.(catalog := r.catalog, backoffs := 0)
    else
      match CatalogRefusal(r)
      case Replace => v.(refused := true)
      case Fault => v.(faulted := true)
      case TryAgain => v
  }

  function ObserveWritten(v: View, state: Option<CommonState>, r: Response): View {
    if v.registration.Some? && WriteAccepted(v.registration.value.serverInstanceId, r)
    then v.(delivered := if state.Some? then state else v.delivered)
    else v.(refused := true)
  }

  /** An answer after the stop is not acted upon any more. */
  function ObserveReceived(cfg: PilotConfig, v: View, r: Response): View {
    var w := v.(awaiting := false);
    if v.stopped then w.(ignored := true)
    else if v.last.None? then w
    else
      match v.last.value
      case Register(state) => ObserveRegistered(w, state, r)
      case PutCatalog(_, _) => ObservePublished(cfg, w, r)
      case Heartbeat(_, _) => ObserveWritten(w, None, r)
      case StateUpdate(_, _, state) => ObserveWritten(w, Some(state), r)
      case Disconnect(_) => w
  }

  function ObserveMark(cfg: PilotConfig, v: View, mark: Mark): View {
    match mark
    case Sent(m) => ObserveSent(v, m)
    case Received(r) => ObserveReceived(cfg, v, r)
    case RetriedPublish(_) => v.(publishRests := v.publishRests + 1, paused := true)
    case BackedOff(_) => v.(rested := true, backoffs := v.backoffs + 1)
    case StopAsked => v.(stopped := true)
  }

  function Observe(cfg: PilotConfig, trace: seq<Mark>): View
    decreases |trace|
  {
    if trace == [] then NothingSeen
    else ObserveMark(cfg, Observe(cfg, trace[..|trace| - 1]), trace[|trace| - 1])
  }

  /** What an answer leaves as it is. */
  ghost predicate SameMessages(v: View, w: View) {
    && w.last == v.last && w.writes == v.writes && w.rested == v.rested && w.paused == v.paused
    && w.publishRests == v.publishRests && w.stopped == v.stopped && w.late == v.late
  }

  ghost predicate RegistrationEffect(v: View, w: View, r: Response) {
    && SameMessages(v, w) && w.catalog == v.catalog
    && ((w.registration == v.registration && w.sessions == v.sessions) ||
        (RegistrationAccepted(r) && w.registration == r.registration &&
         w.sessions == v.sessions + {r.registration.value.sessionId}))
    && (w.faulted ==> v.faulted || IsContractStatus(r.status))
  }

  ghost predicate CatalogEffect(cfg: PilotConfig, v: View, w: View, r: Response) {
    && SameMessages(v, w) && w.registration == v.registration && w.sessions == v.sessions
    && (w.catalog == v.catalog ||
        (v.registration.Some? && CatalogAccepted(cfg, v.registration.value.serverInstanceId, r) && w.catalog == r.catalog))
    && (w.faulted ==> v.faulted || CatalogRefusal(r).Fault?)
  }

  lemma RegisteredKeeps(v: View, state: CommonState, r: Response)
    ensures RegistrationEffect(v, ObserveRegistered(v, state, r), r)
  {
    if RegistrationAccepted(r) {
    } else if r.status != 201 && IsContractStatus(r.status) {
    } else {
    }
  }

  lemma PublishedKeeps(cfg: PilotConfig, v: View, r: Response)
    ensures CatalogEffect(cfg, v, ObservePublished(cfg, v, r), r)
  {
    hide CatalogMatches, CatalogRefusal;
    if v.registration.None? {
    } else if CatalogAccepted(cfg, v.registration.value.serverInstanceId, r) {
    } else {
      match CatalogRefusal(r)
      case Replace =>
      case Fault =>
      case TryAgain =>
    }
  }

  lemma WrittenKeeps(cfg: PilotConfig, v: View, state: Option<CommonState>, r: Response)
    ensures CatalogEffect(cfg, v, ObserveWritten(v, state, r), r)
  {
    hide WriteAccepted, CatalogAccepted, CatalogRefusal;
    if v.registration.Some? && WriteAccepted(v.registration.value.serverInstanceId, r) {
    } else {
    }
  }

  /** An answer is to the last message, and has the effect of an answer to that kind of message. */
  lemma ReceivedKeeps(cfg: PilotConfig, v: View, r: Response)
    ensures var w := ObserveReceived(cfg, v, r);
            if RegisterLast(v) then RegistrationEffect(v, w, r) else CatalogEffect(cfg, v, w, r)
  {
    hide ObserveRegistered, ObservePublished, ObserveWritten, CatalogAccepted, CatalogRefusal, RegistrationAccepted;
    var w := v.(awaiting := false);
    if !v.stopped && v.last.Some? {
      match v.last.value
      case Register(state) => RegisteredKeeps(w, state, r);
      case PutCatalog(_, _) => PublishedKeeps(cfg, w, r);
      case Heartbeat(_, _) => WrittenKeeps(cfg, w, None, r);
      case StateUpdate(_, _, state) => WrittenKeeps(cfg, w, Some(state), r);
      case Disconnect(_) =>
    }
  }

  // ----- the protocol -----

  /** The session has its catalog, and none of its writes was turned down. */
  ghost predicate Established(v: View, sessionId: string) {
    && v.registration.Some? && v.registration.value.sessionId == sessionId
    && v.catalog.Some? && !v.refused
  }

  predicate RegisterLast(v: View) {
    v.last.Some? && v.last.value.Register?
  }

  /** The registration came to nothing, the session was refused, or its sequence numbers ran out. */
  ghost predicate SessionEnded(v: View) {
    RegisterLast(v) || v.refused || v.writes >= MAX_SEQUENCE
  }

  ghost predicate MayRegister(v: View) {
    v.last.None? || (v.rested && SessionEnded(v))
  }

  ghost predicate MayPublish(cfg: PilotConfig, v: View, instanceId: string, sessionId: string, body: string) {
    && v.registration.Some? && v.registration.value.sessionId == sessionId
    && v.catalog.None? && !v.refused && v.writes == 0
    && (RegisterLast(v) || v.paused)
    && cfg.publication(instanceId) == Some(body)
  }

  /**
   One request at a time; after a contract fault, or an answer that came after the stop, nothing
   but the disconnect; after a stop one message the worker had already committed to, then one disconnect.
   */
  ghost predicate MayStillSend(v: View, m: Message) {
    && !v.awaiting
    && (v.faulted ==> v.stopped && m.Disconnect?)
    && (v.ignored ==> m.Disconnect?)
    && (v.stopped ==> v.late == [] || (m.Disconnect? && |v.late| == 1 && !v.late[0].Disconnect?))
  }

  ghost predicate MaySend(cfg: PilotConfig, v: View, instanceId: string, m: Message) {
    && MayStillSend(v, m)
    && match m
       case Register(_) => MayRegister(v)
       case PutCatalog(sessionId, body) => MayPublish(cfg, v, instanceId, sessionId, body)
       case Heartbeat(sessionId, sequence) => Established(v, sessionId) && sequence == v.writes + 1 <= MAX_SEQUENCE
       case StateUpdate(sessionId, sequence, _) => Established(v, sessionId) && sequence == v.writes + 1 <= MAX_SEQUENCE
       case Disconnect(sessionId) => v.stopped && sessionId in v.sessions
  }

  /** The k-th wait in a row lasts `Backoff(k)`. */
  ghost predicate MayMark(cfg: PilotConfig, v: View, instanceId: string, mark: Mark) {
    match mark
    case Sent(m) => MaySend(cfg, v, instanceId, m)
    case Received(_) => v.awaiting
    case RetriedPublish(delayMs) => !v.awaiting && delayMs == Backoff(cfg, v.publishRests + 1)
    case BackedOff(delayMs) => !v.awaiting && delayMs == Backoff(cfg, v.backoffs + 1)
    case StopAsked => !v.stopped
  }

  ghost predicate Lawful(cfg: PilotConfig, instanceId: string, trace: seq<Mark>)
    decreases |trace|
  {
    trace != [] ==>
      && Lawful(cfg, instanceId, trace[..|trace| - 1])
      && MayMark(cfg, Observe(cfg, trace[..|trace| - 1]), instanceId, trace[|trace| - 1])
  }

  lemma ObserveMore(cfg: PilotConfig, instanceId: string, trace: seq<Mark>, mark: Mark)
    ensures Observe(cfg, trace + [mark]) == ObserveMark(cfg, Observe(cfg, trace), mark)
    ensures Lawful(cfg, instanceId, trace) && MayMark(cfg, Observe(cfg, trace), instanceId, mark) ==>
              Lawful(cfg, instanceId, trace + [mark])
  {
    assert (trace + [mark])[..|trace|] == trace;
  }

  /** In a lawful trace every mark was allowed by what came before it. */
  lemma {:induction false} LawfulAt(cfg: PilotConfig, instanceId: string, trace: seq<Mark>, i: nat)
    requires Lawful(cfg, instanceId, trace) && i < |trace|
    ensures Lawful(cfg, instanceId, trace[..i])
    ensures MayMark(cfg, Observe(cfg, trace[..i]), instanceId, trace[i])
    decreases |trace|
  {
    if i < |trace| - 1 {
      var before := trace[..|trace| - 1];
      LawfulAt(cfg, instanceId, before, i);
      assert before[..i] == trace[..i];
    }
  }
}
