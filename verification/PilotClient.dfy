/**
 The Pilot client: one worker that registers, publishes its catalog and then writes heartbeats
 and states, against a server that may answer anything. Every block under the client's mutex,
 every load of the stop flag, every request and every response is one step of the worker, so
 updates and a stop can fall between any two of them.
 */
module PilotClient {
  import opened Wrappers

  datatype ProviderState = Starting | Ready | Degraded | Stopping

  /** The state as it goes over the wire; details are always empty. */
  datatype CommonState = CommonState(health: string, reason: string)

  function MakePilotState(state: ProviderState): CommonState {
    match state
    case Ready => CommonState("ready", "")
    case Degraded => CommonState("degraded", "camera_degraded")
    case Stopping => CommonState("stopping", "provider_stopping")
    case Starting => CommonState("starting", "")
  }

  /** `publication` is the catalog request of an instance id, None if it cannot be serialized. */
  datatype PilotConfig = PilotConfig(
    enabled: bool,
    componentId: string,
    descriptorCount: nat,
    publication: string -> Option<string>,
    initialDelayMs: int,
    maxDelayMs: int)

  /** The bounds the configuration parser enforces. */
  ghost predicate ConfigOk(cfg: PilotConfig) {
    1 <= cfg.initialDelayMs <= cfg.maxDelayMs <= 60000
  }

  const MAX_SEQUENCE: nat := 0x7fff_ffff_ffff_ffff
  const MAX_IDENTIFIER_BYTES: nat := 128
  const MAX_BACKOFF_SHIFT: nat := 10

  function Min(a: int, b: int): int {
    if a < b then a else b
  }

  function PowerOfTwo(n: nat): nat {
    if n == 0 then 1 else 2 * PowerOfTwo(n - 1)
  }

  /** Delay before retry number `retry`, counted from 1; the shift is never negative. */
  function Backoff(cfg: PilotConfig, retry: nat): int {
    var shift := Min(retry - 1, MAX_BACKOFF_SHIFT);
    Min(cfg.maxDelayMs, cfg.initialDelayMs * PowerOfTwo(if shift < 0 then 0 else shift))
  }

  // ----- wire -----

  datatype Message =
    | Register(state: CommonState)
    | PutCatalog(sessionId: string, body: string)
    | Heartbeat(sessionId: string, sequence: nat)
    | StateUpdate(sessionId: string, sequence: nat, state: CommonState)
    | Disconnect(sessionId: string)

  datatype Registration = Registration(sessionId: string, serverInstanceId: string, heartbeatMs: nat, leaseMs: nat)

  datatype CatalogReply = CatalogReply(
    componentId: string,
    serverInstanceId: string,
    catalogGeneration: nat,
    sessionGeneration: nat,
    catalogRevision: nat,
    descriptorCount: nat)

  /**
   Any outcome of a request: the status (0 for a transport error), and what the body says when
   read as an error, a registration, a catalog reply or a lifecycle reply.
   */
  datatype Response = Response(
    status: int,
    errorCode: string,
    registration: Option<Registration>,
    catalog: Option<CatalogReply>,
    lifecycle: Option<string>)

  predicate Identifier(name: string) {
    0 < |name| <= MAX_IDENTIFIER_BYTES
  }

  predicate RegistrationAccepted(r: Response) {
    && r.status == 201
    && r.registration.Some?
    && Identifier(r.registration.value.sessionId)
    && Identifier(r.registration.value.serverInstanceId)
    && 0 < r.registration.value.heartbeatMs < r.registration.value.leaseMs
  }

  /** The reply answers this publication: same component, server instance and descriptor count. */
  predicate CatalogMatches(cfg: PilotConfig, serverInstanceId: string, reply: CatalogReply) {
    && reply.componentId == cfg.componentId
    && reply.serverInstanceId == serverInstanceId
    && reply.catalogGeneration > 0
    && reply.sessionGeneration > 0
    && reply.catalogRevision > 0
    && reply.descriptorCount == cfg.descriptorCount
  }

  predicate CatalogAccepted(cfg: PilotConfig, serverInstanceId: string, r: Response) {
    r.status == 200 && r.catalog.Some? && CatalogMatches(cfg, serverInstanceId, r.catalog.value)
  }

  predicate WriteAccepted(serverInstanceId: string, r: Response) {
    r.status == 200 && r.lifecycle == Some(serverInstanceId)
  }

  predicate IsContractStatus(status: int) {
    status == 400 || status == 413 || status == 415
  }

  datatype Disposition = ReplaceSession | ContractFault | Unknown

  function ClassifyCatalogConflict(code: string): Disposition {
    if code in {"stale_catalog_generation", "session_expired", "stale_sequence"} then ReplaceSession
    else if code in {"idempotency_conflict", "duplicate_descriptor_id", "undeclared_endpoint_capability"}
    then ContractFault
    else Unknown
  }

  /** What a catalog response that is not an acceptance leads to. */
  datatype Refusal = Replace | Fault | TryAgain

  function CatalogRefusal(r: Response): Refusal {
    if r.status == 200 then Replace
    else if r.status == 409 then
      if ClassifyCatalogConflict(r.errorCode) == ReplaceSession then Replace else Fault
    else if IsContractStatus(r.status) then Fault
    else if r.status == 404 then Replace
    else TryAgain
  }

  // ----- client -----

  datatype IntegrationState =
    NotEnabled | RegisteringState | Online | Recovering | ContractFaulted | StoppingState | Stopped

  datatype Snapshot = Snapshot(
    state: IntegrationState,
    serverInstanceId: string,
    catalogGeneration: nat,
    descriptorCount: nat,
    retryCount: nat)

  const EmptySnapshot := Snapshot(NotEnabled, "", 0, 0, 0)

  /** Registering: `carried` is the state the request carries. */
  datatype JoinStep =
    | Announcing
    | Composing
    | Registering(carried: CommonState)
    | AwaitingRegistration(carried: CommonState)
    | GotRegistration(carried: CommonState, response: Response)
    | OpeningSession(registration: Registration)
    | Preparing(registration: Registration)

  datatype PublishStep =
    | PublishHead
    | SendingCatalog
    | AwaitingCatalog
    | GotCatalog(response: Response)
    | CountingRetry
    | PublishBackoff

  datatype SessionStep =
    | KeepingCatalog(reply: CatalogReply)
    | GoingOnline
    | SessionHead
    | SessionWait
    | WritingState(pending: ProviderState)
    | WritingHeartbeat
    | AwaitingWrite(written: Option<ProviderState>)
    | GotWrite(written: Option<ProviderState>, response: Response)
    | ConfirmingOnline

  datatype RetryStep = Failing(keepSession: bool) | Bumping | BackingOff

  datatype LeaveStep = LeavingLoop | SayingStopping | Disconnecting | AwaitingDisconnect | SayingStopped

  /** Where the worker is. */
  datatype Pc =
    | NotRunning
    | LoopHead
    | Joining(join: JoinStep)
    | Publishing(registration: Registration, body: string, retries: nat, publish: PublishStep)
    | InSession(session: SessionStep)
    | Retrying(retry: RetryStep)
    | Faulting
    | Leaving(leave: LeaveStep)
    | Returned

  /** What an observer on the wire and at the stop call notes down. */
  datatype Mark =
    | Sent(message: Message)
    | Received(response: Response)
    | RetriedPublish(delayMs: int)
    | BackedOff(delayMs: int)
    | StopAsked

  /** `trace` belongs to the observer: the marks of the current client run. */
  datatype Client = Client(
    started: bool,
    stopRequested: bool,
    current: ProviderState,
    pending: Option<ProviderState>,
    snapshot: Snapshot,
    instanceId: string,
    pc: Pc,
    sessionId: string,
    sequence: nat,
    retries: nat,
    trace: seq<Mark>)

  const InitialClient := Client(false, false, Starting, None, EmptySnapshot, "", NotRunning, "", 1, 0, [])

  datatype Event =
    | StartClient(initial: ProviderState, instanceId: string)
    | UpdateState(state: ProviderState)
    | StopClient
    | JoinWorker
    | WorkerStep(response: Response, timedOut: bool)

  function Note(s: Client, mark: Mark): Client {
    s.(trace := s.trace + [mark])
  }

  function Say(s: Client, state: IntegrationState, pc: Pc): Client {
    s.(snapshot := s.snapshot.(state := state), pc := pc)
  }

  // ----- the calls of the application -----

  function DoStartClient(cfg: PilotConfig, s: Client, initial: ProviderState, instanceId: string): Client {
    if s.started then s
    else
      var begun := s.(started := true, current := initial, pending := None, snapshot := EmptySnapshot);
      if !cfg.enabled then begun
      else
        begun.(instanceId := instanceId, stopRequested := false,
               pc := LoopHead, sessionId := "", sequence := 1, retries := 0, trace := [])
  }

  function DoUpdateState(cfg: PilotConfig, s: Client, state: ProviderState): Client {
    if !s.started || !cfg.enabled then s else s.(current := state, pending := Some(state))
  }

  function DoStopClient(s: Client): Client {
    if !s.started || s.stopRequested then s else Note(s.(stopRequested := true), StopAsked)
  }

  /** The end of `stopClient`, which waits for the worker to return. */
  function DoJoinWorker(s: Client): Client {
    if s.started && s.stopRequested && (s.pc.Returned? || s.pc.NotRunning?)
    then s.(started := false, pc := NotRunning) else s
  }

  function Fail(s: Client, keepSession: bool): Client {
    s.(pc := Retrying(Failing(keepSession)))
  }

  function Leave(s: Client): Client {
    s.(pc := Leaving(LeavingLoop))
  }

  function OrLeave(s: Client, next: Pc): Client {
    s.(pc := if s.stopRequested then Leaving(LeavingLoop) else next)
  }

  // ----- registration -----

  function HandleRegistration(s: Client, r: Response): Client {
    if s.stopRequested then Leave(s)
    else if r.status == 201 then
      if RegistrationAccepted(r) then s.(pc := Joining(OpeningSession(r.registration.value)))
      else Fail(s, true)
    else if IsContractStatus(r.status) then s.(pc := Faulting)
    else Fail(s, true)
  }

  function OpenSession(s: Client, reg: Registration): Client {
    s.(sessionId := reg.sessionId, sequence := 1, pc := Joining(Preparing(reg)),
       snapshot := s.snapshot.(serverInstanceId := reg.serverInstanceId, retryCount := s.retries,
                               catalogGeneration := 0, descriptorCount := 0))
  }

  function PreparePublication(cfg: PilotConfig, s: Client, reg: Registration): Client {
    match cfg.publication(s.instanceId)
    case None => Fail(s, true)                       // the serializer throws inside the try block
    case Some(body) => s.(pc := Publishing(reg, body, 0, PublishHead))
  }

  function DoJoin(cfg: PilotConfig, s: Client, step: JoinStep, r: Response): Client {
    match step
    case Announcing => Say(s, RegisteringState, Joining(Composing))
    case Composing => s.(pc := Joining(Registering(MakePilotState(s.current))))
    case Registering(carried) => Note(s, Sent(Register(carried))).(pc := Joining(AwaitingRegistration(carried)))
    case AwaitingRegistration(carried) => Note(s, Received(r)).(pc := Joining(GotRegistration(carried, r)))
    case GotRegistration(_, response) => HandleRegistration(s, response)
    case OpeningSession(reg) => OpenSession(s, reg)
    case Preparing(reg) => PreparePublication(cfg, s, reg)
  }

  // ----- catalog -----

  function HandleCatalog(cfg: PilotConfig, s: Client, reg: Registration, body: string, retries: nat, r: Response): Client {
    if s.stopRequested then Leave(s)
    else if CatalogAccepted(cfg, reg.serverInstanceId, r) then s.(pc := InSession(KeepingCatalog(r.catalog.value)))
    else
      match CatalogRefusal(r)
      case Replace => Fail(s, false)
      case Fault => s.(pc := Faulting)
      case TryAgain => s.(pc := Publishing(reg, body, retries + 1, CountingRetry))
  }

  function RestPublication(cfg: PilotConfig, s: Client, reg: Registration, body: string, n: nat, timedOut: bool): Client {
    if s.stopRequested then s.(pc := Publishing(reg, body, n, PublishHead))
    else if timedOut then Note(s, RetriedPublish(Backoff(cfg, n))).(pc := Publishing(reg, body, n, PublishHead))
    else s
  }

  function DoPublish(cfg: PilotConfig, s: Client, reg: Registration, body: string, n: nat, step: PublishStep,
                     r: Response, timedOut: bool): Client {
    match step
    case PublishHead => OrLeave(s, Publishing(reg, body, n, SendingCatalog))
    case SendingCatalog =>
      Note(s, Sent(PutCatalog(reg.sessionId, body))).(pc := Publishing(reg, body, n, AwaitingCatalog))
    case AwaitingCatalog => Note(s, Received(r)).(pc := Publishing(reg, body, n, GotCatalog(r)))
    case GotCatalog(response) => HandleCatalog(cfg, s, reg, body, n, response)
    case CountingRetry =>
      s.(snapshot := s.snapshot.(retryCount := n), pc := Publishing(reg, body, n, PublishBackoff))
    case PublishBackoff => RestPublication(cfg, s, reg, body, n, timedOut)
  }

  // ----- session -----

  function KeepCatalog(s: Client, reply: CatalogReply): Client {
    s.(pc := InSession(GoingOnline),
       snapshot := s.snapshot.(serverInstanceId := reply.serverInstanceId,
                               catalogGeneration := reply.catalogGeneration,
                               descriptorCount := reply.descriptorCount))
  }

  /** The wait returns on a stop, on a pending state, or when the heartbeat is due. */
  function WaitInSession(s: Client, timedOut: bool): Client {
    if s.stopRequested then Leave(s)
    else if s.pending.Some? then s.(pending := None, pc := InSession(WritingState(s.pending.value)))
    else if timedOut then s.(pc := InSession(WritingHeartbeat))
    else s
  }

  /** A sequence beyond the public range makes the serializer throw before anything is sent. */
  function SendWrite(s: Client, message: Message, written: Option<ProviderState>): Client {
    var next := s.(sequence := s.sequence + 1);
    if s.sequence > MAX_SEQUENCE then Fail(next, true)
    else Note(next, Sent(message)).(pc := InSession(AwaitingWrite(written)))
  }

  function HandleWrite(s: Client, r: Response): Client {
    if s.stopRequested then Leave(s)
    else if WriteAccepted(s.snapshot.serverInstanceId, r) then s.(pc := InSession(ConfirmingOnline))
    else Fail(s, true)
  }

  function DoSession(s: Client, step: SessionStep, r: Response, timedOut: bool): Client {
    match step
    case KeepingCatalog(reply) => KeepCatalog(s, reply)
    case GoingOnline => Say(s, Online, InSession(SessionHead)).(retries := 0)
    case SessionHead => OrLeave(s, InSession(SessionWait))
    case SessionWait => WaitInSession(s, timedOut)
    case WritingState(state) =>
      SendWrite(s, StateUpdate(s.sessionId, s.sequence, MakePilotState(state)), Some(state))
    case WritingHeartbeat => SendWrite(s, Heartbeat(s.sessionId, s.sequence), None)
    case AwaitingWrite(written) => Note(s, Received(r)).(pc := InSession(GotWrite(written, r)))
    case GotWrite(_, response) => HandleWrite(s, response)
    case ConfirmingOnline => Say(s, Online, InSession(SessionHead))
  }

  // ----- retry and leave -----

  function BackOff(cfg: PilotConfig, s: Client, timedOut: bool): Client {
    if s.stopRequested then s.(pc := LoopHead)
    else if timedOut then Note(s, BackedOff(Backoff(cfg, s.retries))).(pc := LoopHead)
    else s
  }

  function DoRetry(cfg: PilotConfig, s: Client, step: RetryStep, timedOut: bool): Client {
    match step
    case Failing(keep) => Say(s, Recovering, Retrying(Bumping)).(sessionId := if keep then s.sessionId else "")
    case Bumping =>
      s.(retries := s.retries + 1, snapshot := s.snapshot.(retryCount := s.retries + 1), pc := Retrying(BackingOff))
    case BackingOff => BackOff(cfg, s, timedOut)
  }

  function DoLeave(s: Client, step: LeaveStep, r: Response): Client {
    match step
    case LeavingLoop => s.(pc := Leaving(if s.sessionId != "" then SayingStopping else SayingStopped))
    case SayingStopping => Say(s, StoppingState, Leaving(Disconnecting))
    case Disconnecting => Note(s, Sent(Disconnect(s.sessionId))).(pc := Leaving(AwaitingDisconnect))
    case AwaitingDisconnect => Note(s, Received(r)).(pc := Leaving(SayingStopped))
    case SayingStopped => Say(s, Stopped, Returned)
  }

  function DoWorkerStep(cfg: PilotConfig, s: Client, r: Response, timedOut: bool): Client {
    match s.pc
    case NotRunning => s
    case LoopHead => OrLeave(s, Joining(Announcing))
    case Joining(step) => DoJoin(cfg, s, step, r)
    case Publishing(reg, body, n, step) => DoPublish(cfg, s, reg, body, n, step, r, timedOut)
    case InSession(step) => DoSession(s, step, r, timedOut)
    case Retrying(step) => DoRetry(cfg, s, step, timedOut)
    case Faulting => Say(s, ContractFaulted, Returned)
    case Leaving(step) => DoLeave(s, step, r)
    case Returned => s
  }

  // ----- runs -----

  function Apply(cfg: PilotConfig, s: Client, e: Event): Client {
    match e
    case StartClient(initial, instanceId) => DoStartClient(cfg, s, initial, instanceId)
    case UpdateState(state) => DoUpdateState(cfg, s, state)
    case StopClient => DoStopClient(s)
    case JoinWorker => DoJoinWorker(s)
    case WorkerStep(r, timedOut) => DoWorkerStep(cfg, s, r, timedOut)
  }

  function Exec(cfg: PilotConfig, s: Client, events: seq<Event>): Client
    decreases |events|
  {
    if events == [] then s else Exec(cfg, Apply(cfg, s, events[0]), events[1..])
  }
}
