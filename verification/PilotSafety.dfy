/** The invariant that ties the client to what the observer sees, and its proof step by step. */
module PilotSafety {
  import opened Wrappers
  import opened PilotClient
  import opened PilotObserver

  // ----- per place of the worker -----

  /** A registration was accepted and nothing has been published or written yet. */
  ghost predicate Opened(s: Client, v: View, reg: Registration) {
    && v.registration == Some(reg) && v.catalog.None? && v.writes == 0 && !v.refused
    && reg.sessionId in v.sessions && Identifier(reg.sessionId)
    && s.retries == v.backoffs
  }

  ghost predicate Publication(cfg: PilotConfig, s: Client, v: View, reg: Registration) {
    && Opened(s, v, reg)
    && s.sessionId == reg.sessionId && s.sequence == 1
    && s.snapshot.serverInstanceId == reg.serverInstanceId
  }

  ghost predicate Published(cfg: PilotConfig, s: Client, v: View) {
    && v.registration.Some? && v.registration.value.sessionId == s.sessionId
    && s.snapshot.serverInstanceId == v.registration.value.serverInstanceId
    && v.catalog.Some? && CatalogMatches(cfg, v.registration.value.serverInstanceId, v.catalog.value)
    && s.sequence == v.writes + 1 && v.backoffs == 0 && s.sessionId in v.sessions
  }

  ghost predicate CatalogShown(cfg: PilotConfig, s: Client, v: View) {
    && v.catalog.Some?
    && s.snapshot.catalogGeneration == v.catalog.value.catalogGeneration > 0
    && s.snapshot.descriptorCount == cfg.descriptorCount
  }

  ghost predicate RegistrationAnswered(s: Client, v: View, state: CommonState, r: Response) {
    && s.retries == v.backoffs && RegisterLast(v)
    && if RegistrationAccepted(r) then
         !v.faulted && Opened(s, v, r.registration.value) && v.publishRests == 0 && v.delivered == Some(state)
       else v.faulted == (r.status != 201 && IsContractStatus(r.status))
  }

  ghost predicate CatalogAnswered(cfg: PilotConfig, s: Client, v: View, reg: Registration, n: nat, r: Response) {
    && (v.faulted ==> !CatalogAccepted(cfg, reg.serverInstanceId, r) && CatalogRefusal(r).Fault?)
    && if CatalogAccepted(cfg, reg.serverInstanceId, r) then
         Published(cfg, s, v) && !v.refused && v.catalog == r.catalog
       else
         match CatalogRefusal(r)
         case Replace => s.retries == v.backoffs && v.refused
         case Fault => v.faulted
         case TryAgain => Publication(cfg, s, v, reg) && v.publishRests == n
  }

  ghost predicate WriteAnswered(cfg: PilotConfig, s: Client, v: View, written: Option<ProviderState>, r: Response) {
    && Published(cfg, s, v) && CatalogShown(cfg, s, v) && s.retries == 0
    && if WriteAccepted(s.snapshot.serverInstanceId, r) then
         !v.refused && (written.Some? ==> v.delivered == Some(MakePilotState(written.value)))
       else v.refused
  }

  predicate IsWrite(m: Message, written: Option<ProviderState>) {
    match written
    case None => m.Heartbeat?
    case Some(state) => m.StateUpdate? && m.state == MakePilotState(state)
  }

  ghost predicate JoinOk(cfg: PilotConfig, s: Client, v: View, step: JoinStep) {
    && s.snapshot.state == (if step.Announcing? || step.Preparing? then s.snapshot.state else RegisteringState)
    && match step
       case Announcing => MayRegister(v) && s.retries == v.backoffs
       case Composing => MayRegister(v) && s.retries == v.backoffs
       case Registering(_) => MayRegister(v) && s.retries == v.backoffs
       case AwaitingRegistration(carried) =>
         && v.last == Some(Register(carried)) && s.retries == v.backoffs
         && v.catalog.None? && v.writes == 0 && !v.refused && v.publishRests == 0
       case GotRegistration(carried, r) => s.stopRequested || RegistrationAnswered(s, v, carried, r)
       case OpeningSession(reg) => Opened(s, v, reg) && v.publishRests == 0 && RegisterLast(v)
       case Preparing(reg) => Publication(cfg, s, v, reg) && v.publishRests == 0 && RegisterLast(v)
  }

  ghost predicate PublishOk(cfg: PilotConfig, s: Client, v: View, reg: Registration, body: string, n: nat, step: PublishStep) {
    && (step.GotCatalog? || Publication(cfg, s, v, reg))
    && cfg.publication(s.instanceId) == Some(body)
    && match step
       case PublishHead => s.stopRequested || (n == v.publishRests && (RegisterLast(v) || v.paused))
       case SendingCatalog => n == v.publishRests && (RegisterLast(v) || v.paused)
       case AwaitingCatalog => n == v.publishRests && v.last.Some? && v.last.value.PutCatalog?
       case GotCatalog(r) => s.stopRequested || CatalogAnswered(cfg, s, v, reg, n, r)
       case CountingRetry => n == v.publishRests + 1
       case PublishBackoff => n == v.publishRests + 1
  }

  ghost predicate SessionOk(cfg: PilotConfig, s: Client, v: View, step: SessionStep) {
    && (step.GotWrite? || (Published(cfg, s, v) && !v.refused))
    && (step.GotWrite? || step.KeepingCatalog? || CatalogShown(cfg, s, v))
    && (step.GotWrite? || step.KeepingCatalog? || step.GoingOnline? || s.retries == 0)
    && match step
       case KeepingCatalog(reply) => v.catalog == Some(reply)
       case AwaitingWrite(written) => v.last.Some? && IsWrite(v.last.value, written)
       case GotWrite(written, r) => s.stopRequested || WriteAnswered(cfg, s, v, written, r)
       case _ => true
  }

  ghost predicate LeaveOk(s: Client, step: LeaveStep) {
    match step
    case LeavingLoop => s.stopRequested
    case SayingStopping => s.stopRequested && s.sessionId != ""
    case Disconnecting => s.stopRequested && s.sessionId != ""
    case _ => s.stopRequested
  }

  ghost predicate PlaceOk(cfg: PilotConfig, s: Client, v: View) {
    match s.pc
    case LoopHead => s.stopRequested || (MayRegister(v) && s.retries == v.backoffs)
    case Joining(step) => JoinOk(cfg, s, v, step)
    case Publishing(reg, body, n, step) => PublishOk(cfg, s, v, reg, body, n, step)
    case InSession(step) => SessionOk(cfg, s, v, step)
    case Retrying(step) => SessionEnded(v) && s.retries == if step.BackingOff? then v.backoffs + 1 else v.backoffs
    case Leaving(step) => LeaveOk(s, step)
    case Faulting => v.faulted
    case _ => true
  }

  // ----- in every place -----

  predicate Waits(pc: Pc) {
    match pc
    case Joining(step) => step.AwaitingRegistration?
    case Publishing(_, _, _, step) => step.AwaitingCatalog?
    case InSession(step) => step.AwaitingWrite?
    case Leaving(step) => step.AwaitingDisconnect?
    case _ => false
  }

  predicate Answered(pc: Pc) {
    match pc
    case Joining(step) => step.GotRegistration?
    case Publishing(_, _, _, step) => step.GotCatalog?
    case InSession(step) => step.GotWrite?
    case _ => false
  }

  predicate Over(pc: Pc) {
    pc.NotRunning? || pc.Returned? || (pc.Leaving? && (pc.leave.AwaitingDisconnect? || pc.leave.SayingStopped?))
  }

  /** What may have been sent since the stop, by place. */
  ghost predicate LateOk(pc: Pc, v: View) {
    if Over(pc) then true
    else if Waits(pc) || Answered(pc) || pc.Leaving? then |v.late| <= 1 && (v.late != [] ==> !v.late[0].Disconnect?)
    else v.late == []
  }

  predicate MayHaveFaulted(pc: Pc) {
    pc.Faulting? || pc.Leaving? || Over(pc) || (Answered(pc) && !pc.InSession?)
  }

  ghost predicate AlwaysOk(s: Client, v: View) {
    && v.stopped == s.stopRequested
    && (!v.stopped ==> v.late == [])
    && LateOk(s.pc, v)
    && (!s.pc.NotRunning? && !s.pc.Returned? ==> (v.awaiting <==> Waits(s.pc)))
    && (v.faulted ==> MayHaveFaulted(s.pc))
    && (v.ignored ==> s.stopRequested && (Answered(s.pc) || s.pc.Leaving? || Over(s.pc)))
    && (s.sessionId != "" ==> s.sessionId in v.sessions)
  }

  /** From the registration request to the end of its session. */
  predicate Carries(pc: Pc) {
    pc.Publishing? || pc.InSession? || (pc.Joining? && !pc.join.Announcing? && !pc.join.Composing?)
  }

  /** The state on its way to the server, or else the one it was last given. */
  function OnTheWay(pc: Pc, v: View): Option<CommonState> {
    match pc
    case Joining(step) =>
      if step.Registering? || step.AwaitingRegistration? || step.GotRegistration? then Some(step.carried) else v.delivered
    case InSession(step) =>
      if step.WritingState? then Some(MakePilotState(step.pending))
      else if (step.AwaitingWrite? || step.GotWrite?) && step.written.Some? then Some(MakePilotState(step.written.value))
      else v.delivered
    case _ => v.delivered
  }

  ghost predicate LatestOk(s: Client, v: View) {
    && (s.pending.Some? ==> s.pending.value == s.current)
    && (s.pending.None? && Carries(s.pc) ==> OnTheWay(s.pc, v) == Some(MakePilotState(s.current)))
  }

  ghost predicate SnapshotOk(cfg: PilotConfig, s: Client, v: View) {
    && (s.snapshot.state == Online ==>
          s.snapshot.catalogGeneration > 0 && s.snapshot.descriptorCount == cfg.descriptorCount)
    && (s.snapshot.state == ContractFaulted ==> v.faulted && (s.pc.Returned? || s.pc.NotRunning?))
    && (!s.started ==> s.pc.NotRunning?)
  }

  ghost predicate StateOk(cfg: PilotConfig, s: Client, v: View) {
    AlwaysOk(s, v) && LatestOk(s, v) && SnapshotOk(cfg, s, v) && PlaceOk(cfg, s, v)
  }

  ghost predicate Inv(cfg: PilotConfig, s: Client) {
    Lawful(cfg, s.instanceId, s.trace) && StateOk(cfg, s, Observe(cfg, s.trace))
  }

  // ----- preservation -----

  /** A step that appends one lawful mark. */
  lemma Marked(cfg: PilotConfig, s: Client, s': Client, mark: Mark)
    requires Inv(cfg, s) && s'.trace == s.trace + [mark] && s'.instanceId == s.instanceId
    requires MayMark(cfg, Observe(cfg, s.trace), s.instanceId, mark)
    requires StateOk(cfg, s', ObserveMark(cfg, Observe(cfg, s.trace), mark))
    ensures Inv(cfg, s')
  {
    hide StateOk, ObserveMark, MayMark;
    ObserveMore(cfg, s.instanceId, s.trace, mark);
  }

  /** A step of the worker as the observer sees it: one lawful mark, or none. */
  ghost predicate StepKeeps(cfg: PilotConfig, s: Client, s': Client, v: View) {
    && s'.instanceId == s.instanceId
    && ((s'.trace == s.trace && StateOk(cfg, s', v)) ||
        (exists mark ::
           s'.trace == s.trace + [mark] && MayMark(cfg, v, s.instanceId, mark) &&
           StateOk(cfg, s', ObserveMark(cfg, v, mark))))
  }

  /** Sending the registration. */
  lemma RegisterOk(cfg: PilotConfig, s: Client, v: View, r: Response, timedOut: bool)
    requires StateOk(cfg, s, v) && s.pc.Joining? && s.pc.join.Registering?
    ensures StepKeeps(cfg, s, DoWorkerStep(cfg, s, r, timedOut), v)
  {
    hide Backoff, ClassifyCatalogConflict, DoPublish, DoSession, DoRetry, DoLeave, SessionOk, CatalogRefusal,
         CatalogAccepted, WriteAccepted, ObserveReceived, PublishOk;
    var s' := DoWorkerStep(cfg, s, r, timedOut);
    var mark := s'.trace[|s.trace|];
    assert s'.trace == s.trace + [mark] && MayMark(cfg, v, s.instanceId, mark);
    assert StateOk(cfg, s', ObserveMark(cfg, v, mark));
  }

  /** Its answer comes in. */
  lemma RegistrationReplyOk(cfg: PilotConfig, s: Client, v: View, r: Response, timedOut: bool)
    requires StateOk(cfg, s, v) && s.pc.Joining? && s.pc.join.AwaitingRegistration?
    ensures StepKeeps(cfg, s, DoWorkerStep(cfg, s, r, timedOut), v)
  {
    hide Backoff, ClassifyCatalogConflict, DoPublish, DoSession, DoRetry, DoLeave, SessionOk, CatalogRefusal,
         CatalogAccepted, WriteAccepted, ObserveSent, ObservePublished, ObserveWritten, PublishOk;
    var s' := DoWorkerStep(cfg, s, r, timedOut);
    assert s'.trace == s.trace + [Received(r)] && MayMark(cfg, v, s.instanceId, Received(r));
    if v.stopped {
    } else if RegistrationAccepted(r) {
    } else if r.status != 201 && IsContractStatus(r.status) {
    } else {
    }
    assert StateOk(cfg, s', ObserveMark(cfg, v, Received(r)));
  }

  /** Acting on it, and the silent steps of the registration. */
  lemma JoinStepOk(cfg: PilotConfig, s: Client, v: View, r: Response, timedOut: bool)
    requires StateOk(cfg, s, v) && s.pc.Joining? && !s.pc.join.Registering? && !s.pc.join.AwaitingRegistration?
    ensures StepKeeps(cfg, s, DoWorkerStep(cfg, s, r, timedOut), v)
  {
    hide Backoff, ClassifyCatalogConflict, DoPublish, DoSession, DoRetry, DoLeave, SessionOk, CatalogRefusal,
         CatalogAccepted, WriteAccepted, ObserveMark, MayMark;
    match s.pc.join {
      case Announcing =>
      case Composing =>
      case GotRegistration(_, response) =>
        if s.stopRequested {
        } else if RegistrationAccepted(response) {
        } else {
        }
      case OpeningSession(_) =>
      case Preparing(_) =>
    }
    assert StateOk(cfg, DoWorkerStep(cfg, s, r, timedOut), v);
  }

  /** Sending the catalog, and resting before the next attempt. */
  lemma CatalogSentOk(cfg: PilotConfig, s: Client, v: View, r: Response, timedOut: bool)
    requires StateOk(cfg, s, v) && s.pc.Publishing? && !s.pc.publish.AwaitingCatalog? && !s.pc.publish.GotCatalog?
    ensures StepKeeps(cfg, s, DoWorkerStep(cfg, s, r, timedOut), v)
  {
    hide Backoff, ClassifyCatalogConflict, DoJoin, DoSession, DoRetry, DoLeave, JoinOk, RegistrationAccepted,
         WriteAccepted, ObserveReceived, CatalogRefusal, CatalogAccepted, CatalogMatches, SessionOk;
    var s' := DoWorkerStep(cfg, s, r, timedOut);
    match s.pc.publish
    case SendingCatalog =>
      var mark := Sent(PutCatalog(s.pc.registration.sessionId, s.pc.body));
      assert s'.trace == s.trace + [mark] && MayMark(cfg, v, s.instanceId, mark);
      assert StateOk(cfg, s', ObserveMark(cfg, v, mark));
    case PublishBackoff =>
      if !s.stopRequested && timedOut {
        var mark := RetriedPublish(Backoff(cfg, s.pc.retries));
        assert s'.trace == s.trace + [mark] && MayMark(cfg, v, s.instanceId, mark);
        assert StateOk(cfg, s', ObserveMark(cfg, v, mark));
      }
    case PublishHead =>
      if s.stopRequested {} else {}
    case CountingRetry =>
  }

  /** Its answer comes in. */
  lemma CatalogReplyOk(cfg: PilotConfig, s: Client, v: View, r: Response, timedOut: bool)
    requires StateOk(cfg, s, v) && s.pc.Publishing? && s.pc.publish.AwaitingCatalog?
    ensures StepKeeps(cfg, s, DoWorkerStep(cfg, s, r, timedOut), v)
  {
    hide Backoff, ClassifyCatalogConflict, DoJoin, DoSession, DoRetry, DoLeave, JoinOk, RegistrationAccepted,
         WriteAccepted, ObserveSent, ObserveRegistered, ObserveWritten, SessionOk;
    var s' := DoWorkerStep(cfg, s, r, timedOut);
    assert s'.trace == s.trace + [Received(r)] && MayMark(cfg, v, s.instanceId, Received(r));
    if v.stopped {
    } else if CatalogAccepted(cfg, s.pc.registration.serverInstanceId, r) {
    } else {
      match CatalogRefusal(r)
      case Replace =>
      case Fault =>
      case TryAgain =>
    }
    assert StateOk(cfg, s', ObserveMark(cfg, v, Received(r)));
  }

  /** Acting on it. */
  lemma CatalogAnswerOk(cfg: PilotConfig, s: Client, v: View, r: Response, timedOut: bool)
    requires StateOk(cfg, s, v) && s.pc.Publishing? && s.pc.publish.GotCatalog?
    ensures StepKeeps(cfg, s, DoWorkerStep(cfg, s, r, timedOut), v)
  {
    hide Backoff, ClassifyCatalogConflict, DoJoin, DoSession, DoRetry, DoLeave, JoinOk, RegistrationAccepted,
         WriteAccepted, ObserveMark, MayMark;
    assert StateOk(cfg, DoWorkerStep(cfg, s, r, timedOut), v);
  }

  /** Sending a heartbeat or a state. */
  lemma WriteOk(cfg: PilotConfig, s: Client, v: View, r: Response, timedOut: bool)
    requires StateOk(cfg, s, v) && s.pc.InSession? && (s.pc.session.WritingState? || s.pc.session.WritingHeartbeat?)
    ensures StepKeeps(cfg, s, DoWorkerStep(cfg, s, r, timedOut), v)
  {
    hide Backoff, ClassifyCatalogConflict, DoJoin, DoPublish, DoRetry, DoLeave, JoinOk, PublishOk,
         RegistrationAccepted, CatalogAccepted, CatalogRefusal, WriteAccepted, CatalogMatches, ObserveReceived;
    var s' := DoWorkerStep(cfg, s, r, timedOut);
    if s.sequence <= MAX_SEQUENCE {
      var mark := if s.pc.session.WritingState?
                  then Sent(StateUpdate(s.sessionId, s.sequence, MakePilotState(s.pc.session.pending)))
                  else Sent(Heartbeat(s.sessionId, s.sequence));
      assert s'.trace == s.trace + [mark] && MayMark(cfg, v, s.instanceId, mark);
      assert StateOk(cfg, s', ObserveMark(cfg, v, mark));
    }
  }

  /** Its answer comes in. */
  lemma WriteReplyOk(cfg: PilotConfig, s: Client, v: View, r: Response, timedOut: bool)
    requires StateOk(cfg, s, v) && s.pc.InSession? && s.pc.session.AwaitingWrite?
    ensures StepKeeps(cfg, s, DoWorkerStep(cfg, s, r, timedOut), v)
  {
    hide Backoff, ClassifyCatalogConflict, DoJoin, DoPublish, DoRetry, DoLeave, JoinOk, PublishOk,
         RegistrationAccepted, CatalogAccepted, CatalogRefusal, CatalogMatches, ObserveSent, ObserveRegistered,
         ObservePublished;
    var s' := DoWorkerStep(cfg, s, r, timedOut);
    assert s'.trace == s.trace + [Received(r)] && MayMark(cfg, v, s.instanceId, Received(r));
    if v.stopped {
    } else if WriteAccepted(s.snapshot.serverInstanceId, r) {
      if s.pc.session.written.None? {} else {}
    } else {
    }
    assert StateOk(cfg, s', ObserveMark(cfg, v, Received(r)));
  }

  /** Acting on it. */
  lemma WriteAnswerOk(cfg: PilotConfig, s: Client, v: View, r: Response, timedOut: bool)
    requires StateOk(cfg, s, v) && s.pc.InSession? && s.pc.session.GotWrite?
    ensures StepKeeps(cfg, s, DoWorkerStep(cfg, s, r, timedOut), v)
  {
    hide Backoff, ClassifyCatalogConflict, DoJoin, DoPublish, DoRetry, DoLeave, JoinOk, PublishOk,
         RegistrationAccepted, CatalogAccepted, CatalogRefusal, ObserveMark, MayMark;
    assert StateOk(cfg, DoWorkerStep(cfg, s, r, timedOut), v);
  }

  /** Keeping the catalog and going online. */
  lemma OnlineOk(cfg: PilotConfig, s: Client, v: View, r: Response, timedOut: bool)
    requires StateOk(cfg, s, v) && s.pc.InSession? && (s.pc.session.KeepingCatalog? || s.pc.session.GoingOnline? || s.pc.session.ConfirmingOnline?)
    ensures StepKeeps(cfg, s, DoWorkerStep(cfg, s, r, timedOut), v)
  {
    hide Backoff, ClassifyCatalogConflict, DoJoin, DoPublish, DoRetry, DoLeave, JoinOk, PublishOk,
         RegistrationAccepted, CatalogAccepted, CatalogRefusal, ObserveMark, MayMark, WriteAccepted;
    assert StateOk(cfg, DoWorkerStep(cfg, s, r, timedOut), v);
  }

  /** Waiting for a state or for the next heartbeat. */
  lemma WaitOk(cfg: PilotConfig, s: Client, v: View, r: Response, timedOut: bool)
    requires StateOk(cfg, s, v) && s.pc.InSession? && (s.pc.session.SessionHead? || s.pc.session.SessionWait?)
    ensures StepKeeps(cfg, s, DoWorkerStep(cfg, s, r, timedOut), v)
  {
    hide Backoff, ClassifyCatalogConflict, DoJoin, DoPublish, DoRetry, DoLeave, JoinOk, PublishOk,
         RegistrationAccepted, CatalogAccepted, CatalogRefusal, ObserveMark, MayMark, WriteAccepted;
    assert StateOk(cfg, DoWorkerStep(cfg, s, r, timedOut), v);
  }

  /** The head of the loop: register again, or leave. */
  lemma LoopHeadOk(cfg: PilotConfig, s: Client, v: View, r: Response, timedOut: bool)
    requires StateOk(cfg, s, v) && s.pc.LoopHead?
    ensures StepKeeps(cfg, s, DoWorkerStep(cfg, s, r, timedOut), v)
  {
    hide Backoff, ClassifyCatalogConflict, DoJoin, DoPublish, DoSession, DoRetry, DoLeave, SessionOk, PublishOk,
         ObserveMark, MayMark;
    assert StateOk(cfg, DoWorkerStep(cfg, s, r, timedOut), v);
  }

  /** Failing, and backing off before the next registration. */
  lemma RetryOk(cfg: PilotConfig, s: Client, v: View, r: Response, timedOut: bool)
    requires StateOk(cfg, s, v) && s.pc.Retrying?
    ensures StepKeeps(cfg, s, DoWorkerStep(cfg, s, r, timedOut), v)
  {
    hide Backoff, ClassifyCatalogConflict, DoJoin, DoPublish, DoSession, SessionOk, PublishOk,
         RegistrationAccepted, CatalogAccepted, CatalogRefusal, ObserveSent, ObserveReceived, DoLeave, JoinOk,
         MakePilotState, Published, IsWrite;
    var s' := DoWorkerStep(cfg, s, r, timedOut);
    match s.pc.retry
    case BackingOff =>
      if !s.stopRequested && timedOut {
        var mark := BackedOff(Backoff(cfg, s.retries));
        assert s'.trace == s.trace + [mark] && MayMark(cfg, v, s.instanceId, mark);
        assert StateOk(cfg, s', ObserveMark(cfg, v, mark));
      }
    case Failing(_) =>
    case Bumping =>
  }

  /** Sending the disconnect. */
  lemma DisconnectOk(cfg: PilotConfig, s: Client, v: View, r: Response, timedOut: bool)
    requires StateOk(cfg, s, v) && s.pc == Leaving(Disconnecting)
    ensures StepKeeps(cfg, s, DoWorkerStep(cfg, s, r, timedOut), v)
  {
    hide Backoff, DoJoin, DoPublish, DoSession, DoRetry, SessionOk, PublishOk, JoinOk, ObserveReceived;
    var s', mark := DoWorkerStep(cfg, s, r, timedOut), Sent(Disconnect(s.sessionId));
    assert s'.trace == s.trace + [mark] && MayMark(cfg, v, s.instanceId, mark);
    assert StateOk(cfg, s', ObserveMark(cfg, v, mark));
  }

  /** Its answer comes in. */
  lemma DisconnectReplyOk(cfg: PilotConfig, s: Client, v: View, r: Response, timedOut: bool)
    requires StateOk(cfg, s, v) && s.pc == Leaving(AwaitingDisconnect)
    ensures StepKeeps(cfg, s, DoWorkerStep(cfg, s, r, timedOut), v)
  {
    hide Backoff, DoJoin, DoPublish, DoSession, DoRetry, SessionOk, PublishOk, JoinOk, ObserveRegistered,
         ObservePublished, ObserveWritten;
    var s' := DoWorkerStep(cfg, s, r, timedOut);
    assert s'.trace == s.trace + [Received(r)] && MayMark(cfg, v, s.instanceId, Received(r));
    assert StateOk(cfg, s', ObserveMark(cfg, v, Received(r)));
  }

  /** The silent steps of leaving. */
  lemma LeaveStepOk(cfg: PilotConfig, s: Client, v: View, r: Response, timedOut: bool)
    requires StateOk(cfg, s, v) && s.pc.Leaving? && !s.pc.leave.Disconnecting? && !s.pc.leave.AwaitingDisconnect?
    ensures StepKeeps(cfg, s, DoWorkerStep(cfg, s, r, timedOut), v)
  {
    hide Backoff, DoJoin, DoPublish, DoSession, DoRetry, SessionOk, PublishOk, JoinOk, ObserveMark, MayMark;
    assert StateOk(cfg, DoWorkerStep(cfg, s, r, timedOut), v);
  }

  /** The last places. */
  lemma RestOk(cfg: PilotConfig, s: Client, v: View, r: Response, timedOut: bool)
    requires StateOk(cfg, s, v) && (s.pc.Faulting? || s.pc.Returned? || s.pc.NotRunning?)
    ensures StepKeeps(cfg, s, DoWorkerStep(cfg, s, r, timedOut), v)
  {
    hide Backoff, ClassifyCatalogConflict, DoJoin, DoPublish, DoSession, SessionOk, PublishOk,
         RegistrationAccepted, CatalogAccepted, CatalogRefusal, ObserveMark, MayMark, JoinOk, DoRetry, DoLeave;
    assert StateOk(cfg, DoWorkerStep(cfg, s, r, timedOut), v);
  }

  lemma UpdateOk(cfg: PilotConfig, s: Client, v: View, e: Event)
    requires StateOk(cfg, s, v) && (e.UpdateState? || e.JoinWorker?)
    ensures StepKeeps(cfg, s, Apply(cfg, s, e), v)
  {
    hide Backoff, ClassifyCatalogConflict, MayMark, ObserveMark, DoWorkerStep;
    assert StateOk(cfg, Apply(cfg, s, e), v);
  }

  lemma StopOk(cfg: PilotConfig, s: Client, v: View)
    requires StateOk(cfg, s, v)
    ensures StepKeeps(cfg, s, DoStopClient(s), v)
  {
    hide Backoff, ClassifyCatalogConflict, ObserveSent, ObserveReceived, RegistrationAccepted, CatalogAccepted,
         CatalogRefusal, WriteAccepted;
    var s' := DoStopClient(s);
    if s'.trace != s.trace {
      assert s'.trace == s.trace + [StopAsked];
      assert MayMark(cfg, v, s.instanceId, StopAsked);
      match s.pc {
        case Joining(_) =>
        case Publishing(_, _, _, _) =>
        case InSession(_) =>
        case Retrying(_) =>
        case Leaving(_) =>
        case _ =>
      }
      assert StateOk(cfg, s', ObserveMark(cfg, v, StopAsked));
    }
  }

  lemma WorkerOk(cfg: PilotConfig, s: Client, v: View, r: Response, timedOut: bool)
    requires StateOk(cfg, s, v)
    ensures StepKeeps(cfg, s, DoWorkerStep(cfg, s, r, timedOut), v)
  {
    hide StateOk, StepKeeps, DoWorkerStep;
    match s.pc
    case Joining(step) =>
      if step.Registering? {
        RegisterOk(cfg, s, v, r, timedOut);
      } else if step.AwaitingRegistration? {
        RegistrationReplyOk(cfg, s, v, r, timedOut);
      } else {
        JoinStepOk(cfg, s, v, r, timedOut);
      }
    case Publishing(_, _, _, step) =>
      if step.AwaitingCatalog? {
        CatalogReplyOk(cfg, s, v, r, timedOut);
      } else if step.GotCatalog? {
        CatalogAnswerOk(cfg, s, v, r, timedOut);
      } else {
        CatalogSentOk(cfg, s, v, r, timedOut);
      }
    case InSession(step) =>
      if step.WritingState? || step.WritingHeartbeat? {
        WriteOk(cfg, s, v, r, timedOut);
      } else if step.AwaitingWrite? {
        WriteReplyOk(cfg, s, v, r, timedOut);
      } else if step.GotWrite? {
        WriteAnswerOk(cfg, s, v, r, timedOut);
      } else if step.SessionHead? || step.SessionWait? {
        WaitOk(cfg, s, v, r, timedOut);
      } else {
        OnlineOk(cfg, s, v, r, timedOut);
      }
    case LoopHead => LoopHeadOk(cfg, s, v, r, timedOut);
    case Retrying(_) => RetryOk(cfg, s, v, r, timedOut);
    case Leaving(step) =>
      if step.Disconnecting? {
        DisconnectOk(cfg, s, v, r, timedOut);
      } else if step.AwaitingDisconnect? {
        DisconnectReplyOk(cfg, s, v, r, timedOut);
      } else {
        LeaveStepOk(cfg, s, v, r, timedOut);
      }
    case _ => RestOk(cfg, s, v, r, timedOut);
  }

  lemma StartOk(cfg: PilotConfig, s: Client, initial: ProviderState, instanceId: string)
    requires Inv(cfg, s)
    ensures Inv(cfg, DoStartClient(cfg, s, initial, instanceId))
  {
  }

  lemma StepOk(cfg: PilotConfig, s: Client, e: Event)
    requires Inv(cfg, s)
    ensures Inv(cfg, Apply(cfg, s, e))
  {
    if e.StartClient? {
      StartOk(cfg, s, e.initial, e.instanceId);
    } else {
      hide StateOk, Lawful, Observe, ObserveMark, MayMark;
      var v, s' := Observe(cfg, s.trace), Apply(cfg, s, e);
      match e {
        case WorkerStep(r, timedOut) => WorkerOk(cfg, s, v, r, timedOut);
        case StopClient => StopOk(cfg, s, v);
        case _ => UpdateOk(cfg, s, v, e);
      }
      if s'.trace != s.trace || !StateOk(cfg, s', v) {
        var mark :| s'.trace == s.trace + [mark] && MayMark(cfg, v, s.instanceId, mark) &&
                    StateOk(cfg, s', ObserveMark(cfg, v, mark));
        Marked(cfg, s, s', mark);
      }
    }
  }

  lemma {:induction false} RunOk(cfg: PilotConfig, s: Client, run: seq<Event>)
    requires Inv(cfg, s)
    ensures Inv(cfg, Exec(cfg, s, run))
    decreases |run|
  {
    if run != [] {
      StepOk(cfg, s, run[0]);
      RunOk(cfg, Apply(cfg, s, run[0]), run[1..]);
    }
  }
}
