/**
 The worker thread as it is written: the registration loop, the publication loop and the session
 loop over the client's fields. A script says what the other threads do in between and what the
 server and the clock answer. `model` runs the state machine along, one step per block, and the
 code is proved to stay in agreement with it: whatever the state machine keeps, the loops keep.
 */
module PilotWorker {
  import opened Wrappers
  import opened PilotClient

  lemma {:induction false} ExecOneMore(cfg: PilotConfig, s: Client, run: seq<Event>, e: Event)
    ensures Exec(cfg, s, run + [e]) == Apply(cfg, Exec(cfg, s, run), e)
    decreases |run|
  {
    if run == [] {
      assert [e][1..] == [];
      assert Exec(cfg, s, [e]) == Exec(cfg, Apply(cfg, s, e), []);
    } else {
      assert (run + [e])[0] == run[0] && (run + [e])[1..] == run[1..] + [e];
      ExecOneMore(cfg, Apply(cfg, s, run[0]), run[1..], e);
    }
  }

  datatype PublishResult = DonePublishing | SessionReplaced | PublishFault | PublishStopped | PublishThrew

  datatype SessionResult = SessionStopped | SessionLost | SessionThrew

  /** What `runWorker` does next: break out of its loop, return, or back off and register again. */
  datatype ServeResult = ToLeave | ToReturn | ToRetry

  class Worker {
    const cfg: PilotConfig
    const instanceId: string
    const script: seq<Event>
    var position: nat

    // guarded by the client's mutex
    var stopRequested: bool
    var current: ProviderState
    var pending: Option<ProviderState>
    var snapshot: Snapshot

    // locals of the worker
    var sessionId: string
    var sequence: nat
    var retries: nat

    ghost const start: Client
    ghost var model: Client

    ghost predicate Agrees(s: Client)
      reads this
    {
      && s.started && cfg.enabled && s.instanceId == instanceId
      && s.stopRequested == stopRequested && s.current == current && s.pending == pending && s.snapshot == snapshot
      && s.sessionId == sessionId && s.sequence == sequence && s.retries == retries
    }

    /** The state machine has run the script up to here. */
    ghost predicate Followed()
      reads this
    {
      position <= |script| && model == Exec(cfg, start, script[..position])
    }

    ghost predicate Valid()
      reads this
    {
      Agrees(model) && Followed()
    }

    /** `startClient` up to the creation of the thread. */
    constructor (config: PilotConfig, initial: ProviderState, id: string, events: seq<Event>)
      requires config.enabled
      ensures Valid() && model.pc == LoopHead && script == events && position == 0 && cfg == config
      ensures start == DoStartClient(config, InitialClient, initial, id)
    {
      cfg, instanceId, script, position := config, id, events, 0;
      stopRequested, current, pending, snapshot := false, initial, None, EmptySnapshot;
      sessionId, sequence, retries := "", 1, 0;
      start := DoStartClient(config, InitialClient, initial, id);
      model := DoStartClient(config, InitialClient, initial, id);
    }

    /** What an update or a stop of another thread does to the fields. */
    method OtherThread(e: Event)
      requires Valid() && !e.WorkerStep? && !model.pc.Returned? && !model.pc.NotRunning?
      requires position < |script| && script[position] == e
      modifies this
      ensures Valid() && position == old(position) + 1
      ensures model.pc == old(model).pc && snapshot == old(snapshot)
      ensures sessionId == old(sessionId) && sequence == old(sequence) && retries == old(retries)
    {
      ExecOneMore(cfg, start, script[..position], e);
      assert script[..position] + [e] == script[..position + 1];
      hide Exec;
      if e.UpdateState? {
        current, pending := e.state, Some(e.state);
      } else if e.StopClient? {
        stopRequested := true;
      }
      model := Apply(cfg, model, e);
      position := position + 1;
    }

    /**
     Lets the other threads run up to the worker's next step. `before` is the state machine just
     before that step, `model` right after it; the code still has to catch up.
     */
    method Next() returns (ok: bool, r: Response, timedOut: bool, ghost before: Client)
      requires Valid() && !model.pc.Returned? && !model.pc.NotRunning?
      modifies this
      ensures Followed() && Agrees(before) && before.pc == old(model).pc
      ensures position >= old(position) && (ok ==> position > old(position))
      ensures ok ==> model == DoWorkerStep(cfg, before, r, timedOut)
      ensures !ok ==> model == before && position == |script|
      ensures snapshot == old(snapshot)
      ensures sessionId == old(sessionId) && sequence == old(sequence) && retries == old(retries)
    {
      hide Exec, DoWorkerStep;
      r, timedOut := Response(0, "", None, None, None), false;
      while position < |script| && !script[position].WorkerStep?
        invariant Valid() && model.pc == old(model).pc && position >= old(position)
        invariant snapshot == old(snapshot)
        invariant sessionId == old(sessionId) && sequence == old(sequence) && retries == old(retries)
        decreases |script| - position
      {
        OtherThread(script[position]);
      }
      before := model;
      if position == |script| {
        ok := false;
        return;
      }
      ok, r, timedOut := true, script[position].response, script[position].timedOut;
      ExecOneMore(cfg, start, script[..position], script[position]);
      assert script[..position] + [script[position]] == script[..position + 1];
      model := DoWorkerStep(cfg, model, r, timedOut);
      position := position + 1;
    }

    /** `setSnapshot`, and the two places that only touch the retry count or the state. */
    method SetState(state: IntegrationState)
      modifies this`snapshot
      ensures snapshot == old(snapshot).(state := state)
    {
      snapshot := snapshot.(state := state);
    }

    // ----- publication -----

    /** Rest before the next attempt: until the delay is over or a stop is asked for. */
    method Rest(reg: Registration, body: string, n: nat) returns (ok: bool)
      requires Valid() && model.pc == Publishing(reg, body, n, PublishBackoff)
      modifies this
      ensures Valid() && position >= old(position)
      ensures !ok ==> position == |script|
      ensures ok ==> model.pc == Publishing(reg, body, n, PublishHead)
    {
      hide Exec, Backoff;
      while true
        invariant Valid() && model.pc == Publishing(reg, body, n, PublishBackoff) && position >= old(position)
        decreases |script| - position
      {
        var more, r, timedOut, before := Next();
        if !more { return false; }
        if stopRequested || timedOut { return true; }
      }
    }

    /** One request of the publication, from the head of its loop to the decision on the answer. */
    method Attempt(reg: Registration, body: string, n: nat) returns (ok: bool, stopped: bool, answer: Response)
      requires Valid() && model.pc == Publishing(reg, body, n, PublishHead)
      modifies this
      ensures Valid() && position >= old(position) && (ok ==> position > old(position))
      ensures !ok ==> position == |script|
      ensures ok && stopped ==> model.pc == Leaving(LeavingLoop)
      ensures ok && !stopped ==>
                model.pc ==
                if CatalogAccepted(cfg, reg.serverInstanceId, answer) then InSession(KeepingCatalog(answer.catalog.value))
                else
                  match CatalogRefusal(answer)
                  case Replace => Retrying(Failing(false))
                  case Fault => Faulting
                  case TryAgain => Publishing(reg, body, n + 1, CountingRetry)
    {
      hide Exec, CatalogRefusal, CatalogAccepted;
      stopped := false;
      var r, timedOut;
      ghost var before;
      ok, answer, timedOut, before := Next();
      if !ok { return; }
      if stopRequested { stopped := true; return; }
      ok, r, timedOut, before := Next();                     // the request goes out
      if !ok { return; }
      ok, answer, timedOut, before := Next();                // the answer comes in
      if !ok { return; }
      ok, r, timedOut, before := Next();
      if !ok { return; }
      stopped := stopRequested;
    }

    method KeepAcceptedCatalog(reply: CatalogReply) returns (ok: bool)
      requires Valid() && model.pc == InSession(KeepingCatalog(reply))
      modifies this
      ensures Valid() && position >= old(position)
      ensures !ok ==> position == |script|
      ensures ok ==> model.pc == InSession(GoingOnline)
    {
      hide Exec;
      var r, timedOut;
      ghost var before;
      ok, r, timedOut, before := Next();
      if !ok { return; }
      snapshot := snapshot.(serverInstanceId := reply.serverInstanceId,
                            catalogGeneration := reply.catalogGeneration,
                            descriptorCount := reply.descriptorCount);
    }

    /** A failed registration, publication or session; a replaced session is also forgotten. */
    method Fail(keepSession: bool) returns (ok: bool)
      requires Valid() && model.pc == Retrying(Failing(keepSession))
      modifies this
      ensures Valid() && position >= old(position)
      ensures !ok ==> position == |script|
      ensures ok ==> model.pc == Retrying(Bumping)
    {
      hide Exec;
      var r, timedOut;
      ghost var before;
      ok, r, timedOut, before := Next();
      if !ok { return; }
      SetState(Recovering);
      if !keepSession { sessionId := ""; }
    }

    method Fault() returns (ok: bool)
      requires Valid() && model.pc == Faulting
      modifies this
      ensures Valid() && position >= old(position)
      ensures !ok ==> position == |script|
      ensures ok ==> model.pc == Returned && snapshot.state == ContractFaulted
    {
      hide Exec;
      var r, timedOut;
      ghost var before;
      ok, r, timedOut, before := Next();
      if !ok { return; }
      SetState(ContractFaulted);
    }

    method CountRetry(reg: Registration, body: string, n: nat) returns (ok: bool)
      requires Valid() && model.pc == Publishing(reg, body, n, CountingRetry)
      modifies this
      ensures Valid() && position >= old(position)
      ensures !ok ==> position == |script|
      ensures ok ==> model.pc == Publishing(reg, body, n, PublishBackoff)
    {
      hide Exec;
      var r, timedOut;
      ghost var before;
      ok, r, timedOut, before := Next();
      if !ok { return; }
      snapshot := snapshot.(retryCount := n);
    }

    /** Serializes the publication; None stands for the exception. */
    method Serialize(reg: Registration) returns (ok: bool, body: Option<string>)
      requires Valid() && model.pc == Joining(Preparing(reg))
      modifies this
      ensures Valid() && position >= old(position)
      ensures !ok ==> position == |script|
      ensures ok ==>
                model.pc == if body.Some? then Publishing(reg, body.value, 0, PublishHead) else Retrying(Failing(true))
    {
      hide Exec;
      var r, timedOut;
      ghost var before;
      ok, r, timedOut, before := Next();
      body := cfg.publication(instanceId);
    }

    method PublishCatalog(reg: Registration) returns (ok: bool, result: PublishResult)
      requires Valid() && model.pc == Joining(Preparing(reg))
      modifies this
      ensures Valid() && position >= old(position)
      ensures !ok ==> position == |script|
      ensures ok ==>
                match result
                case DonePublishing => model.pc == InSession(GoingOnline)
                case SessionReplaced => model.pc == Retrying(Bumping)
                case PublishFault => model.pc == Returned && snapshot.state == ContractFaulted
                case PublishStopped => model.pc == Leaving(LeavingLoop)
                case PublishThrew => model.pc == Retrying(Failing(true))
    {
      hide Exec, DoWorkerStep, ClassifyCatalogConflict, CatalogMatches;
      var publication;
      result := PublishThrew;
      ok, publication := Serialize(reg);
      if !ok || publication.None? { return; }
      var body, n := publication.value, 0;
      while true
        invariant Valid() && model.pc == Publishing(reg, body, n, PublishHead) && position >= old(position)
        decreases |script| - position
      {
        var stopped, answer;
        ok, stopped, answer := Attempt(reg, body, n);
        if !ok { return; }
        if stopped { return true, PublishStopped; }
        if answer.status == 200 && CatalogAccepted(cfg, reg.serverInstanceId, answer) {
          ok := KeepAcceptedCatalog(answer.catalog.value);
          return ok, DonePublishing;
        }
        if answer.status == 200 {
          ok := Fail(false);
          return ok, SessionReplaced;
        }
        if answer.status == 409 {
          if ClassifyCatalogConflict(answer.errorCode) == ReplaceSession {
            ok := Fail(false);
            return ok, SessionReplaced;
          }
          ok := Fault();
          return ok, PublishFault;
        }
        if IsContractStatus(answer.status) {
          ok := Fault();
          return ok, PublishFault;
        }
        if answer.status == 404 {
          ok := Fail(false);
          return ok, SessionReplaced;
        }
        n := n + 1;
        ok := CountRetry(reg, body, n);
        if !ok { return; }
        ok := Rest(reg, body, n);
        if !ok { return; }
      }
    }

    // ----- session -----

    /** Waits for a pending state or for the next heartbeat. */
    method WaitForWork() returns (ok: bool, stopped: bool, work: Option<ProviderState>)
      requires Valid() && model.pc == InSession(SessionWait)
      modifies this
      ensures Valid() && position >= old(position)
      ensures !ok ==> position == |script|
      ensures ok && stopped ==> model.pc == Leaving(LeavingLoop)
      ensures ok && !stopped ==> model.pc == InSession(if work.Some? then WritingState(work.value) else WritingHeartbeat)
    {
      hide Exec;
      stopped, work := false, None;
      while true
        invariant Valid() && model.pc == InSession(SessionWait) && position >= old(position)
        decreases |script| - position
      {
        var r, timedOut;
        ghost var before;
        ok, r, timedOut, before := Next();
        if !ok { return; }
        if stopRequested { return true, true, None; }
        if pending.Some? {
          work := pending;
          pending := None;
          return true, false, work;
        }
        if timedOut { return true, false, None; }
      }
    }

    /** The write goes out, if its sequence number can be serialized. */
    method SendOne(work: Option<ProviderState>) returns (ok: bool, sent: bool)
      requires Valid() && model.pc == InSession(if work.Some? then WritingState(work.value) else WritingHeartbeat)
      modifies this
      ensures Valid() && position >= old(position)
      ensures !ok ==> position == |script|
      ensures ok ==> model.pc == if sent then InSession(AwaitingWrite(work)) else Retrying(Failing(true))
    {
      hide Exec, MakePilotState;
      sent := false;
      var r, timedOut;
      ghost var before;
      ok, r, timedOut, before := Next();
      if !ok { return; }
      sent := sequence <= MAX_SEQUENCE;
      sequence := sequence + 1;
    }

    /** The answer to a write comes in and is judged. */
    method ReceiveOne(work: Option<ProviderState>) returns (ok: bool, stopped: bool, accepted: bool)
      requires Valid() && model.pc == InSession(AwaitingWrite(work))
      modifies this
      ensures Valid() && position >= old(position)
      ensures !ok ==> position == |script|
      ensures ok && stopped ==> model.pc == Leaving(LeavingLoop)
      ensures ok && !stopped ==> model.pc == if accepted then InSession(ConfirmingOnline) else Retrying(Failing(true))
    {
      hide Exec;
      stopped, accepted := false, false;
      var r, answer, timedOut;
      ghost var before;
      ok, answer, timedOut, before := Next();
      if !ok { return; }
      ok, r, timedOut, before := Next();
      if !ok { return; }
      stopped := stopRequested;
      accepted := answer.status == 200 && answer.lifecycle == Some(snapshot.serverInstanceId);
    }

    method HeadOfSession() returns (ok: bool, stopped: bool)
      requires Valid() && model.pc == InSession(SessionHead)
      modifies this
      ensures Valid() && position >= old(position) && (ok ==> position > old(position))
      ensures !ok ==> position == |script|
      ensures ok ==> model.pc == if stopped then Leaving(LeavingLoop) else InSession(SessionWait)
    {
      hide Exec;
      var r, timedOut;
      ghost var before;
      ok, r, timedOut, before := Next();
      stopped := stopRequested;
    }

    method ConfirmOnline() returns (ok: bool)
      requires Valid() && model.pc == InSession(ConfirmingOnline)
      modifies this
      ensures Valid() && position >= old(position)
      ensures !ok ==> position == |script|
      ensures ok ==> model.pc == InSession(SessionHead)
    {
      hide Exec;
      var r, timedOut;
      ghost var before;
      ok, r, timedOut, before := Next();
      if ok { SetState(Online); }
    }

    method RunSession() returns (ok: bool, result: SessionResult)
      requires Valid() && model.pc == InSession(SessionHead)
      modifies this
      ensures Valid() && position >= old(position)
      ensures !ok ==> position == |script|
      ensures ok ==>
                match result
                case SessionStopped => model.pc == Leaving(LeavingLoop)
                case SessionLost => model.pc == Retrying(Bumping)
                case SessionThrew => model.pc == Retrying(Failing(true))
    {
      hide Exec, DoWorkerStep;
      result := SessionThrew;
      while true
        invariant Valid() && model.pc == InSession(SessionHead) && position >= old(position)
        decreases |script| - position
      {
        var stopped, work, sent, accepted;
        ok, stopped := HeadOfSession();
        if !ok { return; }
        if stopped { return true, SessionStopped; }
        ok, stopped, work := WaitForWork();
        if !ok { return; }
        if stopped { return true, SessionStopped; }
        ok, sent := SendOne(work);
        if !ok { return; }
        if !sent { return true, SessionThrew; }
        ok, stopped, accepted := ReceiveOne(work);
        if !ok { return; }
        if stopped { return true, SessionStopped; }
        if !accepted {
          ok := Fail(true);
          return ok, SessionLost;
        }
        ok := ConfirmOnline();
        if !ok { return; }
      }
    }

    // ----- the worker -----

    /** From the head of the loop to the decision on the answer to the registration. */
    method RegisterComponent() returns (ok: bool, stopped: bool, answer: Response)
      requires Valid() && model.pc == Joining(Announcing)
      modifies this
      ensures Valid() && position >= old(position)
      ensures !ok ==> position == |script|
      ensures ok && stopped ==> model.pc == Leaving(LeavingLoop)
      ensures ok && !stopped ==>
                model.pc ==
                if RegistrationAccepted(answer) then Joining(OpeningSession(answer.registration.value))
                else if answer.status != 201 && IsContractStatus(answer.status) then Faulting
                else Retrying(Failing(true))
    {
      hide Exec, RegistrationAccepted, MakePilotState;
      stopped := false;
      var r, timedOut;
      ghost var before;
      ok, answer, timedOut, before := Next();
      if !ok { return; }
      SetState(RegisteringState);
      ok, r, timedOut, before := Next();                     // the state to register with is read
      if !ok { return; }
      ok, r, timedOut, before := Next();                     // the request goes out
      if !ok { return; }
      ok, answer, timedOut, before := Next();                // the answer comes in
      if !ok { return; }
      ok, r, timedOut, before := Next();
      if !ok { return; }
      stopped := stopRequested;
      RegistrationIsCreated(answer);
    }

    lemma RegistrationIsCreated(r: Response)
      ensures RegistrationAccepted(r) ==> r.status == 201
    {
    }

    method OpenGrantedSession(reg: Registration) returns (ok: bool)
      requires Valid() && model.pc == Joining(OpeningSession(reg))
      modifies this
      ensures Valid() && position >= old(position)
      ensures !ok ==> position == |script|
      ensures ok ==> model.pc == Joining(Preparing(reg))
    {
      hide Exec;
      var r, timedOut;
      ghost var before;
      ok, r, timedOut, before := Next();
      if !ok { return; }
      sessionId, sequence := reg.sessionId, 1;
      snapshot := snapshot.(serverInstanceId := reg.serverInstanceId, retryCount := retries,
                            catalogGeneration := 0, descriptorCount := 0);
    }

    method GoOnline() returns (ok: bool)
      requires Valid() && model.pc == InSession(GoingOnline)
      modifies this
      ensures Valid() && position >= old(position)
      ensures !ok ==> position == |script|
      ensures ok ==> model.pc == InSession(SessionHead)
    {
      hide Exec;
      var r, timedOut;
      ghost var before;
      ok, r, timedOut, before := Next();
      if !ok { return; }
      SetState(Online);
      retries := 0;
    }

    /** The session that an accepted registration opens, to its end. */
    method ServeSession(reg: Registration) returns (ok: bool, next: ServeResult)
      requires Valid() && model.pc == Joining(OpeningSession(reg))
      modifies this
      ensures Valid() && position >= old(position)
      ensures !ok ==> position == |script|
      ensures ok ==>
                match next
                case ToLeave => model.pc == Leaving(LeavingLoop)
                case ToReturn => model.pc == Returned && snapshot.state == ContractFaulted
                case ToRetry => model.pc == Retrying(Bumping)
    {
      hide Exec, DoWorkerStep;
      next := ToRetry;
      var result, end;
      ok := OpenGrantedSession(reg);
      if !ok { return; }
      ok, result := PublishCatalog(reg);
      if !ok { return; }
      if result.PublishStopped? { return true, ToLeave; }
      if result.PublishFault? { return true, ToReturn; }
      if result.SessionReplaced? { return true, ToRetry; }
      if result.DonePublishing? {
        ok := GoOnline();
        if !ok { return; }
        ok, end := RunSession();
        if !ok { return; }
        if end.SessionStopped? { return true, ToLeave; }
        if end.SessionLost? { return true, ToRetry; }
      }
      ok := Fail(true);                                      // the catch clause
    }

    /** Waits out the delay before the next registration, or until a stop is asked for. */
    method BackOffBeforeRetry() returns (ok: bool)
      requires Valid() && model.pc == Retrying(Bumping)
      modifies this
      ensures Valid() && position >= old(position)
      ensures !ok ==> position == |script|
      ensures ok ==> model.pc == LoopHead
    {
      hide Exec, Backoff;
      var more, r, timedOut, before := Next();
      if !more { return false; }
      retries := retries + 1;
      snapshot := snapshot.(retryCount := retries);
      while true
        invariant Valid() && model.pc == Retrying(BackingOff) && position >= old(position)
        decreases |script| - position
      {
        more, r, timedOut, before := Next();
        if !more { return false; }
        if stopRequested || timedOut { return true; }
      }
    }

    method SayGoodbye() returns (ok: bool)
      requires Valid() && model.pc == Leaving(SayingStopping)
      modifies this
      ensures Valid()
      ensures ok ==> model.pc == Leaving(SayingStopped)
      ensures !ok ==> position == |script|
    {
      hide Exec;
      var r, timedOut;
      ghost var before;
      ok, r, timedOut, before := Next();
      if !ok { return; }
      SetState(StoppingState);
      ok, r, timedOut, before := Next();                     // the disconnect goes out
      if !ok { return; }
      ok, r, timedOut, before := Next();
    }

    /** Disconnects if there is a session to leave. */
    method LeaveServer() returns (ok: bool)
      requires Valid() && model.pc == Leaving(LeavingLoop)
      modifies this
      ensures Valid()
      ensures ok ==> model.pc == Returned && snapshot.state == Stopped
      ensures !ok ==> position == |script|
    {
      hide Exec;
      var more, r, timedOut, before := Next();
      if !more { return false; }
      if sessionId != "" {
        ok := SayGoodbye();
        if !ok { return; }
      }
      more, r, timedOut, before := Next();
      if !more { return false; }
      SetState(Stopped);
      return true;
    }

    method HeadOfLoop() returns (ok: bool, leave: bool)
      requires Valid() && model.pc == LoopHead
      modifies this
      ensures Valid() && position >= old(position) && (ok ==> position > old(position))
      ensures !ok ==> position == |script|
      ensures ok ==> model.pc == if leave then Leaving(LeavingLoop) else Joining(Announcing)
    {
      hide Exec;
      var r, timedOut;
      ghost var before;
      ok, r, timedOut, before := Next();
      leave := stopRequested;
    }

    /**
     The whole thread. Whatever the script, it does what the state machine does on it; it is done
     when the state machine's worker has returned.
     */
    method RunWorker() returns (done: bool)
      requires Valid() && position == 0 && model.pc == LoopHead
      modifies this
      ensures Valid() && model == Exec(cfg, start, script[..position])
      ensures done ==> model.pc == Returned && (snapshot.state == Stopped || snapshot.state == ContractFaulted)
      ensures !done ==> position == |script|
    {
      hide Exec, DoWorkerStep;
      while true
        invariant Valid() && model.pc == LoopHead
        decreases |script| - position
      {
        var stopped, answer, next;
        var ok, leave := HeadOfLoop();
        if !ok { return false; }
        if leave { break; }
        ok, stopped, answer := RegisterComponent();
        if !ok { return false; }
        if stopped { break; }
        if RegistrationAccepted(answer) {
          ok, next := ServeSession(answer.registration.value);
          if !ok { return false; }
          if next.ToReturn? { return true; }
          if next.ToLeave? { break; }
        } else if answer.status != 201 && IsContractStatus(answer.status) {
          done := Fault();
          return;
        } else {
          ok := Fail(true);
          if !ok { return false; }
        }
        ok := BackOffBeforeRetry();
        if !ok { return false; }
      }
      done := LeaveServer();
    }
  }

  /** The client after its start and the first n events. */
  function StartedAfter(cfg: PilotConfig, initial: ProviderState, id: string, script: seq<Event>, n: nat): Client
    requires n <= |script|
  {
    Exec(cfg, InitialClient, [StartClient(initial, id)] + script[..n])
  }

  /**
   A client run from its start: the snapshot it leaves is the one of the state machine after some
   part of the script, and a worker that has ended shows STOPPED or CONTRACT_FAULT.
   */
  method RunClient(cfg: PilotConfig, initial: ProviderState, id: string, script: seq<Event>)
    returns (shown: Snapshot, done: bool, used: nat)
    requires cfg.enabled
    ensures used <= |script| && shown == StartedAfter(cfg, initial, id, script, used).snapshot
    ensures done ==> StartedAfter(cfg, initial, id, script, used).pc == Returned
    ensures !done ==> used == |script|
    ensures done ==> shown.state == Stopped || shown.state == ContractFaulted
  {
    var worker := new Worker(cfg, initial, id, script);
    done := worker.RunWorker();
    shown, used := worker.snapshot, worker.position;
    var run := [StartClient(initial, id)] + script[..used];
    assert run[0] == StartClient(initial, id) && run[1..] == script[..used];
  }
}
