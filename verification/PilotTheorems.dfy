/** What the Pilot client keeps in every run against every server. */
module PilotTheorems {
  import opened Wrappers
  import opened PilotClient
  import opened PilotObserver
  import opened PilotSafety

  function After(cfg: PilotConfig, run: seq<Event>): Client {
    Exec(cfg, InitialClient, run)
  }

  lemma Reached(cfg: PilotConfig, run: seq<Event>)
    ensures Inv(cfg, After(cfg, run))
  {
    RunOk(cfg, InitialClient, run);
  }

  /** Every mark of the current client run was allowed by the marks before it. */
  lemma ReachedAt(cfg: PilotConfig, run: seq<Event>, i: nat)
    requires i < |After(cfg, run).trace|
    ensures var s := After(cfg, run);
            Lawful(cfg, s.instanceId, s.trace[..i]) && MayMark(cfg, Observe(cfg, s.trace[..i]), s.instanceId, s.trace[i])
  {
    Reached(cfg, run);
    LawfulAt(cfg, After(cfg, run).instanceId, After(cfg, run).trace, i);
  }

  // ----- sessions -----

  predicate IsRegister(mark: Mark) {
    mark.Sent? && mark.message.Register?
  }

  predicate IsSessionWrite(mark: Mark) {
    mark.Sent? && (mark.message.Heartbeat? || mark.message.StateUpdate?)
  }

  function WriteCount(trace: seq<Mark>): nat
    decreases |trace|
  {
    if trace == [] then 0
    else WriteCount(trace[..|trace| - 1]) + if IsSessionWrite(trace[|trace| - 1]) then 1 else 0
  }

  /** Mark j accepts the registration in force at the end, and `writes` writes have followed it. */
  ghost predicate OpenedAt(trace: seq<Mark>, j: nat, reg: Registration, writes: int) {
    && j < |trace| && trace[j].Received?
    && RegistrationAccepted(trace[j].response) && trace[j].response.registration == Some(reg)
    && (forall i :: j < i < |trace| ==> !IsRegister(trace[i]))
    && WriteCount(trace[j..]) == writes
  }

  /** Mark k accepts the catalog of that registration. */
  ghost predicate PublishedAt(cfg: PilotConfig, trace: seq<Mark>, j: nat, k: nat, reg: Registration) {
    && j < k < |trace| && trace[k].Received?
    && CatalogAccepted(cfg, reg.serverInstanceId, trace[k].response)
  }

  lemma OpenedMore(trace: seq<Mark>, j: nat, reg: Registration, writes: int, mark: Mark)
    requires OpenedAt(trace, j, reg, writes) && !IsRegister(mark)
    ensures OpenedAt(trace + [mark], j, reg, writes + if IsSessionWrite(mark) then 1 else 0)
  {
    var tail := trace[j..];
    assert (trace + [mark])[j..] == tail + [mark];
    assert (tail + [mark])[..|tail|] == tail;
  }

  /** What ties the parts of a view together. */
  ghost predicate Coherent(v: View) {
    (RegisterLast(v) ==> v.writes == 0 && v.catalog.None?) && (v.catalog.Some? ==> v.registration.Some?)
  }

  /** How one mark changes the session in force: it is accepted by this mark, or goes on. */
  ghost predicate SessionMoves(v: View, w: View, mark: Mark) {
    w.registration.Some? ==>
      || (mark.Received? && RegistrationAccepted(mark.response) && w.writes == 0 && w.catalog.None? &&
          mark.response.registration == w.registration)
      || (!IsRegister(mark) && w.registration == v.registration &&
          w.writes == v.writes + if IsSessionWrite(mark) then 1 else 0)
  }

  ghost predicate CatalogMoves(cfg: PilotConfig, v: View, w: View, mark: Mark)
    requires w.catalog.Some? ==> w.registration.Some?
  {
    w.catalog.Some? ==>
      || (mark.Received? && CatalogAccepted(cfg, w.registration.value.serverInstanceId, mark.response))
      || w.catalog == v.catalog
  }

  lemma SentStep(cfg: PilotConfig, v: View, m: Message)
    requires Coherent(v)
    ensures var w := ObserveSent(v, m); Coherent(w) && SessionMoves(v, w, Sent(m)) && CatalogMoves(cfg, v, w, Sent(m))
  {
    hide RegistrationAccepted, CatalogAccepted;
  }

  lemma ReceivedStep(cfg: PilotConfig, v: View, r: Response)
    requires Coherent(v)
    ensures var w := ObserveReceived(cfg, v, r);
            Coherent(w) && SessionMoves(v, w, Received(r)) && CatalogMoves(cfg, v, w, Received(r))
  {
    hide ObserveReceived, CatalogMatches;
    ReceivedKeeps(cfg, v, r);
  }

  lemma SessionStep(cfg: PilotConfig, v: View, mark: Mark)
    requires Coherent(v)
    ensures var w := ObserveMark(cfg, v, mark); Coherent(w) && SessionMoves(v, w, mark) && CatalogMoves(cfg, v, w, mark)
  {
    hide ObserveSent, ObserveReceived, RegistrationAccepted, CatalogAccepted;
    match mark
    case Sent(m) => SentStep(cfg, v, m);
    case Received(r) => ReceivedStep(cfg, v, r);
    case _ =>
  }

  /** The session that `Observe` reports is where it should be in the trace. */
  lemma {:induction false} SessionInTrace(cfg: PilotConfig, trace: seq<Mark>) returns (j: nat, k: nat)
    ensures var v := Observe(cfg, trace);
            && (RegisterLast(v) ==> v.writes == 0 && v.catalog.None?)
            && (v.catalog.Some? ==> v.registration.Some?)
            && (v.registration.Some? ==> OpenedAt(trace, j, v.registration.value, v.writes))
            && (v.catalog.Some? ==> PublishedAt(cfg, trace, j, k, v.registration.value))
    decreases |trace|
  {
    hide ObserveMark, RegistrationAccepted, CatalogAccepted;
    j, k := 0, 0;
    if trace != [] {
      var before, mark := trace[..|trace| - 1], trace[|trace| - 1];
      j, k := SessionInTrace(cfg, before);
      var v, w := Observe(cfg, before), Observe(cfg, trace);
      SessionStep(cfg, v, mark);
      assert trace == before + [mark];
      if w.registration.Some? {
        if mark.Received? && RegistrationAccepted(mark.response) && w.writes == 0 && w.catalog.None?
           && mark.response.registration == w.registration {
          j := |trace| - 1;
          assert trace[j..] == [mark] && [mark][..0] == [];
          assert WriteCount([mark]) == 0;
        } else {
          OpenedMore(before, j, v.registration.value, v.writes, mark);
          if w.catalog.Some? && w.catalog != v.catalog { k := |trace| - 1; }
        }
      }
    }
  }

  /**
   No heartbeat or state write goes out before that session's registration and catalog were
   accepted, the catalog with matching component, server instance and descriptor count, and the
   writes of each session are numbered 1, 2, 3, ...
   */
  lemma WritesFollowAnAcceptedCatalog(cfg: PilotConfig, run: seq<Event>, i: nat)
    requires i < |After(cfg, run).trace| && IsSessionWrite(After(cfg, run).trace[i])
    ensures var trace := After(cfg, run).trace;
            var m := trace[i].message;
            exists j: nat, k: nat, reg ::
              && OpenedAt(trace[..i], j, reg, m.sequence - 1) && reg.sessionId == m.sessionId
              && PublishedAt(cfg, trace[..i], j, k, reg)
  {
    ReachedAt(cfg, run, i);
    var trace := After(cfg, run).trace;
    var j, k := SessionInTrace(cfg, trace[..i]);
    var reg := Observe(cfg, trace[..i]).registration.value;
    assert OpenedAt(trace[..i], j, reg, trace[i].message.sequence - 1);
  }

  /** All catalog requests of a client run carry the same bytes. */
  lemma CatalogBytesAreStable(cfg: PilotConfig, run: seq<Event>, i: nat, j: nat)
    requires var trace := After(cfg, run).trace;
             && i < |trace| && trace[i].Sent? && trace[i].message.PutCatalog?
             && j < |trace| && trace[j].Sent? && trace[j].message.PutCatalog?
    ensures After(cfg, run).trace[i].message.body == After(cfg, run).trace[j].message.body
  {
    ReachedAt(cfg, run, i);
    ReachedAt(cfg, run, j);
  }

  /** ONLINE always shows a positive catalog generation and the full descriptor count. */
  lemma OnlineShowsTheCatalog(cfg: PilotConfig, run: seq<Event>)
    requires After(cfg, run).snapshot.state == Online
    ensures After(cfg, run).snapshot.catalogGeneration > 0
    ensures After(cfg, run).snapshot.descriptorCount == cfg.descriptorCount
  {
    Reached(cfg, run);
  }

  // ----- the latest state -----

  /** Between two writes of an established session. */
  predicate Idling(s: Client) {
    s.pc.InSession? && (s.pc.session.SessionHead? || s.pc.session.SessionWait? || s.pc.session.ConfirmingOnline?)
  }

  /**
   A pending state is the current one; and with nothing pending and nothing in flight, the state
   the server last accepted in this session is the current one.
   */
  lemma LatestStateIsNeverLost(cfg: PilotConfig, run: seq<Event>)
    ensures var s := After(cfg, run);
            && (s.pending.Some? ==> s.pending.value == s.current)
            && (Idling(s) && s.pending.None? ==>
                  Observe(cfg, s.trace).delivered == Some(MakePilotState(s.current)))
  {
    Reached(cfg, run);
  }

  /** `n` steps of the worker, all with the same outcome, send the current state and nothing else. */
  ghost predicate WritesNext(cfg: PilotConfig, s: Client, step: Event, n: nat) {
    Exec(cfg, s, seq(n, _ => step)).trace ==
    s.trace + [Sent(StateUpdate(s.sessionId, s.sequence, MakePilotState(s.current)))]
  }

  /** A pending state is the very next message of an idling session that nobody stops. */
  lemma PendingStateIsWrittenNext(cfg: PilotConfig, run: seq<Event>, r: Response, timedOut: bool)
    requires var s := After(cfg, run); Idling(s) && s.pending.Some? && !s.stopRequested && s.sequence <= MAX_SEQUENCE
    ensures exists n: nat | n <= 4 :: WritesNext(cfg, After(cfg, run), WorkerStep(r, timedOut), n)
  {
    Reached(cfg, run);
    PendingFromHere(cfg, After(cfg, run), r, timedOut);
  }

  lemma PendingFromHere(cfg: PilotConfig, s: Client, r: Response, timedOut: bool)
    requires Idling(s) && s.pending == Some(s.current) && !s.stopRequested && s.sequence <= MAX_SEQUENCE
    ensures exists n: nat | n <= 4 :: WritesNext(cfg, s, WorkerStep(r, timedOut), n)
  {
    hide WritesNext;
    var step := WorkerStep(r, timedOut);
    match s.pc.session
    case SessionWait =>
      FromTheWait(cfg, s, r, timedOut);
    case SessionHead =>
      var waiting := s.(pc := InSession(SessionWait));
      FromTheWait(cfg, waiting, r, timedOut);
      OneSilentStep(cfg, s, waiting, step, 2);
    case ConfirmingOnline =>
      var online := Say(s, Online, InSession(SessionHead));
      var waiting := online.(pc := InSession(SessionWait));
      FromTheWait(cfg, waiting, r, timedOut);
      OneSilentStep(cfg, online, waiting, step, 2);
      OneSilentStep(cfg, s, online, step, 3);
  }

  lemma FromTheWait(cfg: PilotConfig, s: Client, r: Response, timedOut: bool)
    requires s.pc == InSession(SessionWait)
    requires s.pending == Some(s.current) && !s.stopRequested && s.sequence <= MAX_SEQUENCE
    ensures WritesNext(cfg, s, WorkerStep(r, timedOut), 2)
  {
    hide Exec;
    var step := WorkerStep(r, timedOut);
    var writing := s.(pending := None, pc := InSession(WritingState(s.current)));
    OneMore(cfg, s, step, 1);
    OneMore(cfg, writing, step, 0);
    NoMore(cfg, Apply(cfg, writing, step), step);
  }

  lemma OneSilentStep(cfg: PilotConfig, s: Client, s': Client, e: Event, n: nat)
    requires s' == Apply(cfg, s, e) && WritesNext(cfg, s', e, n)
    requires s'.trace == s.trace && s'.sessionId == s.sessionId && s'.sequence == s.sequence && s'.current == s.current
    ensures WritesNext(cfg, s, e, n + 1)
  {
    hide Exec, Apply;
    OneMore(cfg, s, e, n);
  }

  lemma OneMore(cfg: PilotConfig, s: Client, e: Event, n: nat)
    ensures Exec(cfg, s, seq(n + 1, _ => e)) == Exec(cfg, Apply(cfg, s, e), seq(n, _ => e))
  {
    assert seq(n + 1, _ => e)[1..] == seq(n, _ => e);
  }

  lemma NoMore(cfg: PilotConfig, s: Client, e: Event)
    ensures Exec(cfg, s, seq(0, _ => e)) == s
  {
  }

  // ----- backoff -----

  lemma {:induction false} PowerMonotone(a: nat, b: nat)
    requires a <= b
    ensures 1 <= PowerOfTwo(a) <= PowerOfTwo(b)
    decreases b
  {
    if b == 0 {
    } else if a < b {
      PowerMonotone(a, b - 1);
    } else {
      PowerMonotone(a - 1, b - 1);
    }
  }

  lemma TenIsEnough()
    ensures PowerOfTwo(MAX_BACKOFF_SHIFT) == 1024
  {
    assert PowerOfTwo(5) == 32;
    assert PowerOfTwo(8) == 256;
  }

  /**
   The delay lies between the configured bounds, never shrinks with the retry count, and the
   product it is computed from fits 32-bit integers.
   */
  lemma BackoffBounds(cfg: PilotConfig, retry: nat, later: nat)
    requires ConfigOk(cfg) && 0 < retry <= later
    ensures cfg.initialDelayMs <= Backoff(cfg, retry) <= Backoff(cfg, later) <= cfg.maxDelayMs
    ensures 0 < cfg.initialDelayMs * PowerOfTwo(Min(retry - 1, MAX_BACKOFF_SHIFT)) <= 0x7fff_ffff
  {
    var a, b := Min(retry - 1, MAX_BACKOFF_SHIFT), Min(later - 1, MAX_BACKOFF_SHIFT);
    TenIsEnough();
    PowerMonotone(0, a);
    PowerMonotone(a, b);
    PowerMonotone(b, MAX_BACKOFF_SHIFT);
    Scale(cfg.initialDelayMs, 1, PowerOfTwo(a));
    Scale(cfg.initialDelayMs, PowerOfTwo(a), PowerOfTwo(b));
    Scale(cfg.initialDelayMs, PowerOfTwo(b), 1024);
  }

  lemma Scale(x: int, a: int, b: int)
    requires 0 <= x && a <= b
    ensures x * a <= x * b
  {
  }

  /** Below the cap on the shift, each further retry doubles the delay up to the maximum. */
  lemma BackoffDoubles(cfg: PilotConfig, retry: nat)
    requires ConfigOk(cfg) && 0 < retry <= MAX_BACKOFF_SHIFT
    ensures Backoff(cfg, retry + 1) == Min(cfg.maxDelayMs, 2 * Backoff(cfg, retry))
  {
    BackoffBounds(cfg, retry, retry + 1);
    assert PowerOfTwo(retry) == 2 * PowerOfTwo(retry - 1);
    assert cfg.initialDelayMs * PowerOfTwo(retry) == 2 * (cfg.initialDelayMs * PowerOfTwo(retry - 1));
  }

  lemma RestStep(cfg: PilotConfig, v: View, mark: Mark)
    ensures var w := ObserveMark(cfg, v, mark);
            && (w.last.None? ==> !mark.Sent? && v.last.None?)
            && (w.rested ==> mark.BackedOff? || (v.rested && !mark.Sent?))
  {
    hide ObserveReceived;
    if mark.Received? {
      ReceivedKeeps(cfg, v, mark.response);
    }
  }

  /** A rest the observer reports is a backoff wait after the last message. */
  lemma {:induction false} RestInTrace(cfg: PilotConfig, trace: seq<Mark>) returns (k: nat)
    ensures var v := Observe(cfg, trace);
            && (v.last.None? ==> forall i :: 0 <= i < |trace| ==> !trace[i].Sent?)
            && (v.rested ==> k < |trace| && trace[k].BackedOff? && forall i :: k < i < |trace| ==> !trace[i].Sent?)
    decreases |trace|
  {
    hide ObserveMark;
    k := 0;
    if trace != [] {
      var before := trace[..|trace| - 1];
      k := RestInTrace(cfg, before);
      RestStep(cfg, Observe(cfg, before), trace[|trace| - 1]);
      assert forall i :: 0 <= i < |before| ==> trace[i] == before[i];
      if trace[|trace| - 1].BackedOff? {
        k := |trace| - 1;
      }
    }
  }

  /** Between any two registrations there is a full backoff wait within the configured bounds. */
  lemma RegistrationsAreSpaced(cfg: PilotConfig, run: seq<Event>, i: nat, j: nat)
    requires ConfigOk(cfg)
    requires var trace := After(cfg, run).trace; i < j < |trace| && IsRegister(trace[i]) && IsRegister(trace[j])
    ensures var trace := After(cfg, run).trace;
            exists k ::
              && i < k < j && trace[k].BackedOff?
              && cfg.initialDelayMs <= trace[k].delayMs <= cfg.maxDelayMs
  {
    hide Backoff, Observe, Exec;
    var trace := After(cfg, run).trace;
    ReachedAt(cfg, run, j);
    var k := RestInTrace(cfg, trace[..j]);
    assert trace[..j][i] == trace[i] && trace[..j][k] == trace[k];
    ReachedAt(cfg, run, k);
    BackoffBounds(cfg, Observe(cfg, trace[..k]).backoffs + 1, Observe(cfg, trace[..k]).backoffs + 1);
  }

  /**
   The n-th backoff wait in a row since a catalog was last accepted lasts `Backoff(n)`, and so
   does the n-th rest between the catalog requests of one registration.
   */
  lemma WaitsFollowTheRetryCount(cfg: PilotConfig, run: seq<Event>, i: nat)
    requires i < |After(cfg, run).trace|
    ensures var trace := After(cfg, run).trace;
            var v := Observe(cfg, trace[..i]);
            && (trace[i].BackedOff? ==> trace[i].delayMs == Backoff(cfg, v.backoffs + 1))
            && (trace[i].RetriedPublish? ==> trace[i].delayMs == Backoff(cfg, v.publishRests + 1))
  {
    ReachedAt(cfg, run, i);
  }

  // ----- faults -----

  /** Mark i is the answer to a registration or a catalog that is a contract fault. */
  ghost predicate FaultAt(trace: seq<Mark>, i: nat) {
    && i < |trace| && trace[i].Received?
    && (IsContractStatus(trace[i].response.status) ||
        (trace[i].response.status == 409 &&
         ClassifyCatalogConflict(trace[i].response.errorCode) != ReplaceSession))
  }

  lemma FaultStep(cfg: PilotConfig, v: View, mark: Mark)
    ensures var w := ObserveMark(cfg, v, mark);
            w.faulted && !v.faulted ==> FaultAt([mark], 0)
  {
    hide ObserveReceived, ClassifyCatalogConflict;
    if mark.Received? {
      ReceivedKeeps(cfg, v, mark.response);
    }
  }

  lemma {:induction false} FaultInTrace(cfg: PilotConfig, trace: seq<Mark>) returns (i: nat)
    requires Observe(cfg, trace).faulted
    ensures FaultAt(trace, i)
    decreases |trace|
  {
    hide ObserveMark, ClassifyCatalogConflict;
    i := |trace| - 1;
    var before := trace[..|trace| - 1];
    FaultStep(cfg, Observe(cfg, before), trace[|trace| - 1]);
    if Observe(cfg, before).faulted {
      i := FaultInTrace(cfg, before);
    }
  }

  /** CONTRACT_FAULT comes from a contract-fault answer, and from then on nothing is sent. */
  lemma NothingIsSentAfterAContractFault(cfg: PilotConfig, run: seq<Event>, more: seq<Event>)
    requires After(cfg, run).snapshot.state == ContractFaulted
    requires forall e | e in more :: !e.StartClient?
    ensures var trace, later := After(cfg, run).trace, Exec(cfg, After(cfg, run), more).trace;
            && (exists i: nat :: FaultAt(trace, i))
            && trace <= later && forall i | |trace| <= i < |later| :: later[i] == StopAsked
  {
    Reached(cfg, run);
    var i := FaultInTrace(cfg, After(cfg, run).trace);
    SilentFromHere(cfg, After(cfg, run), more);
  }

  lemma {:induction false} SilentFromHere(cfg: PilotConfig, s: Client, more: seq<Event>)
    requires s.pc.Returned? || s.pc.NotRunning?
    requires forall e | e in more :: !e.StartClient?
    ensures var later := Exec(cfg, s, more).trace;
            s.trace <= later && forall i | |s.trace| <= i < |later| :: later[i] == StopAsked
    decreases |more|
  {
    if more != [] {
      assert more[0] in more;
      SilentFromHere(cfg, Apply(cfg, s, more[0]), more[1..]);
    }
  }

  // ----- what follows a catalog request -----

  /** Message i is a catalog request, and from there to before j nothing else is sent. */
  ghost predicate RequestAt(trace: seq<Mark>, i: nat, j: nat) {
    && i < j <= |trace| && trace[i].Sent? && trace[i].message.PutCatalog?
    && forall q :: i < q < j ==> !trace[q].Sent?
  }

  /** Mark k is the only answer between i and j. */
  ghost predicate AnswerAt(trace: seq<Mark>, i: nat, k: nat, j: nat) {
    && i < k < j <= |trace| && trace[k].Received?
    && forall q :: i < q < j && q != k ==> !trace[q].Received?
  }

  predicate Stale(r: Response) {
    r.status == 409 && r.errorCode in {"stale_catalog_generation", "session_expired", "stale_sequence"}
  }

  /** The view right after a catalog request of this registration. */
  ghost predicate Requested(v: View, reg: Registration) {
    && v.last.Some? && v.last.value.PutCatalog?
    && v.registration == Some(reg) && v.catalog.None? && v.writes == 0
    && !v.refused && !v.faulted && !v.ignored && !v.paused
  }

  /** The view once the answer `r` to it was seen. */
  ghost predicate CatalogJudged(cfg: PilotConfig, v: View, reg: Registration, r: Response) {
    && v.last.Some? && v.last.value.PutCatalog?
    && v.registration == Some(reg) && v.writes == 0
    && (!v.ignored ==>
          if CatalogAccepted(cfg, reg.serverInstanceId, r) then v.catalog.Some? && !v.refused && !v.faulted
          else v.catalog.None? && v.refused == CatalogRefusal(r).Replace? && v.faulted == CatalogRefusal(r).Fault?)
  }

  /** Since request i: no answer yet, or one at k, and a rest at q if the publication rested. */
  ghost predicate SinceRequest(cfg: PilotConfig, trace: seq<Mark>, v: View, i: nat, reg: Registration, k: nat, q: nat) {
    if v.awaiting then
      Requested(v, reg) && forall x :: i < x < |trace| ==> !trace[x].Received?
    else
      && AnswerAt(trace, i, k, |trace|) && CatalogJudged(cfg, v, reg, trace[k].response)
      && (v.paused ==> k < q < |trace| && trace[q].RetriedPublish?)
  }

  lemma CatalogReplyStep(cfg: PilotConfig, v: View, reg: Registration, r: Response)
    requires Requested(v, reg)
    ensures var w := ObserveReceived(cfg, v, r); !w.awaiting && !w.paused && CatalogJudged(cfg, w, reg, r)
  {
    hide CatalogMatches, CatalogRefusal;
    if v.stopped {
    } else if CatalogAccepted(cfg, reg.serverInstanceId, r) {
    } else {
      match CatalogRefusal(r)
      case Replace =>
      case Fault =>
      case TryAgain =>
    }
  }

  /** A mark that neither sends nor answers leaves the judgement as it is. */
  lemma QuietStep(cfg: PilotConfig, v: View, instanceId: string, mark: Mark)
    requires !mark.Sent? && !mark.Received? && MayMark(cfg, v, instanceId, mark)
    ensures var w := ObserveMark(cfg, v, mark);
            && w.last == v.last && w.awaiting == v.awaiting && w.registration == v.registration
            && w.catalog == v.catalog && w.writes == v.writes && w.refused == v.refused
            && w.faulted == v.faulted && w.ignored == v.ignored
            && (w.paused ==> v.paused || mark.RetriedPublish?)
            && (mark.RetriedPublish? ==> !v.awaiting)
  {
    match mark
    case RetriedPublish(_) =>
    case BackedOff(_) =>
    case StopAsked =>
  }

  lemma {:induction false} AnswerInTrace(cfg: PilotConfig, instanceId: string, trace: seq<Mark>, i: nat)
    returns (k: nat, q: nat)
    requires Lawful(cfg, instanceId, trace) && RequestAt(trace, i, |trace|)
    ensures var reg := Observe(cfg, trace[..i]).registration;
            reg.Some? && SinceRequest(cfg, trace, Observe(cfg, trace), i, reg.value, k, q)
    decreases |trace|
  {
    var before, mark := trace[..|trace| - 1], trace[|trace| - 1];
    var v := Observe(cfg, before);
    k, q := 0, 0;
    if i == |trace| - 1 {
      assert before == trace[..i];
    } else {
      hide ObserveMark, MayMark;
      assert before[..i] == trace[..i] && trace == before + [mark];
      k, q := AnswerInTrace(cfg, instanceId, before, i);
      var reg := Observe(cfg, trace[..i]).registration.value;
      if mark.Received? {
        AnswersAreAwaited(cfg, v, instanceId, mark);
        CatalogReplyStep(cfg, v, reg, mark.response);
        k := |trace| - 1;
      } else {
        QuietStep(cfg, v, instanceId, mark);
        if mark.RetriedPublish? { q := |trace| - 1; }
      }
    }
  }

  lemma NothingIsSentUnanswered(cfg: PilotConfig, v: View, instanceId: string, m: Message)
    requires MayMark(cfg, v, instanceId, Sent(m))
    ensures !v.awaiting
  {
  }

  lemma AnswersAreAwaited(cfg: PilotConfig, v: View, instanceId: string, mark: Mark)
    requires mark.Received? && MayMark(cfg, v, instanceId, mark)
    ensures v.awaiting && ObserveMark(cfg, v, mark) == ObserveReceived(cfg, v, mark.response)
  {
  }

  /** How message m, the next one after a catalog request in session `reg`, follows from the answer r. */
  ghost predicate Follows(cfg: PilotConfig, reg: Registration, asked: Message, r: Response, m: Message)
    requires asked.PutCatalog?
  {
    && ((m.Heartbeat? || m.StateUpdate?) <==> CatalogAccepted(cfg, reg.serverInstanceId, r))
    && (m.Heartbeat? || m.StateUpdate? ==> m.sessionId == asked.sessionId && m.sequence == 1)
    && (m.PutCatalog? <==> r.status !in {200, 400, 404, 409, 413, 415})
    && (m.PutCatalog? ==> m == asked)
    && (m.Register? <==>
          || (r.status == 200 && !CatalogAccepted(cfg, reg.serverInstanceId, r))
          || r.status == 404 || Stale(r))
  }

  /**
   The next message after a catalog request tells its answer. There is exactly one answer in
   between, and the client, unless it was stopped and disconnects,
   - goes on in that session exactly after a 200 that matches the publication,
   - asks again in it, after a rest, exactly after an answer other than 200, 400, 404, 409, 413
     and 415,
   - registers anew exactly after a 200 that does not match, a 404 or a 409 that says stale;
   so after any other 409, and after 400, 413 and 415, nothing follows but a stop's disconnect.
   */
  lemma NextMessageTellsTheCatalogAnswer(cfg: PilotConfig, run: seq<Event>, i: nat, j: nat)
    requires var trace := After(cfg, run).trace; RequestAt(trace, i, j) && j < |trace| && trace[j].Sent?
    ensures var trace := After(cfg, run).trace;
            var m, asked := trace[j].message, trace[i].message;
            exists a: nat, k: nat, reg: Registration ::
              && OpenedAt(trace[..i], a, reg, 0) && reg.sessionId == asked.sessionId
              && AnswerAt(trace, i, k, j)
              && (m.Disconnect? ==> exists x :: 0 <= x < j && trace[x] == StopAsked)
              && (!m.Disconnect? ==> Follows(cfg, reg, asked, trace[k].response, m))
              && (m.PutCatalog? ==> exists q :: k < q < j && trace[q].RetriedPublish?)
  {
    hide MaySend, MayMark, CatalogAccepted, OpenedAt, PublishedAt, Lawful, Follows, CatalogJudged, Observe, Exec;
    var s := After(cfg, run);
    var trace, upTo := s.trace, s.trace[..j];
    ReachedAt(cfg, run, j);
    LawfulAt(cfg, s.instanceId, upTo, i);
    assert upTo[..i] == trace[..i];
    var a, c := SessionInTrace(cfg, trace[..i]);
    var k, q := AnswerInTrace(cfg, s.instanceId, upTo, i);
    var reg, v, m := Observe(cfg, trace[..i]).registration.value, Observe(cfg, upTo), trace[j].message;
    RequestedFrom(cfg, Observe(cfg, trace[..i]), s.instanceId, trace[i].message);
    NothingIsSentUnanswered(cfg, v, s.instanceId, m);
    NextIsTold(cfg, v, s.instanceId, reg, trace[k].response, trace[i].message, m);
    assert AnswerAt(trace, i, k, j);
    if m.Disconnect? {
      var x, y := GrantInTrace(cfg, upTo, "");
      assert trace[x] == StopAsked;
    }
  }

  lemma RequestedFrom(cfg: PilotConfig, v: View, instanceId: string, asked: Message)
    requires asked.PutCatalog? && MayMark(cfg, v, instanceId, Sent(asked))
    ensures v.registration.Some? && v.registration.value.sessionId == asked.sessionId && v.writes == 0
    ensures cfg.publication(instanceId) == Some(asked.body)
  {
  }

  lemma NextIsTold(cfg: PilotConfig, v: View, instanceId: string, reg: Registration, r: Response, asked: Message, m: Message)
    requires CatalogJudged(cfg, v, reg, r) && MayMark(cfg, v, instanceId, Sent(m))
    requires asked.PutCatalog? && reg.sessionId == asked.sessionId && cfg.publication(instanceId) == Some(asked.body)
    ensures m.Disconnect? ==> v.stopped
    ensures !m.Disconnect? ==> Follows(cfg, reg, asked, r, m)
    ensures m.PutCatalog? ==> v.paused
  {
    hide CatalogMatches;
  }

  /** Every provider state has its own public state, which the serializer accepts. */
  lemma StatesAreTellable(a: ProviderState, b: ProviderState)
    ensures MakePilotState(a) == MakePilotState(b) <==> a == b
    ensures MakePilotState(a).health in {"starting", "ready", "degraded", "faulted", "stopping"}
    ensures |MakePilotState(a).reason| <= 256
  {
    var h, k := MakePilotState(a).health, MakePilotState(b).health;
    assert a != b ==> h[0] != k[0] || h[2] != k[2];
  }

  // ----- stop -----

  function Messages(trace: seq<Mark>): seq<Message>
    decreases |trace|
  {
    if trace == [] then []
    else Messages(trace[..|trace| - 1]) + if trace[|trace| - 1].Sent? then [trace[|trace| - 1].message] else []
  }

  /** Nothing, a committed message, a disconnect, or the one and then the other. */
  ghost predicate FewMessages(sent: seq<Message>) {
    || |sent| <= 1
    || (|sent| == 2 && !sent[0].Disconnect? && sent[1].Disconnect?)
  }

  lemma LateStep(cfg: PilotConfig, v: View, mark: Mark)
    ensures var w := ObserveMark(cfg, v, mark);
            && w.stopped == (v.stopped || mark == StopAsked)
            && w.late == v.late + if v.stopped && mark.Sent? then [mark.message] else []
  {
    hide ObserveReceived;
    if mark.Received? {
      ReceivedKeeps(cfg, v, mark.response);
    }
  }

  lemma FewMore(cfg: PilotConfig, v: View, instanceId: string, m: Message)
    requires v.stopped && FewMessages(v.late) && MayMark(cfg, v, instanceId, Sent(m))
    ensures FewMessages(v.late + [m])
  {
    hide Established, MayPublish, MayRegister;
  }

  lemma {:induction false} StopInTrace(cfg: PilotConfig, instanceId: string, trace: seq<Mark>, i: nat)
    requires Lawful(cfg, instanceId, trace) && i < |trace| && trace[i] == StopAsked
    ensures var v := Observe(cfg, trace);
            v.stopped && v.late == Messages(trace[i + 1..]) && FewMessages(v.late)
    decreases |trace|
  {
    hide ObserveMark, MayMark;
    var before, mark := trace[..|trace| - 1], trace[|trace| - 1];
    LateStep(cfg, Observe(cfg, before), mark);
    if i < |before| {
      StopInTrace(cfg, instanceId, before, i);
      var tail := trace[i + 1..];
      assert tail[..|tail| - 1] == before[i + 1..] && tail[|tail| - 1] == mark;
      if mark.Sent? { FewMore(cfg, Observe(cfg, before), instanceId, mark.message); }
    } else {
      OneStop(cfg, instanceId, trace);
      NotStoppedYet(cfg, before);
      assert trace[i + 1..] == [];
    }
  }

  /** A lawful trace asks for the stop once. */
  lemma OneStop(cfg: PilotConfig, instanceId: string, trace: seq<Mark>)
    requires Lawful(cfg, instanceId, trace) && trace != [] && trace[|trace| - 1] == StopAsked
    ensures !Observe(cfg, trace[..|trace| - 1]).stopped
  {
  }

  lemma {:induction false} NotStoppedYet(cfg: PilotConfig, trace: seq<Mark>)
    ensures !Observe(cfg, trace).stopped ==> Observe(cfg, trace).late == []
    decreases |trace|
  {
    hide ObserveMark;
    if trace != [] {
      NotStoppedYet(cfg, trace[..|trace| - 1]);
      LateStep(cfg, Observe(cfg, trace[..|trace| - 1]), trace[|trace| - 1]);
    }
  }

  /** After the stop at most one message the worker had committed to, then at most one disconnect. */
  lemma FewMessagesAfterStop(cfg: PilotConfig, run: seq<Event>, i: nat)
    requires i < |After(cfg, run).trace| && After(cfg, run).trace[i] == StopAsked
    ensures FewMessages(Messages(After(cfg, run).trace[i + 1..]))
  {
    Reached(cfg, run);
    StopInTrace(cfg, After(cfg, run).instanceId, After(cfg, run).trace, i);
  }

  /** A disconnect is only sent after a stop, for a session the server had granted in this run. */
  lemma DisconnectsWhatWasGranted(cfg: PilotConfig, run: seq<Event>, i: nat)
    requires i < |After(cfg, run).trace|
    requires After(cfg, run).trace[i].Sent? && After(cfg, run).trace[i].message.Disconnect?
    ensures var trace := After(cfg, run).trace;
            && (exists j :: 0 <= j < i && trace[j] == StopAsked)
            && (exists j ::
                  && 0 <= j < i && trace[j].Received? && RegistrationAccepted(trace[j].response)
                  && trace[j].response.registration.value.sessionId == trace[i].message.sessionId)
  {
    ReachedAt(cfg, run, i);
    var trace := After(cfg, run).trace;
    var j, k := GrantInTrace(cfg, trace[..i], trace[i].message.sessionId);
    assert trace[..i][j] == trace[j] && trace[..i][k] == trace[k];
  }

  lemma GrantStep(cfg: PilotConfig, v: View, mark: Mark, sessionId: string)
    ensures var w := ObserveMark(cfg, v, mark);
            && (w.stopped ==> v.stopped || mark == StopAsked)
            && (sessionId in w.sessions && sessionId !in v.sessions ==>
                  && mark.Received? && RegistrationAccepted(mark.response)
                  && mark.response.registration.value.sessionId == sessionId)
  {
    hide ObserveReceived;
    if mark.Received? {
      ReceivedKeeps(cfg, v, mark.response);
    }
  }

  lemma {:induction false} GrantInTrace(cfg: PilotConfig, trace: seq<Mark>, sessionId: string) returns (j: nat, k: nat)
    ensures var v := Observe(cfg, trace);
            && (v.stopped ==> j < |trace| && trace[j] == StopAsked)
            && (sessionId in v.sessions ==>
                  && k < |trace| && trace[k].Received? && RegistrationAccepted(trace[k].response)
                  && trace[k].response.registration.value.sessionId == sessionId)
    decreases |trace|
  {
    hide ObserveMark, RegistrationAccepted;
    j, k := 0, 0;
    if trace != [] {
      var before := trace[..|trace| - 1];
      GrantStep(cfg, Observe(cfg, before), trace[|trace| - 1], sessionId);
      j, k := GrantInTrace(cfg, before, sessionId);
      if trace[|trace| - 1] == StopAsked && !Observe(cfg, before).stopped { j := |trace| - 1; }
      if sessionId in Observe(cfg, trace).sessions && sessionId !in Observe(cfg, before).sessions { k := |trace| - 1; }
    }
  }
}
