/**
 The server's session table and its two admission counters, over all its sessions. `sessions`
 also keeps finished sessions, whose last handlers still run; `registered` is the server's table.
 */
module StreamServer {
  import opened Wrappers
  import opened FrameIdentity
  import opened StreamSession

  datatype Server = Server(
    maxConnections: nat,
    maxStreams: nat,
    nextId: nat,
    active: int,
    streams: int,
    registered: set<nat>,
    sessions: map<nat, Session>,
    accepted: nat,               // sessions ever accepted
    closed: nat)                 // calls of `closeSession`

  function NewServer(maxConnections: nat, maxStreams: nat): Server {
    Server(maxConnections, maxStreams, 0, 0, 0, {}, map[], 0, 0)
  }

  datatype ServerEvent =
    | Accept(error: bool)
    | OnSession(id: nat, event: Event)
    | NotifyAll(kind: Kind, fetched: nat -> Option<Identity>)

  function AcceptNext(sv: Server, error: bool): Server {
    if error || sv.active >= sv.maxConnections then sv
    else
      var id := sv.nextId + 1;
      sv.(nextId := id, active := sv.active + 1, registered := sv.registered + {id},
          sessions := sv.sessions[id := InitialSession], accepted := sv.accepted + 1)
  }

  predicate MayAdmit(sv: Server) {
    sv.streams < sv.maxStreams
  }

  /** As the code has it: neither counter is decremented below zero. */
  function CloseSession(sv: Server, id: nat, wasStreaming: bool): Server {
    sv.(registered := sv.registered - {id}, closed := sv.closed + 1,
        active := if sv.active > 0 then sv.active - 1 else sv.active,
        streams := if wasStreaming && sv.streams > 0 then sv.streams - 1 else sv.streams)
  }

  /** The same without the guards. */
  function CloseUnguarded(sv: Server, id: nat, wasStreaming: bool): Server {
    sv.(registered := sv.registered - {id}, closed := sv.closed + 1, active := sv.active - 1,
        streams := sv.streams - if wasStreaming then 1 else 0)
  }

  /** The answer of the server is filled in where the session asks for admission. */
  function Answered(sv: Server, e: Event): Event {
    if AsksAdmission(e) then e.(admitted := MayAdmit(sv)) else e
  }

  /** The session's own step, with the stream counted when it is admitted. */
  function Advance(sv: Server, id: nat, e: Event): Server
    requires id in sv.sessions
  {
    var s := sv.sessions[id];
    var admits := s.ops.requests > 0 && AsksAdmission(e) && MayAdmit(sv);
    sv.(sessions := sv.sessions[id := Step(s, Answered(sv, e))],
        streams := sv.streams + if admits then 1 else 0)
  }

  predicate Closes(sv: Server, id: nat, e: Event)
    requires id in sv.sessions
  {
    !sv.sessions[id].finished && Advance(sv, id, e).sessions[id].finished
  }

  function HandleSession(sv: Server, id: nat, e: Event): Server {
    if id !in sv.sessions || e.Notify? then sv
    else
      var sv1 := Advance(sv, id, e);
      if Closes(sv, id, e) then CloseSession(sv1, id, sv1.sessions[id].streaming) else sv1
  }

  function NotifySessions(sv: Server, kind: Kind, fetched: nat -> Option<Identity>): Server {
    sv.(sessions := map id | id in sv.sessions ::
      if id in sv.registered then NotifyStreamFrame(sv.sessions[id], kind, fetched(id)) else sv.sessions[id])
  }

  function Serve(sv: Server, e: ServerEvent): Server {
    match e
    case Accept(error) => AcceptNext(sv, error)
    case OnSession(id, event) => HandleSession(sv, id, event)
    case NotifyAll(kind, fetched) => NotifySessions(sv, kind, fetched)
  }

  function ServeAll(sv: Server, run: seq<ServerEvent>): Server
    decreases |run|
  {
    if run == [] then sv else ServeAll(Serve(sv, run[0]), run[1..])
  }

  // ----- invariant -----

  ghost function Live(sv: Server): set<nat> {
    set id | id in sv.sessions && !sv.sessions[id].finished
  }

  ghost function Streaming(sv: Server): set<nat> {
    set id | id in sv.sessions && !sv.sessions[id].finished && sv.sessions[id].streaming
  }

  ghost predicate CountersOk(sv: Server) {
    && sv.active == |Live(sv)| == sv.accepted - sv.closed
    && sv.streams == |Streaming(sv)|
    && sv.active <= sv.maxConnections
    && sv.streams <= sv.maxStreams
  }

  ghost predicate TableOk(sv: Server) {
    && sv.registered == Live(sv)
    && (forall id | id in sv.sessions :: id <= sv.nextId && SessionOk(sv.sessions[id]))
  }

  ghost predicate ServerOk(sv: Server) {
    TableOk(sv) && CountersOk(sv)
  }

  lemma FreshSessionOk()
    ensures SessionOk(InitialSession)
  {
  }

  lemma AcceptSets(sv: Server, id: nat)
    requires id !in sv.sessions
    ensures var sv' := sv.(sessions := sv.sessions[id := InitialSession]);
            Live(sv') == Live(sv) + {id} && Streaming(sv') == Streaming(sv) && id !in Live(sv)
  {
  }

  /** The counted sets depend on the sessions alone. */
  lemma SameSets(a: Server, b: Server)
    requires a.sessions == b.sessions
    ensures Live(a) == Live(b) && Streaming(a) == Streaming(b)
  {
  }

  lemma AcceptOk(sv: Server, error: bool)
    requires ServerOk(sv)
    ensures ServerOk(AcceptNext(sv, error))
  {
    hide SessionOk, Live, Streaming;
    if !error && sv.active < sv.maxConnections {
      var id := sv.nextId + 1;
      FreshSessionOk();
      AcceptSets(sv, id);
      SameSets(AcceptNext(sv, error), sv.(sessions := sv.sessions[id := InitialSession]));
    }
  }

  /** What one step does to the two properties of a session that the server counts. */
  lemma SessionFacts(s: Session, e: Event)
    requires SessionOk(s)
    ensures var s' := Step(s, e);
            && SessionOk(s')
            && (s.finished ==> s'.finished)
            && (s.streaming ==> s'.streaming)
            && (!s.streaming && s'.streaming <==> !s.streaming && s.ops.requests > 0 && AsksAdmission(e) && e.admitted)
            && (s.ops.requests > 0 && AsksAdmission(e) ==> !s.streaming && !s.finished && !s'.finished)
            && (e.Notify? ==> s'.finished == s.finished)
  {
    StepOk(s, e);
  }

  /** The table and the counters before a closing session is taken out. */
  lemma AdvanceOk(sv: Server, id: nat, e: Event)
    requires ServerOk(sv) && id in sv.sessions && !e.Notify?
    ensures var sv', s' := Advance(sv, id, e), Advance(sv, id, e).sessions[id];
            && sv' == sv.(sessions := sv'.sessions, streams := sv'.streams)
            && Live(sv') == (if Closes(sv, id, e) then Live(sv) - {id} else Live(sv))
            && sv'.streams == |Streaming(sv')| + (if Closes(sv, id, e) && s'.streaming then 1 else 0)
            && sv'.streams <= sv'.maxStreams
            && (forall i | i in sv'.sessions :: i <= sv'.nextId && SessionOk(sv'.sessions[i]))
  {
    hide Step, SessionOk, AsksAdmission;
    var sv', s, s' := Advance(sv, id, e), sv.sessions[id], Step(sv.sessions[id], Answered(sv, e));
    SessionFacts(s, Answered(sv, e));
    AnsweredFacts(sv, e);
    forall i | i in sv.sessions && i != id ensures sv'.sessions[i] == sv.sessions[i] {
    }
    if s'.finished || !s'.streaming {
      assert Streaming(sv') == Streaming(sv) - {id};
    } else {
      assert Streaming(sv') == Streaming(sv) + {id};
    }
  }

  lemma AnsweredFacts(sv: Server, e: Event)
    ensures AsksAdmission(Answered(sv, e)) == AsksAdmission(e)
    ensures AsksAdmission(e) ==> Answered(sv, e).ReadDone? && Answered(sv, e).admitted == MayAdmit(sv)
    ensures Answered(sv, e).Notify? == e.Notify?
  {
  }

  lemma HandleOk(sv: Server, id: nat, e: Event)
    requires ServerOk(sv)
    ensures ServerOk(HandleSession(sv, id, e))
  {
    hide Step, SessionOk, AsksAdmission, Advance;
    if id in sv.sessions && !e.Notify? {
      AdvanceOk(sv, id, e);
    }
  }

  lemma NotifyFacts(s: Session, kind: Kind, fetched: Option<Identity>)
    requires SessionOk(s)
    ensures var s' := NotifyStreamFrame(s, kind, fetched);
            SessionOk(s') && s'.finished == s.finished && s'.streaming == s.streaming
  {
    SessionFacts(s, Notify(kind, fetched));
  }

  lemma NotifyOk(sv: Server, kind: Kind, fetched: nat -> Option<Identity>)
    requires ServerOk(sv)
    ensures ServerOk(NotifySessions(sv, kind, fetched))
  {
    hide Step, SessionOk, NotifyStreamFrame;
    var sv' := NotifySessions(sv, kind, fetched);
    forall id | id in sv.sessions
      ensures SessionOk(sv'.sessions[id])
      ensures sv'.sessions[id].finished == sv.sessions[id].finished
      ensures sv'.sessions[id].streaming == sv.sessions[id].streaming
    {
      NotifyFacts(sv.sessions[id], kind, fetched(id));
    }
    assert Live(sv') == Live(sv) && Streaming(sv') == Streaming(sv);
  }

  lemma {:induction false} ServeAllOk(sv: Server, run: seq<ServerEvent>)
    requires ServerOk(sv)
    ensures ServerOk(ServeAll(sv, run))
    decreases |run|
  {
    if run != [] {
      match run[0] {
        case Accept(error) => AcceptOk(sv, error);
        case OnSession(id, e) => HandleOk(sv, id, e);
        case NotifyAll(kind, fetched) => NotifyOk(sv, kind, fetched);
      }
      ServeAllOk(Serve(sv, run[0]), run[1..]);
    }
  }

  // ----- theorems -----

  lemma Served(maxConnections: nat, maxStreams: nat, run: seq<ServerEvent>)
    ensures ServerOk(ServeAll(NewServer(maxConnections, maxStreams), run))
  {
    ServeAllOk(NewServer(maxConnections, maxStreams), run);
  }

  /**
   In every run the connection counter is the number of accepted sessions that have not closed,
   the stream counter is the number of those that stream, both stay within their limits, and the
   table holds exactly the sessions that have not finished.
   */
  lemma CountersAreExact(maxConnections: nat, maxStreams: nat, run: seq<ServerEvent>)
    ensures var sv := ServeAll(NewServer(maxConnections, maxStreams), run);
            && sv.active == sv.accepted - sv.closed == |Live(sv)| <= maxConnections
            && sv.streams == |Streaming(sv)| <= maxStreams
            && sv.registered == Live(sv)
  {
    Served(maxConnections, maxStreams, run);
    LimitsStay(NewServer(maxConnections, maxStreams), run);
  }

  lemma {:induction false} LimitsStay(sv: Server, run: seq<ServerEvent>)
    ensures ServeAll(sv, run).maxConnections == sv.maxConnections && ServeAll(sv, run).maxStreams == sv.maxStreams
    decreases |run|
  {
    if run != [] {
      LimitsStay(Serve(sv, run[0]), run[1..]);
    }
  }

  /** The guards against negative counters never act: closing computes what it would without them. */
  lemma GuardsNeverMask(maxConnections: nat, maxStreams: nat, run: seq<ServerEvent>, id: nat, e: Event)
    requires var sv := ServeAll(NewServer(maxConnections, maxStreams), run);
             id in sv.sessions && !e.Notify? && Closes(sv, id, e)
    ensures var sv := ServeAll(NewServer(maxConnections, maxStreams), run);
            var sv1 := Advance(sv, id, e);
            && id in sv.registered
            && HandleSession(sv, id, e) == CloseUnguarded(sv1, id, sv1.sessions[id].streaming)
  {
    var sv := ServeAll(NewServer(maxConnections, maxStreams), run);
    Served(maxConnections, maxStreams, run);
    AdvanceOk(sv, id, e);
    assert id in Live(sv);
    assert |Live(sv)| > 0;
  }

  /** A session closes at most once in the table's lifetime. */
  lemma EachSessionClosesOnce(maxConnections: nat, maxStreams: nat, run: seq<ServerEvent>, id: nat)
    ensures var sv := ServeAll(NewServer(maxConnections, maxStreams), run);
            id in sv.sessions ==>
              sv.sessions[id].seen.closings == if id in sv.registered then 0 else 1
  {
    Served(maxConnections, maxStreams, run);
  }
}
