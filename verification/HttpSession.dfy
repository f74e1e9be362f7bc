/**
 The session object itself: its flags and the handlers that update them in place. `View` is the
 session of the state machine; every handler is proved to compute the state machine's step.
 */
module HttpSession {
  import opened Wrappers
  import opened FrameIdentity
  import opened StreamSession
  import opened StreamServer

  class Connection {
    var streaming: bool
    var kind: Kind
    var finished: bool
    var writing: bool
    var refresh: bool
    var lastSent: Option<Identity>
    var initial: Option<Identity>
    var part: Option<Identity>
    ghost var ops: Outstanding
    ghost var seen: Observed

    ghost function View(): Session
      reads this
    {
      Session(streaming, kind, finished, writing, refresh, lastSent, initial, part, ops, seen)
    }

    /** Construction and `runSession`: the request is being read. */
    constructor ()
      ensures View() == InitialSession
    {
      streaming, kind, finished, writing, refresh := false, Color, false, false, false;
      lastSent, initial, part := None, None, None;
      ops := InitialSession.ops;
      seen := InitialSession.seen;
    }

    method Cancel() returns (closed: bool)
      modifies this
      ensures View() == CancelSession(old(View()))
      ensures closed == !old(finished)
    {
      if finished { return false; }
      finished := true;
      ops := DisarmTimer(ops);
      seen := seen.(closings := seen.closings + 1);
      return true;
    }

    method Wait()
      modifies this
      ensures View() == WaitForFrame(old(View()))
    {
      if finished { return; }
      ops := DisarmTimer(ops).(armed := true);
    }

    method WriteLatestFrame(fetched: Option<Identity>)
      modifies this
      ensures View() == WriteLatest(old(View()), fetched)
    {
      if finished || writing { return; }
      var frame := initial;
      initial := None;
      if frame.None? {
        frame := fetched;
        seen := seen.(covered := seen.notified);
      }
      if frame.None? || (lastSent.Some? && !StrictlyAfter(frame.value, lastSent.value)) {
        Wait();
        return;
      }
      part := frame;
      writing := true;
      refresh := false;
      ops := ops.(parts := ops.parts + 1);
      seen := seen.(parts := seen.parts + [frame.value]);
    }

    /** The completion of the read; `fetched` and `admitted` are what the server would answer. */
    method ReadHandler(error: bool, request: Request, fetched: Option<Identity>, admitted: bool) returns (closed: bool)
      requires ops.requests > 0
      modifies this
      ensures View() == Step(old(View()), ReadDone(error, request, fetched, admitted))
      ensures closed == (error && !old(finished))
    {
      hide CancelSession;
      ops := ops.(requests := ops.requests - 1);
      if error {
        closed := Cancel();
        return;
      }
      closed := false;
      if request.Stream? && fetched.Some? && admitted {
        streaming := true;
        kind := request.kind;
        initial := fetched;
        writing := true;
        ops := ops.(headers := ops.headers + 1);
      } else {
        ops := ops.(responses := ops.responses + 1);
      }
    }

    method HeaderHandler(error: bool, fetched: Option<Identity>) returns (closed: bool)
      requires ops.headers > 0
      modifies this
      ensures View() == Step(old(View()), HeaderDone(error, fetched))
      ensures closed == (error && !old(finished))
    {
      hide WriteLatest, CancelSession, WaitForFrame;
      ops := ops.(headers := ops.headers - 1);
      writing := false;
      closed := false;
      if error || finished {
        closed := Cancel();
      } else {
        WriteLatestFrame(fetched);
      }
    }

    method PartHandler(error: bool, fetched: Option<Identity>) returns (closed: bool)
      requires ops.parts > 0
      modifies this
      ensures View() == Step(old(View()), PartDone(error, fetched))
      ensures closed == (error && !old(finished))
    {
      hide WriteLatest, CancelSession, WaitForFrame;
      ops := ops.(parts := ops.parts - 1);
      writing := false;
      closed := false;
      if error || finished {
        closed := Cancel();
        return;
      }
      lastSent := part;
      part := None;
      if refresh {
        refresh := false;
        WriteLatestFrame(fetched);
      } else {
        Wait();
      }
    }

    method NotifyFrame(k: Kind, fetched: Option<Identity>)
      modifies this
      ensures View() == NotifyStreamFrame(old(View()), k, fetched)
    {
      if finished || !streaming || k != kind { return; }
      seen := seen.(notified := seen.notified + if HeaderPending(View()) then 0 else 1);
      if writing {
        refresh := true;
        return;
      }
      seen := seen.(overtaken := ops.expired);
      ops := DisarmTimer(ops);
      WriteLatestFrame(fetched);
    }
  }

  /** The server object: its two counters and its table of sessions. */
  class SessionTable {
    const maxConnections: nat
    const maxStreams: nat
    var active: int
    var streams: int
    var nextId: nat
    var table: map<nat, Connection>

    /** Distinct entries are distinct objects. */
    ghost predicate Valid()
      reads this
    {
      forall a, b | a in table && b in table && a != b :: table[a] != table[b]
    }

    ghost predicate Agrees(sv: Server)
      reads this
    {
      && sv.maxConnections == maxConnections && sv.maxStreams == maxStreams
      && sv.active == active && sv.streams == streams && sv.nextId == nextId && sv.registered == table.Keys
    }

    constructor (connections: nat, streamClients: nat)
      ensures Valid() && Agrees(NewServer(connections, streamClients))
    {
      maxConnections, maxStreams, active, streams, nextId, table := connections, streamClients, 0, 0, 0, map[];
    }

    method Accept(error: bool) returns (session: Option<Connection>)
      requires Valid()
      modifies this
      ensures Valid()
      ensures forall sv: Server | old(Agrees(sv)) :: Agrees(AcceptNext(sv, error))
      ensures session.Some? ==> fresh(session.value) && session.value.View() == InitialSession && session.value in table.Values
    {
      if error || active >= maxConnections { return None; }
      var connection := new Connection();
      nextId := nextId + 1;
      active := active + 1;
      table := table[nextId := connection];
      assert nextId in table.Keys;
      return Some(connection);
    }

    method AdmitStream() returns (admitted: bool)
      modifies this`streams
      ensures forall sv: Server | old(Agrees(sv)) ::
                admitted == MayAdmit(sv) && Agrees(sv.(streams := sv.streams + if admitted then 1 else 0))
    {
      if streams >= maxStreams { return false; }
      streams := streams + 1;
      return true;
    }

    method Close(id: nat, wasStreaming: bool)
      requires Valid()
      modifies this
      ensures Valid()
      ensures forall sv: Server | old(Agrees(sv)) :: Agrees(CloseSession(sv, id, wasStreaming))
    {
      table := table - {id};
      if active > 0 { active := active - 1; }
      if wasStreaming && streams > 0 { streams := streams - 1; }
    }

    /** Every session in the table gets the notification once. */
    method NotifyAll(kind: Kind, fetched: nat -> Option<Identity>)
      requires Valid()
      modifies table.Values
      ensures forall id | id in table :: table[id].View() == NotifyStreamFrame(old(table[id].View()), kind, fetched(id))
    {
      hide NotifyStreamFrame;
      var rest := table.Keys;
      while rest != {}
        invariant rest <= table.Keys
        invariant forall id | id in rest :: table[id].View() == old(table[id].View())
        invariant forall id | id in table && id !in rest ::
                    table[id].View() == NotifyStreamFrame(old(table[id].View()), kind, fetched(id))
        decreases |rest|
      {
        var id :| id in rest;
        assert table[id] in table.Values;
        table[id].NotifyFrame(kind, fetched(id));
        rest := rest - {id};
      }
    }
  }
}
