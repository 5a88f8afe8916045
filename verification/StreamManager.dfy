/** internal/central/stream_manager.go in its own form: Session objects, and a
    manager whose maps its methods update.  View() reads the manager as a state
    of Sessions, and every contract says which step of that model a call is. */
module StreamManager {
  import opened Wire
  import opened ExecFrame
  import opened Sessions

  datatype Status = Fine | NoAgentStream | TooManyStreams | SendFailed

  /** A Session: a bounded channel, and an outcome that is set once. */
  class StreamSession {
    const id: SessionId
    const agent: AgentId
    const kind: Kind
    var queue: seq<Chunk>
    var outcome: Option<Outcome>

    constructor (id: SessionId, agent: AgentId, kind: Kind)
      ensures this.id == id && this.agent == agent && this.kind == kind
      ensures queue == [] && outcome == None
    {
      this.id, this.agent, this.kind := id, agent, kind;
      queue, outcome := [], None;
    }

    function View(): Session
      reads this
    {
      Session(agent, kind, queue, outcome)
    }

    /** once.Do: the first close decides the outcome. */
    method Close(outcome: Outcome)
      modifies this
      ensures queue == old(queue)
      ensures this.outcome == if old(this.outcome).None? then Some(outcome) else old(this.outcome)
    {
      if this.outcome.None? {
        this.outcome := Some(outcome);
      }
    }

    /** The select of Route: deliver unless the channel is nil or full.  A send
        on a closed channel would panic. */
    method TrySend(chunk: Chunk) returns (delivered: bool)
      requires outcome.None?
      modifies this
      ensures outcome == old(outcome)
      ensures delivered <==> HasRoom(old(View()), chunk)
      ensures delivered <==> (chunk.Output? <==> kind.Exec?) && |old(queue)| < 64
      ensures queue == if delivered then old(queue) + [chunk] else old(queue)
    {
      delivered := chunk.Output? == kind.Exec? && |queue| < OUTPUT_BUFFER;
      if delivered {
        queue := queue + [chunk];
      }
    }

    /** A receive: the next chunk; after that, once closed, nothing. */
    method Receive() returns (chunk: Option<Chunk>)
      requires queue != [] || outcome.Some?
      modifies this
      ensures outcome == old(outcome)
      ensures chunk == if old(queue) == [] then None else Some(old(queue)[0])
      ensures queue == if old(queue) == [] then [] else old(queue)[1..]
    {
      if queue == [] {
        return None;
      }
      chunk, queue := Some(queue[0]), queue[1..];
    }

    /** Wait, once the session has ended. */
    method Wait() returns (r: Outcome)
      requires outcome.Some?
      ensures Some(r) == outcome
    {
      r := outcome.value;
    }
  }

  class SessionManager {
    const max: nat
    var agents: map<AgentId, Stream>
    var conns: seq<Conn>                        // every agentConn, by registration number
    var sessions: map<SessionId, StreamSession>
    var sent: seq<(Stream, Command)>            // what the streams have been given

    ghost var store: map<SessionId, StreamSession>  // every Session, tracked or not
    ghost var inserted: set<SessionId>

    ghost predicate Valid()
      reads this, store.Values
    {
      Listing() && Tracking() && forall id | id in sessions :: sessions[id].outcome.None?
    }

    ghost predicate Tracking()
      reads this`sessions, this`store
    {
      && (forall id | id in store :: store[id].id == id)
      && (forall id | id in sessions :: id in store && sessions[id] == store[id])
    }

    ghost predicate Listing()
      reads this`agents, this`conns, this`sessions
    {
      && (forall a | a in agents :: agents[a] < |conns| && conns[agents[a]].agent == a)
      && (forall a, id | a in agents && id in conns[agents[a]].sessions ::
            id in sessions && sessions[id].agent == a)
    }

    ghost function Stored(): map<SessionId, Session>
      reads this`store, store.Values
    {
      map id | id in store :: store[id].View()
    }

    ghost function View(): Core
      reads this, store.Values
    {
      Core(max, agents, conns, sessions.Keys, Stored(), sent, inserted)
    }

    constructor (maxConcurrent: int)
      ensures Valid() && store == map[]
      ensures View() == Core(if maxConcurrent <= 0 then 50 else maxConcurrent, map[], [], {}, map[], [], {})
    {
      max := if maxConcurrent <= 0 then 50 else maxConcurrent;
      agents, conns, sessions, sent := map[], [], map[], [];
      store, inserted := map[], {};
    }

    method RegisterAgentStream(agent: AgentId)
      requires Valid()
      modifies this
      ensures Valid() && store == old(store)
      ensures View() == Register(old(View()), agent)
      ensures agents == old(agents)[agent := |old(conns)|] && conns == old(conns) + [Conn(agent, {})]
    {
      agents := agents[agent := |conns|];
      conns := conns + [Conn(agent, {})];
    }

    /** sendLocked: one command on a stream, which may fail. */
    method SendLocked(st: Stream, cmd: Command, sendOk: bool) returns (ok: bool)
      requires Valid()
      modifies this`sent
      ensures Valid() && ok == sendOk
      ensures View() == if sendOk then Transmit(old(View()), st, cmd) else old(View())
      ensures sent == old(sent) + if sendOk then [(st, cmd)] else []
    {
      ok := sendOk;
      if ok {
        sent := sent + [(st, cmd)];
      }
    }

    /** startSession and StartPortForward; `id` is the fresh UUID, `sendOk` the
        result of the send. */
    method Start(agent: AgentId, kind: Kind, id: SessionId, sendOk: bool)
      returns (session: Option<StreamSession>, status: Status)
      requires Valid() && id !in store
      modifies this
      ensures Valid()
      ensures View() == AfterStart(old(View()), agent, kind, id, sendOk)
      ensures status == if agent !in old(agents) then NoAgentStream
                        else if |old(sessions)| >= max then TooManyStreams
                        else if sendOk then Fine else SendFailed
      ensures session.Some? <==> status.Fine?
      ensures session.Some? ==> id in sessions && session.value == sessions[id] && fresh(session.value)
      ensures session.Some? ==> id in store && session.value == store[id]
      ensures sent == old(sent) + if status.Fine? then [(old(agents)[agent], Command.Start(id))] else []
      ensures inserted == if session.Some? then old(inserted) + {id} else old(inserted)
      ensures forall i | i in old(store) :: i in store && store[i] == old(store)[i]
      ensures forall i | i in store && i !in old(store) :: fresh(store[i])
    {
      if agent !in agents {
        return None, NoAgentStream;
      }
      if |sessions| >= max {
        assert |sessions.Keys| == |sessions|;
        return None, TooManyStreams;
      }
      var st := agents[agent];
      var sess := AllocateSession(agent, kind, id);
      var ok := SendLocked(st, Command.Start(id), sendOk);
      if !ok {
        return None, SendFailed;
      }
      InsertSession(st, sess);
      return Some(sess), Fine;
    }

    method AllocateSession(agent: AgentId, kind: Kind, id: SessionId) returns (sess: StreamSession)
      requires Valid() && id !in store
      modifies this`store
      ensures Valid() && View() == Allocate(old(View()), agent, kind, id)
      ensures fresh(sess) && store == old(store)[id := sess] && sess.outcome.None?
      ensures sess.id == id && sess.agent == agent && sess.kind == kind && sess.queue == []
    {
      sess := new StreamSession(id, agent, kind);
      store := store[id := sess];
      assert Stored() == old(Stored())[id := Session(agent, kind, [], None)];
    }

    method InsertSession(st: Stream, sess: StreamSession)
      requires Valid() && sess.id in store && store[sess.id] == sess && sess.outcome.None?
      requires st < |conns| && conns[st].agent == sess.agent
      modifies this`conns, this`sessions, this`inserted
      ensures Valid() && View() == Insert(old(View()), st, sess.id)
      ensures sessions == old(sessions)[sess.id := sess]
      ensures conns == old(conns)[st := Conn(sess.agent, old(conns)[st].sessions + {sess.id})]
    {
      conns := conns[st := conns[st].(sessions := conns[st].sessions + {sess.id})];
      sessions := sessions[sess.id := sess];
      inserted := inserted + {sess.id};
      assert Stored() == old(Stored());
    }

    method ConnOf(id: SessionId) returns (st: Option<Stream>)
      requires Valid()
      ensures st == ConnFor(View(), id)
      ensures st == if id in sessions && sessions[id].agent in agents then Some(agents[sessions[id].agent]) else None
    {
      if id !in sessions || sessions[id].agent !in agents {
        return None;
      }
      return Some(agents[sessions[id].agent]);
    }

    /** SendStdin, SendResize, SendPfOpen, SendPfData and SendPfClose. */
    method SendTo(id: SessionId, body: Octets, sendOk: bool) returns (ok: bool)
      requires Valid()
      modifies this`sent
      ensures Valid() && View() == AfterSend(old(View()), id, body, sendOk)
      ensures ok <==> id in sessions && sessions[id].agent in agents && sendOk
      ensures sent == old(sent) + if ok then [(agents[sessions[id].agent], Relay(id, body))] else []
    {
      var st := ConnOf(id);
      if st.None? {
        return false;
      }
      ok := SendLocked(st.value, Relay(id, body), sendOk);
    }

    method DropSession(id: SessionId)
      requires Valid()
      modifies this`conns, this`sessions
      ensures Valid() && View() == Drop(old(View()), id) && sessions == old(sessions) - {id}
      ensures id in old(sessions) && old(sessions)[id].agent in agents ==>
                id !in conns[agents[old(sessions)[id].agent]].sessions
    {
      if id in sessions {
        if sessions[id].agent in agents {
          var st := agents[sessions[id].agent];
          conns := conns[st := conns[st].(sessions := conns[st].sessions - {id})];
        }
      }
      sessions := sessions - {id};
    }

    method CloseSession(sess: StreamSession, outcome: Outcome)
      requires Valid() && sess.id in store && store[sess.id] == sess && sess.id !in sessions
      modifies sess
      ensures Valid() && View() == Close(old(View()), sess.id, outcome)
      ensures old(sess.outcome).None? ==> sess.outcome == Some(outcome)
    {
      sess.Close(outcome);
    }

    /** Drop before close. */
    method EndSession(sess: StreamSession, outcome: Outcome)
      requires Valid() && sess.id in sessions && sessions[sess.id] == sess
      modifies this`conns, this`sessions, sess
      ensures Valid() && View() == Close(Drop(old(View()), sess.id), sess.id, outcome)
      ensures sessions == old(sessions) - {sess.id} && sess.outcome == Some(outcome)
    {
      DropSession(sess.id);
      CloseSession(sess, outcome);
    }

    method Cancel(id: SessionId, sendOk: bool)
      requires Valid()
      modifies this`conns, this`sessions, this`sent, store.Values
      ensures Valid() && View() == AfterCancel(old(View()), id, sendOk)
      ensures id in old(sessions) ==> old(sessions[id]).outcome == Some(Outcome(-1, Text("canceled")))
      ensures sessions == old(sessions) - {id}
      ensures sent == old(sent) + if id in old(sessions) && old(sessions[id]).agent in agents && sendOk
                                  then [(agents[old(sessions[id]).agent], Command.Cancel(id))] else []
    {
      if id !in sessions {
        return;
      }
      var sess := sessions[id];
      SendCancel(id, sendOk);
      EndSession(sess, CANCELED);
    }

    method SendCancel(id: SessionId, sendOk: bool)
      requires Valid()
      modifies this`sent
      ensures Valid() && View() == CancelSent(old(View()), id, sendOk)
      ensures sent == old(sent) + if id in sessions && sessions[id].agent in agents && sendOk
                                  then [(agents[sessions[id].agent], Command.Cancel(id))] else []
    {
      var st := ConnOf(id);
      if st.Some? {
        var _ := SendLocked(st.value, Command.Cancel(id), sendOk);
      }
    }

    /** Route of an output or port-forward chunk. */
    method RouteChunk(id: SessionId, chunk: Chunk, sendOk: bool)
      requires Valid()
      modifies this`conns, this`sessions, this`sent, store.Values
      ensures Valid() && View() == AfterChunk(old(View()), id, chunk, sendOk)
      ensures id in old(sessions) && (chunk.Output? <==> old(sessions[id]).kind.Exec?) && |old(sessions[id].queue)| < 64 ==>
                old(sessions[id]).queue == old(sessions[id].queue) + [chunk] && sessions == old(sessions)
      ensures id in old(sessions) && (chunk.Output? <==> old(sessions[id]).kind.Exec?) && |old(sessions[id].queue)| >= 64 ==>
                old(sessions[id]).outcome == Some(Outcome(-1, Text("canceled"))) && sessions == old(sessions) - {id}
    {
      if id !in sessions {
        return;
      }
      var sess := sessions[id];
      if chunk.Forward? && sess.kind.Exec? {
        return;
      }
      var delivered := Deliver(sess, chunk);
      if !delivered {
        Cancel(id, sendOk);
      }
    }

    method Deliver(sess: StreamSession, chunk: Chunk) returns (delivered: bool)
      requires Valid() && sess.id in sessions && sessions[sess.id] == sess
      modifies sess
      ensures Valid() && delivered == HasRoom(old(View()).store[sess.id], chunk)
      ensures delivered <==> (chunk.Output? <==> sess.kind.Exec?) && |old(sess.queue)| < 64
      ensures delivered ==> sess.queue == old(sess.queue) + [chunk]
      ensures View() == if delivered then Push(old(View()), sess.id, chunk) else old(View())
    {
      delivered := sess.TrySend(chunk);
      assert !delivered ==> View().store == old(View()).store;
    }

    /** A bridge's receive on the channel of a session it was given. */
    method ReceiveChunk(sess: StreamSession)
      requires Valid() && sess.id in store && store[sess.id] == sess && sess.id in inserted
      modifies sess
      ensures Valid() && View() == Pop(old(View()), sess.id)
      ensures sess.queue == if old(sess.queue) == [] then [] else old(sess.queue)[1..]
    {
      if sess.queue == [] {
        return;
      }
      var _ := sess.Receive();
      assert View().store == Pop(old(View()), sess.id).store;
    }

    /** Route of an exit. */
    method RouteExit(id: SessionId, outcome: Outcome)
      requires Valid()
      modifies this`conns, this`sessions, store.Values
      ensures Valid() && View() == AfterExit(old(View()), id, outcome)
      ensures id in old(sessions) ==> old(sessions[id]).outcome == Some(outcome)
      ensures sessions == old(sessions) - {id}
    {
      if id in sessions {
        var sess := sessions[id];
        EndSession(sess, outcome);
      }
    }

    /** Takes the sessions listed by the agent's stream out of the map, and
        closes them after giving up the lock. */
    method UnregisterAgentStream(agent: AgentId)
      requires Valid()
      modifies this`agents, this`sessions, store.Values
      ensures Valid() && View() == AfterUnregister(old(View()), agent)
      ensures agent in old(agents) ==>
                && sessions == old(sessions) - old(conns[agents[agent]].sessions)
                && forall id | id in old(conns[agents[agent]].sessions) ::
                     id in old(sessions) && old(sessions)[id].outcome == Some(Outcome(-1, Text("agent disconnected")))
      ensures agent !in old(agents) ==> sessions == old(sessions)
    {
      var dead := DetachStream(agent);
      CloseDead(dead);
    }

    method DetachStream(agent: AgentId) returns (dead: map<SessionId, StreamSession>)
      requires Valid()
      modifies this`agents, this`sessions
      ensures Valid() && View() == Detach(old(View()), agent)
      ensures dead.Keys == Doomed(old(View()), agent)
      ensures dead.Keys == if agent in old(agents) then old(conns[agents[agent]].sessions) else {}
      ensures sessions == old(sessions) - dead.Keys && dead.Keys <= old(sessions).Keys
      ensures dead.Keys !! sessions.Keys && forall id | id in dead :: id in store && dead[id] == store[id]
    {
      ghost var before := View();
      dead := map[];
      if agent in agents {
        var listed := conns[agents[agent]].sessions;
        assert forall id | id in listed :: id in sessions && sessions[id].agent == agent;
        dead := map id | id in listed :: sessions[id];
        sessions := sessions - listed;
        assert listed == Doomed(before, agent) && sessions.Keys == before.sessions - listed;
      }
      agents := agents - {agent};
      assert sessions.Keys == before.sessions - Doomed(before, agent) && Stored() == before.store;
    }

    method CloseDead(dead: map<SessionId, StreamSession>)
      requires Valid() && dead.Keys !! sessions.Keys
      requires forall id | id in dead :: id in store && dead[id] == store[id]
      modifies dead.Values
      ensures Valid() && View() == CloseAll(old(View()), dead.Keys, DISCONNECTED)
      ensures forall id | id in dead && old(dead[id].outcome).None? ::
                dead[id].outcome == Some(Outcome(-1, Text("agent disconnected")))
    {
      CloseEach(dead);
      assert Stored() == CloseAll(old(View()), dead.Keys, DISCONNECTED).store;
    }

    method CloseEach(dead: map<SessionId, StreamSession>)
      requires forall id | id in store :: store[id].id == id
      requires forall id | id in dead :: id in store && dead[id] == store[id]
      modifies dead.Values
      ensures forall id | id in store ::
                store[id].View() == if id in dead then Ended(old(store[id].View()), DISCONNECTED) else old(store[id].View())
      ensures forall id | id in store && id !in dead :: store[id].outcome == old(store[id].outcome)
    {
      var left := dead.Keys;
      while left != {}
        invariant left <= dead.Keys
        invariant forall id | id in store ::
                    store[id].View() == if id in dead && id !in left
                                        then Ended(old(store[id].View()), DISCONNECTED) else old(store[id].View())
      {
        var id :| id in left;
        var sess := dead[id];
        sess.Close(DISCONNECTED);
        left := left - {id};
      }
    }
  }
}
