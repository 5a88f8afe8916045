/** The shared state of SessionManager (internal/central/stream_manager.go) and
    the effect of each critical section on it.  A Session pointer is named by
    its UUID, an agentConn pointer by its registration number. */
module Sessions {
  import opened Wire
  import opened ExecFrame
  import PfFrame

  type AgentId = string
  type SessionId = nat
  type Stream = nat

  const OUTPUT_BUFFER: nat := 64

  datatype Kind = Exec | PortForward
  datatype Outcome = Outcome(code: I32, message: Octets)

  /** One entry of Session.Output or Session.PfOutput. */
  datatype Chunk = Output(stdout: bool, data: Octets) | Forward(msg: PfFrame.Msg)

  /** A Session object; it is closed once its outcome is set. */
  datatype Session = Session(agent: AgentId, kind: Kind, queue: seq<Chunk>, outcome: Option<Outcome>)

  /** A message from central on an agent's stream. */
  datatype Command =
    | Start(id: SessionId)
    | Cancel(id: SessionId)
    | Relay(id: SessionId, body: Octets)

  datatype Conn = Conn(agent: AgentId, sessions: set<SessionId>)

  /** `store`, `sent` and `inserted` record all sessions ever allocated, all
      commands ever sent and all sessions ever put into the map. */
  datatype Core = Core(
    max: nat,
    agents: map<AgentId, Stream>,
    conns: seq<Conn>,
    sessions: set<SessionId>,
    store: map<SessionId, Session>,
    sent: seq<(Stream, Command)>,
    inserted: set<SessionId>)

  const CANCELED: Outcome := Outcome(-1, Text("canceled"))
  const DISCONNECTED: Outcome := Outcome(-1, Text("agent disconnected"))

  predicate Closed(c: Core, id: SessionId) {
    id in c.store && c.store[id].outcome.Some?
  }

  /** The stream is the one its agent is currently registered with. */
  predicate Registered(c: Core, st: Stream) {
    st < |c.conns| && c.conns[st].agent in c.agents && c.agents[c.conns[st].agent] == st
  }

  // ----- critical sections -------------------------------------------------

  function Register(c: Core, agent: AgentId): Core {
    c.(agents := c.agents[agent := |c.conns|], conns := c.conns + [Conn(agent, {})])
  }

  /** The sessions that an unregistration of `agent` takes down. */
  function Doomed(c: Core, agent: AgentId): set<SessionId> {
    if agent in c.agents && c.agents[agent] < |c.conns| then c.conns[c.agents[agent]].sessions else {}
  }

  function Detach(c: Core, agent: AgentId): Core {
    c.(agents := c.agents - {agent}, sessions := c.sessions - Doomed(c, agent))
  }

  predicate MayStart(c: Core, agent: AgentId) {
    agent in c.agents && |c.sessions| < c.max
  }

  function Allocate(c: Core, agent: AgentId, kind: Kind, id: SessionId): Core {
    c.(store := c.store[id := Session(agent, kind, [], None)])
  }

  function Transmit(c: Core, st: Stream, cmd: Command): Core {
    c.(sent := c.sent + [(st, cmd)])
  }

  function Insert(c: Core, st: Stream, id: SessionId): Core {
    c.(conns := if st < |c.conns| then c.conns[st := c.conns[st].(sessions := c.conns[st].sessions + {id})] else c.conns,
       sessions := c.sessions + {id},
       inserted := c.inserted + {id})
  }

  /** The registered stream of a tracked session's agent, as connFor finds it. */
  function ConnFor(c: Core, id: SessionId): Option<Stream> {
    if id in c.sessions && id in c.store && c.store[id].agent in c.agents
    then Some(c.agents[c.store[id].agent]) else None
  }

  function Drop(c: Core, id: SessionId): Core {
    var conns := match ConnFor(c, id)
      case Some(st) =>
        if st < |c.conns| then c.conns[st := c.conns[st].(sessions := c.conns[st].sessions - {id})] else c.conns
      case None => c.conns;
    c.(conns := conns, sessions := c.sessions - {id})
  }

  /** Session.close: only the first call has an effect. */
  function Ended(s: Session, outcome: Outcome): Session {
    if s.outcome.None? then s.(outcome := Some(outcome)) else s
  }

  function Close(c: Core, id: SessionId, outcome: Outcome): Core {
    if id in c.store then c.(store := c.store[id := Ended(c.store[id], outcome)]) else c
  }

  function CloseAll(c: Core, ids: set<SessionId>, outcome: Outcome): Core {
    c.(store := map id | id in c.store :: if id in ids then Ended(c.store[id], outcome) else c.store[id])
  }

  /** The channel of this session that chunks of this kind go to has room;
      sending on the other, nil, channel never succeeds. */
  predicate HasRoom(s: Session, chunk: Chunk) {
    chunk.Output? == s.kind.Exec? && |s.queue| < OUTPUT_BUFFER
  }

  function Push(c: Core, id: SessionId, chunk: Chunk): Core {
    if id in c.store
    then c.(store := c.store[id := c.store[id].(queue := c.store[id].queue + [chunk])])
    else c
  }

  /** The session's bridge, to which the start returned it, receives the head of
      its channel; on an empty one it waits or sees the end. */
  function Pop(c: Core, id: SessionId): Core {
    if id in c.inserted && id in c.store && c.store[id].queue != []
    then c.(store := c.store[id := c.store[id].(queue := c.store[id].queue[1..])])
    else c
  }

  // ----- whole calls, uninterrupted ---------------------------------------

  function AfterStart(c: Core, agent: AgentId, kind: Kind, id: SessionId, sendOk: bool): Core {
    if !MayStart(c, agent) then c
    else if !sendOk then Allocate(c, agent, kind, id)
    else Insert(Transmit(Allocate(c, agent, kind, id), c.agents[agent], Start(id)), c.agents[agent], id)
  }

  function AfterUnregister(c: Core, agent: AgentId): Core {
    CloseAll(Detach(c, agent), Doomed(c, agent), DISCONNECTED)
  }

  function AfterCancel(c: Core, id: SessionId, sendOk: bool): Core {
    if id !in c.sessions then c else Close(Drop(CancelSent(c, id, sendOk), id), id, CANCELED)
  }

  function CancelSent(c: Core, id: SessionId, sendOk: bool): Core {
    match ConnFor(c, id)
    case Some(st) => if sendOk then Transmit(c, st, Cancel(id)) else c
    case None => c
  }

  function AfterChunk(c: Core, id: SessionId, chunk: Chunk, sendOk: bool): Core {
    if id !in c.sessions || id !in c.store then c
    else if chunk.Forward? && c.store[id].kind.Exec? then c
    else if HasRoom(c.store[id], chunk) then Push(c, id, chunk)
    else AfterCancel(c, id, sendOk)
  }

  function AfterExit(c: Core, id: SessionId, outcome: Outcome): Core {
    if id in c.sessions then Close(Drop(c, id), id, outcome) else c
  }

  function AfterSend(c: Core, id: SessionId, body: Octets, sendOk: bool): Core {
    match ConnFor(c, id)
    case Some(st) => if sendOk then Transmit(c, st, Relay(id, body)) else c
    case None => c
  }

  // ----- invariants --------------------------------------------------------

  predicate StreamsNamed(c: Core) {
    forall a | a in c.agents :: c.agents[a] < |c.conns| && c.conns[c.agents[a]].agent == a
  }

  /** Sessions in the map are open, and have been put there once. */
  predicate TrackedIsOpen(c: Core) {
    && c.sessions <= c.inserted <= c.store.Keys
    && forall id | id in c.store && Closed(c, id) :: id in c.inserted && id !in c.sessions
  }

  /** A registered stream only lists tracked sessions of its own agent. */
  predicate ListedIsTracked(c: Core) {
    forall a, id | a in c.agents && id in Doomed(c, a) ::
      id in c.sessions && id in c.store && c.store[id].agent == a
  }

  predicate Announced(sent: seq<(Stream, Command)>, id: SessionId) {
    exists i | 0 <= i < |sent| :: sent[i].1 == Start(id)
  }

  /** No session is mentioned to an agent before its start has been sent. */
  predicate NoPhantom(sent: seq<(Stream, Command)>) {
    forall i | 0 <= i < |sent| && !sent[i].1.Start? :: Announced(sent[..i], sent[i].1.id)
  }

  predicate CoreInv(c: Core) {
    && StreamsNamed(c)
    && TrackedIsOpen(c)
    && ListedIsTracked(c)
    && NoPhantom(c.sent)
    && forall id | id in c.inserted :: Announced(c.sent, id)
  }

  /** What never happens between an earlier and a later state: a removed session
      coming back, an outcome changing, a replaced stream becoming current. */
  ghost predicate Evolves(c: Core, d: Core) {
    && c.store.Keys <= d.store.Keys
    && (forall id | id in c.store ::
          && d.store[id].agent == c.store[id].agent && d.store[id].kind == c.store[id].kind
          && (c.store[id].outcome.Some? ==> d.store[id].outcome == c.store[id].outcome))
    && c.inserted <= d.inserted
    && (forall id | id in c.inserted && id !in c.sessions :: id !in d.sessions)
    && |c.conns| <= |d.conns|
    && (forall st | 0 <= st < |c.conns| ::
          && d.conns[st].agent == c.conns[st].agent
          && (!Registered(c, st) ==> !Registered(d, st)))
    && c.sent <= d.sent
    && d.max == c.max
  }

  lemma EvolvesTransitive(a: Core, b: Core, c: Core)
    requires Evolves(a, b) && Evolves(b, c)
    ensures Evolves(a, c)
  {
    forall id | id in a.inserted && id !in a.sessions
      ensures id !in c.sessions
    {
      assert id in b.inserted && id !in b.sessions;
    }
    forall st | 0 <= st < |a.conns| && !Registered(a, st)
      ensures !Registered(c, st)
    {
      assert !Registered(b, st);
    }
  }

  // ----- each section keeps the invariant ---------------------------------

  lemma RegisterKeeps(c: Core, agent: AgentId)
    requires CoreInv(c)
    ensures CoreInv(Register(c, agent)) && Evolves(c, Register(c, agent))
  {
  }

  lemma ListedOnce(c: Core, a: AgentId, b: AgentId, id: SessionId)
    requires ListedIsTracked(c) && a in c.agents && id in Doomed(c, a) && a != b
    ensures id !in Doomed(c, b)
  {
    var owner := c.store[id].agent;
    assert owner == a;
    assert b in c.agents && id in Doomed(c, b) ==> owner == b;
  }

  lemma DetachKeeps(c: Core, agent: AgentId)
    requires CoreInv(c)
    ensures CoreInv(Detach(c, agent)) && Evolves(c, Detach(c, agent))
    ensures Doomed(c, agent) <= c.inserted && Doomed(c, agent) !! Detach(c, agent).sessions
  {
    var d := Detach(c, agent);
    forall a, id | a in d.agents && id in Doomed(d, a)
      ensures id in d.sessions && id in d.store && d.store[id].agent == a
    {
      ListedOnce(c, a, agent, id);
    }
  }

  lemma AllocateKeeps(c: Core, agent: AgentId, kind: Kind, id: SessionId)
    requires CoreInv(c) && id !in c.store
    ensures CoreInv(Allocate(c, agent, kind, id)) && Evolves(c, Allocate(c, agent, kind, id))
  {
    var d := Allocate(c, agent, kind, id);
    forall i | Closed(d, i)
      ensures i in d.inserted && i !in d.sessions
    {
      assert Closed(c, i);
    }
    forall a, i | a in d.agents && i in Doomed(d, a)
      ensures i in d.sessions && i in d.store && d.store[i].agent == a
    {
      assert i in Doomed(c, a);
    }
  }

  lemma {:induction false} TransmitKeeps(c: Core, st: Stream, cmd: Command)
    requires CoreInv(c) && (cmd.Start? || Announced(c.sent, cmd.id))
    ensures CoreInv(Transmit(c, st, cmd)) && Evolves(c, Transmit(c, st, cmd))
    ensures cmd.Start? ==> Announced(Transmit(c, st, cmd).sent, cmd.id)
  {
    var d := Transmit(c, st, cmd);
    forall i | 0 <= i < |d.sent| && !d.sent[i].1.Start?
      ensures Announced(d.sent[..i], d.sent[i].1.id)
    {
      assert d.sent[..i] == c.sent[..i];
      assert c.sent[..|c.sent|] == c.sent;
    }
    forall id | Announced(c.sent, id)
      ensures Announced(d.sent, id)
    {
      var i :| 0 <= i < |c.sent| && c.sent[i].1 == Start(id);
      assert d.sent[i].1 == Start(id);
    }
    assert d.sent[|c.sent|].1 == cmd;
    forall a, i | a in d.agents && i in Doomed(d, a)
      ensures i in d.sessions && i in d.store && d.store[i].agent == a
    {
      assert i in Doomed(c, a);
    }
    forall i | Closed(d, i)
      ensures i in d.inserted && i !in d.sessions
    {
      assert Closed(c, i);
    }
  }

  lemma InsertKeeps(c: Core, st: Stream, id: SessionId)
    requires CoreInv(c) && id in c.store && id !in c.inserted && Announced(c.sent, id)
    requires st < |c.conns| && c.conns[st].agent == c.store[id].agent
    ensures CoreInv(Insert(c, st, id)) && Evolves(c, Insert(c, st, id))
  {
    var d := Insert(c, st, id);
    assert !Closed(c, id);
    forall i | Closed(d, i)
      ensures i in d.inserted && i !in d.sessions
    {
      assert Closed(c, i);
    }
    forall a, i | a in d.agents && i in Doomed(d, a)
      ensures i in d.sessions && i in d.store && d.store[i].agent == a
    {
      assert i == id || i in Doomed(c, a);
    }
  }

  lemma DropKeeps(c: Core, id: SessionId)
    requires CoreInv(c)
    ensures CoreInv(Drop(c, id)) && Evolves(c, Drop(c, id)) && id !in Drop(c, id).sessions
  {
    var d := Drop(c, id);
    forall i | Closed(d, i)
      ensures i in d.inserted && i !in d.sessions
    {
      assert Closed(c, i);
    }
    forall a, i | a in d.agents && i in Doomed(d, a)
      ensures i in d.sessions && i in d.store && d.store[i].agent == a
    {
      assert i in Doomed(c, a);
    }
  }

  lemma CloseKeeps(c: Core, id: SessionId, outcome: Outcome)
    requires CoreInv(c) && id in c.inserted && id !in c.sessions
    ensures CoreInv(Close(c, id, outcome)) && Evolves(c, Close(c, id, outcome))
    ensures Closed(Close(c, id, outcome), id)
  {
    var d := Close(c, id, outcome);
    forall i | Closed(d, i)
      ensures i in d.inserted && i !in d.sessions
    {
      assert i == id || Closed(c, i);
    }
    forall a, i | a in d.agents && i in Doomed(d, a)
      ensures i in d.sessions && i in d.store && d.store[i].agent == a
    {
      assert i in Doomed(c, a);
    }
  }

  lemma PushKeeps(c: Core, id: SessionId, chunk: Chunk)
    requires CoreInv(c) && id in c.store
    ensures CoreInv(Push(c, id, chunk)) && Evolves(c, Push(c, id, chunk))
  {
    var d := Push(c, id, chunk);
    forall i | Closed(d, i)
      ensures i in d.inserted && i !in d.sessions
    {
      assert Closed(c, i);
    }
    forall a, i | a in d.agents && i in Doomed(d, a)
      ensures i in d.sessions && i in d.store && d.store[i].agent == a
    {
      assert i in Doomed(c, a);
    }
  }

  lemma PopKeeps(c: Core, id: SessionId)
    requires CoreInv(c)
    ensures CoreInv(Pop(c, id)) && Evolves(c, Pop(c, id))
  {
    var d := Pop(c, id);
    forall i | Closed(d, i)
      ensures i in d.inserted && i !in d.sessions
    {
      assert Closed(c, i);
    }
    forall a, i | a in d.agents && i in Doomed(d, a)
      ensures i in d.sessions && i in d.store && d.store[i].agent == a
    {
      assert i in Doomed(c, a);
    }
  }

  /** A receive makes room in a full channel. */
  lemma PopMakesRoom(c: Core, id: SessionId, chunk: Chunk)
    requires CoreInv(c) && id in c.inserted && 0 < |c.store[id].queue| <= OUTPUT_BUFFER
    ensures HasRoom(Pop(c, id).store[id], chunk) <==> chunk.Output? == c.store[id].kind.Exec?
  {
  }
}
