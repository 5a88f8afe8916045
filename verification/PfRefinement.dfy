/** What PfRelay does to its one session at central, call by call, is what the
    session manager's calls do to that session. */
module PfRefinement {
  import opened Wire
  import opened ExecFrame
  import opened PfFrame
  import opened Sessions
  import opened SessionRuns
  import opened SessionCalls
  import opened SessionHomes
  import PfRelay
  import opened PfBridge

  /** The bodies relayed for a session on one stream, in order. */
  function RelaysOn(sent: seq<(Stream, Command)>, st: Stream, id: SessionId): seq<Octets> {
    if sent == [] then []
    else
      var earlier, last := RelaysOn(sent[..|sent| - 1], st, id), sent[|sent| - 1];
      if last.0 == st && last.1.Relay? && last.1.id == id then earlier + [last.1.body] else earlier
  }

  /** What is relayed of a message. */
  function Body(m: Msg): Octets {
    [FrameOf(m).kind] + FrameOf(m).payload
  }

  function Bodies(ms: seq<Msg>): seq<Octets> {
    if ms == [] then [] else Bodies(ms[..|ms| - 1]) + [Body(ms[|ms| - 1])]
  }

  /** The manager's session `id`, started on stream `st`, is PfRelay's. */
  predicate Represents(c: PfRelay.Central, core: Core, st: Stream, id: SessionId) {
    && id in core.store && core.store[id].kind.PortForward?
    && st < |core.conns| && core.conns[st].agent == core.store[id].agent
    && core.store[id].queue == Chunks(c.queue)
    && (c.phase.Starting? <==> id !in core.inserted) && (c.phase.Tracked? <==> id in core.sessions)
    && (c.phase.Dropped? <==> Closed(core, id))
    && (c.phase.Dropped? ==> core.store[id].outcome.value.message == c.reason)
    && (c.linked <==> Registered(core, st))
    && RelaysOn(core.sent, st, id) == Bodies(c.sent)
  }

  lemma RelaysAppend(sent: seq<(Stream, Command)>, next: (Stream, Command), st: Stream, id: SessionId)
    ensures RelaysOn(sent + [next], st, id)
         == if next.0 == st && next.1.Relay? && next.1.id == id
            then RelaysOn(sent, st, id) + [next.1.body] else RelaysOn(sent, st, id)
  {
    assert (sent + [next])[..|sent|] == sent;
  }

  lemma BodiesAppend(ms: seq<Msg>, m: Msg)
    ensures Bodies(ms + [m]) == Bodies(ms) + [Body(m)]
  {
    assert (ms + [m])[..|ms|] == ms;
  }

  lemma {:induction false} NothingRelayed(sent: seq<(Stream, Command)>, st: Stream, id: SessionId)
    requires forall i | 0 <= i < |sent| && sent[i].1.Relay? :: sent[i].1.id != id
    ensures RelaysOn(sent, st, id) == []
  {
    if sent != [] {
      NothingRelayed(sent[..|sent| - 1], st, id);
    }
  }

  /** StartPortForward up to its send: PfRelay's first state. */
  lemma StartRefines(core: Core, agent: AgentId, id: SessionId)
    requires CoreInv(core) && HomesOk(core) && MayStart(core, agent) && id !in core.store
    ensures var st := core.agents[agent];
            Represents(PfRelay.START.cen, Transmit(Allocate(core, agent, PortForward, id), st, Start(id)), st, id)
  {
    var st := core.agents[agent];
    forall i | 0 <= i < |core.sent| && core.sent[i].1.Relay?
      ensures core.sent[i].1.id != id
    {
      var other := core.sent[i].1.id;
      assert Announced(core.sent[..i], other);
      var j :| 0 <= j < i && core.sent[..i][j].1 == Start(other);
      assert Home(core, core.sent[j].0, other) && HomeOk(core, core.sent[j].0, other);
    }
    NothingRelayed(core.sent, st, id);
    RelaysAppend(core.sent, (st, Start(id)), st, id);
  }

  lemma SentRelays(core: Core, st: Stream, id: SessionId, body: Octets)
    ensures RelaysOn(AfterSend(core, id, body, true).sent, st, id)
         == if ConnFor(core, id) == Some(st) then RelaysOn(core.sent, st, id) + [body] else RelaysOn(core.sent, st, id)
  {
    if ConnFor(core, id).Some? {
      RelaysAppend(core.sent, (ConnFor(core, id).value, Relay(id, body)), st, id);
    }
  }

  lemma FoundExactly(c: PfRelay.Central, core: Core, st: Stream, id: SessionId)
    requires CoreInv(core) && Represents(c, core, st, id)
    ensures ConnFor(core, id) == Some(st) <==> c.phase.Tracked? && c.linked
  {
  }

  /** SendPfOpen, SendPfData and SendPfClose. */
  lemma HeardRefines(c: PfRelay.Central, core: Core, st: Stream, id: SessionId, m: Msg)
    requires CoreInv(core) && Represents(c, core, st, id)
    ensures Represents(PfRelay.Heard(c, m), AfterSend(core, id, Body(m), true), st, id)
  {
    BodiesAppend(c.sent, m);
    SentRelays(core, st, id, Body(m));
    FoundExactly(c, core, st, id);
  }

  /** Cancel, by the bridge or by an overflow. */
  lemma CancelRefines(c: PfRelay.Central, core: Core, st: Stream, id: SessionId, sendOk: bool)
    requires CoreInv(core) && Represents(c, core, st, id)
    ensures Represents(PfRelay.Drop(c, Text("canceled")), AfterCancel(core, id, sendOk), st, id)
  {
    if ConnFor(core, id).Some? {
      RelaysAppend(core.sent, (ConnFor(core, id).value, Command.Cancel(id)), st, id);
    }
  }

  lemma AbandonRefines(c: PfRelay.Central, core: Core, st: Stream, id: SessionId, sendOk: bool)
    requires CoreInv(core) && Represents(c, core, st, id) && !c.phase.Starting? && c.serving
    ensures Represents(PfRelay.Abandon(c), AfterCancel(core, id, sendOk), st, id)
  {
    CancelRefines(c, core, st, id, sendOk);
  }

  /** routePf. */
  lemma RoutedRefines(c: PfRelay.Central, core: Core, st: Stream, id: SessionId, m: Msg, sendOk: bool)
    requires CoreInv(core) && Represents(c, core, st, id)
    ensures Represents(PfRelay.Routed(c, m), AfterChunk(core, id, Forward(m), sendOk), st, id)
  {
    if c.phase.Tracked? && |c.queue| < PfRelay.PF_BUFFER {
      PushRefines(c, core, st, id, m);
    } else if c.phase.Tracked? {
      var d := c.(seen := c.seen + [m]);
      assert Represents(d, core, st, id);
      CancelRefines(d, core, st, id, sendOk);
    }
  }

  lemma PushRefines(c: PfRelay.Central, core: Core, st: Stream, id: SessionId, m: Msg)
    requires Represents(c, core, st, id)
    ensures Represents(c.(seen := c.seen + [m], queue := c.queue + [m], routed := c.routed + [m]),
                       Push(core, id, Forward(m)), st, id)
  {
    assert Chunks(c.queue + [m]) == Chunks(c.queue) + [Forward(m)];
  }

  /** The insert that ends StartPortForward. */
  lemma InsertRefines(c: PfRelay.Central, core: Core, st: Stream, id: SessionId)
    requires CoreInv(core) && Represents(c, core, st, id) && c.phase.Starting?
    ensures Represents(PfRelay.Insert(c), Insert(core, st, id), st, id)
  {
  }

  /** The agent registers another stream. */
  lemma RegisterRefines(c: PfRelay.Central, core: Core, st: Stream, id: SessionId)
    requires CoreInv(core) && Represents(c, core, st, id)
    ensures Represents(PfRelay.Unlink(c), Register(core, core.store[id].agent), st, id)
  {
  }

  /** The agent's registered stream ends: a session that was started on it and is
      in the map is dropped, any other only loses the stream. */
  lemma UnregisterRefines(c: PfRelay.Central, core: Core, st: Stream, id: SessionId)
    requires CoreInv(core) && HomesOk(core) && Home(core, st, id) && Represents(c, core, st, id)
    ensures var d := PfRelay.Unlink(c);
            Represents(if c.linked then PfRelay.Drop(d, Text("agent disconnected")) else d,
                       AfterUnregister(core, core.store[id].agent), st, id)
  {
    assert HomeOk(core, st, id);
    var agent := core.store[id].agent;
    if id in Doomed(core, agent) {
      assert Home(core, core.agents[agent], id);
      assert core.agents[agent] == st;
    }
  }

  // ----- whole histories ---------------------------------------------------------

  ghost predicate IsBody(body: Octets) {
    exists m: Msg :: Body(m) == body
  }

  ghost function MsgOf(body: Octets): (m: Msg)
    requires IsBody(body)
    ensures Body(m) == body
  {
    var m: Msg :| Body(m) == body; m
  }

  /** What is relayed for the session are messages, on a stream that takes them;
      session ids are fresh. */
  ghost predicate Callable(core: Core, id: SessionId, call: Call, sendOk: bool) {
    && (call.StartSession? ==> call.id !in core.store)
    && (call.SendTo? && call.id == id ==> sendOk && IsBody(call.body))
  }

  /** The relay model's step for a call of anybody, about this or another session. */
  ghost function Follows(c: PfRelay.Central, agent: AgentId, id: SessionId, call: Call): PfRelay.Central
    requires call.SendTo? && call.id == id ==> IsBody(call.body)
  {
    match call
    case RegisterStream(a) => if a == agent then PfRelay.Unlink(c) else c
    case UnregisterStream(a) =>
      if a != agent then c
      else if c.linked then PfRelay.Drop(PfRelay.Unlink(c), Text("agent disconnected"))
      else PfRelay.Unlink(c)
    case StartSession(_, _, _) => c
    case CancelSession(i) => if i == id then PfRelay.Drop(c, Text("canceled")) else c
    case RouteChunk(i, chunk) =>
      if i != id then c
      else if chunk.Forward? then PfRelay.Routed(c, chunk.msg)
      else PfRelay.Drop(c, Text("canceled"))
    case RouteExit(i, outcome) => if i == id then PfRelay.Drop(c, outcome.message) else c
    case SendTo(i, body) => if i == id then PfRelay.Heard(c, MsgOf(body)) else c
    case ReceiveChunk(i) => if i == id && !c.phase.Starting? then Received(c) else c
  }

  /** A receive of the session's bridge. */
  function Received(c: PfRelay.Central): PfRelay.Central {
    if c.queue == [] then c
    else c.(queue := c.queue[1..], taken := c.taken + [c.queue[0]], serving := c.serving && !c.queue[0].SessionError?)
  }

  /** The part of the manager's state that says something about the session. */
  predicate SameSession(core: Core, d: Core, st: Stream, id: SessionId) {
    && id in core.store && id in d.store && d.store[id] == core.store[id]
    && |core.conns| <= |d.conns| && (st < |core.conns| ==> d.conns[st].agent == core.conns[st].agent)
    && (id in d.inserted <==> id in core.inserted) && (id in d.sessions <==> id in core.sessions)
    && (Registered(d, st) <==> Registered(core, st))
    && RelaysOn(d.sent, st, id) == RelaysOn(core.sent, st, id)
  }

  lemma SameIsRepresented(c: PfRelay.Central, core: Core, d: Core, st: Stream, id: SessionId)
    requires Represents(c, core, st, id) && SameSession(core, d, st, id)
    ensures Represents(c, d, st, id)
  {
  }

  lemma OtherCancelIsSame(core: Core, st: Stream, id: SessionId, i: SessionId, sendOk: bool)
    requires CoreInv(core) && id in core.store && i != id
    ensures SameSession(core, AfterCancel(core, i, sendOk), st, id)
  {
    if ConnFor(core, i).Some? {
      RelaysAppend(core.sent, (ConnFor(core, i).value, Command.Cancel(i)), st, id);
    }
  }

  lemma OtherExitIsSame(core: Core, st: Stream, id: SessionId, i: SessionId, outcome: Outcome)
    requires CoreInv(core) && id in core.store && i != id
    ensures SameSession(core, AfterExit(core, i, outcome), st, id)
  {
  }

  lemma OtherSendIsSame(core: Core, st: Stream, id: SessionId, i: SessionId, body: Octets, sendOk: bool)
    requires id in core.store && i != id
    ensures SameSession(core, AfterSend(core, i, body, sendOk), st, id)
  {
    if ConnFor(core, i).Some? {
      RelaysAppend(core.sent, (ConnFor(core, i).value, Relay(i, body)), st, id);
    }
  }

  lemma OtherStartIsSame(core: Core, st: Stream, id: SessionId, agent: AgentId, kind: Kind, i: SessionId, sendOk: bool)
    requires CoreInv(core) && id in core.store && i !in core.store
    ensures SameSession(core, AfterStart(core, agent, kind, i, sendOk), st, id)
  {
    if MayStart(core, agent) {
      RelaysAppend(core.sent, (core.agents[agent], Start(i)), st, id);
    }
  }

  lemma OtherAgentIsSame(core: Core, st: Stream, id: SessionId, a: AgentId)
    requires CoreInv(core) && id in core.store && st < |core.conns|
    requires core.conns[st].agent == core.store[id].agent && core.store[id].agent != a
    ensures SameSession(core, Register(core, a), st, id) && SameSession(core, AfterUnregister(core, a), st, id)
  {
    assert id !in Doomed(core, a);
  }

  lemma OtherChunkIsSame(core: Core, st: Stream, id: SessionId, i: SessionId, chunk: Chunk, sendOk: bool)
    requires CoreInv(core) && id in core.store && i != id
    ensures SameSession(core, AfterChunk(core, i, chunk, sendOk), st, id) && SameSession(core, Pop(core, i), st, id)
  {
    OtherCancelIsSame(core, st, id, i, sendOk);
  }

  /** A call about something else changes nothing for this session. */
  lemma OtherCallIsSame(core: Core, st: Stream, id: SessionId, call: Call, sendOk: bool)
    requires id in core.store && st < |core.conns| && core.conns[st].agent == core.store[id].agent
    requires CoreInv(core) && Callable(core, id, call, sendOk) && !IsAbout(call, core, id)
    ensures SameSession(core, After(core, call, sendOk), st, id)
  {
    match call
    case RegisterStream(a) => OtherAgentIsSame(core, st, id, a);
    case UnregisterStream(a) => OtherAgentIsSame(core, st, id, a);
    case StartSession(agent, kind, i) => OtherStartIsSame(core, st, id, agent, kind, i, sendOk);
    case CancelSession(i) => OtherCancelIsSame(core, st, id, i, sendOk);
    case RouteChunk(i, chunk) => OtherChunkIsSame(core, st, id, i, chunk, sendOk);
    case RouteExit(i, outcome) => OtherExitIsSame(core, st, id, i, outcome);
    case SendTo(i, body) => OtherSendIsSame(core, st, id, i, body, sendOk);
    case ReceiveChunk(i) => OtherChunkIsSame(core, st, id, i, Output(true, []), sendOk);
  }

  predicate IsAbout(call: Call, core: Core, id: SessionId)
    requires id in core.store
  {
    match call
    case RegisterStream(a) => a == core.store[id].agent
    case UnregisterStream(a) => a == core.store[id].agent
    case StartSession(_, _, _) => false
    case CancelSession(i) => i == id
    case RouteChunk(i, _) => i == id
    case RouteExit(i, _) => i == id
    case SendTo(i, _) => i == id
    case ReceiveChunk(i) => i == id
  }

  lemma ExitRefines(c: PfRelay.Central, core: Core, st: Stream, id: SessionId, outcome: Outcome)
    requires CoreInv(core) && Represents(c, core, st, id)
    ensures Represents(PfRelay.Drop(c, outcome.message), AfterExit(core, id, outcome), st, id)
  {
  }

  lemma ReceivedRefines(c: PfRelay.Central, core: Core, st: Stream, id: SessionId)
    requires CoreInv(core) && Represents(c, core, st, id)
    ensures Represents(if c.phase.Starting? then c else Received(c), Pop(core, id), st, id)
  {
    if c.queue != [] {
      assert Chunks(c.queue)[1..] == Chunks(c.queue[1..]);
    }
  }

  /** The bridge's select, output branch. */
  lemma SelectRefines(s: PfRelay.State, core: Core, st: Stream, id: SessionId)
    requires CoreInv(core) && Represents(s.cen, core, st, id) && !s.cen.phase.Starting? && s.cen.serving
    ensures Represents(PfRelay.Select(s).cen, Pop(core, id), st, id)
  {
    ReceivedRefines(s.cen, core, st, id);
    SelectIsReceived(s);
    SameRepresented(Received(s.cen), PfRelay.Select(s).cen, Pop(core, id), st, id);
  }

  lemma SelectIsReceived(s: PfRelay.State)
    requires !s.cen.phase.Starting? && s.cen.serving
    ensures SameState(PfRelay.Select(s).cen, Received(s.cen))
  {
  }

  predicate SameState(c: PfRelay.Central, d: PfRelay.Central) {
    c.queue == d.queue && c.phase == d.phase && c.reason == d.reason && c.linked == d.linked && c.sent == d.sent
  }

  lemma SameRepresented(c: PfRelay.Central, d: PfRelay.Central, core: Core, st: Stream, id: SessionId)
    requires Represents(c, core, st, id) && SameState(c, d)
    ensures Represents(d, core, st, id)
  {
  }

  lemma FollowsRefines(c: PfRelay.Central, core: Core, st: Stream, id: SessionId, call: Call, sendOk: bool)
    requires CoreInv(core) && HomesOk(core) && Home(core, st, id) && Represents(c, core, st, id)
    requires Callable(core, id, call, sendOk)
    ensures Represents(Follows(c, core.store[id].agent, id, call), After(core, call, sendOk), st, id)
  {
    if !IsAbout(call, core, id) {
      OtherCallIsSame(core, st, id, call, sendOk);
      SameIsRepresented(c, core, After(core, call, sendOk), st, id);
    } else {
      OwnCallRefines(c, core, st, id, call, sendOk);
    }
  }

  lemma OwnCallRefines(c: PfRelay.Central, core: Core, st: Stream, id: SessionId, call: Call, sendOk: bool)
    requires CoreInv(core) && HomesOk(core) && Home(core, st, id) && Represents(c, core, st, id)
    requires Callable(core, id, call, sendOk) && IsAbout(call, core, id)
    ensures Represents(Follows(c, core.store[id].agent, id, call), After(core, call, sendOk), st, id)
  {
    match call
    case RegisterStream(_) => RegisterRefines(c, core, st, id);
    case UnregisterStream(_) => UnregisterRefines(c, core, st, id);
    case CancelSession(_) => CancelRefines(c, core, st, id, sendOk);
    case RouteChunk(_, chunk) =>
      if chunk.Forward? {
        RoutedRefines(c, core, st, id, chunk.msg, sendOk);
      } else {
        CancelRefines(c, core, st, id, sendOk);
      }
    case RouteExit(_, outcome) => ExitRefines(c, core, st, id, outcome);
    case SendTo(_, body) => HeardRefines(c, core, st, id, MsgOf(body));
    case ReceiveChunk(_) => ReceivedRefines(c, core, st, id);
  }

  lemma AfterKeepsHomes(core: Core, call: Call, sendOk: bool)
    requires CoreInv(core) && HomesOk(core) && (call.StartSession? ==> call.id !in core.store)
    ensures var d := After(core, call, sendOk);
            CoreInv(d) && HomesOk(d) && Evolves(core, d)
  {
    var s := State(core, map[], false);
    var labels := WholeCallIsRun(s, 0, call, sendOk);
    RunKeepsHomes(s, labels);
    RunKeepsInv(s, labels);
  }

  ghost predicate AllCallable(core: Core, id: SessionId, calls: seq<(Call, bool)>)
    decreases |calls|
  {
    calls == [] ||
    (Callable(core, id, calls[0].0, calls[0].1) && AllCallable(After(core, calls[0].0, calls[0].1), id, calls[1..]))
  }

  ghost function FollowsAll(c: PfRelay.Central, agent: AgentId, id: SessionId, calls: seq<(Call, bool)>): PfRelay.Central
    requires forall x | x in calls :: x.0.SendTo? && x.0.id == id ==> IsBody(x.0.body)
    decreases |calls|
  {
    if calls == [] then c
    else
      assert calls[0] in calls && forall x | x in calls[1..] :: x in calls;
      FollowsAll(Follows(c, agent, id, calls[0].0), agent, id, calls[1..])
  }

  /** Over any history of calls about any sessions and agents, the manager's session
      stays the one that the relay model's steps produce. */
  lemma {:induction false} HistoryRefines(
    c: PfRelay.Central, core: Core, st: Stream, id: SessionId, calls: seq<(Call, bool)>)
    requires CoreInv(core) && HomesOk(core) && Home(core, st, id) && Represents(c, core, st, id)
    requires AllCallable(core, id, calls)
    requires forall x | x in calls :: x.0.SendTo? && x.0.id == id ==> IsBody(x.0.body)
    ensures Represents(FollowsAll(c, core.store[id].agent, id, calls), History(core, calls), st, id)
    decreases |calls|
  {
    if calls != [] {
      var call, ok := calls[0].0, calls[0].1;
      var d := After(core, call, ok);
      assert calls[0] in calls;
      FollowsRefines(c, core, st, id, call, ok);
      AfterKeepsHomes(core, call, ok);
      assert Home(d, st, id);
      HistoryRefines(Follows(c, core.store[id].agent, id, call), d, st, id, calls[1..]);
    }
  }
}
