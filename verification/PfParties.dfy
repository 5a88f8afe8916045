/** The objects of the CLI and of the agent take the steps of PfRelay: each piece of
    their goroutines, run on an object that shows a state, leaves it showing the
    next one, with the bytes and messages of that step sent. */
module PfParties {
  import opened Wire
  import opened ExecFrame
  import opened PfFrame
  import opened AgentPortForward
  import opened CliPortForward
  import opened PfRelay

  // ----- the CLI -------------------------------------------------------------

  predicate ShowsCli(s: State, reg: PfConnRegistry)
    reads reg
  {
    reg.Valid() && reg.View() == s.cli.reg && reg.writing == s.cli.writing
  }

  /** What a step puts on the request's body. */
  ghost predicate Wrote(s: State, t: State, bytes: Octets) {
    t.up == s.up + bytes
  }

  /** A connection is accepted and announced. */
  method Connect(reg: PfConnRegistry, port: U16, ghost s: State) returns (id: ConnId, ghost bytes: Octets)
    requires ShowsCli(s, reg) && s.cli.reg.ready
    modifies reg, reg.pw
    ensures var t := Step(Step(s, DoAccept(port)), DoWriteOpen(id));
            ShowsCli(t, reg) && Wrote(s, t, bytes) && id in t.cli.readers
    ensures reg.pw.written == old(reg.pw.written) + bytes
  {
    id := reg.HandleConn(port);
    bytes := if s.cli.writing then Encode(FrameOf(Open(id, port))) else [];
    assert s.up + [] == s.up;
  }

  /** The reader goroutine passes on what it has read. */
  method Pump(reg: PfConnRegistry, id: ConnId, chunk: Octets, ghost s: State) returns (ghost bytes: Octets)
    requires ShowsCli(s, reg) && id in s.cli.readers && |chunk| <= CHUNK
    modifies reg.pw
    ensures var t := Step(s, DoLocalData(id, chunk)); ShowsCli(t, reg) && Wrote(s, t, bytes)
    ensures reg.pw.written == old(reg.pw.written) + bytes
  {
    reg.WriteMsg(Data(id, chunk));
    bytes := if s.cli.writing then Encode(FrameOf(Data(id, chunk))) else [];
    assert s.up + [] == s.up;
  }

  /** And ends: it tells the end, and closes the connection. */
  method PumpEnd(reg: PfConnRegistry, id: ConnId, ghost s: State) returns (ghost bytes: Octets)
    requires ShowsCli(s, reg) && id in s.cli.readers
    modifies reg, reg.pw
    ensures var t := Step(Step(s, DoLocalEof(id)), DoLocalClose(id)); ShowsCli(t, reg) && Wrote(s, t, bytes)
    ensures reg.pw.written == old(reg.pw.written) + bytes
  {
    reg.WriteMsg(Close(id));
    reg.CloseConn(id);
    bytes := if s.cli.writing then Encode(FrameOf(Close(id))) else [];
    assert s.up + [] == s.up;
  }

  method Interrupt(reg: PfConnRegistry, ghost s: State)
    requires ShowsCli(s, reg)
    modifies reg
    ensures ShowsCli(Step(s, DoCliShutdown), reg)
  {
    reg.Shutdown();
  }

  /** One pass of readLoop that finds a frame. */
  method ReadOne(reg: PfConnRegistry, body: ByteReader, ghost s: State)
    requires ShowsCli(s, reg) && !reg.done && body.Contents() == s.down && Decode(s.down).Got?
    modifies reg, body
    ensures var t := Step(s, DoCliRead); ShowsCli(t, reg) && body.Contents() == t.down
  {
    var r := body.ReadFrame();
    var m := ParseDown(r.frame);
    if m.Some? {
      reg.Dispatch(m.value);
    }
  }

  // ----- the agent -----------------------------------------------------------

  ghost predicate ShowsPod(a: Agent, p: PfSession)
    reads p, p.conns.Values
  {
    p.Valid() && p.View() == a.pod
  }

  /** How dialling for the message turns out. */
  function DialFor(p: PfSession, m: Msg, dial: Dial, noForward: Octets): Dial {
    if m.Open? && m.port !in p.remoteToLocal then Refused(noForward) else dial
  }

  /** The receive loop hands the pfSession the next message of the stream. */
  method Receive(p: PfSession, m: Msg, dial: Dial, noForward: Octets, ghost s: State)
    requires ShowsPod(s.agt, p) && s.agt.entry.HasPf?
    requires s.streamUp && |s.agt.received| < |s.cen.sent| && m == s.cen.sent[|s.agt.received|] && IsUp(m)
    modifies p, p.conns.Values
    ensures ShowsPod(Step(s, DoAgentReceive(DialFor(p, m, dial, noForward))).agt, p)
  {
    p.Handle(m, dial, noForward);
  }

  /** The reader goroutine passes on what the pod has sent. */
  method PumpBack(p: PfSession, id: ConnId, chunk: Octets, ghost a: Agent)
    requires ShowsPod(a, p) && id in a.readers && |chunk| <= CHUNK
    modifies p`out
    ensures ShowsPod(AgentStep(a, DoPodRead(id, chunk)), p)
  {
    p.Send(Data(id, chunk));
  }

  method PumpBackEnd(p: PfSession, id: ConnId, ghost a: Agent)
    requires ShowsPod(a, p) && id in a.readers
    modifies p`conns, p`out, p.conns.Values
    ensures ShowsPod(AgentStep(a, DoPodEof(id)), p)
  {
    p.Close(id);
    p.Send(Close(id));
  }

  /** The writer goroutine passes a queued chunk to the pod. */
  method PumpOut(p: PfSession, id: ConnId, ghost a: Agent) returns (chunk: Octets)
    requires ShowsPod(a, p) && id in p.conns && p.conns[id].queue != []
    modifies p.conns[id]
    ensures var b := AgentStep(a, DoPodWrite(id));
            ShowsPod(b, p) && At(b.written, id) == At(a.written, id) + chunk
  {
    chunk := p.TakeChunk(id);
  }

  method Teardown(p: PfSession, ghost a: Agent)
    requires ShowsPod(a, p) && a.worker.Running?
    modifies p`conns, p.conns.Values
    ensures ShowsPod(AgentStep(a, DoEndWorker), p)
  {
    p.ShutdownAll();
  }
}
