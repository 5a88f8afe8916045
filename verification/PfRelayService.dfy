/** That a port-forward session does carry bytes: it can be set up, and whenever
    it is quiet a new connection is served in both directions. */
module PfRelayService {
  import opened Wire
  import opened ExecFrame
  import opened PfFrame
  import opened AgentPortForward
  import opened CliPortForward
  import opened PfRelay
  import opened PfRelaySafety
  import opened PfRelayRuns

  /** The session is up at every party, and nothing is under way. */
  predicate Quiet(s: State) {
    && s.cli.reg.ready && !s.cli.reg.done && s.cli.writing && s.up == [] && s.down == []
    && s.cen.phase.Tracked? && s.cen.linked && s.cen.serving && s.cen.queue == [] && s.cen.routed == s.agt.pod.out
    && s.streamUp && s.agt.entry.HasPf? && s.agt.received == s.cen.sent
  }

  lemma {:induction false} RunAppend(s: State, first: seq<Action>, then_: seq<Action>)
    ensures Run(s, first + then_) == Run(Run(s, first), then_)
    decreases |first|
  {
    if first == [] {
      assert first + then_ == then_;
    } else {
      assert (first + then_)[1..] == first[1..] + then_;
      RunAppend(Step(s, first[0]), first[1..], then_);
    }
  }

  lemma RunTwo(s: State, a: Action, b: Action)
    ensures Run(s, [a, b]) == Step(Step(s, a), b)
  {
    assert [a, b][1..] == [b] && [b][1..] == [];
    assert Run(Step(s, a), [b]) == Step(Step(s, a), b);
  }

  lemma RunThree(s: State, a: Action, b: Action, c: Action)
    ensures Run(s, [a, b, c]) == Step(Step(Step(s, a), b), c)
  {
    assert [a, b, c][1..] == [b, c];
    RunTwo(Step(s, a), b, c);
  }

  // ----- one message through each leg ----------------------------------------

  /** A message written by the CLI reaches the agent's stream. */
  lemma Uplink(s: State, m: Msg, rest: Octets)
    requires s.cen.phase.Tracked? && s.cen.linked && IsUp(m)
    requires Fits(FrameOf(m)) && s.up == Encode(FrameOf(m)) + rest
    ensures Step(s, DoForward)
         == s.(up := rest, cen := s.cen.(heard := s.cen.heard + [m], sent := s.cen.sent + [m]))
  {
    DecodeEncoded(FrameOf(m), rest);
    ForwardIsHeard(s, m);
  }

  /** A message of the agent reaches the CLI's loop. */
  lemma Downlink(s: State, m: Msg)
    requires s.streamUp && s.cen.phase.Tracked? && s.cen.serving && s.cen.queue == [] && s.down == [] && !s.cli.reg.done
    requires |s.cen.seen| < |s.agt.pod.out| && m == s.agt.pod.out[|s.cen.seen|]
    requires Fits(FrameOf(m)) && IsDown(m) && !m.SessionError?
    ensures var t := Step(Step(Step(s, DoRoute), DoSelect), DoCliRead);
            t == s.(cli := s.cli.(reg := Received(s.cli.reg, m), received := s.cli.received + [m]), cen := t.cen)
    ensures var c := Step(Step(Step(s, DoRoute), DoSelect), DoCliRead).cen;
            c == s.cen.(seen := s.cen.seen + [m], routed := s.cen.routed + [m],
                        taken := s.cen.taken + [m], out := s.cen.out + [m])
  {
    var a := Step(s, DoRoute);
    RouteIsRouted(s, m);
    assert a == s.(cen := s.cen.(seen := s.cen.seen + [m], routed := s.cen.routed + [m], queue := [m]));
    var b := Step(a, DoSelect);
    SelectIsRelayed(a);
    assert b == a.(cen := Relayed(a.cen), down := Encode(FrameOf(m)));
    CliTakes(b, m);
  }

  lemma CliTakes(s: State, m: Msg)
    requires Fits(FrameOf(m)) && s.down == Encode(FrameOf(m)) && IsDown(m) && !s.cli.reg.done
    ensures Step(s, DoCliRead)
         == s.(down := [], cli := s.cli.(reg := Received(s.cli.reg, m), received := s.cli.received + [m]))
  {
    assert Encode(FrameOf(m)) + [] == Encode(FrameOf(m));
    DecodeEncoded(FrameOf(m), []);
    ParseInvertsFrameOf(m);
  }

  // ----- a new connection ----------------------------------------------------

  /** The client's program connects and sends a chunk. */
  lemma ClientSends(s: State, id: ConnId, port: U16, chunk: Octets)
    requires Inv(s) && Quiet(s) && id == s.cli.accepted + 1 && |chunk| <= CHUNK
    ensures var t := Step(Step(Step(s, DoAccept(port)), DoWriteOpen(id)), DoLocalData(id, chunk));
            && t == s.(cli := t.cli, up := Encode(FrameOf(Open(id, port))) + Encode(FrameOf(Data(id, chunk))))
            && t.cli == s.cli.(reg := Accepted(s.cli.reg), accepted := s.cli.accepted + 1, pending := t.cli.pending,
                               readers := s.cli.readers + {id}, out := t.cli.out,
                               read := s.cli.read[id := At(s.cli.read, id) + chunk])
  {
    var a := Step(s, DoAccept(port));
    assert id in a.cli.pending && a.cli.pending[id] == port;
    var b := Step(a, DoWriteOpen(id));
    assert b.up == Encode(FrameOf(Open(id, port))) && id in b.cli.readers;
  }

  /** The agent takes the OPEN and the chunk, the pod reads the chunk and replies. */
  lemma AgentServes(a: Agent, id: ConnId, port: U16, chunk: Octets, reply: Octets)
    requires a.entry.HasPf? && |reply| <= CHUNK
    ensures var b := Takes(Takes(a, Open(id, port), Connected), Data(id, chunk), Connected);
            b.entry.HasPf? && b.pod.out == a.pod.out && b.received == a.received + [Open(id, port)] + [Data(id, chunk)]
    ensures var b := Takes(Takes(a, Open(id, port), Connected), Data(id, chunk), Connected);
            var c := PodRead(PodWrite(b, id), id, reply);
            && c.entry.HasPf? && c.received == b.received && c.pod.out == a.pod.out + [Data(id, reply)]
            && id in c.pod.conns && c.pod.conns[id] == [] && c.read == a.read[id := At(a.read, id) + reply]
  {
  }

  lemma BothForwarded(s: State, m: Msg, m': Msg)
    requires s.cen.phase.Tracked? && s.cen.linked && IsUp(m) && IsUp(m') && Fits(FrameOf(m)) && Fits(FrameOf(m'))
    requires s.up == Encode(FrameOf(m)) + Encode(FrameOf(m'))
    ensures Step(Step(s, DoForward), DoForward)
         == s.(up := [], cen := s.cen.(heard := s.cen.heard + [m] + [m'], sent := s.cen.sent + [m] + [m']))
  {
    Uplink(s, m, Encode(FrameOf(m')));
    assert Encode(FrameOf(m')) + [] == Encode(FrameOf(m'));
    Uplink(Step(s, DoForward), m', []);
  }

  lemma BothTaken(s: State, m: Msg, m': Msg)
    requires s.streamUp && s.cen.sent == s.agt.received + [m] + [m']
    ensures Step(Step(s, DoAgentReceive(Connected)), DoAgentReceive(Connected))
         == s.(agt := Takes(Takes(s.agt, m, Connected), m', Connected))
  {
    var t := Step(s, DoAgentReceive(Connected));
    assert t == s.(agt := Takes(s.agt, m, Connected));
  }

  lemma PodAnswers(s: State, id: ConnId, reply: Octets)
    ensures Step(Step(s, DoPodWrite(id)), DoPodRead(id, reply))
         == s.(agt := PodRead(PodWrite(s.agt, id), id, reply))
  {
    assert Step(s, DoPodWrite(id)) == s.(agt := PodWrite(s.agt, id));
  }

  function Connection(id: ConnId, port: U16, chunk: Octets, reply: Octets): seq<Action> {
    [DoAccept(port), DoWriteOpen(id), DoLocalData(id, chunk)] + ([DoForward, DoForward]
      + ([DoAgentReceive(Connected), DoAgentReceive(Connected)] + ([DoPodWrite(id), DoPodRead(id, reply)]
      + [DoRoute, DoSelect, DoCliRead])))
  }

  /** The last thing under way is a reply: it gets through. */
  lemma ReplyReturns(s: State, id: ConnId, reply: Octets) returns (t: State)
    requires |reply| <= CHUNK && s.agt.pod.out == s.cen.routed + [Data(id, reply)] && s.cen.seen == s.cen.routed
    requires s.cli.reg.ready && !s.cli.reg.done && s.cli.writing && s.up == [] && s.down == []
    requires s.cen.phase.Tracked? && s.cen.linked && s.cen.serving && s.cen.queue == []
    requires s.streamUp && s.agt.entry.HasPf? && s.agt.received == s.cen.sent
    ensures t == Run(s, [DoRoute, DoSelect, DoCliRead]) && Quiet(t)
    ensures t.agt == s.agt && t.cli.accepted == s.cli.accepted && t.cli.read == s.cli.read
    ensures t.cli.reg.conns == s.cli.reg.conns
  {
    Downlink(s, Data(id, reply));
    RunThree(s, DoRoute, DoSelect, DoCliRead);
    t := Run(s, [DoRoute, DoSelect, DoCliRead]);
  }

  lemma RunConnection(s: State, id: ConnId, port: U16, chunk: Octets, reply: Octets) returns (t: State)
    requires Inv(s) && Quiet(s) && id == s.cli.accepted + 1 && |chunk| <= CHUNK && |reply| <= CHUNK
    ensures t == Run(s, Connection(id, port, chunk, reply)) && Quiet(t)
    ensures t.cli.accepted == id && id in t.cli.reg.conns && id in t.agt.pod.conns && t.agt.pod.conns[id] == []
    ensures At(t.cli.read, id) == At(s.cli.read, id) + chunk && At(t.agt.read, id) == At(s.agt.read, id) + reply
  {
    var o, d := Open(id, port), Data(id, chunk);
    ClientSends(s, id, port, chunk);
    RunThree(s, DoAccept(port), DoWriteOpen(id), DoLocalData(id, chunk));
    var a := Run(s, [DoAccept(port), DoWriteOpen(id), DoLocalData(id, chunk)]);
    BothForwarded(a, o, d);
    RunTwo(a, DoForward, DoForward);
    var b := Run(a, [DoForward, DoForward]);
    BothTaken(b, o, d);
    RunTwo(b, DoAgentReceive(Connected), DoAgentReceive(Connected));
    var c := Run(b, [DoAgentReceive(Connected), DoAgentReceive(Connected)]);
    PodAnswers(c, id, reply);
    RunTwo(c, DoPodWrite(id), DoPodRead(id, reply));
    AgentServes(b.agt, id, port, chunk, reply);
    var e := Run(c, [DoPodWrite(id), DoPodRead(id, reply)]);
    t := ReplyReturns(e, id, reply);
    RunConnectionJoins(s, id, port, chunk, reply, a, b, c, e);
  }

  lemma RunConnectionJoins(
    s: State, id: ConnId, port: U16, chunk: Octets, reply: Octets, a: State, b: State, c: State, e: State)
    requires a == Run(s, [DoAccept(port), DoWriteOpen(id), DoLocalData(id, chunk)])
    requires b == Run(a, [DoForward, DoForward])
    requires c == Run(b, [DoAgentReceive(Connected), DoAgentReceive(Connected)])
    requires e == Run(c, [DoPodWrite(id), DoPodRead(id, reply)])
    ensures Run(s, Connection(id, port, chunk, reply)) == Run(e, [DoRoute, DoSelect, DoCliRead])
  {
    var five := [DoRoute, DoSelect, DoCliRead];
    var four := [DoPodWrite(id), DoPodRead(id, reply)] + five;
    var three := [DoAgentReceive(Connected), DoAgentReceive(Connected)] + four;
    RunAppend(c, [DoPodWrite(id), DoPodRead(id, reply)], five);
    RunAppend(b, [DoAgentReceive(Connected), DoAgentReceive(Connected)], four);
    RunAppend(a, [DoForward, DoForward], three);
    RunAppend(s, [DoAccept(port), DoWriteOpen(id), DoLocalData(id, chunk)], [DoForward, DoForward] + three);
  }

  lemma NextConnectionIsFresh(s: State, id: ConnId)
    requires Inv(s) && s.cli.writing && id > s.cli.accepted
    ensures At(s.cli.read, id) == [] && At(s.agt.read, id) == []
  {
    forall m | m in s.cli.out
      ensures !IsFor(m, id)
    {
      assert Upward(m, s.cli.accepted);
    }
    NoDataWithoutMessage(s.cli.out, id);
    assert ReadFor(s.cli.out, s.cli.read, s.cli.writing, id);
    forall m | m in s.agt.pod.out
      ensures !IsFor(m, id)
    {
      TraceSays(s.agt.worker, s.agt.pod.out, s.cli.accepted, m);
    }
    NoDataWithoutMessage(s.agt.pod.out, id);
    assert AnsweredFor(s.agt.pod.out, s.agt.read, id);
  }

  /** Whenever a session is quiet, a new connection gets its chunk to the pod and
      the pod's reply back, and leaves the session quiet. */
  lemma NewConnectionIsServed(before: seq<Action>, id: ConnId, port: U16, chunk: Octets, reply: Octets) returns (t: State)
    requires Quiet(Run(START, before)) && id == Run(START, before).cli.accepted + 1
    requires |chunk| <= CHUNK && |reply| <= CHUNK
    ensures t == Run(START, before + Connection(id, port, chunk, reply)) && Quiet(t)
    ensures t.cli.accepted == id && At(t.agt.written, id) == chunk && At(t.cli.reg.delivered, id) == reply
  {
    var s := Reachable(before);
    ServedFrom(s, id, port, chunk, reply);
    RunAppend(START, before, Connection(id, port, chunk, reply));
    t := Run(s, Connection(id, port, chunk, reply));
  }

  lemma ServedFrom(s: State, id: ConnId, port: U16, chunk: Octets, reply: Octets)
    requires Inv(s) && Quiet(s) && id == s.cli.accepted + 1 && |chunk| <= CHUNK && |reply| <= CHUNK
    ensures var t := Run(s, Connection(id, port, chunk, reply));
            Quiet(t) && t.cli.accepted == id && At(t.agt.written, id) == chunk && At(t.cli.reg.delivered, id) == reply
  {
    NextConnectionIsFresh(s, id);
    var t := RunConnection(s, id, port, chunk, reply);
    RunKeeps(s, Connection(id, port, chunk, reply));
    Arrived(t, id);
    assert [] + chunk == chunk && [] + reply == reply;
  }

  lemma Arrived(t: State, id: ConnId)
    requires Inv(t) && Quiet(t) && id in t.cli.reg.conns && id in t.agt.pod.conns && t.agt.pod.conns[id] == []
    ensures At(t.agt.written, id) == At(t.cli.read, id) && At(t.cli.reg.delivered, id) == At(t.agt.read, id)
  {
    IdleUpIsComplete(t, id);
    IdleDownIsComplete(t, id);
  }
}
