/** The guarantees of a port-forward session in every state of every run, as long
    as fewer than 2^32 connections were accepted. */
module PfRelayRuns {
  import opened Wire
  import opened ExecFrame
  import opened PfFrame
  import opened AgentPortForward
  import opened CliPortForward
  import opened PfRelay
  import opened PfRelaySafety

  lemma CliStepKeeps(s: State, a: Action)
    requires Inv(s) && Step(s, a).cli.accepted < IDS
    requires OfCli(a)
    ensures Inv(Step(s, a))
  {
    match a
    case DoAccept(port) => AcceptKeeps(s, port);
    case DoWriteOpen(id) => WriteOpenKeeps(s, id);
    case DoLocalData(id, chunk) => LocalDataKeeps(s, id, chunk);
    case DoLocalEof(id) => LocalEofKeeps(s, id);
    case DoLocalClose(id) => LocalCloseKeeps(s, id);
    case DoCliShutdown => CliShutdownKeeps(s);
    case DoCliRead => CliReadKeeps(s);
  }

  lemma AgentStepKeeps(a: Agent, n: nat, action: Action)
    requires AgentOk(a, n)
    ensures AgentOk(AgentStep(a, action), n)
  {
    match action
    case DoBegin => BeginKeeps(a, n);
    case DoCancelEntry => BeginKeeps(a, n);
    case DoFail(text) => FailKeeps(a, n, text);
    case DoAttach => BeginKeeps(a, n);
    case DoSendReady => SendReadyKeeps(a, n);
    case DoEndWorker => EndWorkerKeeps(a, n);
    case DoPodRead(id, chunk) => PodReadKeeps(a, n, id, chunk);
    case DoPodEof(id) => PodEofKeeps(a, n, id);
    case DoPodWrite(id) => PodWriteKeeps(a, n, id);
    case _ =>
  }

  lemma AgentStepSays(a: Agent, action: Action)
    ensures a.pod.out <= AgentStep(a, action).pod.out && AgentStep(a, action).received == a.received
  {
  }

  predicate OfCli(a: Action) {
    a.DoAccept? || a.DoWriteOpen? || a.DoLocalData? || a.DoLocalEof? || a.DoLocalClose? || a.DoCliShutdown? || a.DoCliRead?
  }

  predicate OfRelay(a: Action) {
    a.DoForward? || a.DoRoute? || a.DoSelect? || a.DoStreamLost? || a.DoAgentReceive?
  }

  lemma RelayStepKeeps(s: State, a: Action)
    requires Inv(s) && OfRelay(a)
    ensures Inv(Step(s, a))
  {
    match a
    case DoForward => ForwardKeeps(s);
    case DoRoute => RouteKeeps(s);
    case DoSelect => SelectKeeps(s);
    case DoAgentReceive(dial) => AgentReceiveKeeps(s, dial);
    case DoStreamLost =>
  }

  lemma OwnStepKeeps(s: State, a: Action)
    requires Inv(s) && !OfCli(a) && !OfRelay(a)
    ensures Inv(Step(s, a))
  {
    CentralStepKeeps(s.cen, s.agt.pod.out, a);
    CentralMoves(s, CentralStep(s.cen, a));
    AgentStepKeeps(s.agt, s.cli.accepted, a);
    AgentStepSays(s.agt, a);
    AgentActs(s.(cen := CentralStep(s.cen, a)), AgentStep(s.agt, a));
    assert Step(s, a) == s.(cen := CentralStep(s.cen, a)).(agt := AgentStep(s.agt, a));
  }

  lemma StepKeeps(s: State, a: Action)
    requires Inv(s) && Step(s, a).cli.accepted < IDS
    ensures Inv(Step(s, a))
  {
    if OfCli(a) {
      CliStepKeeps(s, a);
    } else if OfRelay(a) {
      RelayStepKeeps(s, a);
    } else {
      OwnStepKeeps(s, a);
    }
  }

  lemma StepCounts(s: State, a: Action)
    ensures s.cli.accepted <= Step(s, a).cli.accepted
    ensures !s.cli.reg.ready ==> s.cli.accepted == Step(s, a).cli.accepted
    ensures s.cen.missed ==> Step(s, a).cen.missed
  {
  }

  lemma {:induction false} RunCounts(s: State, actions: seq<Action>)
    ensures s.cli.accepted <= Run(s, actions).cli.accepted
    decreases |actions|
  {
    if actions != [] {
      StepCounts(s, actions[0]);
      RunCounts(Step(s, actions[0]), actions[1..]);
    }
  }

  lemma {:induction false} RunKeeps(s: State, actions: seq<Action>)
    requires Inv(s) && Run(s, actions).cli.accepted < IDS
    ensures Inv(Run(s, actions))
    decreases |actions|
  {
    if actions != [] {
      RunCounts(Step(s, actions[0]), actions[1..]);
      StepKeeps(s, actions[0]);
      RunKeeps(Step(s, actions[0]), actions[1..]);
    }
  }

  lemma StartsWell()
    ensures Inv(START)
  {
    assert Flatten([]) == [];
  }

  lemma Reachable(actions: seq<Action>) returns (s: State)
    requires Run(START, actions).cli.accepted < IDS
    ensures s == Run(START, actions) && Inv(s)
  {
    s := Run(START, actions);
    StartsWell();
    RunKeeps(START, actions);
  }

  // ----- client to pod ---------------------------------------------------------

  /** For every connection, what the pod gets is a gap-free prefix of what the
      client sent on that connection, whatever the other connections do. */
  lemma PodGetsPrefix(actions: seq<Action>, id: ConnId)
    requires Run(START, actions).cli.accepted < IDS
    ensures var s := Run(START, actions);
            At(s.agt.written, id) <= At(s.agt.pod.queued, id) <= At(s.cli.read, id)
  {
    var s := Reachable(actions);
    assert WrittenFor(s.agt.pod, s.agt.written, id);
    assert QueuedFor(s.agt.pod, s.agt.handled, id);
    assert ReadFor(s.cli.out, s.cli.read, s.cli.writing, id);
    DataOfMonotone(s.agt.handled, s.cli.out, id);
  }

  lemma NothingOnWire(log: seq<Msg>, done: seq<Msg>)
    requires OnWire(log, done, [])
    ensures done == log
  {
    assert log[|done|..] == [];
  }

  /** And all of it, once nothing is under way and the connection still stands. */
  lemma PodGetsAll(actions: seq<Action>, id: ConnId)
    requires Run(START, actions).cli.accepted < IDS && UpIsIdle(Run(START, actions), id)
    ensures At(Run(START, actions).agt.written, id) == At(Run(START, actions).cli.read, id)
  {
    var s := Reachable(actions);
    IdleUpIsComplete(s, id);
  }

  /** The client's pipe and the session are up, every message has arrived, and
      the pod has taken all that was queued for the connection. */
  predicate UpIsIdle(s: State, id: ConnId) {
    && s.cli.writing && s.up == [] && s.cen.phase.Tracked? && s.cen.linked
    && s.agt.received == s.cen.sent && s.agt.entry.HasPf?
    && id in s.agt.pod.conns && s.agt.pod.conns[id] == []
  }

  lemma IdleUpIsComplete(s: State, id: ConnId)
    requires Inv(s) && UpIsIdle(s, id)
    ensures At(s.agt.written, id) == At(s.cli.read, id)
  {
    NothingOnWire(s.cli.out, s.cen.heard);
    assert WrittenFor(s.agt.pod, s.agt.written, id);
    assert QueuedFor(s.agt.pod, s.agt.handled, id);
    assert ReadFor(s.cli.out, s.cli.read, s.cli.writing, id);
    assert Flatten([]) == [];
  }

  // ----- pod to client ---------------------------------------------------------

  lemma RelayedData(s: State, id: ConnId)
    requires Inv(s)
    ensures DataOf(s.cen.out, id) == DataOf(s.cen.taken, id)
  {
    forall m | m in s.cen.taken && m.Data?
      ensures Fits(FrameOf(m))
    {
      TakenFits(s, m);
    }
    SendableKeepsData(s.cen.taken, id);
    NoDataAdded(s.cen.taken, s.cen.serving, s.cen.out, id);
  }

  lemma TakenFits(s: State, m: Msg)
    requires Inv(s) && m in s.cen.taken && m.Data?
    ensures Fits(FrameOf(m))
  {
    assert m in s.cen.taken + s.cen.queue;
    RoutedWasSent(s, m);
    TraceSays(s.agt.worker, s.agt.pod.out, s.cli.accepted, m);
  }

  lemma NoDataAdded(taken: seq<Msg>, serving: bool, out: seq<Msg>, id: ConnId)
    requires BridgeOk(taken, serving, out)
    ensures DataOf(out, id) == DataOf(Sendable(taken), id)
  {
    var sent := Sendable(taken);
    if out != sent {
      assert out == sent + [out[|sent|]];
      DataOfAppend(sent, out[|sent|], id);
    }
  }

  /** For every connection, what the client gets is a gap-free prefix of what the
      pod sent on that connection. */
  lemma ClientGetsPrefix(actions: seq<Action>, id: ConnId)
    requires Run(START, actions).cli.accepted < IDS
    ensures At(Run(START, actions).cli.reg.delivered, id) <= At(Run(START, actions).agt.read, id)
  {
    var s := Reachable(actions);
    assert DeliveredFor(s.cli.reg, s.cli.received, id);
    DataOfMonotone(s.cli.received, s.cen.out, id);
    RelayedData(s, id);
    assert s.cen.taken <= s.cen.routed;
    DataOfMonotone(s.cen.taken, s.agt.pod.out, id);
    assert AnsweredFor(s.agt.pod.out, s.agt.read, id);
  }

  lemma ClientGetsAll(actions: seq<Action>, id: ConnId)
    requires Run(START, actions).cli.accepted < IDS && DownIsIdle(Run(START, actions), id)
    ensures At(Run(START, actions).cli.reg.delivered, id) == At(Run(START, actions).agt.read, id)
  {
    var s := Reachable(actions);
    IdleDownIsComplete(s, id);
  }

  /** All the agent's messages were routed and have arrived, and the connection
      and the client's loop still stand. */
  predicate DownIsIdle(s: State, id: ConnId) {
    && s.down == [] && s.cen.queue == [] && s.cen.routed == s.agt.pod.out
    && id in s.cli.reg.conns && !s.cli.reg.done
  }

  lemma IdleDownIsComplete(s: State, id: ConnId)
    requires Inv(s) && DownIsIdle(s, id)
    ensures At(s.cli.reg.delivered, id) == At(s.agt.read, id)
  {
    NothingOnWire(s.cen.out, s.cli.received);
    assert DeliveredFor(s.cli.reg, s.cli.received, id);
    RelayedData(s, id);
    assert s.cen.taken == s.agt.pod.out;
    assert AnsweredFor(s.agt.pod.out, s.agt.read, id);
  }

  // ----- the handshake ----------------------------------------------------------

  /** Whenever the CLI has written anything, so in particular while an OPEN is
      under way to the agent, the agent had already sent READY and its session is
      set, unless it was cancelled. */
  lemma ReadyBeforeOpen(actions: seq<Action>)
    requires Run(START, actions).cli.accepted < IDS
    requires Run(START, actions).cli.out != []
    ensures var a := Run(START, actions).agt;
            a.pod.out != [] && a.pod.out[0] == Ready && (a.entry.HasPf? || a.entry.Gone?)
  {
    var s := Reachable(actions);
    WritingNeedsReady(s);
    ReadyCameThrough(s);
  }

  predicate AboutConnection(m: Msg) {
    m.Data? || m.Close? || m.ConnError?
  }

  /** All an agent says about a session: nothing, or one SESSION_ERROR, or READY
      followed only by messages about connections. */
  lemma AgentSpeaksInOrder(actions: seq<Action>)
    requires Run(START, actions).cli.accepted < IDS
    ensures var out := Run(START, actions).agt.pod.out;
            || out == []
            || (|out| == 1 && out[0].SessionError?)
            || (out[0] == Ready && forall k | 1 <= k < |out| :: AboutConnection(out[k]))
  {
    var s := Reachable(actions);
    var out := s.agt.pod.out;
    if ReadySent(s.agt.worker) {
      forall k | 1 <= k < |out|
        ensures AboutConnection(out[k])
      {
        assert out[1..][k - 1] in out[1..];
        assert Downward(out[k], s.cli.accepted);
      }
    }
  }

  /** What the client is told is, in order, what the agent said, but for a final
      error added by central. */
  lemma ClientHearsPrefix(actions: seq<Action>)
    requires Run(START, actions).cli.accepted < IDS
    ensures var s := Run(START, actions);
            && s.cen.routed <= s.agt.pod.out
            && s.cli.received <= s.cen.out
            && Sendable(s.cen.taken) <= s.cen.out && s.cen.taken <= s.cen.routed
            && (s.cen.out != Sendable(s.cen.taken) ==> |s.cen.out| == |Sendable(s.cen.taken)| + 1)
  {
    var s := Reachable(actions);
    assert s.cen.routed == s.cen.taken + s.cen.queue;
  }

  // ----- a lost READY --------------------------------------------------------------

  lemma {:induction false} MissedRun(s: State, actions: seq<Action>)
    requires Inv(s) && s.cen.missed
    ensures Inv(Run(s, actions)) && Run(s, actions).cen.missed
    decreases |actions|
  {
    if actions != [] {
      var a := actions[0];
      QuietBeforeRouting(s);
      StepCounts(s, a);
      StepKeeps(s, a);
      MissedRun(Step(s, a), actions[1..]);
    }
  }

  const EARLY_READY := [DoBegin, DoAttach, DoSendReady, DoRoute]

  /** Central enters the session in its map only after PortForwardStart was sent,
      so a READY can be routed before that, and is then dropped although the agent
      has its session set up. */
  lemma ReadyCanBeLost()
    ensures var s := Run(START, EARLY_READY);
            s.cen.missed && s.agt.pod.out == [Ready] && s.agt.entry == HasPf && s.cli.accepted == 0
  {
    EarlyReady();
  }

  lemma EarlyReady()
    ensures Run(START, EARLY_READY) == START.(
      agt := SendReady(Attach(Begin(START.agt))), cen := START.cen.(seen := [Ready], missed := true))
  {
    var a := START.(agt := Begin(START.agt));
    var b := a.(agt := Attach(a.agt));
    var c := b.(agt := SendReady(b.agt));
    var d := Route(c);
    assert EARLY_READY[1..] == [DoAttach, DoSendReady, DoRoute];
    assert EARLY_READY[1..][1..] == [DoSendReady, DoRoute];
    assert EARLY_READY[1..][1..][1..] == [DoRoute];
    assert Run(c, [DoRoute]) == d;
    assert Run(b, [DoSendReady, DoRoute]) == d;
    assert Run(a, [DoAttach, DoSendReady, DoRoute]) == d;
  }
}
