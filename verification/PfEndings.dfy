/** How connections of a port-forward session come to their end, in every state of
    every run with fewer than 2^32 accepted connections: what ends them at one
    party reaches the other, and none ends without a reason. */
module PfEndings {
  import opened Wire
  import opened ExecFrame
  import opened PfFrame
  import opened AgentPortForward
  import opened CliPortForward
  import opened PfRelay
  import opened PfRelaySafety
  import opened PfRelayRuns

  // ----- the CLI's side ------------------------------------------------------

  predicate Opened(ms: seq<Msg>, id: ConnId) {
    exists m | m in ms :: m.Open? && m.id == id
  }

  /** A listed connection was never told to be over. */
  ghost predicate ListedIsOpen(c: Cli) {
    forall id: ConnId | id in c.reg.conns :: id <= c.accepted && !SaysEnded(c.received, id)
  }

  /** While the pipe is open, an accepted connection still owes its OPEN, or it is
      being read, or its CLOSE has been written. */
  ghost predicate EofIsTold(c: Cli) {
    c.writing ==>
      forall id: ConnId | 1 <= id <= c.accepted :: id in c.pending || id in c.readers || Close(id) in c.out
  }

  ghost predicate CliEnds(c: Cli) {
    ListedIsOpen(c) && EofIsTold(c)
  }

  // ----- the agent's side ----------------------------------------------------

  /** Whoever is tracked or read was opened, and so was whatever the agent speaks of. */
  ghost predicate OpenedFirst(a: Agent) {
    && (forall id: ConnId | id in a.pod.conns || id in a.readers :: Opened(a.handled, id))
    && (forall m, id: ConnId | m in a.pod.out && IsFor(m, id) :: Opened(a.handled, id))
  }

  /** A tracked connection was neither closed by the CLI nor reported to be over. */
  ghost predicate TrackedIsOpen(a: Agent) {
    forall id: ConnId | id in a.pod.conns :: Close(id) !in a.handled && !SaysEnded(a.pod.out, id)
  }

  /** An opened connection is read until the agent has told its end, and tracked
      until it was told, or was closed by the CLI, or the session shut down. */
  ghost predicate EndHasReason(a: Agent) {
    forall id: ConnId | Opened(a.handled, id) ::
      && (id in a.readers || SaysEnded(a.pod.out, id))
      && (id in a.pod.conns || SaysEnded(a.pod.out, id) || Close(id) in a.handled || a.worker.Finished?)
  }

  ghost predicate PodEnds(a: Agent) {
    OpenedFirst(a) && TrackedIsOpen(a) && EndHasReason(a)
  }

  ghost predicate EndsOk(s: State) {
    CliEnds(s.cli) && PodEnds(s.agt)
  }

  // ----- the CLI's actions ---------------------------------------------------

  lemma EndedMonotone(ms: seq<Msg>, m: Msg, id: ConnId)
    ensures SaysEnded(ms + [m], id) <==> SaysEnded(ms, id) || m == Close(id) || (m.ConnError? && m.id == id)
    ensures Opened(ms + [m], id) <==> Opened(ms, id) || (m.Open? && m.id == id)
  {
    assert m in ms + [m] && forall x | x in ms :: x in ms + [m];
    assert forall x | x in ms + [m] :: x == m || x in ms;
  }

  lemma NotHeardOf(ms: seq<Msg>, id: ConnId)
    requires forall m | m in ms :: !IsFor(m, id)
    ensures !SaysEnded(ms, id) && !Opened(ms, id)
  {
  }

  lemma AcceptEnds(s: State, port: U16)
    requires Inv(s) && CliEnds(s.cli) && Accept(s, port).cli.accepted < IDS
    ensures CliEnds(Accept(s, port).cli)
  {
    if s.cli.reg.ready {
      NothingHeardOfNext(s);
      NotHeardOf(s.cli.received, s.cli.accepted + 1);
      AcceptedEnds(s.cli, port);
    }
  }

  lemma AcceptedEnds(c: Cli, port: U16)
    requires CliEnds(c) && c.reg.nextId == c.accepted && c.accepted + 1 < IDS
    requires !SaysEnded(c.received, c.accepted + 1)
    ensures CliEnds(c.(reg := Accepted(c.reg), accepted := c.accepted + 1,
                       pending := c.pending[Successor(c.reg.nextId) := port]))
  {
  }

  lemma CliReadEnds(s: State)
    requires Inv(s) && CliEnds(s.cli)
    ensures CliEnds(CliRead(s).cli)
  {
    if Decode(s.down).Got? && !s.cli.reg.done {
      Take(s.cen.out, s.cli.received, s.down);
      var m := s.cen.out[|s.cli.received|];
      WrittenBackWasSent(s, m);
      ParseInvertsFrameOf(m);
      ReceivedEnds(s.cli, m);
    }
  }

  lemma ReceivedEnds(c: Cli, m: Msg)
    requires ListedIsOpen(c)
    requires !c.reg.done
    ensures ListedIsOpen(c.(reg := Received(c.reg, m), received := c.received + [m]))
  {
    var d := c.(reg := Received(c.reg, m), received := c.received + [m]);
    forall id: ConnId | id in d.reg.conns
      ensures id <= d.accepted && !SaysEnded(d.received, id)
    {
      EndedMonotone(c.received, m, id);
    }
  }

  lemma CliStepEnds(s: State, a: Action)
    requires Inv(s) && CliEnds(s.cli) && Step(s, a).cli.accepted < IDS && OfCli(a)
    ensures CliEnds(Step(s, a).cli)
  {
    match a
    case DoAccept(port) => AcceptEnds(s, port);
    case DoWriteOpen(id) => WriteEnds(s, a);
    case DoLocalData(id, chunk) => WriteEnds(s, a);
    case DoLocalEof(id) => WriteEnds(s, a);
    case DoLocalClose(id) => LocalCloseEnds(s.cli, id);
    case DoCliShutdown =>
    case DoCliRead => CliReadEnds(s);
  }

  lemma LocalCloseEnds(c: Cli, id: ConnId)
    requires CliEnds(c)
    ensures CliEnds(c.(reg := ConnClosed(c.reg, id)))
  {
  }

  lemma WriteEnds(s: State, a: Action)
    requires CliEnds(s.cli) && (a.DoWriteOpen? || a.DoLocalData? || a.DoLocalEof?)
    ensures CliEnds(Step(s, a).cli)
  {
    assert Fits(FrameOf(Close(a.id)));
  }

  // ----- the agent's actions -------------------------------------------------

  /** The agent's log grows by a message about an opened connection, or none. */
  lemma SaysEnds(a: Agent, m: Msg)
    requires PodEnds(a) && forall id: ConnId | IsFor(m, id) :: Opened(a.handled, id)
    requires forall id: ConnId | m == Close(id) || (m.ConnError? && m.id == id) :: id !in a.pod.conns
    ensures PodEnds(AgentSend(a, m))
  {
    forall id: ConnId
      ensures SaysEnded(a.pod.out, id) ==> SaysEnded(a.pod.out + [m], id)
      ensures SaysEnded(a.pod.out + [m], id) && id in a.pod.conns ==> SaysEnded(a.pod.out, id)
    {
      EndedMonotone(a.pod.out, m, id);
    }
  }

  lemma OwnStepEnds(a: Agent, action: Action, n: nat)
    requires AgentOk(a, n) && PodEnds(a)
    ensures PodEnds(AgentStep(a, action))
  {
    match action
    case DoFail(text) => if a.worker.Establishing? { SaysEnds(a, SessionError(text)); }
    case DoSendReady => if a.worker.Attached? { SaysEnds(a, Ready); }
    case DoPodRead(id, chunk) => if id in a.readers && |chunk| <= CHUNK { SaysEnds(a, Data(id, chunk)); }
    case DoPodEof(id) => PodEofEnds(a, id);
    case _ =>
  }

  lemma PodEofEnds(a: Agent, id: ConnId)
    requires PodEnds(a)
    ensures PodEnds(PodEof(a, id))
  {
    if id in a.readers {
      var b := PodEof(a, id);
      forall i: ConnId
        ensures SaysEnded(b.pod.out, i) <==> SaysEnded(a.pod.out, i) || i == id
      {
        EndedMonotone(a.pod.out, Close(id), i);
      }
    }
  }

  lemma TakesEnds(a: Agent, m: Msg, dial: Dial)
    requires PodEnds(a) && IsUp(m) && (m.Open? ==> Unannounced(a.handled, m.id))
    ensures PodEnds(Takes(a, m, dial))
  {
    if a.entry.HasPf? {
      forall id: ConnId
        ensures Opened(a.handled + [m], id) <==> Opened(a.handled, id) || (m.Open? && m.id == id)
        ensures Close(id) in a.handled + [m] <==> Close(id) in a.handled || m == Close(id)
      {
        EndedMonotone(a.handled, m, id);
      }
      match m
      case Open(id, _) => TakesOpenEnds(a, m, dial);
      case Data(id, data) => TakesDataEnds(a, m, dial);
      case Close(id) =>
    }
  }

  lemma TakesOpenEnds(a: Agent, m: Msg, dial: Dial)
    requires PodEnds(a) && m.Open? && Unannounced(a.handled, m.id) && a.entry.HasPf?
    ensures PodEnds(Takes(a, m, dial))
  {
    NotHeardOf(a.handled, m.id);
  }

  lemma TakesDataEnds(a: Agent, m: Msg, dial: Dial)
    requires PodEnds(a) && m.Data? && a.entry.HasPf?
    ensures PodEnds(Takes(a, m, dial))
  {
  }

  // ----- runs ------------------------------------------------------------------

  lemma AgentReceiveEnds(s: State, dial: Dial)
    requires Inv(s) && PodEnds(s.agt)
    ensures PodEnds(Step(s, DoAgentReceive(dial)).agt)
  {
    if s.streamUp && |s.agt.received| < |s.cen.sent| {
      NextForAgent(s);
      var m := s.cen.sent[|s.agt.received|];
      if m.Open? {
        UnannouncedBefore(s.agt.handled, s.agt.received, m.id);
      }
      TakesEnds(s.agt, m, dial);
    }
  }

  lemma OthersKeepCli(s: State, a: Action)
    requires !OfCli(a)
    ensures Step(s, a).cli == s.cli
  {
  }

  lemma OthersKeepAgent(s: State, a: Action)
    requires OfCli(a) || (OfRelay(a) && !a.DoAgentReceive?)
    ensures Step(s, a).agt == s.agt
  {
  }

  lemma StepEnds(s: State, a: Action)
    requires Inv(s) && EndsOk(s) && Step(s, a).cli.accepted < IDS
    ensures EndsOk(Step(s, a))
  {
    if OfCli(a) {
      CliStepEnds(s, a);
      OthersKeepAgent(s, a);
    } else {
      OthersKeepCli(s, a);
      AgentSideEnds(s, a);
    }
  }

  lemma AgentSideEnds(s: State, a: Action)
    requires Inv(s) && PodEnds(s.agt) && !OfCli(a)
    ensures PodEnds(Step(s, a).agt)
  {
    if a.DoAgentReceive? {
      AgentReceiveEnds(s, a.dial);
    } else if OfRelay(a) {
      OthersKeepAgent(s, a);
    } else {
      OwnStepEnds(s.agt, a, s.cli.accepted);
    }
  }

  lemma {:induction false} RunEnds(s: State, actions: seq<Action>)
    requires Inv(s) && EndsOk(s) && Run(s, actions).cli.accepted < IDS
    ensures Inv(Run(s, actions)) && EndsOk(Run(s, actions))
    decreases |actions|
  {
    if actions != [] {
      RunCounts(Step(s, actions[0]), actions[1..]);
      StepKeeps(s, actions[0]);
      StepEnds(s, actions[0]);
      RunEnds(Step(s, actions[0]), actions[1..]);
    }
  }

  lemma ReachableEnds(actions: seq<Action>) returns (s: State)
    requires Run(START, actions).cli.accepted < IDS
    ensures s == Run(START, actions) && Inv(s) && EndsOk(s)
  {
    s := Run(START, actions);
    StartsWell();
    RunEnds(START, actions);
  }

  // ----- main results ------------------------------------------------------------

  /** Once the CLI was told that a connection is over, it no longer lists it; and
      once the CLI's CLOSE reached the pod's side, or that has told an end itself,
      the pod's side no longer tracks it. */
  lemma EndedIsUnlisted(actions: seq<Action>, id: ConnId)
    requires Run(START, actions).cli.accepted < IDS
    ensures var s := Run(START, actions);
            && ((exists m :: m in s.cli.received && (m == Close(id) || (m.ConnError? && m.id == id)))
                ==> id !in s.cli.reg.conns)
            && (Close(id) in s.agt.handled ==> id !in s.agt.pod.conns)
            && ((exists m :: m in s.agt.pod.out && (m == Close(id) || (m.ConnError? && m.id == id)))
                ==> id !in s.agt.pod.conns)
  {
    var s := ReachableEnds(actions);
  }

  /** Upwards nothing is under way. */
  predicate UpArrived(s: State) {
    && s.cli.writing && s.up == [] && s.cen.phase.Tracked? && s.cen.linked
    && s.agt.received == s.cen.sent && s.agt.entry.HasPf?
  }

  /** When a local program has stopped sending and all has arrived, the pod's side
      no longer tracks the connection. */
  lemma LocalEofReachesPod(actions: seq<Action>, id: ConnId)
    requires Run(START, actions).cli.accepted < IDS && UpArrived(Run(START, actions))
    requires 1 <= id <= Run(START, actions).cli.accepted
    requires id !in Run(START, actions).cli.pending && id !in Run(START, actions).cli.readers
    ensures id !in Run(START, actions).agt.pod.conns
  {
    var s := ReachableEnds(actions);
    NothingOnWire(s.cli.out, s.cen.heard);
  }

  /** Downwards nothing is under way, and nothing was too large for its frame. */
  predicate DownArrived(s: State) {
    && s.down == [] && s.cen.queue == [] && s.cen.routed == s.agt.pod.out
    && forall m | m in s.agt.pod.out :: Fits(FrameOf(m))
  }

  /** When the pod has stopped sending on a connection, or its dial was refused, and
      all has arrived, the CLI no longer lists the connection. */
  lemma PodEofReachesClient(actions: seq<Action>, id: ConnId)
    requires Run(START, actions).cli.accepted < IDS && DownArrived(Run(START, actions))
    requires exists port :: Open(id, port) in Run(START, actions).agt.handled
    requires id !in Run(START, actions).agt.readers
    ensures id !in Run(START, actions).cli.reg.conns
  {
    var s := ReachableEnds(actions);
    assert Opened(s.agt.handled, id);
    NothingOnWire(s.cen.out, s.cli.received);
    assert s.cen.taken == s.agt.pod.out;
    var m :| m in s.agt.pod.out && (m == Close(id) || (m.ConnError? && m.id == id));
    assert m in Sendable(s.cen.taken);
    assert m in s.cli.received;
  }

  /** No connection is given up without a reason: one that the agent opened is still
      tracked unless its end was reported, the CLI closed it, or the session ended. */
  lemma PodEndsHaveReasons(actions: seq<Action>, id: ConnId)
    requires Run(START, actions).cli.accepted < IDS
    requires exists port :: Open(id, port) in Run(START, actions).agt.handled
    ensures var a := Run(START, actions).agt;
            || id in a.pod.conns || Close(id) in a.handled || a.worker.Finished?
            || exists m :: m in a.pod.out && (m == Close(id) || (m.ConnError? && m.id == id))
  {
    var s := ReachableEnds(actions);
    assert Opened(s.agt.handled, id);
  }

  /** And one that the CLI accepted is listed unless it was told of its end, or
      closed it, or shut down. */
  lemma CliEndsHaveReasons(actions: seq<Action>, id: ConnId)
    requires Run(START, actions).cli.accepted < IDS && 1 <= id <= Run(START, actions).cli.accepted
    ensures var c := Run(START, actions).cli;
            || id in c.reg.conns || DoLocalClose(id) in actions || DoCliShutdown in actions
            || exists m :: m in c.received && (m == Close(id) || (m.ConnError? && m.id == id))
  {
    StartsWell();
    UnlistedForReason(START, actions, id);
  }

  predicate Stands(c: Cli, id: ConnId) {
    id in c.reg.conns || id > c.accepted
  }

  lemma {:induction false} UnlistedForReason(s: State, actions: seq<Action>, id: ConnId)
    requires Inv(s) && Run(s, actions).cli.accepted < IDS && Stands(s.cli, id)
    ensures || Stands(Run(s, actions).cli, id)
            || DoLocalClose(id) in actions || DoCliShutdown in actions
            || SaysEnded(Run(s, actions).cli.received, id)
    decreases |actions|
  {
    if actions != [] {
      var a, t := actions[0], Step(s, actions[0]);
      assert a in actions && forall x | x in actions[1..] :: x in actions;
      RunCounts(t, actions[1..]);
      StepKeeps(s, a);
      if Stands(t.cli, id) {
        UnlistedForReason(t, actions[1..], id);
      } else {
        UnlistedByStep(s, a, id);
        ReceivedStays(t, actions[1..]);
      }
    }
  }

  lemma UnlistedByStep(s: State, a: Action, id: ConnId)
    requires Inv(s) && Step(s, a).cli.accepted < IDS
    requires Stands(s.cli, id) && !Stands(Step(s, a).cli, id)
    ensures a == DoLocalClose(id) || a == DoCliShutdown || SaysEnded(Step(s, a).cli.received, id)
  {
    if a.DoCliRead? {
      UnlistedByRead(s, id);
    } else if !OfCli(a) {
      OthersKeepCli(s, a);
    } else {
      OthersStand(s, a, id);
    }
  }

  lemma OthersStand(s: State, a: Action, id: ConnId)
    requires s.cli.reg.nextId == s.cli.accepted && Step(s, a).cli.accepted < IDS
    requires Stands(s.cli, id) && OfCli(a) && !a.DoCliRead?
    ensures Stands(Step(s, a).cli, id) || a == DoLocalClose(id) || a == DoCliShutdown
  {
    match a
    case DoAccept(port) => AcceptStands(s, port, id);
    case DoLocalClose(i) =>
    case DoCliShutdown =>
    case _ => OthersKeepRegistry(s, a);
  }

  lemma AcceptStands(s: State, port: U16, id: ConnId)
    requires s.cli.reg.nextId == s.cli.accepted && Accept(s, port).cli.accepted < IDS && Stands(s.cli, id)
    ensures Stands(Accept(s, port).cli, id)
  {
  }

  lemma OthersKeepRegistry(s: State, a: Action)
    requires a.DoWriteOpen? || a.DoLocalData? || a.DoLocalEof?
    ensures Step(s, a).cli.reg == s.cli.reg && Step(s, a).cli.accepted == s.cli.accepted
  {
  }

  lemma UnlistedByRead(s: State, id: ConnId)
    requires Stands(s.cli, id) && !Stands(CliRead(s).cli, id)
    ensures SaysEnded(CliRead(s).cli.received, id)
  {
    var m := ParseDown(Decode(s.down).frame).value;
    assert CliRead(s).cli.received == s.cli.received + [m];
    EndedMonotone(s.cli.received, m, id);
  }

  lemma StepHears(s: State, a: Action)
    ensures s.cli.received <= Step(s, a).cli.received
  {
  }

  lemma {:induction false} ReceivedStays(s: State, actions: seq<Action>)
    ensures s.cli.received <= Run(s, actions).cli.received
    decreases |actions|
  {
    if actions != [] {
      StepHears(s, actions[0]);
      ReceivedStays(Step(s, actions[0]), actions[1..]);
    }
  }

  /** When the session's goroutine ends, every connection is given up; a later one
      can only come from an OPEN that the agent still receives. */
  lemma ShutdownLeavesNothing(s: State, actions: seq<Action>)
    requires s.agt.worker.Running? && forall a | a in actions :: !a.DoAgentReceive?
    ensures Run(Step(s, DoEndWorker), actions).agt.pod.conns == map[]
  {
    NothingComesBack(Step(s, DoEndWorker), actions);
  }

  lemma {:induction false} NothingComesBack(s: State, actions: seq<Action>)
    requires s.agt.pod.conns == map[] && forall a | a in actions :: !a.DoAgentReceive?
    ensures Run(s, actions).agt.pod.conns == map[]
    decreases |actions|
  {
    if actions != [] {
      assert actions[0] in actions && forall a | a in actions[1..] :: a in actions;
      if OfCli(actions[0]) || OfRelay(actions[0]) {
        OthersKeepAgent(s, actions[0]);
      }
      StaysEmpty(s.agt, actions[0]);
      NothingComesBack(Step(s, actions[0]), actions[1..]);
    }
  }

  lemma StaysEmpty(a: Agent, action: Action)
    requires a.pod.conns == map[]
    ensures AgentStep(a, action).pod.conns == map[]
  {
  }

  /** Once a session's entry has left the agent's table, the agent handles no further
      message for it and writes nothing new to a connection's queue. */
  lemma CancelledHandlesNothing(s: State, actions: seq<Action>, id: ConnId)
    requires !s.agt.entry.Missing?
    ensures var t := Run(Step(s, DoCancelEntry), actions);
            t.agt.handled == s.agt.handled && At(t.agt.pod.queued, id) == At(s.agt.pod.queued, id)
  {
    GoneHandlesNothing(Step(s, DoCancelEntry), actions);
  }

  lemma {:induction false} GoneHandlesNothing(s: State, actions: seq<Action>)
    requires s.agt.entry.Gone?
    ensures var t := Run(s, actions);
            t.agt.handled == s.agt.handled && t.agt.pod.queued == s.agt.pod.queued
    decreases |actions|
  {
    if actions != [] {
      var a := actions[0];
      if OfCli(a) || (OfRelay(a) && !a.DoAgentReceive?) {
        OthersKeepAgent(s, a);
      } else if !a.DoAgentReceive? {
        GoneStaysGone(s.agt, a);
      }
      GoneHandlesNothing(Step(s, a), actions[1..]);
    }
  }

  lemma GoneStaysGone(a: Agent, action: Action)
    requires a.entry.Gone?
    ensures var b := AgentStep(a, action); b.entry.Gone? && b.handled == a.handled && b.pod.queued == a.pod.queued
  {
  }

  // ----- the port of a connection ----------------------------------------------

  predicate HasPort(c: Cli, id: ConnId, port: U16) {
    && id <= c.accepted && (id in c.pending ==> c.pending[id] == port)
    && forall m | m in c.out && m.Open? && m.id == id :: m.port == port
  }

  /** Whatever else goes on, the agent dials for a connection the port on which the
      CLI accepted it. */
  lemma PortIsKept(before: seq<Action>, port: U16, after: seq<Action>, id: ConnId, q: U16)
    requires Run(START, before).cli.reg.ready && id == Run(START, before).cli.accepted + 1
    requires Run(Step(Run(START, before), DoAccept(port)), after).cli.accepted < IDS
    requires Open(id, q) in Run(Step(Run(START, before), DoAccept(port)), after).agt.handled
    ensures q == port
  {
    var t := Accepting(before, port, id, after);
    RunHasPort(t, after, id, port);
    RunKeeps(t, after);
    HandledWasWritten(Run(t, after), Open(id, q));
  }

  lemma Accepting(before: seq<Action>, port: U16, id: ConnId, after: seq<Action>) returns (t: State)
    requires Run(START, before).cli.reg.ready && id == Run(START, before).cli.accepted + 1
    requires Run(Step(Run(START, before), DoAccept(port)), after).cli.accepted < IDS
    ensures t == Step(Run(START, before), DoAccept(port)) && Inv(t) && HasPort(t.cli, id, port)
  {
    t := Step(Run(START, before), DoAccept(port));
    RunCounts(t, after);
    var s := Reachable(before);
    AcceptHasPort(s, port);
    StepKeeps(s, DoAccept(port));
  }

  lemma HandledWasWritten(s: State, m: Msg)
    requires Inv(s) && m in s.agt.handled
    ensures m in s.cli.out
  {
    var k :| 0 <= k < |s.agt.handled| && s.agt.handled[k] == m;
    assert s.cli.out[k] == m;
  }

  lemma AcceptHasPort(s: State, port: U16)
    requires Inv(s) && s.cli.reg.ready && s.cli.accepted + 1 < IDS
    ensures HasPort(Accept(s, port).cli, s.cli.accepted + 1, port)
  {
    forall m | m in s.cli.out
      ensures !IsFor(m, s.cli.accepted + 1)
    {
      assert Upward(m, s.cli.accepted);
    }
  }

  lemma {:induction false} RunHasPort(s: State, actions: seq<Action>, id: ConnId, port: U16)
    requires Inv(s) && HasPort(s.cli, id, port) && Run(s, actions).cli.accepted < IDS
    ensures HasPort(Run(s, actions).cli, id, port)
    decreases |actions|
  {
    if actions != [] {
      RunCounts(Step(s, actions[0]), actions[1..]);
      StepKeeps(s, actions[0]);
      StepHasPort(s, actions[0], id, port);
      RunHasPort(Step(s, actions[0]), actions[1..], id, port);
    }
  }

  lemma StepHasPort(s: State, a: Action, id: ConnId, port: U16)
    requires Inv(s) && HasPort(s.cli, id, port) && Step(s, a).cli.accepted < IDS
    ensures HasPort(Step(s, a).cli, id, port)
  {
    if !OfCli(a) {
      OthersKeepCli(s, a);
    } else if a.DoWriteOpen? || a.DoLocalData? || a.DoLocalEof? {
      WriteHasPort(s, a, id, port);
    } else {
      ListingHasPort(s, a, id, port);
    }
  }

  lemma ListingHasPort(s: State, a: Action, id: ConnId, port: U16)
    requires HasPort(s.cli, id, port) && s.cli.reg.nextId == s.cli.accepted && Step(s, a).cli.accepted < IDS
    requires a.DoAccept? || a.DoLocalClose? || a.DoCliShutdown? || a.DoCliRead?
    ensures HasPort(Step(s, a).cli, id, port)
  {
  }

  lemma WriteHasPort(s: State, a: Action, id: ConnId, port: U16)
    requires HasPort(s.cli, id, port) && (a.DoWriteOpen? || a.DoLocalData? || a.DoLocalEof?)
    ensures HasPort(Step(s, a).cli, id, port)
  {
  }

  // ----- the end of the session ------------------------------------------------

  /** A bridge whose client has not left returns after it passed on a SESSION_ERROR,
      or when the session was dropped and all that was routed to it is passed on;
      then it adds the reason as a last SESSION_ERROR. */
  predicate EndIsTold(c: Central) {
    !c.serving ==>
      || (c.taken != [] && c.taken[|c.taken| - 1].SessionError?)
      || (c.phase.Dropped? && c.queue == []
          && (c.reason != [] && |c.reason| <= 0x10_0000 ==> c.out == Sendable(c.taken) + [SessionError(c.reason)]))
  }

  /** And the reason is that of a cancel or of the call that ended the session. */
  lemma SessionEndIsTold(actions: seq<Action>)
    requires Run(START, actions).cli.accepted < IDS && DoAbandon !in actions
    ensures EndIsTold(Run(START, actions).cen)
    ensures var c := Run(START, actions).cen;
            c.phase.Dropped? ==> c.reason == Text("canceled") || DoEndSession(c.reason) in actions
  {
    StartsWell();
    RunTellsEnd(START, actions);
  }

  lemma {:induction false} RunTellsEnd(s: State, actions: seq<Action>)
    requires Inv(s) && Run(s, actions).cli.accepted < IDS && DoAbandon !in actions
    requires EndIsTold(s.cen)
    ensures EndIsTold(Run(s, actions).cen)
    ensures var c := Run(s, actions).cen;
            c.phase.Dropped? ==>
              || c.reason == Text("canceled") || DoEndSession(c.reason) in actions
              || (s.cen.phase.Dropped? && c.reason == s.cen.reason)
    decreases |actions|
  {
    if actions != [] {
      var a := actions[0];
      assert a in actions && forall x | x in actions[1..] :: x in actions;
      RunCounts(Step(s, a), actions[1..]);
      StepKeeps(s, a);
      StepTellsEnd(s, a);
      StepHasReason(s, a);
      RunTellsEnd(Step(s, a), actions[1..]);
    }
  }

  lemma StepHasReason(s: State, a: Action)
    ensures var c := Step(s, a).cen;
            c.phase.Dropped? ==>
              || c.reason == Text("canceled") || a == DoEndSession(c.reason)
              || (s.cen.phase.Dropped? && c.reason == s.cen.reason)
  {
    if OfCli(a) || OfRelay(a) {
      RelayHasReason(s, a);
    } else {
      CentralIsOwn(s, a);
    }
  }

  lemma RelayHasReason(s: State, a: Action)
    requires OfCli(a) || OfRelay(a)
    ensures var c := Step(s, a).cen;
            c.phase.Dropped? ==> c.reason == Text("canceled") || (s.cen.phase.Dropped? && c.reason == s.cen.reason)
  {
    if !(a.DoForward? || a.DoRoute? || a.DoSelect?) {
      OthersKeepCentral(s, a);
    }
  }

  lemma OthersKeepCentral(s: State, a: Action)
    requires OfCli(a) || a.DoStreamLost? || a.DoAgentReceive?
    ensures Step(s, a).cen == s.cen
  {
  }

  lemma CentralIsOwn(s: State, a: Action)
    requires !OfCli(a) && !OfRelay(a)
    ensures Step(s, a).cen == CentralStep(s.cen, a)
  {
  }

  lemma StepTellsEnd(s: State, a: Action)
    requires Inv(s) && EndIsTold(s.cen) && a != DoAbandon
    ensures EndIsTold(Step(s, a).cen)
  {
    if OfCli(a) || a.DoStreamLost? || a.DoAgentReceive? {
      OthersKeepCentral(s, a);
    } else if a.DoSelect? {
      SelectTellsEnd(s);
    } else if a.DoRoute? {
      RouteTellsEnd(s);
    } else if a.DoForward? {
      ForwardTellsEnd(s);
    } else {
      CentralIsOwn(s, a);
      OwnTellsEnd(s.cen, a);
    }
  }

  lemma OwnTellsEnd(c: Central, a: Action)
    requires EndIsTold(c) && a != DoAbandon
    ensures EndIsTold(CentralStep(c, a))
  {
  }

  lemma RouteTellsEnd(s: State)
    requires EndIsTold(s.cen)
    ensures EndIsTold(Route(s).cen)
  {
  }

  lemma ForwardTellsEnd(s: State)
    requires EndIsTold(s.cen)
    ensures EndIsTold(Forward(s).cen)
  {
  }

  lemma SelectTellsEnd(s: State)
    requires Inv(s) && EndIsTold(s.cen)
    ensures EndIsTold(Select(s).cen)
  {
    if s.cen.phase.Starting? || !s.cen.serving || (s.cen.queue == [] && !s.cen.phase.Dropped?) {
      SelectWaits(s);
    } else if s.cen.queue != [] {
      SelectIsRelayed(s);
    } else {
      ReturnTellsEnd(s);
    }
  }

  lemma ReturnTellsEnd(s: State)
    requires Inv(s) && s.cen.serving && s.cen.phase.Dropped? && s.cen.queue == []
    ensures EndIsTold(Select(s).cen)
  {
    ReturnIs(s);
    NothingAddedYet(s.cen);
  }

  lemma NothingAddedYet(c: Central)
    requires BridgeOk(c.taken, true, c.out)
    ensures c.out == Sendable(c.taken)
  {
  }

  lemma ReturnIs(s: State)
    requires s.cen.serving && s.cen.phase.Dropped? && s.cen.queue == []
    ensures Select(s).cen == s.cen.(
      serving := false,
      out := if s.cen.reason != [] && |s.cen.reason| <= 0x10_0000 then s.cen.out + [SessionError(s.cen.reason)]
             else s.cen.out)
  {
  }
}
