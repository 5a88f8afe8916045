/** When a port-forward client can still become ready. */
module PfHandshake {
  import opened Wire
  import opened ExecFrame
  import opened PfFrame
  import opened AgentPortForward
  import opened CliPortForward
  import opened PfRelay
  import opened PfRelaySafety
  import opened PfRelayRuns
  import opened PfRelayService

  /** READY can still reach PfOutput: the agent has sent it or may yet do so, and
      Route has seen nothing of the agent. */
  predicate ReadyToCome(s: State) {
    && s.streamUp && !s.cen.phase.Dropped? && !s.cen.missed && s.cen.seen == []
    && !s.agt.worker.Failed?
  }

  /** The client is ready, or READY is on its wire, or in its session's queue, or
      still to come, and whoever has to pass it on is still there. */
  predicate MayGetReady(s: State) {
    || s.cli.reg.ready
    || (!s.cli.reg.done
        && (Ready in s.cen.out || (s.cen.serving && (Ready in s.cen.queue || ReadyToCome(s)))))
  }

  // ----- nothing brings the chance back ---------------------------------------

  lemma CliActsLocally(s: State, a: Action)
    requires OfCli(a) && !a.DoCliRead?
    ensures var t := Step(s, a);
            && t.cen == s.cen && t.agt == s.agt && t.streamUp == s.streamUp
            && t.cli.reg.ready == s.cli.reg.ready && t.cli.reg.done == s.cli.reg.done
  {
  }

  lemma CliReadGainsNothing(s: State)
    requires Inv(s)
    ensures MayGetReady(Step(s, DoCliRead)) ==> MayGetReady(s)
  {
    if Decode(s.down).Got? && !s.cli.reg.done {
      Take(s.cen.out, s.cli.received, s.down);
      var m := s.cen.out[|s.cli.received|];
      WrittenBackWasSent(s, m);
      CliReadIsReceived(s, m);
    } else {
      assert Step(s, DoCliRead) == s;
    }
  }

  lemma CliReadIsReceived(s: State, m: Msg)
    requires Decode(s.down) == Got(FrameOf(m)) && IsDown(m) && !s.cli.reg.done
    ensures Step(s, DoCliRead) == s.(
              down := Remaining(s.down),
              cli := s.cli.(reg := Received(s.cli.reg, m), received := s.cli.received + [m]))
  {
    ParseInvertsFrameOf(m);
  }

  lemma RouteGainsNothing(s: State)
    requires Inv(s)
    ensures MayGetReady(Step(s, DoRoute)) ==> MayGetReady(s)
  {
    if s.streamUp && |s.cen.seen| < |s.agt.pod.out| {
      var m := s.agt.pod.out[|s.cen.seen|];
      RouteIsRouted(s, m);
      RoutedHas(s.cen, m);
      if m == Ready {
        ReadyComesFirst(s.agt.worker, s.agt.pod.out, s.cli.accepted, |s.cen.seen|);
        ReadyUnseen(s);
      }
    } else {
      assert Step(s, DoRoute) == s;
    }
  }

  lemma RoutedHas(c: Central, m: Msg)
    ensures var d := Routed(c, m);
            && d.seen != [] && d.out == c.out && d.serving == c.serving
            && (Ready in d.queue ==> Ready in c.queue || (m == Ready && c.phase.Tracked?))
  {
  }

  lemma ReadyUnseen(s: State)
    requires Inv(s) && s.streamUp && s.cen.seen == [] && ReadySent(s.agt.worker)
    ensures s.cen.phase.Tracked? ==> ReadyToCome(s)
  {
  }

  lemma ReadyComesFirst(w: Worker, out: seq<Msg>, n: nat, k: nat)
    requires Trace(w, out, n) && k < |out| && out[k] == Ready
    ensures k == 0 && ReadySent(w)
  {
    if ReadySent(w) {
      forall i | 1 <= i < |out|
        ensures out[i] != Ready
      {
        assert out[1..][i - 1] in out[1..];
      }
    }
  }

  lemma SelectGainsNothing(s: State)
    ensures MayGetReady(Step(s, DoSelect)) ==> MayGetReady(s)
  {
    if !s.cen.phase.Starting? && s.cen.serving && s.cen.queue != [] {
      SelectIsRelayed(s);
      RelayedHas(s.cen);
    } else {
      EndGainsNothing(s);
    }
  }

  lemma RelayedHas(c: Central)
    requires c.queue != []
    ensures Ready in Relayed(c).out ==> Ready in c.out || Ready in c.queue
    ensures Ready in Relayed(c).queue ==> Ready in c.queue
  {
  }

  lemma EndGainsNothing(s: State)
    requires s.cen.phase.Starting? || !s.cen.serving || s.cen.queue == []
    ensures MayGetReady(Step(s, DoSelect)) ==> MayGetReady(s)
  {
    var t := Step(s, DoSelect);
    assert t.cli == s.cli && t.agt == s.agt && (Ready in t.cen.out ==> Ready in s.cen.out);
  }

  lemma OwnGainsNothing(s: State, a: Action)
    requires EntryOk(s.agt.entry, s.agt.worker) && !OfCli(a) && !OfRelay(a)
    ensures MayGetReady(Step(s, a)) ==> MayGetReady(s)
  {
    AgentStaysFailed(s.agt, a);
    CentralStaysLost(s.cen, a);
    OwnStep(s, a);
  }

  lemma OwnStep(s: State, a: Action)
    requires !OfCli(a) && !OfRelay(a)
    ensures Step(s, a) == s.(cen := CentralStep(s.cen, a), agt := AgentStep(s.agt, a))
  {
  }

  lemma CentralStaysLost(c: Central, action: Action)
    ensures var d := CentralStep(c, action);
            && d.out == c.out && d.queue == c.queue && d.seen == c.seen && d.missed == c.missed
            && (d.serving ==> c.serving) && (c.phase.Dropped? ==> d.phase.Dropped?)
  {
  }

  lemma AgentStaysFailed(a: Agent, action: Action)
    requires EntryOk(a.entry, a.worker)
    ensures a.worker.Failed? ==> AgentStep(a, action).worker.Failed?
  {
  }

  lemma ForwardingGainsNothing(s: State, a: Action)
    requires (a.DoForward? || a.DoStreamLost? || a.DoAgentReceive?)
    ensures MayGetReady(Step(s, a)) ==> MayGetReady(s)
  {
  }

  lemma StepGainsNothing(s: State, a: Action)
    requires Inv(s)
    ensures MayGetReady(Step(s, a)) ==> MayGetReady(s)
  {
    if a.DoCliRead? {
      CliReadGainsNothing(s);
    } else if OfCli(a) {
      CliActsLocally(s, a);
    } else if a.DoRoute? {
      RouteGainsNothing(s);
    } else if a.DoSelect? {
      SelectGainsNothing(s);
    } else if OfRelay(a) {
      ForwardingGainsNothing(s, a);
    } else {
      OwnGainsNothing(s, a);
    }
  }

  lemma {:induction false} RunGainsNothing(s: State, actions: seq<Action>)
    requires Inv(s) && !MayGetReady(s)
    ensures Inv(Run(s, actions)) && !MayGetReady(Run(s, actions))
    decreases |actions|
  {
    if actions != [] {
      var t := Step(s, actions[0]);
      StepCounts(s, actions[0]);
      StepKeeps(s, actions[0]);
      StepGainsNothing(s, actions[0]);
      RunGainsNothing(t, actions[1..]);
    }
  }

  // ----- while there is a chance, READY can be brought through ------------------

  /** READY on the wire is the first message there. */
  lemma ReadyOnWire(s: State)
    requires Inv(s) && !s.cli.reg.ready && !s.cli.reg.done && Ready in s.cen.out
    ensures Step(s, DoCliRead).cli.reg.ready
  {
    OutStartsReady(s);
    NothingRead(s);
    var rest := s.cen.out[1..];
    DecodeEncoded(FrameOf(Ready), Encodings(rest));
    CliReadIsReceived(s, Ready);
  }

  lemma NothingRead(s: State)
    requires Inv(s) && !s.cli.reg.ready && s.cen.out != [] && s.cen.out[0] == Ready
    ensures s.cli.received == [] && s.down == Encode(FrameOf(Ready)) + Encodings(s.cen.out[1..])
  {
    PrefixStarts(s.cli.received, s.cen.out);
  }

  lemma PrefixStarts(ms: seq<Msg>, ns: seq<Msg>)
    requires ms <= ns && ns != []
    ensures ms == [] || ns[0] in ms
  {
  }

  lemma TakenStartsReady(s: State)
    requires Inv(s) && s.cen.taken != [] && ReadySent(s.agt.worker)
    ensures s.cen.taken[0] == Ready
  {
    assert s.cen.taken[0] == s.cen.routed[0] == s.cen.seen[0] == s.agt.pod.out[0];
  }

  lemma {:induction false} SendableStarts(ms: seq<Msg>)
    requires ms != [] && Fits(FrameOf(ms[0]))
    ensures Sendable(ms) != [] && Sendable(ms)[0] == ms[0]
  {
    if |ms| > 1 {
      SendableStarts(ms[..|ms| - 1]);
    } else {
      assert ms == [] + [ms[0]] && ms[..0] == [];
      SendableAppend([], ms[0]);
    }
  }

  lemma OutStartsReady(s: State)
    requires Inv(s) && Ready in s.cen.out
    ensures s.cen.out != [] && s.cen.out[0] == Ready
  {
    BridgeOnlyRelays(s.cen.taken, s.cen.serving, s.cen.out, Ready);
    assert Ready in s.cen.taken + s.cen.queue;
    RoutedWasSent(s, Ready);
    TraceSays(s.agt.worker, s.agt.pod.out, s.cli.accepted, Ready);
    TakenStartsReady(s);
    SendableStarts(s.cen.taken);
  }

  lemma ReadyInQueue(s: State) returns (more: seq<Action>)
    requires Inv(s) && !s.cli.reg.done && s.cen.serving && Ready in s.cen.queue
    ensures Run(s, more).cli.reg.ready
  {
    if s.cli.reg.ready {
      more := [];
    } else if Ready in s.cen.out {
      ReadyOnWire(s);
      more := [DoCliRead];
      RunSingle(s, DoCliRead);
    } else {
      QueueStartsReady(s);
      SelectBringsReady(s);
      ReadyOnWire(Step(s, DoSelect));
      more := [DoSelect, DoCliRead];
      RunTwo(s, DoSelect, DoCliRead);
    }
  }

  lemma RunSingle(s: State, a: Action)
    ensures Run(s, [a]) == Step(s, a)
  {
    assert [a][1..] == [];
  }

  lemma QueueStartsReady(s: State)
    requires Inv(s) && Ready in s.cen.queue && Ready !in s.cen.out
    ensures s.cen.queue[0] == Ready && !s.cen.phase.Starting?
  {
    assert Ready in s.cen.taken + s.cen.queue;
    RoutedWasSent(s, Ready);
    TraceSays(s.agt.worker, s.agt.pod.out, s.cli.accepted, Ready);
    TakenBringsReady(s);
    assert s.cen.routed == s.cen.queue;
    assert s.cen.queue[0] == s.cen.routed[0] == s.cen.seen[0] == s.agt.pod.out[0];
  }

  lemma TakenBringsReady(s: State)
    requires Inv(s) && ReadySent(s.agt.worker)
    ensures s.cen.taken == [] || Ready in s.cen.out
  {
    if s.cen.taken != [] {
      TakenStartsReady(s);
      SendableStarts(s.cen.taken);
      assert s.cen.out[0] == Sendable(s.cen.taken)[0];
    }
  }

  lemma SelectBringsReady(s: State)
    requires Inv(s) && s.cen.serving && s.cen.queue != [] && s.cen.queue[0] == Ready && !s.cen.phase.Starting?
    ensures Inv(Step(s, DoSelect)) && Step(s, DoSelect).cli == s.cli && Ready in Step(s, DoSelect).cen.out
  {
    SelectIsRelayed(s);
    SelectKeeps(s);
    assert Ready in Relayed(s.cen).out;
  }

  /** The agent's part of the handshake; a step already taken changes nothing. */
  function Announces(a: Agent): Agent {
    SendReady(Attach(Begin(a)))
  }

  lemma AgentAnnounces(a: Agent, n: nat)
    requires AgentOk(a, n) && !a.worker.Failed?
    ensures AgentOk(Announces(a), n) && ReadySent(Announces(a).worker)
    ensures a.entry.Gone? <==> Announces(a).entry.Gone?
    ensures a.pod.out <= Announces(a).pod.out && Announces(a).received == a.received
  {
    BeginKeeps(a, n);
    BeginKeeps(Begin(a), n);
    SendReadyKeeps(Attach(Begin(a)), n);
  }

  const SETUP := [DoBegin, DoAttach, DoSendReady, DoInsert]

  lemma BeginsAndAttaches(s: State)
    ensures Run(s, [DoBegin, DoAttach]) == s.(agt := Attach(Begin(s.agt)))
  {
    AgentMoves(s, s.agt, DoBegin, Begin(s.agt));
    AgentMoves(s, Begin(s.agt), DoAttach, Attach(Begin(s.agt)));
    RunTwo(s, DoBegin, DoAttach);
  }

  lemma RunAnnounces(s: State)
    ensures Run(s, [DoBegin, DoAttach, DoSendReady]) == s.(agt := Announces(s.agt))
  {
    BeginsAndAttaches(s);
    AgentMoves(s, Attach(Begin(s.agt)), DoSendReady, Announces(s.agt));
    RunSingle(s.(agt := Attach(Begin(s.agt))), DoSendReady);
    RunAppend(s, [DoBegin, DoAttach], [DoSendReady]);
    assert [DoBegin, DoAttach] + [DoSendReady] == [DoBegin, DoAttach, DoSendReady];
  }

  lemma RunSetup(s: State)
    ensures Run(s, SETUP) == s.(agt := Announces(s.agt), cen := Insert(s.cen))
  {
    var t := s.(agt := Announces(s.agt));
    RunAnnounces(s);
    OwnStep(t, DoInsert);
    RunSingle(t, DoInsert);
    RunAppend(s, [DoBegin, DoAttach, DoSendReady], [DoInsert]);
    assert SETUP == [DoBegin, DoAttach, DoSendReady] + [DoInsert];
  }

  lemma AgentMoves(s: State, a: Agent, action: Action, b: Agent)
    requires action.DoBegin? || action.DoAttach? || action.DoSendReady?
    requires b == AgentStep(a, action)
    ensures Step(s.(agt := a), action) == s.(agt := b)
  {
    OwnStep(s.(agt := a), action);
  }

  lemma SetUp(s: State) returns (t: State)
    requires Inv(s) && ReadyToCome(s)
    ensures t == Run(s, SETUP) && Inv(t) && t.cen.phase.Tracked? && t.cen == s.cen.(phase := Tracked)
    ensures t == s.(agt := Announces(s.agt), cen := t.cen) && ReadySent(t.agt.worker)
    ensures t.agt.pod.out != [] && t.agt.pod.out[0] == Ready
  {
    RunSetup(s);
    AgentAnnounces(s.agt, s.cli.accepted);
    CentralStepKeeps(s.cen, s.agt.pod.out, DoInsert);
    CentralMoves(s, Insert(s.cen));
    AgentActs(s.(cen := Insert(s.cen)), Announces(s.agt));
    t := s.(cen := Insert(s.cen)).(agt := Announces(s.agt));
  }

  lemma ReadyComes(s: State) returns (more: seq<Action>)
    requires Inv(s) && !s.cli.reg.done && s.cen.serving && ReadyToCome(s)
    ensures Run(s, more).cli.reg.ready
  {
    var t := SetUp(s);
    var u := Step(t, DoRoute);
    RouteIsRouted(t, Ready);
    RouteKeeps(t);
    assert u.cen.queue == t.cen.queue + [Ready] && Ready in u.cen.queue;
    var rest := ReadyInQueue(u);
    more := SETUP + ([DoRoute] + rest);
    RunSingle(t, DoRoute);
    RunAppend(t, [DoRoute], rest);
    RunAppend(s, SETUP, [DoRoute] + rest);
  }

  // ----- main results --------------------------------------------------------------

  /** Some continuation makes the client ready. */
  ghost predicate CanGetReady(s: State) {
    exists more: seq<Action> :: Run(s, more).cli.reg.ready
  }

  /** In every reachable state, the client can still become ready exactly if READY
      is under way or to come, and nobody who has to pass it on has left. */
  lemma CanGetReadyExactly(before: seq<Action>)
    requires Run(START, before).cli.accepted < IDS
    ensures CanGetReady(Run(START, before)) <==> MayGetReady(Run(START, before))
  {
    var s := Reachable(before);
    if MayGetReady(s) {
      var more := BringReady(s);
      assert Run(s, more).cli.reg.ready;
    } else {
      forall more: seq<Action>
        ensures !Run(s, more).cli.reg.ready
      {
        RunGainsNothing(s, more);
      }
    }
  }

  lemma BringReady(s: State) returns (more: seq<Action>)
    requires Inv(s) && MayGetReady(s)
    ensures Run(s, more).cli.reg.ready
  {
    if s.cli.reg.ready {
      more := [];
    } else if Ready in s.cen.out {
      ReadyOnWire(s);
      more := [DoCliRead];
      RunSingle(s, DoCliRead);
    } else if Ready in s.cen.queue {
      more := ReadyInQueue(s);
    } else {
      more := ReadyComes(s);
    }
  }

  /** Stream, session, bridge and client's loop are all up, and the agent's side
      has not ended. */
  predicate AllUp(s: State) {
    && s.streamUp && !s.cen.phase.Dropped? && s.cen.serving && !s.cli.reg.done
    && !s.agt.entry.Gone? && !s.agt.worker.Failed? && !s.agt.worker.Finished?
  }

  /** While all parties are up, the client can become ready exactly if Route has
      not dropped a message before central entered the session in its map. */
  lemma ReadyUnlessMissed(before: seq<Action>)
    requires Run(START, before).cli.accepted < IDS && AllUp(Run(START, before))
    ensures CanGetReady(Run(START, before)) <==> !Run(START, before).cen.missed
  {
    var s := Reachable(before);
    CanGetReadyExactly(before);
    if s.cen.missed {
      MissedLeavesNothing(s);
    } else if s.cen.seen != [] {
      SeenIsReady(s);
    }
  }

  lemma MissedLeavesNothing(s: State)
    requires Inv(s) && s.cen.missed
    ensures !MayGetReady(s) && s.cli.out == [] && s.cli.accepted == 0
  {
    QuietBeforeRouting(s);
    assert s.cen.taken == [] && s.cen.queue == [];
    if Ready in s.cen.out {
      BridgeOnlyRelays(s.cen.taken, s.cen.serving, s.cen.out, Ready);
    }
  }

  lemma SeenIsReady(s: State)
    requires Inv(s) && AllUp(s) && !s.cen.missed && s.cen.seen != []
    ensures MayGetReady(s)
  {
    var all := s.cen.taken + s.cen.queue;
    assert s.cen.routed == s.cen.seen && s.cen.seen[0] == s.agt.pod.out[0] == Ready;
    assert all[0] == Ready;
    if s.cen.taken != [] {
      assert s.cen.taken[0] == Ready && s.cen.taken[0] in s.cen.taken;
      assert Ready in Sendable(s.cen.taken);
    } else {
      assert s.cen.queue[0] in s.cen.queue;
    }
  }

  /** A READY that is routed before central entered the session in its map is
      dropped, and nothing makes up for it: however the run goes on, the client
      does not become ready and opens no connection. */
  lemma LostReadyIsNeverRepaired(before: seq<Action>, more: seq<Action>)
    requires Run(START, before).cli.accepted < IDS && Run(START, before).cen.missed
    ensures var s := Run(Run(START, before), more);
            !s.cli.reg.ready && s.cli.out == [] && s.cen.routed == []
  {
    var s := Reachable(before);
    MissedRun(s, more);
    MissedLeavesNothing(Run(s, more));
  }

  /** From every reachable state in which Route has seen nothing of the session and
      all parties are up, the handshake leads to a quiet session. */
  lemma SessionComesUp(before: seq<Action>)
    requires Run(START, before).cli.accepted < IDS
    requires var s := Run(START, before);
             AllUp(s) && ReadyToCome(s) && s.cen.linked && s.cli.writing
    ensures Quiet(Run(START, before + (SETUP + [DoRoute, DoSelect, DoCliRead])))
  {
    var s := Reachable(before);
    var t := SetUp(s);
    AgentAnnounces(s.agt, s.cli.accepted);
    RelaysReady(t);
    RunAppend(s, SETUP, [DoRoute, DoSelect, DoCliRead]);
    RunAppend(START, before, SETUP + [DoRoute, DoSelect, DoCliRead]);
  }

  lemma RelaysReady(s: State)
    requires Inv(s) && ReadySent(s.agt.worker) && s.agt.entry.HasPf? && s.agt.pod.out[0] == Ready && s.cen.seen == []
    requires s.streamUp && s.cen.phase.Tracked? && s.cen.serving && s.cen.linked && s.cli.writing && !s.cli.reg.done
    ensures Quiet(Run(s, [DoRoute, DoSelect, DoCliRead]))
  {
    QuietBeforeRouting(s);
    NothingOnWireYet(s);
    Downlink(s, Ready);
    RunThree(s, DoRoute, DoSelect, DoCliRead);
  }

  lemma NothingOnWireYet(s: State)
    requires Inv(s) && s.cen.routed == [] && s.cen.serving && s.cli.out == []
    ensures s.up == [] && s.down == [] && s.cen.queue == [] && s.cen.taken == [] && s.cen.out == []
    ensures s.cen.sent == [] && s.agt.received == []
  {
    assert s.cen.taken == [] && Sendable([]) == [];
  }
}
