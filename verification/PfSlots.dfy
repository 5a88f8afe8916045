/** What becomes of a port-forward session's place in central's map when its bridge
    returns. */
module PfSlots {
  import opened Wire
  import opened ExecFrame
  import opened PfFrame
  import opened PfRelay
  import opened PfRelaySafety
  import opened PfRelayRuns
  import opened PfRelayService
  import opened PfHandshake

  /** A bridge that returned and left its session in the map had relayed a
      SESSION_ERROR as its last message; no bridge runs before the insert. */
  predicate ReturnOk(c: Central) {
    && (c.phase.Starting? ==> c.serving)
    && (!c.serving && c.phase.Tracked? ==> c.taken != [] && c.taken[|c.taken| - 1].SessionError?)
  }

  lemma StepKeepsReturn(s: State, a: Action)
    requires ReturnOk(s.cen)
    ensures ReturnOk(Step(s, a).cen)
  {
    if OfCli(a) {
      CliLeavesCentral(s, a);
    } else if a.DoSelect? {
      SelectKeepsReturn(s);
    } else if OfRelay(a) {
      RelayKeepsReturn(s, a);
    } else {
      OwnStep(s, a);
    }
  }

  lemma CliLeavesCentral(s: State, a: Action)
    requires OfCli(a)
    ensures Step(s, a).cen == s.cen
  {
  }

  lemma SelectKeepsReturn(s: State)
    requires ReturnOk(s.cen)
    ensures ReturnOk(Step(s, DoSelect).cen)
  {
    if !s.cen.phase.Starting? && s.cen.serving && s.cen.queue != [] {
      SelectIsRelayed(s);
    }
  }

  lemma RelayKeepsReturn(s: State, a: Action)
    requires ReturnOk(s.cen) && OfRelay(a) && !a.DoSelect?
    ensures ReturnOk(Step(s, a).cen)
  {
  }

  lemma {:induction false} RunKeepsReturn(s: State, actions: seq<Action>)
    requires ReturnOk(s.cen)
    ensures ReturnOk(Run(s, actions).cen)
    decreases |actions|
  {
    if actions != [] {
      StepKeepsReturn(s, actions[0]);
      RunKeepsReturn(Step(s, actions[0]), actions[1..]);
    }
  }

  /** The bridge returns at this step. */
  predicate Returns(s: State, a: Action) {
    s.cen.serving && !Step(s, a).cen.serving
  }

  /** At its return the bridge leaves the session in the map exactly if it returns
      because it relayed a SESSION_ERROR of a session that was still there. */
  lemma ReturnLeavesTrackedExactly(s: State, a: Action)
    requires Returns(s, a)
    ensures Step(s, a).cen.phase.Tracked?
       <==> a.DoSelect? && s.cen.phase.Tracked? && s.cen.queue != [] && s.cen.queue[0].SessionError?
  {
    if OfCli(a) {
      CliLeavesCentral(s, a);
    } else if a.DoSelect? {
      if !s.cen.phase.Starting? && s.cen.queue != [] {
        SelectIsRelayed(s);
      }
    } else if OfRelay(a) {
      RelayKeepsServing(s, a);
    } else {
      OwnStep(s, a);
    }
  }

  lemma RelayKeepsServing(s: State, a: Action)
    requires OfRelay(a) && !a.DoSelect?
    ensures Step(s, a).cen.serving == s.cen.serving
  {
  }

  // ----- such a session stays in the map ----------------------------------------

  /** The bridge has returned and the session is still in the map. */
  ghost predicate Left(s: State) {
    Inv(s) && ReturnOk(s.cen) && !s.cen.serving && s.cen.phase.Tracked?
  }

  /** Then the SESSION_ERROR was all the agent says about the session. */
  lemma LeftIsSilent(s: State)
    requires Left(s)
    ensures s.agt.worker.Failed? && s.cen.seen == s.agt.pod.out && !s.cli.reg.ready && s.cli.accepted == 0
  {
    var last := s.cen.taken[|s.cen.taken| - 1];
    assert last in s.cen.taken + s.cen.queue;
    RoutedWasSent(s, last);
    ErrorIsAlone(s.agt.worker, s.agt.pod.out, s.cli.accepted, last);
    if s.cli.reg.ready {
      ReadyCameThrough(s);
    }
  }

  lemma ErrorIsAlone(w: Worker, out: seq<Msg>, n: nat, m: Msg)
    requires Trace(w, out, n) && m in out && m.SessionError?
    ensures w.Failed? && |out| == 1
  {
    if ReadySent(w) {
      forall i | 0 <= i < |out|
        ensures out[i] != m
      {
        assert i > 0 ==> out[i] == out[1..][i - 1] && out[1..][i - 1] in out[1..];
      }
    }
  }

  lemma LeftMoves(s: State, a: Action)
    requires Left(s)
    ensures Inv(Step(s, a)) && ReturnOk(Step(s, a).cen) && !Step(s, a).cen.serving
    ensures Step(s, a).cen.phase.Tracked? <==> !a.DoEndSession?
    ensures a.DoEndSession? ==> Step(s, a).cen.phase.Dropped?
  {
    LeftIsSilent(s);
    StepCounts(s, a);
    StepKeeps(s, a);
    StepKeepsReturn(s, a);
    PhaseMoves(s, a);
  }

  lemma PhaseMoves(s: State, a: Action)
    requires !s.cen.serving && s.cen.phase.Tracked? && s.cen.seen == s.agt.pod.out
    ensures Step(s, a).cen.phase == (if a.DoEndSession? then Dropped else Tracked) && !Step(s, a).cen.serving
  {
    if OfCli(a) {
      CliLeavesCentral(s, a);
    } else if OfRelay(a) {
      RelayLeavesPhase(s, a);
    } else {
      OwnStep(s, a);
    }
  }

  lemma RelayLeavesPhase(s: State, a: Action)
    requires OfRelay(a) && !s.cen.serving && s.cen.seen == s.agt.pod.out
    ensures Step(s, a).cen.phase == s.cen.phase && !Step(s, a).cen.serving
  {
  }

  lemma {:induction false} DroppedStays(s: State, actions: seq<Action>)
    requires s.cen.phase.Dropped?
    ensures Run(s, actions).cen.phase.Dropped?
    decreases |actions|
  {
    if actions != [] {
      DroppedStaysOne(s, actions[0]);
      DroppedStays(Step(s, actions[0]), actions[1..]);
    }
  }

  lemma DroppedStaysOne(s: State, a: Action)
    requires s.cen.phase.Dropped?
    ensures Step(s, a).cen.phase.Dropped?
  {
    if OfCli(a) {
      CliLeavesCentral(s, a);
    } else if !OfRelay(a) {
      OwnStep(s, a);
    }
  }

  lemma {:induction false} LeftStays(s: State, more: seq<Action>)
    requires Left(s)
    ensures Run(s, more).cen.phase.Tracked? <==> forall a | a in more :: !a.DoEndSession?
    decreases |more|
  {
    if more != [] {
      LeftMoves(s, more[0]);
      assert forall a | a in more :: a == more[0] || a in more[1..];
      if more[0].DoEndSession? {
        DroppedStays(Step(s, more[0]), more[1..]);
      } else {
        LeftStays(Step(s, more[0]), more[1..]);
      }
    }
  }

  /** A session whose bridge has returned without ending it keeps its place in the
      map exactly as long as nobody else ends it; nothing of its own ever does. */
  lemma SlotKeptExactly(before: seq<Action>, more: seq<Action>)
    requires var s := Run(START, before);
             s.cli.accepted < IDS && !s.cen.serving && s.cen.phase.Tracked?
    ensures Run(Run(START, before), more).cen.phase.Tracked? <==> forall a | a in more :: !a.DoEndSession?
  {
    var s := Reachable(before);
    RunKeepsReturn(START, before);
    LeftStays(s, more);
  }

  /** In every reachable state, such a session had a SESSION_ERROR as the only
      message of its agent, and the bridge relayed it. */
  lemma LeftAfterError(before: seq<Action>)
    requires var s := Run(START, before);
             s.cli.accepted < IDS && !s.cen.serving && s.cen.phase.Tracked?
    ensures var s := Run(START, before);
            |s.agt.pod.out| == 1 && s.agt.pod.out[0].SessionError? && s.cen.taken == s.agt.pod.out
  {
    var s := Reachable(before);
    RunKeepsReturn(START, before);
    LeftIsSilent(s);
    assert s.cen.taken <= s.cen.taken + s.cen.queue == s.cen.routed;
  }

  function Failing(text: Octets): seq<Action> {
    [DoBegin, DoFail(text), DoInsert] + [DoRoute, DoSelect]
  }

  /** It does happen: kubectl does not come up, and the error is relayed. */
  lemma FailureLeavesSlot(text: Octets)
    ensures var s := Run(START, Failing(text));
            !s.cen.serving && s.cen.phase.Tracked? && s.cli.accepted == 0
  {
    var a := START.(agt := Begin(START.agt));
    var b := a.(agt := Fail(a.agt, text));
    var c := b.(cen := Insert(b.cen));
    OwnStep(START, DoBegin);
    OwnStep(a, DoFail(text));
    OwnStep(b, DoInsert);
    RunThree(START, DoBegin, DoFail(text), DoInsert);
    assert Run(START, [DoBegin, DoFail(text), DoInsert]) == c;
    RouteIsRouted(c, SessionError(text));
    var d := Step(c, DoRoute);
    SelectIsRelayed(d);
    RunTwo(c, DoRoute, DoSelect);
    RunAppend(START, [DoBegin, DoFail(text), DoInsert], [DoRoute, DoSelect]);
  }
}
