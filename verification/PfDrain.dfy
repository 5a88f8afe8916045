/** A port-forward session that is at work can always come to rest: everything under
    way arrives, on both legs. */
module PfDrain {
  import opened Wire
  import opened ExecFrame
  import opened PfFrame
  import opened AgentPortForward
  import opened CliPortForward
  import opened PfRelay
  import opened PfRelaySafety
  import opened PfRelayRuns
  import opened PfRelayService
  import opened PfHandshake

  /** All parties are up and the client is ready. */
  predicate Working(s: State) {
    && s.cli.reg.ready && !s.cli.reg.done && s.cli.writing
    && s.cen.phase.Tracked? && s.cen.linked && s.cen.serving
    && s.streamUp && s.agt.entry.HasPf? && s.agt.worker.Running?
  }

  lemma UpIsWorking(s: State)
    requires Inv(s) && AllUp(s) && s.cli.reg.ready && s.cen.linked && s.cli.writing
    ensures Working(s)
  {
    ReadyCameThrough(s);
  }

  // ----- upwards ---------------------------------------------------------------

  lemma NothingLeft(log: seq<Msg>, bytes: Octets)
    requires OnWire(log, log, bytes)
    ensures bytes == []
  {
    assert log[|log|..] == [];
  }

  lemma NextOnWire(log: seq<Msg>, done: seq<Msg>, bytes: Octets)
    requires OnWire(log, done, bytes) && |done| < |log|
    ensures Decode(bytes).Got?
  {
    var rest := log[|done|..];
    assert rest[0] in log;
    DecodeEncoded(FrameOf(rest[0]), Encodings(rest[1..]));
  }

  lemma ForwardOne(s: State)
    requires Inv(s) && Working(s) && |s.cen.heard| < |s.cli.out|
    ensures var t := Step(s, DoForward);
            Inv(t) && Working(t) && t.cli == s.cli && |t.cen.heard| == |s.cen.heard| + 1
  {
    NextOnWire(s.cli.out, s.cen.heard, s.up);
    var m := NextFromCli(s.cli, s.cen.heard, s.up);
    ForwardIsHeard(s, m);
    ForwardKeeps(s);
  }

  lemma {:induction false} DrainUp(s: State) returns (more: seq<Action>)
    requires Inv(s) && Working(s)
    ensures var t := Run(s, more); Inv(t) && Working(t) && t.cen.heard == t.cli.out
    decreases |s.cli.out| - |s.cen.heard|
  {
    more := [];
    if |s.cen.heard| < |s.cli.out| {
      ForwardOne(s);
      more := DrainUp(Step(s, DoForward));
      more := Prepend(s, DoForward, more);
    }
  }

  lemma Prepend(s: State, a: Action, rest: seq<Action>) returns (all: seq<Action>)
    ensures Run(s, all) == Run(Step(s, a), rest)
  {
    all := [a] + rest;
    assert all[1..] == rest;
  }

  lemma TakeOne(s: State)
    requires Inv(s) && Working(s) && |s.agt.received| < |s.cen.sent|
    ensures var t := Step(s, DoAgentReceive(Connected));
            && Inv(t) && Working(t) && t.cli == s.cli && t.cen == s.cen
            && |t.agt.received| == |s.agt.received| + 1
  {
    AgentReceiveKeeps(s, Connected);
    ReceiveIsTakes(s, Connected);
  }

  lemma {:induction false} DrainAgent(s: State) returns (more: seq<Action>)
    requires Inv(s) && Working(s) && s.cen.heard == s.cli.out
    ensures var t := Run(s, more);
            Inv(t) && Working(t) && t.cen.heard == t.cli.out && t.agt.received == t.cen.sent
    decreases |s.cen.sent| - |s.agt.received|
  {
    more := [];
    if |s.agt.received| < |s.cen.sent| {
      TakeOne(s);
      more := DrainAgent(Step(s, DoAgentReceive(Connected)));
      more := Prepend(s, DoAgentReceive(Connected), more);
    }
  }

  // ----- downwards ---------------------------------------------------------------

  /** Upwards everything has arrived. */
  predicate UpDone(s: State) {
    s.cen.heard == s.cli.out && s.agt.received == s.cen.sent
  }

  lemma RoutedIsNoError(s: State, m: Msg)
    requires Inv(s) && Working(s) && m in s.cen.routed
    ensures !m.SessionError?
  {
    RoutedWasSent(s, m);
    if m != s.agt.pod.out[0] {
      assert m in s.agt.pod.out[1..];
    }
  }

  lemma SelectOne(s: State)
    requires Inv(s) && Working(s) && s.cen.queue != []
    ensures var t := Step(s, DoSelect);
            && Inv(t) && Working(t) && t.cli == s.cli && t.agt == s.agt && t.cen.queue == s.cen.queue[1..]
            && t.cen.seen == s.cen.seen && t.cen.heard == s.cen.heard && t.cen.sent == s.cen.sent
  {
    var m := s.cen.queue[0];
    assert m in s.cen.taken + s.cen.queue;
    RoutedIsNoError(s, m);
    SelectIsRelayed(s);
    SelectKeeps(s);
  }

  lemma {:induction false} DrainQueue(s: State) returns (more: seq<Action>)
    requires Inv(s) && Working(s) && UpDone(s)
    ensures var t := Run(s, more); Inv(t) && Working(t) && UpDone(t) && t.cen.queue == []
    decreases |s.cen.queue|
  {
    more := [];
    if s.cen.queue != [] {
      SelectOne(s);
      more := DrainQueue(Step(s, DoSelect));
      more := Prepend(s, DoSelect, more);
    }
  }

  lemma RouteOne(s: State)
    requires Inv(s) && Working(s) && s.cen.queue == [] && |s.cen.seen| < |s.agt.pod.out|
    ensures var t := Step(s, DoRoute);
            && Inv(t) && Working(t) && t.cli == s.cli && t.agt == s.agt && |t.cen.queue| == 1
            && |t.cen.seen| == |s.cen.seen| + 1 && t.cen.heard == s.cen.heard && t.cen.sent == s.cen.sent
  {
    RouteIsRouted(s, s.agt.pod.out[|s.cen.seen|]);
    RouteKeeps(s);
  }

  lemma {:induction false} DrainRoute(s: State) returns (more: seq<Action>)
    requires Inv(s) && Working(s) && UpDone(s) && s.cen.queue == []
    ensures var t := Run(s, more);
            Inv(t) && Working(t) && UpDone(t) && t.cen.queue == [] && t.cen.seen == t.agt.pod.out
    decreases |s.agt.pod.out| - |s.cen.seen|
  {
    more := [];
    if |s.cen.seen| < |s.agt.pod.out| {
      RouteOne(s);
      var t := Step(s, DoRoute);
      SelectOne(t);
      more := DrainRoute(Step(t, DoSelect));
      more := Prepend(t, DoSelect, more);
      more := Prepend(s, DoRoute, more);
    }
  }

  lemma ReadOne(s: State)
    requires Inv(s) && Working(s) && |s.cli.received| < |s.cen.out|
    ensures var t := Step(s, DoCliRead);
            && Inv(t) && Working(t) && t.agt == s.agt && t.cen == s.cen && t.cli.out == s.cli.out
            && |t.cli.received| == |s.cli.received| + 1
  {
    var m := s.cen.out[|s.cli.received|];
    NextOnWire(s.cen.out, s.cli.received, s.down);
    Take(s.cen.out, s.cli.received, s.down);
    WrittenBackWasSent(s, m);
    OutIsNoError(s, m);
    CliReadIsReceived(s, m);
    CliReadKeeps(s);
  }

  lemma OutIsNoError(s: State, m: Msg)
    requires Inv(s) && Working(s) && m in s.cen.out
    ensures !m.SessionError?
  {
    assert s.cen.out == Sendable(s.cen.taken);
    assert m in s.cen.taken && m in s.cen.taken + s.cen.queue;
    RoutedIsNoError(s, m);
  }

  /** Downwards the agent's messages have been routed and written. */
  predicate DownDone(s: State) {
    s.cen.queue == [] && s.cen.seen == s.agt.pod.out
  }

  lemma {:induction false} DrainDown(s: State) returns (more: seq<Action>)
    requires Inv(s) && Working(s) && UpDone(s) && DownDone(s)
    ensures var t := Run(s, more);
            Inv(t) && Working(t) && UpDone(t) && DownDone(t) && t.cli.received == t.cen.out
    decreases |s.cen.out| - |s.cli.received|
  {
    more := [];
    if |s.cli.received| < |s.cen.out| {
      ReadOne(s);
      more := DrainDown(Step(s, DoCliRead));
      more := Prepend(s, DoCliRead, more);
    }
  }

  lemma RestsWhenDrained(s: State)
    requires Inv(s) && Working(s) && UpDone(s) && DownDone(s) && s.cli.received == s.cen.out
    ensures Quiet(s)
  {
    NothingLeft(s.cli.out, s.up);
    NothingLeft(s.cen.out, s.down);
    ReadyCameThrough(s);
  }

  /** Every reachable session with all parties up, a ready client and its own stream
      has a continuation in which all that was under way has arrived. */
  lemma ComesToRest(before: seq<Action>) returns (more: seq<Action>)
    requires Run(START, before).cli.accepted < IDS && AllUp(Run(START, before))
    requires Run(START, before).cli.reg.ready && Run(START, before).cen.linked && Run(START, before).cli.writing
    ensures Quiet(Run(START, before + more))
  {
    var s := Reachable(before);
    UpIsWorking(s);
    var a := DrainUp(s);
    var s1 := Run(s, a);
    var b := DrainAgent(s1);
    var s2 := Run(s1, b);
    var c := DrainQueue(s2);
    var s3 := Run(s2, c);
    var d := DrainRoute(s3);
    var s4 := Run(s3, d);
    var e := DrainDown(s4);
    RestsWhenDrained(Run(s4, e));
    more := a + (b + (c + (d + e)));
    RunAppend(s3, d, e);
    RunAppend(s2, c, d + e);
    RunAppend(s1, b, c + (d + e));
    RunAppend(s, a, b + (c + (d + e)));
    RunAppend(START, before, more);
  }
}
