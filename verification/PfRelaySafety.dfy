/** What every run of one port-forward session keeps. */
module PfRelaySafety {
  import opened Wire
  import opened ExecFrame
  import opened PfFrame
  import opened AgentPortForward
  import opened CliPortForward
  import opened PfRelay

  const IDS: nat := 0x1_0000_0000

  // ----- the invariant, party by party --------------------------------------

  ghost predicate Numbered(ids: set<ConnId>, n: nat) {
    forall id | id in ids :: 1 <= id <= n
  }

  /** No message about a connection beyond the n accepted so far. */
  predicate Within(m: Msg, n: nat) {
    m.Ready? || m.SessionError? || 1 <= m.id <= n
  }

  predicate Upward(m: Msg, n: nat) {
    IsUp(m) && Within(m, n) && Fits(FrameOf(m))
  }

  predicate ReadFor(out: seq<Msg>, read: map<ConnId, Octets>, writing: bool, id: ConnId) {
    && DataOf(out, id) <= At(read, id)
    && (writing ==> DataOf(out, id) == At(read, id))
  }

  ghost predicate CliWritesOk(c: Cli) {
    && (forall m | m in c.out :: Upward(m, c.accepted))
    && OpensFirst(c.out)
    && Numbered(c.readers, c.accepted)
    && (forall id | id in c.pending :: 1 <= id <= c.accepted && id !in c.readers && Unannounced(c.out, id))
    && (forall id: ConnId :: ReadFor(c.out, c.read, c.writing, id))
  }

  ghost predicate CliReadsOk(c: Cli) {
    && c.reg.nextId == c.accepted
    && (c.accepted > 0 ==> c.reg.ready) && (c.reg.ready <==> Ready in c.received)
    && DeliveredIsPrefix(c.reg, c.received)
  }

  /** `bytes` are the encodings of what has been logged but not yet read. */
  ghost predicate OnWire(log: seq<Msg>, done: seq<Msg>, bytes: Octets) {
    && done <= log && (forall m | m in log :: Fits(FrameOf(m)))
    && bytes == Encodings(log[|done|..])
  }

  predicate SentOk(c: Central) {
    && c.sent <= c.heard
    && (c.phase.Starting? ==> c.heard == [])
    && (c.phase.Tracked? && c.linked ==> c.sent == c.heard)
  }

  predicate RouteOk(c: Central, log: seq<Msg>) {
    && c.routed <= c.seen <= log
    && c.routed == c.taken + c.queue && |c.queue| <= PF_BUFFER
    && (c.phase.Starting? ==> c.routed == [])
    && if c.missed then c.routed == [] && c.seen != []
       else (c.phase.Dropped? || c.routed == c.seen)
  }

  /** Between sessions' messages and the CLI only a final error is added. */
  ghost predicate BridgeOk(taken: seq<Msg>, serving: bool, out: seq<Msg>) {
    && Sendable(taken) <= out
    && (out == Sendable(taken)
        || (!serving && |out| == |Sendable(taken)| + 1 && out[|out| - 1].SessionError?))
  }

  predicate EntryOk(entry: Entry, worker: Worker) {
    match worker
    case Idle => entry.Missing?
    case Establishing => entry.NoPf? || entry.Gone?
    case Failed => entry.NoPf? || entry.Gone?
    case _ => entry.HasPf? || entry.Gone?
  }

  predicate ReadySent(w: Worker) {
    w.Running? || w.Finished?
  }

  /** A message of a running session, about one connection. */
  predicate Downward(m: Msg, n: nat) {
    IsDown(m) && !m.Ready? && !m.SessionError? && Within(m, n) && (m.Data? ==> Fits(FrameOf(m)))
  }

  /** All that an agent says about a session: one SESSION_ERROR, or READY and
      then only messages about connections. */
  predicate Trace(w: Worker, out: seq<Msg>, n: nat) {
    if ReadySent(w) then out != [] && out[0] == Ready && forall m | m in out[1..] :: Downward(m, n)
    else if w.Failed? then |out| == 1 && out[0].SessionError?
    else out == []
  }

  predicate WrittenFor(p: Pod, written: map<ConnId, Octets>, id: ConnId) {
    && At(written, id) <= At(p.queued, id)
    && (id in p.conns ==> At(p.queued, id) == At(written, id) + Flatten(p.conns[id]))
  }

  predicate AnsweredFor(out: seq<Msg>, read: map<ConnId, Octets>, id: ConnId) {
    DataOf(out, id) == At(read, id)
  }

  ghost predicate PodOk(a: Agent, n: nat) {
    && Numbered(a.readers, n) && Numbered(a.pod.conns.Keys, n)
    && QueuedIsPrefix(a.pod, a.handled)
    && (forall id: ConnId :: AnsweredFor(a.pod.out, a.read, id))
    && (forall id: ConnId :: WrittenFor(a.pod, a.written, id))
  }

  ghost predicate SessionOk(a: Agent, n: nat) {
    && EntryOk(a.entry, a.worker)
    && a.handled <= a.received && (a.entry.HasPf? ==> a.handled == a.received)
    && (!ReadySent(a.worker) ==> a.received == [])
    && (a.received == [] ==> a.readers == {} && a.pod.conns == map[] && |a.pod.out| <= 1)
    && Trace(a.worker, a.pod.out, n)
  }

  ghost predicate AgentOk(a: Agent, n: nat) {
    SessionOk(a, n) && PodOk(a, n)
  }

  ghost predicate Inv(s: State) {
    && CliWritesOk(s.cli) && CliReadsOk(s.cli)
    && OnWire(s.cli.out, s.cen.heard, s.up)
    && SentOk(s.cen) && s.agt.received <= s.cen.sent
    && AgentOk(s.agt, s.cli.accepted)
    && RouteOk(s.cen, s.agt.pod.out)
    && BridgeOk(s.cen.taken, s.cen.serving, s.cen.out)
    && OnWire(s.cen.out, s.cli.received, s.down)
  }

  // ----- a log and the bytes on its wire ------------------------------------

  lemma Put(log: seq<Msg>, done: seq<Msg>, bytes: Octets, m: Msg)
    requires OnWire(log, done, bytes) && Fits(FrameOf(m))
    ensures OnWire(log + [m], done, bytes + Encode(FrameOf(m)))
  {
    assert (log + [m])[|done|..] == log[|done|..] + [m];
    EncodingsAppend(log[|done|..], m);
  }

  lemma Take(log: seq<Msg>, done: seq<Msg>, bytes: Octets)
    requires OnWire(log, done, bytes) && Decode(bytes).Got?
    ensures |done| < |log| && Decode(bytes) == Got(FrameOf(log[|done|]))
    ensures done + [log[|done|]] <= log
    ensures OnWire(log, done + [log[|done|]], Remaining(bytes))
  {
    var rest := log[|done|..];
    if rest != [] {
      assert rest[0] in log;
      assert rest[1..] == log[|done| + 1..];
      DecodeEncoded(FrameOf(rest[0]), Encodings(rest[1..]));
    }
  }

  // ----- the CLI's actions --------------------------------------------------

  lemma OpensFirstAppend(ms: seq<Msg>, m: Msg)
    requires OpensFirst(ms) && (m.Open? ==> Unannounced(ms, m.id))
    ensures OpensFirst(ms + [m])
  {
    assert (ms + [m])[..|ms|] == ms;
  }

  /** Writing one message keeps the CLI's log in order. */
  lemma WriteKeepsCli(c: Cli, m: Msg, read: map<ConnId, Octets>)
    requires CliWritesOk(c) && Upward(m, c.accepted)
    requires m.Open? ==> Unannounced(c.out, m.id)
    requires m.id !in c.pending
    requires forall id: ConnId :: At(read, id) == At(c.read, id) + DataIn(m, id)
    ensures CliWritesOk(if c.writing then c.(out := c.out + [m], read := read) else c.(read := read))
  {
    if c.writing {
      OpensFirstAppend(c.out, m);
    }
    var d := if c.writing then c.(out := c.out + [m], read := read) else c.(read := read);
    forall id: ConnId
      ensures ReadFor(d.out, d.read, d.writing, id)
    {
      assert ReadFor(c.out, c.read, c.writing, id);
      DataOfAppend(c.out, m, id);
    }
  }

  /** The CLI's side changes, and the bytes it has on the wire. */
  lemma CliWrites(s: State, c: Cli, up: Octets)
    requires Inv(s) && CliWritesOk(c) && OnWire(c.out, s.cen.heard, up)
    requires c.reg == s.cli.reg && c.received == s.cli.received && c.accepted == s.cli.accepted
    ensures Inv(s.(cli := c, up := up))
  {
  }

  lemma CliReads(s: State, reg: Registry, received: seq<Msg>, down: Octets)
    requires Inv(s) && CliReadsOk(s.cli.(reg := reg, received := received)) && OnWire(s.cen.out, received, down)
    ensures Inv(s.(cli := s.cli.(reg := reg, received := received), down := down))
  {
  }

  lemma WriteOpenKeeps(s: State, id: ConnId)
    requires Inv(s)
    ensures Inv(Step(s, DoWriteOpen(id)))
  {
    if id in s.cli.pending {
      var c := s.cli.(pending := s.cli.pending - {id}, readers := s.cli.readers + {id});
      var m := Open(id, s.cli.pending[id]);
      Put(s.cli.out, s.cen.heard, s.up, m);
      WriteKeepsCli(c, m, c.read);
      CliWrites(s, WriteOpen(s, id).cli, WriteOpen(s, id).up);
    }
  }

  lemma LocalDataKeeps(s: State, id: ConnId, chunk: Octets)
    requires Inv(s)
    ensures Inv(Step(s, DoLocalData(id, chunk)))
  {
    if id in s.cli.readers && |chunk| <= CHUNK {
      var m := Data(id, chunk);
      Put(s.cli.out, s.cen.heard, s.up, m);
      WriteKeepsCli(s.cli, m, s.cli.read[id := At(s.cli.read, id) + chunk]);
      CliWrites(s, LocalData(s, id, chunk).cli, LocalData(s, id, chunk).up);
    }
  }

  lemma LocalEofKeeps(s: State, id: ConnId)
    requires Inv(s)
    ensures Inv(Step(s, DoLocalEof(id)))
  {
    if id in s.cli.readers {
      Put(s.cli.out, s.cen.heard, s.up, Close(id));
      WriteKeepsCli(s.cli.(readers := s.cli.readers - {id}), Close(id), s.cli.read);
      CliWrites(s, LocalEof(s, id).cli, LocalEof(s, id).up);
    }
  }

  lemma LocalCloseKeeps(s: State, id: ConnId)
    requires Inv(s)
    ensures Inv(Step(s, DoLocalClose(id)))
  {
    ClosedKeepsPrefix(s.cli.reg, s.cli.received, s.cli.reg.conns - {id});
    CliReads(s, ConnClosed(s.cli.reg, id), s.cli.received, s.down);
  }

  lemma CliShutdownKeeps(s: State)
    requires Inv(s)
    ensures Inv(Step(s, DoCliShutdown))
  {
    ClosedKeepsPrefix(s.cli.reg, s.cli.received, {});
    var t := s.(cli := s.cli.(reg := s.cli.reg.(conns := {})));
    CliReads(s, t.cli.reg, s.cli.received, s.down);
    ShutdownStillReads(t.cli);
    CliWrites(t, t.cli.(writing := false), s.up);
  }

  lemma ShutdownStillReads(c: Cli)
    requires CliWritesOk(c)
    ensures CliWritesOk(c.(writing := false))
  {
    forall id: ConnId
      ensures ReadFor(c.out, c.read, false, id)
    {
      assert ReadFor(c.out, c.read, c.writing, id);
    }
  }

  // ----- the chain from the agent's READY to the CLI's first OPEN -------------

  lemma TraceSays(w: Worker, out: seq<Msg>, n: nat, m: Msg)
    requires Trace(w, out, n) && m in out
    ensures IsDown(m) && Within(m, n) && (m.Data? ==> Fits(FrameOf(m)))
    ensures m.Ready? ==> ReadySent(w)
  {
    if ReadySent(w) && m != out[0] {
      assert m in out[1..];
    }
  }

  lemma BridgeOnlyRelays(taken: seq<Msg>, serving: bool, out: seq<Msg>, m: Msg)
    requires BridgeOk(taken, serving, out) && m in out
    ensures m in taken || m.SessionError?
  {
    var k :| 0 <= k < |out| && out[k] == m;
    if k < |Sendable(taken)| {
      assert m == Sendable(taken)[k];
    }
  }

  lemma RoutedWasSent(s: State, m: Msg)
    requires RouteOk(s.cen, s.agt.pod.out) && m in s.cen.routed
    ensures m in s.agt.pod.out
  {
    var k :| 0 <= k < |s.cen.routed| && s.cen.routed[k] == m;
    assert s.agt.pod.out[k] == m;
  }

  /** Whatever central wrote, and so whatever the CLI read, the agent said. */
  lemma WrittenBackWasSent(s: State, m: Msg)
    requires Inv(s) && m in s.cen.out
    ensures m in s.agt.pod.out || m.SessionError?
    ensures IsDown(m) && Within(m, s.cli.accepted)
  {
    BridgeOnlyRelays(s.cen.taken, s.cen.serving, s.cen.out, m);
    if m in s.cen.taken {
      assert m in s.cen.taken + s.cen.queue;
      RoutedWasSent(s, m);
      TraceSays(s.agt.worker, s.agt.pod.out, s.cli.accepted, m);
    }
  }

  lemma ReadBackWasWritten(s: State, m: Msg)
    requires Inv(s) && m in s.cli.received
    ensures m in s.cen.out
  {
    var k :| 0 <= k < |s.cli.received| && s.cli.received[k] == m;
    assert s.cen.out[k] == m;
  }

  /** A CLI that has seen READY was told so through central by the agent. */
  lemma ReadyCameThrough(s: State)
    requires Inv(s) && s.cli.reg.ready
    ensures ReadySent(s.agt.worker) && s.cen.routed != []
  {
    ReadBackWasWritten(s, Ready);
    BridgeOnlyRelays(s.cen.taken, s.cen.serving, s.cen.out, Ready);
    assert Ready in s.cen.taken + s.cen.queue;
    RoutedWasSent(s, Ready);
    TraceSays(s.agt.worker, s.agt.pod.out, s.cli.accepted, Ready);
  }

  lemma WritingNeedsReady(s: State)
    requires Inv(s) && s.cli.out != []
    ensures s.cli.reg.ready
  {
    assert Upward(s.cli.out[0], s.cli.accepted);
  }

  /** Until something was routed, nothing comes from the CLI and the agent has
      sent one message at most. */
  lemma QuietBeforeRouting(s: State)
    requires Inv(s) && s.cen.routed == []
    ensures !s.cli.reg.ready && s.cli.out == [] && |s.agt.pod.out| <= 1
  {
    if s.cli.reg.ready {
      ReadyCameThrough(s);
    } else if s.cli.out != [] {
      WritingNeedsReady(s);
    }
  }

  // ----- accepting and reading ----------------------------------------------

  lemma AcceptKeeps(s: State, port: U16)
    requires Inv(s) && Accept(s, port).cli.accepted < IDS
    ensures Inv(Step(s, DoAccept(port)))
  {
    if s.cli.reg.ready {
      NothingHeardOfNext(s);
      AcceptKeepsReads(s.cli, port);
      AcceptKeepsWrites(s.cli, port);
      MoreAccepted(s.agt, s.cli.accepted);
      CliAccepts(s, AcceptedCli(s.cli, port));
      AcceptIs(s, port);
    }
  }

  function AcceptedCli(c: Cli, port: U16): Cli
    requires c.accepted + 1 < IDS
  {
    c.(reg := Accepted(c.reg), accepted := c.accepted + 1, pending := c.pending[c.accepted + 1 := port])
  }

  lemma AcceptIs(s: State, port: U16)
    requires s.cli.reg.ready && s.cli.reg.nextId == s.cli.accepted && s.cli.accepted + 1 < IDS
    ensures Step(s, DoAccept(port)) == s.(cli := AcceptedCli(s.cli, port))
  {
  }

  lemma CliAccepts(s: State, c: Cli)
    requires Inv(s) && CliWritesOk(c) && CliReadsOk(c)
    requires c.out == s.cli.out && c.received == s.cli.received
    requires AgentOk(s.agt, c.accepted)
    ensures Inv(s.(cli := c))
  {
  }

  lemma NothingHeardOfNext(s: State)
    requires Inv(s) && s.cli.accepted + 1 < IDS
    ensures forall m | m in s.cli.received :: !IsFor(m, s.cli.accepted + 1)
  {
    forall m | m in s.cli.received
      ensures !IsFor(m, s.cli.accepted + 1)
    {
      ReadBackWasWritten(s, m);
      WrittenBackWasSent(s, m);
    }
  }

  lemma AcceptKeepsReads(c: Cli, port: U16)
    requires CliReadsOk(c) && c.reg.ready && c.accepted + 1 < IDS
    requires forall m | m in c.received :: !IsFor(m, c.accepted + 1)
    ensures CliReadsOk(AcceptedCli(c, port))
  {
    AcceptedKeepsPrefix(c.reg, c.received);
  }

  lemma AcceptKeepsWrites(c: Cli, port: U16)
    requires CliWritesOk(c) && c.accepted + 1 < IDS
    ensures CliWritesOk(AcceptedCli(c, port))
  {
    forall m | m in c.out
      ensures Upward(m, c.accepted + 1) && !IsFor(m, c.accepted + 1)
    {
      assert Upward(m, c.accepted);
    }
  }

  lemma MoreAccepted(a: Agent, n: nat)
    requires AgentOk(a, n)
    ensures AgentOk(a, n + 1)
  {
    if ReadySent(a.worker) {
      forall m | m in a.pod.out[1..]
        ensures Downward(m, n + 1)
      {
        assert Downward(m, n);
      }
    }
  }

  lemma CliReadKeeps(s: State)
    requires Inv(s)
    ensures Inv(Step(s, DoCliRead))
  {
    if Decode(s.down).Got? && !s.cli.reg.done {
      Take(s.cen.out, s.cli.received, s.down);
      var m := s.cen.out[|s.cli.received|];
      WrittenBackWasSent(s, m);
      ParseInvertsFrameOf(m);
      ReceivedKeepsReads(s.cli, m);
      CliReads(s, Received(s.cli.reg, m), s.cli.received + [m], Remaining(s.down));
    }
  }

  lemma ReceivedKeepsReads(c: Cli, m: Msg)
    requires CliReadsOk(c) && !c.reg.done
    ensures CliReadsOk(c.(reg := Received(c.reg, m), received := c.received + [m]))
  {
    ReceivedKeepsPrefix(c.reg, c.received, m);
  }

  // ----- central's actions ---------------------------------------------------

  /** The session's state at central changes, and what central wrote back. */
  lemma CentralActs(s: State, c: Central, down: Octets)
    requires Inv(s) && c.heard == s.cen.heard && c.sent == s.cen.sent
    requires SentOk(c) && RouteOk(c, s.agt.pod.out) && BridgeOk(c.taken, c.serving, c.out)
    requires OnWire(c.out, s.cli.received, down)
    ensures Inv(s.(cen := c, down := down))
  {
  }

  lemma CentralMoves(s: State, c: Central)
    requires Inv(s) && c.heard == s.cen.heard && c.sent == s.cen.sent
    requires c.taken == s.cen.taken && c.out == s.cen.out && (c.serving ==> s.cen.serving)
    requires SentOk(c) && RouteOk(c, s.agt.pod.out)
    ensures Inv(s.(cen := c))
  {
  }

  lemma CentralStepKeeps(c: Central, log: seq<Msg>, action: Action)
    requires SentOk(c) && RouteOk(c, log)
    ensures var d := CentralStep(c, action);
            && SentOk(d) && RouteOk(d, log) && d.heard == c.heard && d.sent == c.sent
            && d.taken == c.taken && d.out == c.out && (d.serving ==> c.serving)
  {
  }

  lemma ForwardKeeps(s: State)
    requires Inv(s)
    ensures Inv(Step(s, DoForward))
  {
    if !s.cen.phase.Starting? && Decode(s.up).Got? {
      var m := NextFromCli(s.cli, s.cen.heard, s.up);
      ForwardIsHeard(s, m);
      CentralHears(s, Heard(s.cen, m), Remaining(s.up));
    } else {
      ForwardWaits(s);
    }
  }

  lemma ForwardWaits(s: State)
    requires s.cen.phase.Starting? || !Decode(s.up).Got?
    ensures Step(s, DoForward) == s
  {
  }

  lemma NextFromCli(c: Cli, heard: seq<Msg>, up: Octets) returns (m: Msg)
    requires CliWritesOk(c) && OnWire(c.out, heard, up) && Decode(up).Got?
    ensures Decode(up) == Got(FrameOf(m)) && IsUp(m)
    ensures OnWire(c.out, heard + [m], Remaining(up))
  {
    Take(c.out, heard, up);
    m := c.out[|heard|];
    assert Upward(m, c.accepted);
  }

  lemma ForwardIsHeard(s: State, m: Msg)
    requires !s.cen.phase.Starting? && Decode(s.up) == Got(FrameOf(m)) && IsUp(m)
    ensures Step(s, DoForward) == s.(cen := Heard(s.cen, m), up := Remaining(s.up))
  {
    ParseInvertsFrameOf(m);
  }

  lemma CentralHears(s: State, c: Central, up: Octets)
    requires Inv(s) && c == s.cen.(heard := c.heard, sent := c.sent)
    requires SentOk(c) && s.cen.sent <= c.sent && OnWire(s.cli.out, c.heard, up)
    ensures Inv(s.(cen := c, up := up))
  {
  }

  lemma RouteKeeps(s: State)
    requires Inv(s)
    ensures Inv(Step(s, DoRoute))
  {
    if s.streamUp && |s.cen.seen| < |s.agt.pod.out| {
      var m := s.agt.pod.out[|s.cen.seen|];
      if s.cen.missed {
        QuietBeforeRouting(s);
      }
      RoutedKeeps(s.cen, s.agt.pod.out);
      RouteIsRouted(s, m);
      CentralMoves(s, Routed(s.cen, m));
    } else {
      assert Step(s, DoRoute) == s;
    }
  }

  lemma RouteIsRouted(s: State, m: Msg)
    requires s.streamUp && |s.cen.seen| < |s.agt.pod.out| && m == s.agt.pod.out[|s.cen.seen|]
    ensures Step(s, DoRoute) == s.(cen := Routed(s.cen, m))
  {
  }

  lemma RoutedKeeps(c: Central, log: seq<Msg>)
    requires SentOk(c) && RouteOk(c, log) && |c.seen| < |log|
    requires !c.missed
    ensures var d := Routed(c, log[|c.seen|]);
            && SentOk(d) && RouteOk(d, log) && d.heard == c.heard && d.sent == c.sent
            && d.taken == c.taken && d.out == c.out && d.serving == c.serving
  {
    var m := log[|c.seen|];
    assert (c.taken + c.queue) + [m] == c.taken + (c.queue + [m]);
  }

  lemma SelectKeeps(s: State)
    requires Inv(s)
    ensures Inv(Step(s, DoSelect))
  {
    if s.cen.phase.Starting? || !s.cen.serving || (s.cen.queue == [] && !s.cen.phase.Dropped?) {
      SelectWaits(s);
    } else if s.cen.queue != [] {
      SelectRelays(s);
    } else {
      SelectEnds(s);
    }
  }

  lemma SelectWaits(s: State)
    requires s.cen.phase.Starting? || !s.cen.serving || (s.cen.queue == [] && !s.cen.phase.Dropped?)
    ensures Step(s, DoSelect) == s
  {
  }

  lemma SelectEnds(s: State)
    requires Inv(s) && s.cen.phase.Dropped? && s.cen.serving && s.cen.queue == []
    ensures Inv(Step(s, DoSelect))
  {
    var m := SessionError(s.cen.reason);
    if s.cen.reason != [] && Fits(FrameOf(m)) {
      Put(s.cen.out, s.cli.received, s.down, m);
    }
    CentralActs(s, Select(s).cen, Select(s).down);
  }

  lemma SelectRelays(s: State)
    requires Inv(s) && !s.cen.phase.Starting? && s.cen.serving && s.cen.queue != []
    ensures Inv(Step(s, DoSelect))
  {
    var m := s.cen.queue[0];
    SelectIsRelayed(s);
    RelayedKeeps(s.cen, s.agt.pod.out);
    if Fits(FrameOf(m)) {
      Put(s.cen.out, s.cli.received, s.down, m);
      CentralActs(s, Relayed(s.cen), s.down + Encode(FrameOf(m)));
    } else {
      CentralActs(s, Relayed(s.cen), s.down);
    }
  }

  lemma SelectIsRelayed(s: State)
    requires !s.cen.phase.Starting? && s.cen.serving && s.cen.queue != []
    ensures var f := FrameOf(s.cen.queue[0]);
            Step(s, DoSelect) == s.(cen := Relayed(s.cen), down := if Fits(f) then s.down + Encode(f) else s.down)
  {
  }

  /** Central's session after the bridge passed on the head of its queue. */
  function Relayed(c: Central): Central
    requires c.queue != []
  {
    var m := c.queue[0];
    c.(queue := c.queue[1..], taken := c.taken + [m], serving := !m.SessionError?,
       out := if Fits(FrameOf(m)) then c.out + [m] else c.out)
  }

  lemma RelayedKeeps(c: Central, log: seq<Msg>)
    requires SentOk(c) && RouteOk(c, log) && BridgeOk(c.taken, c.serving, c.out)
    requires c.serving && c.queue != []
    ensures var d := Relayed(c);
            SentOk(d) && RouteOk(d, log) && BridgeOk(d.taken, d.serving, d.out)
  {
    SendableAppend(c.taken, c.queue[0]);
    HeadMoves(c.taken, c.queue);
  }

  lemma HeadMoves(taken: seq<Msg>, queue: seq<Msg>)
    requires queue != []
    ensures taken + queue == (taken + [queue[0]]) + queue[1..]
  {
  }

  // ----- the agent's actions -------------------------------------------------

  lemma TraceGrows(w: Worker, out: seq<Msg>, n: nat, m: Msg)
    requires ReadySent(w) && Trace(w, out, n) && Downward(m, n)
    ensures Trace(w, out + [m], n)
  {
    assert (out + [m])[1..] == out[1..] + [m];
  }

  /** A message without data about the pod's bytes changes none of them. */
  lemma SaysKeepsPod(a: Agent, n: nat, m: Msg, w: Worker)
    requires PodOk(a, n) && !m.Data?
    ensures PodOk(AgentSend(a, m).(worker := w), n)
  {
    forall id: ConnId
      ensures AnsweredFor(a.pod.out + [m], a.read, id)
    {
      assert AnsweredFor(a.pod.out, a.read, id);
      DataOfAppend(a.pod.out, m, id);
    }
    SamePodPrefix(a.pod, a.pod.out + [m], a.handled, a.written);
  }

  lemma SamePodPrefix(p: Pod, out: seq<Msg>, handled: seq<Msg>, written: map<ConnId, Octets>)
    requires QueuedIsPrefix(p, handled) && forall id: ConnId :: WrittenFor(p, written, id)
    ensures QueuedIsPrefix(p.(out := out), handled) && forall id: ConnId :: WrittenFor(p.(out := out), written, id)
  {
    ClosingKeepsPrefix(p, p.(out := out), handled);
    forall id: ConnId
      ensures WrittenFor(p.(out := out), written, id)
    {
      assert WrittenFor(p, written, id);
    }
  }

  lemma ClosingKeepsWritten(p: Pod, q: Pod, written: map<ConnId, Octets>)
    requires forall id: ConnId :: WrittenFor(p, written, id)
    requires q.queued == p.queued && q.conns.Keys <= p.conns.Keys
    requires forall id | id in q.conns :: q.conns[id] == p.conns[id]
    ensures forall id: ConnId :: WrittenFor(q, written, id)
  {
    forall id: ConnId
      ensures WrittenFor(q, written, id)
    {
      assert WrittenFor(p, written, id);
    }
  }

  lemma BeginKeeps(a: Agent, n: nat)
    requires AgentOk(a, n)
    ensures AgentOk(Begin(a), n) && AgentOk(CancelEntry(a), n) && AgentOk(Attach(a), n)
  {
  }

  lemma FailKeeps(a: Agent, n: nat, text: Octets)
    requires AgentOk(a, n)
    ensures AgentOk(Fail(a, text), n)
  {
    if a.worker.Establishing? {
      SaysKeepsPod(a, n, SessionError(text), Failed);
    }
  }

  lemma SendReadyKeeps(a: Agent, n: nat)
    requires AgentOk(a, n)
    ensures AgentOk(SendReady(a), n)
  {
    if a.worker.Attached? {
      SaysKeepsPod(a, n, Ready, Running);
    }
  }

  lemma EndWorkerKeeps(a: Agent, n: nat)
    requires AgentOk(a, n)
    ensures AgentOk(EndWorker(a), n)
  {
    if a.worker.Running? {
      ClosingKeepsPrefix(a.pod, PodShutdown(a.pod), a.handled);
      ClosingKeepsWritten(a.pod, PodShutdown(a.pod), a.written);
    }
  }

  lemma PodReadKeeps(a: Agent, n: nat, id: ConnId, chunk: Octets)
    requires AgentOk(a, n)
    ensures AgentOk(PodRead(a, id, chunk), n)
  {
    if id in a.readers && |chunk| <= CHUNK {
      var m, b := Data(id, chunk), PodRead(a, id, chunk);
      TraceGrows(a.worker, a.pod.out, n, m);
      forall i: ConnId
        ensures AnsweredFor(b.pod.out, b.read, i)
      {
        assert AnsweredFor(a.pod.out, a.read, i);
        DataOfAppend(a.pod.out, m, i);
      }
      SamePodPrefix(a.pod, b.pod.out, a.handled, a.written);
    }
  }

  lemma PodEofKeeps(a: Agent, n: nat, id: ConnId)
    requires AgentOk(a, n)
    ensures AgentOk(PodEof(a, id), n)
  {
    if id in a.readers {
      var b := a.(readers := a.readers - {id}, pod := PodClose(a.pod, id));
      ClosingKeepsPrefix(a.pod, b.pod, a.handled);
      ClosingKeepsWritten(a.pod, b.pod, a.written);
      SaysKeepsPod(b, n, Close(id), b.worker);
      TraceGrows(b.worker, b.pod.out, n, Close(id));
    }
  }

  lemma PodWriteKeeps(a: Agent, n: nat, id: ConnId)
    requires AgentOk(a, n)
    ensures AgentOk(PodWrite(a, id), n)
  {
    if id in a.pod.conns && a.pod.conns[id] != [] {
      var b := PodWrite(a, id);
      ClosingKeepsPrefix(a.pod, b.pod, a.handled);
      forall i: ConnId
        ensures WrittenFor(b.pod, b.written, i)
      {
        assert WrittenFor(a.pod, a.written, i);
        if i == id {
          WriteOne(At(a.written, id), a.pod.conns[id]);
        }
      }
    }
  }

  lemma WriteOne(written: Octets, queue: seq<Octets>)
    requires queue != []
    ensures written + Flatten(queue) == (written + queue[0]) + Flatten(queue[1..])
  {
  }

  // ----- the agent takes a message ---------------------------------------------

  lemma {:induction false} FlattenAppend(queue: seq<Octets>, chunk: Octets)
    ensures Flatten(queue + [chunk]) == Flatten(queue) + chunk
  {
    if queue == [] {
      assert Flatten([chunk]) == chunk + Flatten([]);
    } else {
      FlattenAppend(queue[1..], chunk);
      assert (queue + [chunk])[1..] == queue[1..] + [chunk];
    }
  }

  lemma ProcessKeepsWritten(p: Pod, handled: seq<Msg>, written: map<ConnId, Octets>, m: Msg, dial: Dial, id: ConnId)
    requires QueuedFor(p, handled, id) && WrittenFor(p, written, id)
    requires m.Open? ==> Unannounced(handled, m.id)
    ensures WrittenFor(Process(p, m, dial), written, id)
  {
    if m.Open? && m.id == id {
      NoDataWithoutMessage(handled, id);
    } else if m.Data? && m.id == id {
      DataKeepsWritten(p, written, id, m.data);
    }
  }

  lemma DataKeepsWritten(p: Pod, written: map<ConnId, Octets>, id: ConnId, data: Octets)
    requires WrittenFor(p, written, id)
    ensures WrittenFor(PodData(p, id, data), written, id)
  {
    if id in p.conns {
      FlattenAppend(p.conns[id], data);
      Associates(At(written, id), Flatten(p.conns[id]), data);
    }
  }

  lemma ProcessSays(p: Pod, m: Msg, dial: Dial, w: Worker, n: nat, read: map<ConnId, Octets>)
    requires ReadySent(w) && Trace(w, p.out, n) && Upward(m, n)
    requires forall id: ConnId :: AnsweredFor(p.out, read, id)
    ensures p.out <= Process(p, m, dial).out && Trace(w, Process(p, m, dial).out, n)
    ensures forall id: ConnId :: AnsweredFor(Process(p, m, dial).out, read, id)
  {
    var q := Process(p, m, dial);
    if q.out != p.out {
      var e := q.out[|p.out|];
      assert q.out == p.out + [e] && e.ConnError? && e.id == m.id;
      TraceGrows(w, p.out, n, e);
      forall id: ConnId
        ensures AnsweredFor(q.out, read, id)
      {
        assert AnsweredFor(p.out, read, id);
        DataOfAppend(p.out, e, id);
      }
    }
  }

  lemma TakesKeepsPod(a: Agent, m: Msg, dial: Dial, n: nat)
    requires PodOk(a, n) && ReadySent(a.worker) && Trace(a.worker, a.pod.out, n) && Upward(m, n)
    requires m.Open? ==> Unannounced(a.handled, m.id)
    ensures PodOk(Takes(a, m, dial), n)
  {
    if a.entry.HasPf? {
      var b := Takes(a, m, dial);
      ProcessKeepsPrefix(a.pod, a.handled, m, dial);
      ProcessSays(a.pod, m, dial, a.worker, n, a.read);
      forall id: ConnId
        ensures WrittenFor(b.pod, b.written, id)
      {
        assert QueuedFor(a.pod, a.handled, id) && WrittenFor(a.pod, a.written, id);
        ProcessKeepsWritten(a.pod, a.handled, a.written, m, dial, id);
      }
    }
  }

  lemma TakesKeepsSession(a: Agent, m: Msg, dial: Dial, n: nat)
    requires AgentOk(a, n) && ReadySent(a.worker) && Upward(m, n)
    ensures SessionOk(Takes(a, m, dial), n) && a.pod.out <= Takes(a, m, dial).pod.out
  {
    if a.entry.HasPf? {
      ProcessSays(a.pod, m, dial, a.worker, n, a.read);
    }
  }

  /** What the agent takes next is a message of the CLI; and if it opens a
      connection, the agent has not heard of that connection. */
  lemma NextForAgent(s: State)
    requires Inv(s) && |s.agt.received| < |s.cen.sent|
    ensures var m := s.cen.sent[|s.agt.received|];
            && Upward(m, s.cli.accepted)
            && (m.Open? ==> Unannounced(s.agt.received, m.id))
            && s.agt.received + [m] <= s.cen.sent
    ensures ReadySent(s.agt.worker)
  {
    var k := |s.agt.received|;
    var m := s.cen.sent[k];
    assert s.cli.out[k] == m && s.agt.received == s.cli.out[..k];
    assert Upward(m, s.cli.accepted);
    if m.Open? {
      OpensFirstAt(s.cli.out, k);
    }
    WritingNeedsReady(s);
    ReadyCameThrough(s);
  }

  lemma AgentReceiveKeeps(s: State, dial: Dial)
    requires Inv(s)
    ensures Inv(Step(s, DoAgentReceive(dial)))
  {
    if s.streamUp && |s.agt.received| < |s.cen.sent| {
      NextForAgent(s);
      var m := s.cen.sent[|s.agt.received|];
      if m.Open? {
        UnannouncedBefore(s.agt.handled, s.agt.received, m.id);
      }
      TakesKeepsPod(s.agt, m, dial, s.cli.accepted);
      TakesKeepsSession(s.agt, m, dial, s.cli.accepted);
      ReceiveIsTakes(s, dial);
      AgentActs(s, Takes(s.agt, m, dial));
    } else {
      assert Step(s, DoAgentReceive(dial)) == s;
    }
  }

  lemma ReceiveIsTakes(s: State, dial: Dial)
    requires s.streamUp && |s.agt.received| < |s.cen.sent|
    ensures Step(s, DoAgentReceive(dial)) == s.(agt := Takes(s.agt, s.cen.sent[|s.agt.received|], dial))
  {
  }

  lemma UnannouncedBefore(ms: seq<Msg>, ns: seq<Msg>, id: ConnId)
    requires ms <= ns && Unannounced(ns, id)
    ensures Unannounced(ms, id)
  {
    assert forall m | m in ms :: m in ns;
  }

  lemma AgentActs(s: State, b: Agent)
    requires Inv(s) && AgentOk(b, s.cli.accepted) && s.agt.pod.out <= b.pod.out && b.received <= s.cen.sent
    ensures Inv(s.(agt := b))
  {
  }
}
