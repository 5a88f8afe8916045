/** Which sessions a stream lists, and who closes a session that has left the map,
    under every interleaving of the manager's calls. */
module SessionHomes {
  import opened Wire
  import opened ExecFrame
  import opened Sessions
  import opened SessionRuns
  import opened SessionCalls

  /** The session's start was sent on this stream, its home. */
  predicate Home(c: Core, st: Stream, id: SessionId) {
    (st, Command.Start(id)) in c.sent
  }

  predicate HomeOk(c: Core, st: Stream, id: SessionId) {
    && id in c.store && st < |c.conns| && c.conns[st].agent == c.store[id].agent
    && (id in c.sessions ==> id in c.conns[st].sessions)
  }

  /** A session has one home, which still lists it while it is tracked; and no
      stream ever lists a session whose home it is not. */
  ghost predicate HomesOk(c: Core) {
    && (forall st: Stream, u: Stream, id: SessionId :: Home(c, st, id) && Home(c, u, id) ==> st == u)
    && (forall st: Stream, id: SessionId :: Home(c, st, id) ==> HomeOk(c, st, id))
    && (forall st, id | 0 <= st < |c.conns| && id in c.conns[st].sessions :: Home(c, st, id))
  }

  /** A start in flight has no home yet, or just this one. */
  ghost predicate StartOk(c: Core, pc: Pc) {
    match pc
    case Checked(st, id) => forall u: Stream :: !Home(c, u, id)
    case Sent(st, id) => Home(c, st, id) && forall u: Stream :: Home(c, u, id) ==> u == st
    case _ => true
  }

  ghost predicate HomeInv(s: State) {
    && Inv(s) && HomesOk(s.core)
    && (forall t | t in s.threads :: StartOk(s.core, s.threads[t]))
  }

  /** The section sends and inserts nothing. */
  ghost predicate OnlyRemoves(c: Core, d: Core) {
    && d.sent == c.sent && d.sessions <= c.sessions && |c.conns| <= |d.conns|
    && (forall id | id in c.store :: id in d.store && d.store[id].agent == c.store[id].agent)
    && (forall st | 0 <= st < |c.conns| :: ConnKept(c.conns[st], d.conns[st], d.sessions))
    && (forall st | |c.conns| <= st < |d.conns| :: d.conns[st].sessions == {})
  }

  predicate ConnKept(a: Conn, b: Conn, tracked: set<SessionId>) {
    b.agent == a.agent && b.sessions <= a.sessions && a.sessions * tracked <= b.sessions
  }

  lemma RemovingKeepsHomes(c: Core, d: Core)
    requires HomesOk(c) && OnlyRemoves(c, d)
    ensures HomesOk(d)
  {
    assert forall st: Stream, id: SessionId :: Home(d, st, id) <==> Home(c, st, id);
    forall st: Stream, id: SessionId | Home(d, st, id)
      ensures HomeOk(d, st, id)
    {
      assert HomeOk(c, st, id);
    }
    forall st, id | 0 <= st < |d.conns| && id in d.conns[st].sessions
      ensures Home(d, st, id)
    {
      assert Home(c, st, id);
    }
  }

  lemma SendingKeepsHomes(c: Core, st: Stream, cmd: Command)
    requires HomesOk(c)
    requires cmd.Start? ==> cmd.id in c.store && cmd.id !in c.sessions && st < |c.conns|
                            && c.conns[st].agent == c.store[cmd.id].agent && forall u: Stream :: !Home(c, u, cmd.id)
    ensures HomesOk(Transmit(c, st, cmd))
  {
    var d := Transmit(c, st, cmd);
    forall u: Stream, id: SessionId
      ensures Home(d, u, id) <==> Home(c, u, id) || (u, Command.Start(id)) == (st, cmd)
    {
      assert d.sent[|c.sent|] == (st, cmd);
    }
    forall u: Stream, id: SessionId | Home(d, u, id)
      ensures HomeOk(d, u, id)
    {
      assert Home(c, u, id) ==> HomeOk(c, u, id);
    }
    forall u, id | 0 <= u < |d.conns| && id in d.conns[u].sessions
      ensures Home(d, u, id)
    {
      assert Home(c, u, id);
    }
  }

  lemma InsertingKeepsHomes(c: Core, st: Stream, id: SessionId)
    requires HomesOk(c) && Home(c, st, id) && forall u: Stream :: Home(c, u, id) ==> u == st
    ensures HomesOk(Insert(c, st, id))
  {
    var d := Insert(c, st, id);
    assert HomeOk(c, st, id);
    assert forall u: Stream, i: SessionId :: Home(d, u, i) <==> Home(c, u, i);
    forall u: Stream, i: SessionId | Home(d, u, i)
      ensures HomeOk(d, u, i)
    {
      assert Home(c, u, i) && HomeOk(c, u, i);
    }
    forall u, i | 0 <= u < |d.conns| && i in d.conns[u].sessions
      ensures Home(d, u, i)
    {
      assert (u == st && i == id) || i in c.conns[u].sessions;
      assert Home(c, u, i);
    }
  }

  /** One thread moves, and the homes of the sessions that others start stay. */
  lemma MoveKeepsHomes(s: State, t: Thread, next: State)
    requires HomeInv(s) && Inv(next) && HomesOk(next.core) && next.threads - {t} == s.threads - {t}
    requires forall st: Stream, u | u in s.threads && u != t && IsStarting(s.threads[u]) ::
               Home(next.core, st, s.threads[u].id) <==> Home(s.core, st, s.threads[u].id)
    requires t in next.threads ==> StartOk(next.core, next.threads[t])
    ensures HomeInv(next)
  {
    forall u | u in next.threads && u != t
      ensures StartOk(next.core, next.threads[u])
    {
      assert u in next.threads - {t};
      assert u in s.threads && next.threads[u] == (next.threads - {t})[u] == (s.threads - {t})[u] == s.threads[u];
      assert StartOk(s.core, s.threads[u]);
    }
  }

  lemma EnterOnlyRemoves(s: State, t: Thread, call: Call)
    requires Inv(s) && t !in s.threads
    ensures OnlyRemoves(s.core, Enter(s, t, call).core)
  {
    var c := s.core;
    NothingRemoved(c);
    match call
    case RegisterStream(agent) => RegisterOnlyRemoves(c, agent);
    case UnregisterStream(agent) => DetachOnlyRemoves(c, agent);
    case StartSession(agent, kind, id) => AllocateOnlyRemoves(c, agent, kind, id);
    case ReceiveChunk(id) => PopOnlyRemoves(c, id);
    case _ =>
      assert Enter(s, t, call).core == c;
  }

  lemma NothingRemoved(c: Core)
    ensures OnlyRemoves(c, c)
  {
  }

  lemma RegisterOnlyRemoves(c: Core, agent: AgentId)
    ensures OnlyRemoves(c, Register(c, agent))
  {
  }

  lemma DetachOnlyRemoves(c: Core, agent: AgentId)
    ensures OnlyRemoves(c, Detach(c, agent))
  {
  }

  lemma AllocateOnlyRemoves(c: Core, agent: AgentId, kind: Kind, id: SessionId)
    ensures id !in c.store ==> OnlyRemoves(c, Allocate(c, agent, kind, id))
  {
  }

  lemma DropOnlyRemoves(c: Core, id: SessionId)
    ensures OnlyRemoves(c, Drop(c, id))
  {
  }

  lemma CloseOnlyRemoves(c: Core, id: SessionId, outcome: Outcome)
    ensures OnlyRemoves(c, Close(c, id, outcome))
  {
  }

  lemma PopOnlyRemoves(c: Core, id: SessionId)
    ensures OnlyRemoves(c, Pop(c, id))
  {
  }

  lemma PushOnlyRemoves(c: Core, id: SessionId, chunk: Chunk)
    ensures OnlyRemoves(c, Push(c, id, chunk))
  {
  }

  lemma EnterKeepsHomes(s: State, t: Thread, call: Call)
    requires HomeInv(s) && t !in s.threads
    ensures HomeInv(Enter(s, t, call))
  {
    var next := Enter(s, t, call);
    EnterKeepsInv(s, t, call);
    EnterOnlyRemoves(s, t, call);
    EnterShape(s, t, call);
    RemovingKeepsHomes(s.core, next.core);
    if t in next.threads {
      EnterStartsFresh(s, t, call);
    }
    assert forall st: Stream, i: SessionId :: Home(next.core, st, i) <==> Home(s.core, st, i);
    MoveKeepsHomes(s, t, next);
  }

  lemma EnterStartsFresh(s: State, t: Thread, call: Call)
    requires HomeInv(s) && t !in s.threads && t in Enter(s, t, call).threads
    ensures StartOk(Enter(s, t, call).core, Enter(s, t, call).threads[t])
  {
    var next := Enter(s, t, call);
    if call.StartSession? {
      assert call.id !in s.core.store && next.threads[t].id == call.id && next.core.sent == s.core.sent;
      forall u: Stream
        ensures !Home(next.core, u, call.id)
      {
        assert Home(s.core, u, call.id) ==> HomeOk(s.core, u, call.id);
      }
    }
  }

  lemma ResumeKeepsHomes(s: State, t: Thread, sendOk: bool, pick: SessionId)
    requires HomeInv(s) && t in s.threads
    ensures HomeInv(Resume(s, t, sendOk, pick))
  {
    var next := Resume(s, t, sendOk, pick);
    ResumeKeepsInv(s, t, sendOk, pick);
    assert StartOk(s.core, s.threads[t]) && PcInv(s.core, s.threads[t]);
    match s.threads[t]
    case Checked(st, id) => CheckedKeepsHomes(s, t, sendOk, pick);
    case Sent(st, id) =>
      InsertingKeepsHomes(s.core, st, id);
      assert next.threads - {t} == s.threads - {t};
      assert forall u: Stream, i: SessionId :: Home(next.core, u, i) <==> Home(s.core, u, i);
      MoveKeepsHomes(s, t, next);
    case _ => OtherKeepsHomes(s, t, sendOk, pick);
  }

  lemma CheckedKeepsHomes(s: State, t: Thread, sendOk: bool, pick: SessionId)
    requires HomeInv(s) && t in s.threads && s.threads[t].Checked? && Inv(Resume(s, t, sendOk, pick))
    ensures HomeInv(Resume(s, t, sendOk, pick))
  {
    var next, st, id := Resume(s, t, sendOk, pick), s.threads[t].st, s.threads[t].id;
    assert PcInv(s.core, s.threads[t]) && StartOk(s.core, s.threads[t]);
    assert next.threads - {t} == s.threads - {t};
    if sendOk {
      SendingKeepsHomes(s.core, st, Command.Start(id));
      StartGivesHome(s.core, st, id);
      MoveKeepsHomes(s, t, next);
    } else {
      MoveKeepsHomes(s, t, next);
    }
  }

  lemma StartGivesHome(c: Core, st: Stream, id: SessionId)
    requires forall u: Stream :: !Home(c, u, id)
    ensures var d := Transmit(c, st, Command.Start(id));
            && (forall u: Stream :: Home(d, u, id) <==> u == st)
            && (forall u: Stream, i: SessionId | i != id :: Home(d, u, i) <==> Home(c, u, i))
  {
    var d := Transmit(c, st, Command.Start(id));
    forall u: Stream, i: SessionId
      ensures Home(d, u, i) <==> Home(c, u, i) || (u == st && i == id)
    {
      assert d.sent[|c.sent|] == (st, Command.Start(id));
      assert (u, Command.Start(i)) in d.sent <==>
             (u, Command.Start(i)) in c.sent || (u, Command.Start(i)) == (st, Command.Start(id));
    }
  }

  lemma OtherKeepsHomes(s: State, t: Thread, sendOk: bool, pick: SessionId)
    requires HomeInv(s) && t in s.threads && !IsStarting(s.threads[t]) && Inv(Resume(s, t, sendOk, pick))
    ensures HomeInv(Resume(s, t, sendOk, pick))
  {
    var next := Resume(s, t, sendOk, pick);
    ResumeShape(s, t, sendOk, pick);
    if SendsOther(s.threads[t], sendOk) {
      OtherSendKeepsHomes(s, t, sendOk, pick);
    } else {
      OthersOnlyRemove(s, t, sendOk, pick);
      RemovingKeepsHomes(s.core, next.core);
      assert forall u: Stream, i: SessionId :: Home(next.core, u, i) <==> Home(s.core, u, i);
      MoveKeepsHomes(s, t, next);
    }
  }

  predicate SendsOther(pc: Pc, sendOk: bool) {
    sendOk && ((pc.Cancelling? && pc.via.Some?) || pc.Sending?)
  }

  lemma OthersOnlyRemove(s: State, t: Thread, sendOk: bool, pick: SessionId)
    requires Inv(s) && t in s.threads && !IsStarting(s.threads[t]) && !SendsOther(s.threads[t], sendOk)
    ensures OnlyRemoves(s.core, Resume(s, t, sendOk, pick).core)
  {
    var c := s.core;
    NothingRemoved(c);
    match s.threads[t]
    case Ending(id, _) => DropOnlyRemoves(c, id);
    case Dropped(id, outcome) => CloseOnlyRemoves(c, id, outcome);
    case Delivering(id, chunk) => PushOnlyRemoves(c, id, chunk);
    case Disconnecting(dead) => CloseOnlyRemoves(c, pick, DISCONNECTED);
    case _ =>
  }

  lemma OtherSendKeepsHomes(s: State, t: Thread, sendOk: bool, pick: SessionId)
    requires HomeInv(s) && t in s.threads && SendsOther(s.threads[t], sendOk) && Inv(Resume(s, t, sendOk, pick))
    ensures HomeInv(Resume(s, t, sendOk, pick))
  {
    var next, pc := Resume(s, t, sendOk, pick), s.threads[t];
    ResumeShape(s, t, sendOk, pick);
    assert PcInv(s.core, pc);
    var st := if pc.Sending? then pc.st else pc.via.value;
    var cmd := if pc.Sending? then pc.cmd else Command.Cancel(pc.id);
    assert next.core == Transmit(s.core, st, cmd) && !cmd.Start?;
    SendingKeepsHomes(s.core, st, cmd);
    assert forall u: Stream, i: SessionId :: Home(next.core, u, i) <==> Home(s.core, u, i);
    MoveKeepsHomes(s, t, next);
  }

  lemma {:induction false} RunKeepsHomes(s: State, labels: seq<Label>)
    requires HomeInv(s)
    ensures HomeInv(Run(s, labels))
    decreases |labels|
  {
    if labels != [] {
      StepKeepsHomes(s, labels[0]);
      RunKeepsHomes(Step(s, labels[0]), labels[1..]);
    }
  }

  lemma StepKeepsHomes(s: State, l: Label)
    requires HomeInv(s)
    ensures HomeInv(Step(s, l))
  {
    if !s.crashed {
      match l
      case Begin(t, call) =>
        if t !in s.threads {
          EnterKeepsHomes(s, t, call);
        }
      case Continue(t, sendOk, pick) =>
        if t in s.threads {
          ResumeKeepsHomes(s, t, sendOk, pick);
        }
    }
  }

  lemma Reachable(maxConcurrent: int, labels: seq<Label>) returns (s: State)
    ensures s == Run(Initial(maxConcurrent), labels) && HomeInv(s)
  {
    InitialInv(maxConcurrent);
    RunKeepsHomes(Initial(maxConcurrent), labels);
    s := Run(Initial(maxConcurrent), labels);
  }

  // ----- which streams list a session ---------------------------------------

  /** The stream registered for its agent lists the session. */
  predicate Listed(c: Core, id: SessionId) {
    id in c.store && id in Doomed(c, c.store[id].agent)
  }

  /** A tracked session is listed exactly while the stream that its start was sent
      on is the one registered for its agent. */
  lemma ListedExactly(maxConcurrent: int, labels: seq<Label>, id: SessionId)
    ensures var c := Run(Initial(maxConcurrent), labels).core;
            id in c.sessions ==> (Listed(c, id) <==> exists st: Stream :: Home(c, st, id) && Registered(c, st))
  {
    var s := Reachable(maxConcurrent, labels);
    var c := s.core;
    if id in c.sessions {
      var agent := c.store[id].agent;
      if id in Doomed(c, agent) {
        assert Home(c, c.agents[agent], id) && Registered(c, c.agents[agent]);
      }
      if st: Stream :| Home(c, st, id) && Registered(c, st) {
        assert HomeOk(c, st, id);
        assert c.agents[agent] == st;
      }
    }
  }

  /** connFor finds the stream that a session was started on exactly while that is
      the registered one; otherwise it finds a stream that never carried its start. */
  lemma LookupFindsHomeExactly(maxConcurrent: int, labels: seq<Label>, id: SessionId)
    requires ConnFor(Run(Initial(maxConcurrent), labels).core, id).Some?
    ensures var c := Run(Initial(maxConcurrent), labels).core;
            var found := ConnFor(c, id).value;
            && (Home(c, found, id) <==> Listed(c, id))
            && (!Listed(c, id) ==> forall cmd | (found, cmd) in c.sent :: cmd != Command.Start(id))
  {
    var s := Reachable(maxConcurrent, labels);
    var c := s.core;
    var found := ConnFor(c, id).value;
    assert Home(c, found, id) ==> HomeOk(c, found, id);
    assert Listed(c, id) ==> id in c.conns[found].sessions;
  }

  /** What an agent hears of a session on the stream it was started on, it hears
      after the start. */
  lemma HomeHearsStartFirst(maxConcurrent: int, labels: seq<Label>, i: nat)
    ensures var c := Run(Initial(maxConcurrent), labels).core;
            i < |c.sent| && !c.sent[i].1.Start? && Home(c, c.sent[i].0, c.sent[i].1.id) ==>
              exists j :: 0 <= j < i && c.sent[j] == (c.sent[i].0, Command.Start(c.sent[i].1.id))
  {
    var s := Reachable(maxConcurrent, labels);
    var c := s.core;
    NothingBeforeStart(maxConcurrent, labels, i);
    if i < |c.sent| && !c.sent[i].1.Start? && Home(c, c.sent[i].0, c.sent[i].1.id) {
      var id := c.sent[i].1.id;
      var j :| 0 <= j < i && c.sent[j].1 == Command.Start(id);
      assert Home(c, c.sent[j].0, id);
    }
  }

  /** What UnregisterAgentStream takes out of the map: exactly the tracked sessions
      whose start was sent on the stream now registered for the agent. */
  lemma DisconnectTakesExactly(maxConcurrent: int, labels: seq<Label>, t: Thread, agent: AgentId, id: SessionId)
    requires var s := Run(Initial(maxConcurrent), labels);
             !s.crashed && t !in s.threads && id in s.core.sessions
    ensures var s := Run(Initial(maxConcurrent), labels);
            id !in Step(s, Begin(t, UnregisterStream(agent))).core.sessions
            <==> (agent in s.core.agents && Home(s.core, s.core.agents[agent], id))
  {
    var s := Reachable(maxConcurrent, labels);
    var c := s.core;
    if agent in c.agents && Home(c, c.agents[agent], id) {
      assert HomeOk(c, c.agents[agent], id);
    }
    if id in Doomed(c, agent) {
      assert Home(c, c.agents[agent], id);
    }
  }

  /** OpenStream unregisters its agent, not its stream.  So the end of a stream takes
      a session started on it out of the map exactly if the stream was not replaced. */
  lemma StreamEndTakesExactly(maxConcurrent: int, labels: seq<Label>, t: Thread, st: Stream, id: SessionId)
    requires var s := Run(Initial(maxConcurrent), labels);
             !s.crashed && t !in s.threads && id in s.core.sessions && Home(s.core, st, id)
    ensures var c := Run(Initial(maxConcurrent), labels).core;
            st < |c.conns| &&
            (id !in Step(Run(Initial(maxConcurrent), labels), EndOf(c, t, st)).core.sessions <==> Registered(c, st))
  {
    var s := Reachable(maxConcurrent, labels);
    assert HomeOk(s.core, st, id);
    DisconnectTakesExactly(maxConcurrent, labels, t, s.core.conns[st].agent, id);
  }

  function EndOf(c: Core, t: Thread, st: Stream): Label
    requires st < |c.conns|
  {
    Begin(t, UnregisterStream(c.conns[st].agent))
  }

  /** The end of a replaced stream leaves its own sessions in the map, takes out
      those of its successor, and unregisters the successor: the agent's sessions
      then have no stream. */
  lemma StaleEndTakesSuccessor(maxConcurrent: int, labels: seq<Label>, t: Thread, st: Stream, u: Stream, id: SessionId)
    requires var s := Run(Initial(maxConcurrent), labels);
             && !s.crashed && t !in s.threads && id in s.core.sessions
             && st < |s.core.conns| && st != u && Registered(s.core, u)
             && u < |s.core.conns| && s.core.conns[u].agent == s.core.conns[st].agent
    ensures var c := Run(Initial(maxConcurrent), labels).core;
            var d := Step(Run(Initial(maxConcurrent), labels), EndOf(c, t, st)).core;
            && (Home(c, u, id) ==> id !in d.sessions) && (Home(c, st, id) ==> id in d.sessions)
            && !Registered(d, u)
            && (id in d.store && d.store[id].agent == c.conns[st].agent ==> ConnFor(d, id).None?)
  {
    var s := Reachable(maxConcurrent, labels);
    DisconnectTakesExactly(maxConcurrent, labels, t, s.core.conns[st].agent, id);
  }

  /** Two streams of one agent, a session on each, then the end of the first. */
  const STALE_END: seq<(Call, bool)> := [
    (RegisterStream("a"), true), (StartSession("a", Exec, 1), true),
    (RegisterStream("a"), true), (StartSession("a", Exec, 2), true),
    (UnregisterStream("a"), true)]

  lemma StaleEndHappens(maxConcurrent: int)
    requires maxConcurrent != 1
    ensures var c := History(Initial(maxConcurrent).core, STALE_END);
            c.sessions == {1} && 2 in c.inserted && Closed(c, 2) && "a" !in c.agents
  {
    var c0 := Initial(maxConcurrent).core;
    var c1 := Register(c0, "a");
    var c2 := AfterStart(c1, "a", Exec, 1, true);
    var c3 := Register(c2, "a");
    assert c3.sessions == {1};
    var c4 := AfterStart(c3, "a", Exec, 2, true);
    assert c4.sessions == {1, 2} && Doomed(c4, "a") == {2};
    var c5 := AfterUnregister(c4, "a");
    assert STALE_END[1..][1..][1..][1..][1..] == [];
    assert History(c4, STALE_END[1..][1..][1..][1..]) == c5;
    assert History(c2, STALE_END[1..][1..]) == History(c4, STALE_END[1..][1..][1..][1..]);
  }

  /** A tracked session that is not listed is never listed again, so no end of a
      stream will close it. */
  lemma UnlistedForGood(maxConcurrent: int, before: seq<Label>, after: seq<Label>, id: SessionId)
    ensures var c := Run(Initial(maxConcurrent), before).core;
            var d := Run(Run(Initial(maxConcurrent), before), after).core;
            id in c.sessions && id in d.sessions && !Listed(c, id) ==> !Listed(d, id)
  {
    var s := Reachable(maxConcurrent, before);
    RunKeepsInv(s, after);
    RunKeepsHomes(s, after);
    var c, d := s.core, Run(s, after).core;
    if id in c.sessions && id in d.sessions && Listed(d, id) {
      assert Announced(c.sent, id);
      var i :| 0 <= i < |c.sent| && c.sent[i].1 == Command.Start(id);
      var st := c.sent[i].0;
      assert Home(c, st, id) && d.sent[i] == c.sent[i] && Home(d, st, id);
      assert Home(d, d.agents[d.store[id].agent], id) && Registered(d, st) && Registered(c, st);
      assert HomeOk(c, st, id);
    }
  }

  /** From any state a start that has passed its check can be overtaken by the end
      of its agent's stream: its session is then tracked and open, but not listed,
      though no stream was replaced. */
  lemma StartOvertaken(s: State, t: Thread, u: Thread, agent: AgentId, kind: Kind, id: SessionId)
    returns (labels: seq<Label>)
    requires Inv(s) && !s.crashed && t !in s.threads && u !in s.threads && t != u
    requires MayStart(s.core, agent) && id !in s.core.store
    ensures var c := Run(s, labels).core;
            id in c.sessions && !Closed(c, id) && !Listed(c, id)
  {
    var begin := Begin(t, StartSession(agent, kind, id));
    var st, s1 := s.core.agents[agent], Step(s, begin);
    StepKeepsInv(s, begin);
    var disconnect := WholeCallIsRun(s1, u, UnregisterStream(agent), true);
    RunKeepsInv(s1, disconnect);
    var finish := StartFinishes(Run(s1, disconnect), t, st, id);
    labels := [begin] + (disconnect + finish);
    RunOne(s, begin);
    RunConcat(s1, disconnect, finish);
    RunConcat(s, [begin], disconnect + finish);
  }

  lemma StartFinishes(s: State, t: Thread, st: Stream, id: SessionId) returns (labels: seq<Label>)
    requires Inv(s) && !s.crashed && t in s.threads && s.threads[t] == Checked(st, id)
    ensures Run(s, labels).core == Insert(Transmit(s.core, st, Command.Start(id)), st, id)
    ensures id in Run(s, labels).core.store && !Closed(Run(s, labels).core, id)
    ensures Registered(s.core, st) <==> Listed(Run(s, labels).core, id)
  {
    var l := Continue(t, true, 0);
    labels := [l] + [l];
    RunOne(s, l);
    RunOne(Step(s, l), l);
    RunConcat(s, [l], [l]);
    RunKeepsInv(s, labels);
    assert PcInv(s.core, s.threads[t]);
    var a := Registered(s.core, st);
    assert !a ==> id !in Doomed(s.core, s.core.store[id].agent);
  }

  /** Until a start inserts its session, messages of the agent about it find
      nothing: they change nothing, and the insert then leaves it tracked and open. */
  lemma EarlyMessagesAreDropped(
    maxConcurrent: int, labels: seq<Label>, t: Thread, u: Thread, chunk: Chunk, outcome: Outcome)
    requires var s := Run(Initial(maxConcurrent), labels);
             !s.crashed && t in s.threads && IsStarting(s.threads[t]) && u !in s.threads
    ensures var s := Run(Initial(maxConcurrent), labels);
            var id := s.threads[t].id;
            && Step(s, Begin(u, RouteChunk(id, chunk))) == s && Step(s, Begin(u, RouteExit(id, outcome))) == s
            && (s.threads[t].Sent? ==>
                  var d := Step(s, Continue(t, true, 0)).core;
                  id in d.sessions && !Closed(d, id) && id in s.core.store && d.store == s.core.store)
  {
    var s := Reachable(maxConcurrent, labels);
    var id := s.threads[t].id;
    assert PcInv(s.core, s.threads[t]);
    StepKeepsInv(s, Continue(t, true, 0));
  }

  // ----- who closes a session -------------------------------------------------

  predicate Closes(pc: Pc, id: SessionId) {
    (pc.Dropped? && pc.id == id) || (pc.Disconnecting? && id in pc.dead)
  }

  /** A session that left the map but is not closed yet. */
  predicate Leaving(c: Core, id: SessionId) {
    id in c.inserted && id !in c.sessions && !Closed(c, id)
  }

  predicate Attended(threads: map<Thread, Pc>, id: SessionId) {
    exists t | t in threads :: Closes(threads[t], id)
  }

  ghost predicate AllAttended(s: State) {
    forall id: SessionId | Leaving(s.core, id) :: Attended(s.threads, id)
  }

  lemma MoveKeepsAttended(s: State, t: Thread, next: State)
    requires AllAttended(s) && next.threads - {t} == s.threads - {t}
    requires forall id: SessionId | Leaving(next.core, id) ::
               || (t in next.threads && Closes(next.threads[t], id))
               || (Leaving(s.core, id) && (t in s.threads ==> !Closes(s.threads[t], id)))
    ensures AllAttended(next)
  {
    forall id: SessionId | Leaving(next.core, id)
      ensures Attended(next.threads, id)
    {
      if !(t in next.threads && Closes(next.threads[t], id)) {
        var u :| u in s.threads && Closes(s.threads[u], id);
        assert u in s.threads - {t};
        assert (s.threads - {t})[u] == (next.threads - {t})[u];
        assert u in next.threads && Closes(next.threads[u], id);
      }
    }
  }

  lemma StepKeepsAttended(s: State, l: Label)
    requires Inv(s) && AllAttended(s)
    ensures AllAttended(Step(s, l))
  {
    if !s.crashed {
      match l
      case Begin(t, call) =>
        if t !in s.threads {
          EnterShape(s, t, call);
          EnterLeaves(s, t, call);
          MoveKeepsAttended(s, t, Enter(s, t, call));
        }
      case Continue(t, sendOk, pick) =>
        if t in s.threads {
          ResumeThreads(s, t, sendOk, pick);
          ResumeLeaves(s, t, sendOk, pick);
          MoveKeepsAttended(s, t, Resume(s, t, sendOk, pick));
        }
    }
  }

  lemma ResumeThreads(s: State, t: Thread, sendOk: bool, pick: SessionId)
    requires t in s.threads
    ensures Resume(s, t, sendOk, pick).threads - {t} == s.threads - {t}
  {
  }

  lemma EnterLeaves(s: State, t: Thread, call: Call)
    requires Inv(s) && t !in s.threads
    ensures var next := Enter(s, t, call);
            forall id: SessionId | Leaving(next.core, id) ::
              (t in next.threads && Closes(next.threads[t], id)) || Leaving(s.core, id)
  {
  }

  lemma ResumeLeaves(s: State, t: Thread, sendOk: bool, pick: SessionId)
    requires Inv(s) && t in s.threads
    ensures var next := Resume(s, t, sendOk, pick);
            forall id: SessionId | Leaving(next.core, id) ::
              || (t in next.threads && Closes(next.threads[t], id))
              || (Leaving(s.core, id) && !Closes(s.threads[t], id))
  {
    assert PcInv(s.core, s.threads[t]);
  }

  lemma {:induction false} RunKeepsAttended(s: State, labels: seq<Label>)
    requires Inv(s) && AllAttended(s)
    ensures AllAttended(Run(s, labels))
    decreases |labels|
  {
    if labels != [] {
      StepKeepsInv(s, labels[0]);
      StepKeepsAttended(s, labels[0]);
      RunKeepsAttended(Step(s, labels[0]), labels[1..]);
    }
  }

  /** A session that has left the map is closed, or some call still has to close
      it; so whenever no call is under way every session that was ever in the map
      is either tracked and open or untracked and closed. */
  lemma LeftIsClosed(maxConcurrent: int, labels: seq<Label>, id: SessionId)
    ensures var s := Run(Initial(maxConcurrent), labels);
            && (Leaving(s.core, id) ==> Attended(s.threads, id))
            && (s.threads == map[] && id in s.core.inserted ==> (id in s.core.sessions <==> !Closed(s.core, id)))
  {
    InitialInv(maxConcurrent);
    RunKeepsInv(Initial(maxConcurrent), labels);
    RunKeepsAttended(Initial(maxConcurrent), labels);
  }

  /** When a stream ends, whatever else is under way, every session whose start was
      sent on it is out of the map for good, and closed once the calls under way are
      done - unless the stream was replaced before: then it stays where it is. */
  lemma StreamEndEndsItsSessions(
    maxConcurrent: int, before: seq<Label>, t: Thread, st: Stream, after: seq<Label>, id: SessionId)
    requires var s := Run(Initial(maxConcurrent), before);
             && !s.crashed && t !in s.threads
             && id in s.core.inserted && st < |s.core.conns| && Home(s.core, st, id)
    ensures var s := Run(Initial(maxConcurrent), before);
            var next := Step(s, EndOf(s.core, t, st));
            var d := Run(next, after);
            if Registered(s.core, st) then id !in d.core.sessions && (d.threads == map[] ==> Closed(d.core, id))
            else id in next.core.sessions <==> id in s.core.sessions
  {
    var s := Reachable(maxConcurrent, before);
    var l := EndOf(s.core, t, st);
    StepKeepsInv(s, l);
    if id in s.core.sessions {
      StreamEndTakesExactly(maxConcurrent, before, t, st, id);
    }
    if Registered(s.core, st) {
      InitialInv(maxConcurrent);
      RunKeepsAttended(Initial(maxConcurrent), before);
      StepKeepsAttended(s, l);
      OnceOutIsClosed(Step(s, l), after, id);
    }
  }

  lemma OnceOutIsClosed(s: State, after: seq<Label>, id: SessionId)
    requires Inv(s) && AllAttended(s) && id in s.core.inserted && id !in s.core.sessions
    ensures var d := Run(s, after);
            id !in d.core.sessions && (d.threads == map[] ==> Closed(d.core, id))
  {
    RunKeepsInv(s, after);
    RunKeepsAttended(s, after);
    var d := Run(s, after);
    assert id in d.core.inserted && (Leaving(d.core, id) ==> Attended(d.threads, id));
  }
}
