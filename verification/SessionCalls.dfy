/** SessionManager when its calls do not overlap: what a history of whole calls
    guarantees, and that such a history is one of the interleavings of
    SessionRuns. */
module SessionCalls {
  import opened Wire
  import opened ExecFrame
  import opened Sessions
  import opened SessionRuns

  /** The effect of one uninterrupted call. */
  function After(c: Core, call: Call, sendOk: bool): Core {
    match call
    case RegisterStream(agent) => Register(c, agent)
    case UnregisterStream(agent) => AfterUnregister(c, agent)
    case StartSession(agent, kind, id) => if id in c.store then c else AfterStart(c, agent, kind, id, sendOk)
    case CancelSession(id) => AfterCancel(c, id, sendOk)
    case RouteChunk(id, chunk) => AfterChunk(c, id, chunk, sendOk)
    case RouteExit(id, outcome) => AfterExit(c, id, outcome)
    case SendTo(id, body) => AfterSend(c, id, body, sendOk)
    case ReceiveChunk(id) => Pop(c, id)
  }

  // ----- whole calls are interleavings -------------------------------------

  lemma {:induction false} RunConcat(s: State, a: seq<Label>, b: seq<Label>)
    ensures Run(s, a + b) == Run(Run(s, a), b)
    decreases |a|
  {
    if a == [] {
      assert a + b == b;
    } else {
      assert (a + b)[0] == a[0] && (a + b)[1..] == a[1..] + b;
      RunConcat(Step(s, a[0]), a[1..], b);
    }
  }

  lemma RunOne(s: State, l: Label)
    ensures Run(s, [l]) == Step(s, l)
  {
    assert [l][1..] == [];
  }

  lemma {:induction false} EndUninterrupted(s: State, t: Thread, sendOk: bool) returns (labels: seq<Label>)
    requires !s.crashed && t in s.threads && s.threads[t].Ending?
    ensures var pc := s.threads[t];
            Run(s, labels) == Done(s, t, Close(Drop(s.core, pc.id), pc.id, pc.outcome))
  {
    var l := Continue(t, sendOk, 0);
    labels := [l, l];
    var s1 := Step(s, l);
    assert s1.threads - {t} == s.threads - {t};
    RunOne(s1, l);
    RunConcat(s, [l], [l]);
    RunOne(s, l);
    assert [l] + [l] == labels;
  }

  lemma CancelUninterrupted(s: State, t: Thread, sendOk: bool) returns (labels: seq<Label>)
    requires !s.crashed && t in s.threads && s.threads[t].Cancelling?
    requires s.threads[t].id in s.core.sessions && s.threads[t].via == ConnFor(s.core, s.threads[t].id)
    ensures Run(s, labels) == Done(s, t, AfterCancel(s.core, s.threads[t].id, sendOk))
  {
    var l := Continue(t, sendOk, 0);
    var s1 := Step(s, l);
    var rest := EndUninterrupted(s1, t, sendOk);
    assert s1.threads - {t} == s.threads - {t};
    labels := [l] + rest;
    RunConcat(s, [l], rest);
    RunOne(s, l);
  }

  lemma {:induction false} DisconnectUninterrupted(s: State, t: Thread) returns (labels: seq<Label>)
    requires !s.crashed && t in s.threads && s.threads[t].Disconnecting?
    ensures Run(s, labels) == Done(s, t, CloseAll(s.core, s.threads[t].dead, DISCONNECTED))
    decreases s.threads[t].dead
  {
    var dead := s.threads[t].dead;
    if dead == {} {
      labels := [Continue(t, true, 0)];
      RunOne(s, labels[0]);
      assert CloseAll(s.core, {}, DISCONNECTED).store == s.core.store;
    } else {
      var pick :| pick in dead;
      var l := Continue(t, true, pick);
      var s1 := Step(s, l);
      var rest := DisconnectUninterrupted(s1, t);
      assert CloseAll(s1.core, dead - {pick}, DISCONNECTED).store == CloseAll(s.core, dead, DISCONNECTED).store;
      assert s1.threads - {t} == s.threads - {t};
      labels := [l] + rest;
      RunConcat(s, [l], rest);
      RunOne(s, l);
    }
  }

  lemma StartUninterrupted(s: State, t: Thread, sendOk: bool) returns (labels: seq<Label>)
    requires !s.crashed && t in s.threads && s.threads[t].Checked?
    ensures var pc := s.threads[t];
            Run(s, labels) == Done(s, t, if sendOk then Insert(Transmit(s.core, pc.st, Start(pc.id)), pc.st, pc.id) else s.core)
  {
    var l := Continue(t, sendOk, 0);
    RunOne(s, l);
    if sendOk {
      var s1 := Step(s, l);
      assert s1.threads - {t} == s.threads - {t};
      labels := [l, l];
      RunOne(s1, l);
      RunConcat(s, [l], [l]);
      assert [l] + [l] == labels;
    } else {
      labels := [l];
    }
  }

  /** The sections of a call after its first one, run without interruption. */
  lemma FinishUninterrupted(s: State, t: Thread, call: Call, sendOk: bool) returns (labels: seq<Label>)
    requires CoreInv(s.core) && !s.crashed && t !in s.threads
    requires call.StartSession? ==> call.id !in s.core.store
    ensures Run(Enter(s, t, call), labels) == s.(core := After(s.core, call, sendOk))
  {
    var s1 := Enter(s, t, call);
    assert s1.threads - {t} == s.threads;
    if t !in s1.threads {
      labels := [];
      assert s1.threads == s.threads;
    } else {
      match s1.threads[t]
      case Checked(_, _) => labels := StartUninterrupted(s1, t, sendOk);
      case Cancelling(_, _) => labels := CancelUninterrupted(s1, t, sendOk);
      case Ending(_, _) => labels := EndUninterrupted(s1, t, sendOk);
      case Disconnecting(_) => labels := DisconnectUninterrupted(s1, t);
      case Sending(_, _) =>
        labels := [Continue(t, sendOk, 0)];
        RunOne(s1, labels[0]);
      case Delivering(id, chunk) => labels := DeliverUninterrupted(s1, t, sendOk);
    }
  }

  /** Route never sends on a closed channel when nothing comes between its
      lookup and its send. */
  lemma DeliverUninterrupted(s: State, t: Thread, sendOk: bool) returns (labels: seq<Label>)
    requires CoreInv(s.core) && !s.crashed && t in s.threads && s.threads[t].Delivering?
    requires s.threads[t].id in s.core.sessions
    requires s.threads[t].chunk.Forward? ==> s.core.store[s.threads[t].id].kind.PortForward?
    ensures Run(s, labels) == Done(s, t, AfterChunk(s.core, s.threads[t].id, s.threads[t].chunk, sendOk))
  {
    var l := Continue(t, sendOk, 0);
    RunOne(s, l);
    var pc := s.threads[t];
    assert !Closed(s.core, pc.id);
    if HasRoom(s.core.store[pc.id], pc.chunk) {
      labels := [l];
    } else {
      var s1 := Step(s, l);
      assert s1.threads - {t} == s.threads - {t};
      var rest := CancelUninterrupted(s1, t, sendOk);
      labels := [l] + rest;
      RunConcat(s, [l], rest);
    }
  }

  /** Every whole call is a run of the interleaved system, without a panic; all
      results about runs therefore hold of histories of whole calls. */
  lemma WholeCallIsRun(s: State, t: Thread, call: Call, sendOk: bool) returns (labels: seq<Label>)
    requires CoreInv(s.core) && !s.crashed && t !in s.threads
    requires call.StartSession? ==> call.id !in s.core.store
    ensures Run(s, labels) == s.(core := After(s.core, call, sendOk))
  {
    var begin := Begin(t, call);
    var rest := FinishUninterrupted(s, t, call, sendOk);
    labels := [begin] + rest;
    RunOne(s, begin);
    RunConcat(s, [begin], rest);
  }

  // ----- index agreement ---------------------------------------------------

  /** Every session ever started is either tracked, open and listed by its
      agent's stream, or it is untracked and closed. */
  predicate Indexed(c: Core)
    requires CoreInv(c)
  {
    forall id | id in c.inserted ::
      if id in c.sessions then !Closed(c, id) && id in Doomed(c, c.store[id].agent) else Closed(c, id)
  }

  /** Then m.sessions is the disjoint union of the per-stream maps. */
  lemma IndexedIsDisjointUnion(c: Core)
    requires CoreInv(c) && Indexed(c)
    ensures forall id :: id in c.sessions <==> exists a | a in c.agents :: id in Doomed(c, a)
    ensures forall a, b | a in c.agents && b in c.agents && a != b :: Doomed(c, a) !! Doomed(c, b)
  {
    forall id | id in c.sessions
      ensures exists a | a in c.agents :: id in Doomed(c, a)
    {
      assert id in Doomed(c, c.store[id].agent);
    }
    forall a, b | a in c.agents && b in c.agents && a != b
      ensures Doomed(c, a) !! Doomed(c, b)
    {
      forall id | id in Doomed(c, a)
        ensures id !in Doomed(c, b)
      {
        assert c.store[id].agent == a;
      }
    }
  }

  lemma AfterKeepsCore(c: Core, call: Call, sendOk: bool)
    requires CoreInv(c)
    ensures CoreInv(After(c, call, sendOk)) && Evolves(c, After(c, call, sendOk))
  {
    if call.StartSession? && call.id in c.store {
      EvolvesReflexive(c);
    } else {
      var s := State(c, map[], false);
      var labels := WholeCallIsRun(s, 0, call, sendOk);
      RunKeepsInv(s, labels);
    }
  }

  /** Replacing a stream that still lists sessions breaks the agreement. */
  lemma RegisterKeepsIndexExactly(c: Core, agent: AgentId)
    requires CoreInv(c) && Indexed(c)
    ensures CoreInv(Register(c, agent))
    ensures Indexed(Register(c, agent)) <==> Doomed(c, agent) == {}
  {
    RegisterKeeps(c, agent);
    var d := Register(c, agent);
    if id :| id in Doomed(c, agent) {
      assert id in d.inserted && id in d.sessions && id !in Doomed(d, agent);
    } else {
      forall id | id in d.inserted && id in d.sessions
        ensures id in Doomed(d, d.store[id].agent)
      {
        assert id in Doomed(c, c.store[id].agent);
      }
    }
  }

  lemma TransmitKeepsIndex(c: Core, st: Stream, cmd: Command)
    requires CoreInv(c) && Indexed(c) && (cmd.Start? || Announced(c.sent, cmd.id))
    ensures CoreInv(Transmit(c, st, cmd)) && Indexed(Transmit(c, st, cmd))
  {
    TransmitKeeps(c, st, cmd);
    var d := Transmit(c, st, cmd);
    forall id | id in d.inserted && id in d.sessions
      ensures id in Doomed(d, d.store[id].agent)
    {
      assert id in Doomed(c, c.store[id].agent);
    }
    assert forall id :: Closed(d, id) <==> Closed(c, id);
  }

  lemma EndKeepsIndex(c: Core, id: SessionId, outcome: Outcome)
    requires CoreInv(c) && Indexed(c) && id in c.sessions
    ensures CoreInv(Drop(c, id)) && CoreInv(Close(Drop(c, id), id, outcome))
    ensures Indexed(Close(Drop(c, id), id, outcome))
  {
    DropKeeps(c, id);
    CloseKeeps(Drop(c, id), id, outcome);
    var d := Close(Drop(c, id), id, outcome);
    forall i | i in d.inserted
      ensures if i in d.sessions then !Closed(d, i) && i in Doomed(d, d.store[i].agent) else Closed(d, i)
    {
      assert if i in c.sessions then !Closed(c, i) && i in Doomed(c, c.store[i].agent) else Closed(c, i);
    }
  }

  lemma UnregisterKeepsIndex(c: Core, agent: AgentId)
    requires CoreInv(c) && Indexed(c) && CoreInv(AfterUnregister(c, agent))
    ensures Indexed(AfterUnregister(c, agent))
  {
    var d := AfterUnregister(c, agent);
    forall i | i in d.inserted
      ensures if i in d.sessions then !Closed(d, i) && i in Doomed(d, d.store[i].agent) else Closed(d, i)
    {
      assert if i in c.sessions then !Closed(c, i) && i in Doomed(c, c.store[i].agent) else Closed(c, i);
    }
  }

  lemma AllocateKeepsIndex(c: Core, agent: AgentId, kind: Kind, id: SessionId)
    requires CoreInv(c) && Indexed(c) && id !in c.store
    ensures CoreInv(Allocate(c, agent, kind, id)) && Indexed(Allocate(c, agent, kind, id))
  {
    AllocateKeeps(c, agent, kind, id);
    var d := Allocate(c, agent, kind, id);
    forall i | i in d.inserted
      ensures if i in d.sessions then !Closed(d, i) && i in Doomed(d, d.store[i].agent) else Closed(d, i)
    {
      assert if i in c.sessions then !Closed(c, i) && i in Doomed(c, c.store[i].agent) else Closed(c, i);
    }
  }

  /** So does inserting a session whose stream was replaced or unregistered after
      its start was checked. */
  lemma InsertKeepsIndexExactly(c: Core, st: Stream, id: SessionId)
    requires CoreInv(c) && Indexed(c) && id in c.store && id !in c.inserted && Announced(c.sent, id)
    requires st < |c.conns| && c.conns[st].agent == c.store[id].agent
    ensures CoreInv(Insert(c, st, id)) && (Indexed(Insert(c, st, id)) <==> Registered(c, st))
  {
    InsertKeeps(c, st, id);
    var d := Insert(c, st, id);
    if Registered(c, st) {
      forall i | i in d.inserted
        ensures if i in d.sessions then !Closed(d, i) && i in Doomed(d, d.store[i].agent) else Closed(d, i)
      {
        if i != id {
          assert if i in c.sessions then !Closed(c, i) && i in Doomed(c, c.store[i].agent) else Closed(c, i);
        }
      }
    } else {
      assert id !in Doomed(c, c.store[id].agent);
      assert id in d.sessions && id !in Doomed(d, d.store[id].agent);
    }
  }

  lemma StartKeepsIndex(c: Core, agent: AgentId, kind: Kind, id: SessionId, sendOk: bool)
    requires CoreInv(c) && Indexed(c) && id !in c.store && CoreInv(AfterStart(c, agent, kind, id, sendOk))
    ensures Indexed(AfterStart(c, agent, kind, id, sendOk))
  {
    if MayStart(c, agent) {
      AllocateKeepsIndex(c, agent, kind, id);
      if sendOk {
        var c1, st := Allocate(c, agent, kind, id), c.agents[agent];
        TransmitKeeps(c1, st, Start(id));
        TransmitKeepsIndex(c1, st, Start(id));
        InsertKeepsIndexExactly(Transmit(c1, st, Start(id)), st, id);
      }
    }
  }

  lemma CancelKeepsIndex(c: Core, id: SessionId, sendOk: bool)
    requires CoreInv(c) && Indexed(c) && CoreInv(AfterCancel(c, id, sendOk))
    ensures Indexed(AfterCancel(c, id, sendOk))
  {
    if id in c.sessions {
      if ConnFor(c, id).Some? && sendOk {
        TransmitKeepsIndex(c, ConnFor(c, id).value, Cancel(id));
        EndKeepsIndex(Transmit(c, ConnFor(c, id).value, Cancel(id)), id, CANCELED);
      } else {
        EndKeepsIndex(c, id, CANCELED);
      }
    }
  }

  lemma ChunkKeepsIndex(c: Core, id: SessionId, chunk: Chunk, sendOk: bool)
    requires CoreInv(c) && Indexed(c) && CoreInv(AfterChunk(c, id, chunk, sendOk))
    ensures Indexed(AfterChunk(c, id, chunk, sendOk))
  {
    var d := AfterChunk(c, id, chunk, sendOk);
    if d == AfterCancel(c, id, sendOk) {
      CancelKeepsIndex(c, id, sendOk);
    } else {
      forall i | i in d.inserted
        ensures if i in d.sessions then !Closed(d, i) && i in Doomed(d, d.store[i].agent) else Closed(d, i)
      {
        assert if i in c.sessions then !Closed(c, i) && i in Doomed(c, c.store[i].agent) else Closed(c, i);
      }
    }
  }

  lemma PopKeepsIndex(c: Core, id: SessionId)
    requires CoreInv(c) && Indexed(c)
    ensures CoreInv(Pop(c, id)) && Indexed(Pop(c, id))
  {
    PopKeeps(c, id);
    var d := Pop(c, id);
    forall i | i in d.inserted
      ensures if i in d.sessions then !Closed(d, i) && i in Doomed(d, d.store[i].agent) else Closed(d, i)
    {
      assert if i in c.sessions then !Closed(c, i) && i in Doomed(c, c.store[i].agent) else Closed(c, i);
    }
  }

  lemma AfterKeepsIndex(c: Core, call: Call, sendOk: bool)
    requires CoreInv(c) && Indexed(c)
    requires call.RegisterStream? ==> Doomed(c, call.agent) == {}
    ensures CoreInv(After(c, call, sendOk)) && Indexed(After(c, call, sendOk))
  {
    AfterKeepsCore(c, call, sendOk);
    match call
    case RegisterStream(agent) => RegisterKeepsIndexExactly(c, agent);
    case UnregisterStream(agent) => UnregisterKeepsIndex(c, agent);
    case StartSession(agent, kind, id) =>
      if id !in c.store {
        StartKeepsIndex(c, agent, kind, id, sendOk);
      }
    case CancelSession(id) => CancelKeepsIndex(c, id, sendOk);
    case RouteChunk(id, chunk) => ChunkKeepsIndex(c, id, chunk, sendOk);
    case RouteExit(id, outcome) =>
      if id in c.sessions {
        EndKeepsIndex(c, id, outcome);
      }
    case SendTo(id, body) => SendKeepsIndex(c, id, body, sendOk);
    case ReceiveChunk(id) => PopKeepsIndex(c, id);
  }

  lemma SendKeepsIndex(c: Core, id: SessionId, body: Octets, sendOk: bool)
    requires CoreInv(c) && Indexed(c) && CoreInv(AfterSend(c, id, body, sendOk))
    ensures Indexed(AfterSend(c, id, body, sendOk))
  {
    if ConnFor(c, id).Some? && sendOk {
      TransmitKeepsIndex(c, ConnFor(c, id).value, Relay(id, body));
    }
  }

  /** A history of calls, each with the result of its Send. */
  function History(c: Core, calls: seq<(Call, bool)>): Core
    decreases |calls|
  {
    if calls == [] then c else History(After(c, calls[0].0, calls[0].1), calls[1..])
  }

  function Relaying(id: SessionId, chunks: seq<Chunk>): seq<(Call, bool)> {
    if chunks == [] then []
    else [(RouteChunk(id, chunks[0]), true), (ReceiveChunk(id), true)] + Relaying(id, chunks[1..])
  }

  /** Any number of chunks passes through a session whose bridge keeps up. */
  lemma {:induction false} ChunksPassThrough(c: Core, id: SessionId, chunks: seq<Chunk>)
    requires CoreInv(c) && id in c.sessions && c.store[id].queue == []
    requires forall x | x in chunks :: x.Output? == c.store[id].kind.Exec?
    ensures History(c, Relaying(id, chunks)) == c
    decreases |chunks|
  {
    if chunks != [] {
      var rest := Relaying(id, chunks[1..]);
      var two := [(RouteChunk(id, chunks[0]), true), (ReceiveChunk(id), true)];
      PopUndoesPush(c, id, chunks[0]);
      assert (two + rest)[1..] == [two[1]] + rest && ([two[1]] + rest)[1..] == rest;
      ChunksPassThrough(c, id, chunks[1..]);
    }
  }

  lemma PopUndoesPush(c: Core, id: SessionId, chunk: Chunk)
    requires CoreInv(c) && id in c.sessions && c.store[id].queue == [] && chunk.Output? == c.store[id].kind.Exec?
    ensures After(After(c, RouteChunk(id, chunk), true), ReceiveChunk(id), true) == c
  {
    var d := Push(c, id, chunk);
    assert After(c, RouteChunk(id, chunk), true) == d;
    assert d.store[id].queue == [] + [chunk] == [chunk];
    assert d.store[id].queue[1..] == c.store[id].queue;
    assert Pop(d, id).store == c.store;
  }

  /** No stream is replaced while it still lists sessions. */
  predicate OrderlyRegistration(c: Core, calls: seq<(Call, bool)>)
    decreases |calls|
  {
    calls == [] ||
    (&& (calls[0].0.RegisterStream? ==> Doomed(c, calls[0].0.agent) == {})
     && OrderlyRegistration(After(c, calls[0].0, calls[0].1), calls[1..]))
  }

  /** Index agreement after every orderly history of whole calls. */
  lemma {:induction false} HistoryKeepsIndex(c: Core, calls: seq<(Call, bool)>)
    requires CoreInv(c) && Indexed(c) && OrderlyRegistration(c, calls)
    ensures CoreInv(History(c, calls)) && Indexed(History(c, calls))
    decreases |calls|
  {
    if calls != [] {
      AfterKeepsIndex(c, calls[0].0, calls[0].1);
      HistoryKeepsIndex(After(c, calls[0].0, calls[0].1), calls[1..]);
    }
  }

  lemma IndexAgreement(maxConcurrent: int, calls: seq<(Call, bool)>)
    requires OrderlyRegistration(Initial(maxConcurrent).core, calls)
    ensures var c := History(Initial(maxConcurrent).core, calls);
            && (forall id :: id in c.sessions <==> exists a | a in c.agents :: id in Doomed(c, a))
            && (forall a, b | a in c.agents && b in c.agents && a != b :: Doomed(c, a) !! Doomed(c, b))
            && (forall id | id in c.inserted :: id in c.sessions <==> !Closed(c, id))
  {
    InitialInv(maxConcurrent);
    HistoryKeepsIndex(Initial(maxConcurrent).core, calls);
    IndexedIsDisjointUnion(History(Initial(maxConcurrent).core, calls));
  }

  // ----- what does fail under overlap --------------------------------------

  /** The step itself: a send on the session's channel panics if it was closed. */
  lemma PanicsExactlyWhenClosed(s: State, t: Thread, sendOk: bool, pick: SessionId)
    requires Inv(s) && !s.crashed && t in s.threads && s.threads[t].Delivering?
    requires s.threads[t].chunk.Output? <==> s.core.store[s.threads[t].id].kind.Exec?
    ensures Step(s, Continue(t, sendOk, pick)).crashed <==> Closed(s.core, s.threads[t].id)
  {
  }

  /** For any tracked session a Cancel between Route's lookup and its send makes
      that send meet a closed channel. */
  lemma CancelInBetweenPanics(s: State, t: Thread, u: Thread, id: SessionId, chunk: Chunk) returns (labels: seq<Label>)
    requires Inv(s) && !s.crashed && t !in s.threads && u !in s.threads && t != u
    requires id in s.core.sessions && (chunk.Output? <==> s.core.store[id].kind.Exec?)
    ensures Run(s, labels).crashed
  {
    var lookup := Begin(t, RouteChunk(id, chunk));
    var s1 := Step(s, lookup);
    var cancel := WholeCallIsRun(s1, u, CancelSession(id), true);
    var s2 := Run(s1, cancel);
    DropKeeps(s.core, id);
    assert Closed(s2.core, id);
    labels := [lookup] + (cancel + [Continue(t, true, 0)]);
    RunOne(s, lookup);
    RunOne(s2, Continue(t, true, 0));
    RunConcat(s1, cancel, [Continue(t, true, 0)]);
    RunConcat(s, [lookup], cancel + [Continue(t, true, 0)]);
  }

  // ----- the concurrency bound is exact ------------------------------------

  lemma {:induction false} AtMostStartingConcat(s: State, a: seq<Label>, b: seq<Label>, k: nat)
    requires AtMostStarting(s, a, k) && AtMostStarting(Run(s, a), b, k)
    ensures AtMostStarting(s, a + b, k)
    decreases |a|
  {
    if a == [] {
      assert a + b == b;
    } else {
      assert (a + b)[0] == a[0] && (a + b)[1..] == a[1..] + b;
      AtMostStartingConcat(Step(s, a[0]), a[1..], b, k);
    }
  }

  /** Only starts are under way; thread numbers and session ids below `n` are in use. */
  predicate Overlapping(s: State, agent: AgentId, n: nat) {
    && Inv(s) && !s.crashed && agent in s.core.agents
    && (forall t | t in s.threads :: t < n && IsStarting(s.threads[t]))
    && (forall id | id in s.core.store :: id < n)
  }

  lemma AllInFlight(s: State, agent: AgentId, n: nat)
    requires Overlapping(s, agent, n)
    ensures InFlight(s) == s.threads.Keys
  {
  }

  /** One more start passes its check. */
  lemma OneMoreChecks(s: State, agent: AgentId, n: nat, k: nat) returns (l: Label)
    requires Overlapping(s, agent, n) && |s.core.sessions| < s.core.max && |InFlight(s)| < k
    ensures var next := Step(s, l);
            && Overlapping(next, agent, n + 1) && AtMostStarting(s, [l], k)
            && next.core.sessions == s.core.sessions && next.core.max == s.core.max
            && |InFlight(next)| == |InFlight(s)| + 1
  {
    l := Begin(n, StartSession(agent, Exec, n));
    var next := Step(s, l);
    StepKeepsInv(s, l);
    assert next.threads - {n} == s.threads - {n};
    InFlightAfter(s, n, next);
    assert AtMostStarting(next, [l][1..], k);
  }

  lemma OneSends(s: State, agent: AgentId, n: nat, t: Thread) returns (l: Label)
    requires Overlapping(s, agent, n) && t in s.threads && s.threads[t].Checked?
    ensures var next := Step(s, l);
            && Overlapping(next, agent, n) && next.threads - {t} == s.threads - {t}
            && t in next.threads && next.threads[t].Sent? && |InFlight(next)| == |InFlight(s)|
            && next.core.max == s.core.max && next.core.sessions == s.core.sessions
  {
    l := Continue(t, true, 0);
    StepKeepsInv(s, l);
    InFlightAfter(s, t, Step(s, l));
  }

  lemma OneInserts(s: State, agent: AgentId, n: nat, t: Thread) returns (l: Label)
    requires Overlapping(s, agent, n) && t in s.threads && s.threads[t].Sent?
    ensures var next := Step(s, l);
            && Overlapping(next, agent, n) && next.threads == s.threads - {t}
            && |InFlight(next)| == |InFlight(s)| - 1
            && next.core.max == s.core.max && |next.core.sessions| == |s.core.sessions| + 1
  {
    l := Continue(t, true, 0);
    StepKeepsInv(s, l);
    var next := Step(s, l);
    assert next.threads - {t} == s.threads - {t};
    InFlightAfter(s, t, next);
    assert next.core.sessions == s.core.sessions + {s.threads[t].id};
  }

  /** One start under way goes on to insert its session. */
  lemma OneCompletes(s: State, agent: AgentId, n: nat, k: nat, t: Thread) returns (labels: seq<Label>)
    requires Overlapping(s, agent, n) && |InFlight(s)| <= k && t in s.threads
    ensures var end := Run(s, labels);
            && Overlapping(end, agent, n) && AtMostStarting(s, labels, k)
            && end.threads == s.threads - {t} && end.core.max == s.core.max
            && |end.core.sessions| == |s.core.sessions| + 1
  {
    labels := [];
    var s1 := s;
    if s.threads[t].Checked? {
      var send := OneSends(s, agent, n, t);
      labels, s1 := [send], Step(s, send);
      RunOne(s, send);
      assert [send][1..] == [];
    }
    var insert := OneInserts(s1, agent, n, t);
    RunOne(s1, insert);
    RunConcat(s, labels, [insert]);
    assert [insert][1..] == [];
    AtMostStartingConcat(s, labels, [insert], k);
    labels := labels + [insert];
  }

  /** Every start under way goes on to insert its session. */
  lemma {:induction false} AllInsert(s: State, agent: AgentId, n: nat, k: nat) returns (labels: seq<Label>)
    requires Overlapping(s, agent, n) && |InFlight(s)| <= k
    ensures var end := Run(s, labels);
            && Overlapping(end, agent, n) && AtMostStarting(s, labels, k) && end.threads == map[]
            && end.core.max == s.core.max
            && |end.core.sessions| == |s.core.sessions| + |InFlight(s)|
    decreases |InFlight(s)|
  {
    AllInFlight(s, agent, n);
    if s.threads == map[] {
      assert InFlight(s) == {};
      return [];
    }
    var t :| t in s.threads;
    var first := OneCompletes(s, agent, n, k, t);
    var s1 := Run(s, first);
    AllInFlight(s1, agent, n);
    SizeWithout(InFlight(s), t);
    var rest := AllInsert(s1, agent, n, k);
    labels := first + rest;
    RunConcat(s, first, rest);
    AtMostStartingConcat(s, first, rest, k);
  }

  /** `j` starts pass their check before any of them inserts. */
  lemma {:induction false} ManyCheck(s: State, agent: AgentId, n: nat, j: nat, k: nat) returns (labels: seq<Label>)
    requires Overlapping(s, agent, n) && |s.core.sessions| < s.core.max && |InFlight(s)| + j <= k
    ensures var end := Run(s, labels);
            && Overlapping(end, agent, n + j) && AtMostStarting(s, labels, k)
            && end.core.sessions == s.core.sessions && end.core.max == s.core.max
            && |InFlight(end)| == |InFlight(s)| + j
    decreases j
  {
    if j == 0 {
      return [];
    }
    var l := OneMoreChecks(s, agent, n, k);
    var rest := ManyCheck(Step(s, l), agent, n + 1, j - 1, k);
    labels := [l] + rest;
    RunOne(s, l);
    RunConcat(s, [l], rest);
    AtMostStartingConcat(s, [l], rest, k);
  }

  /** `j` starts, one after the other. */
  lemma {:induction false} ManyStart(s: State, agent: AgentId, n: nat, j: nat, k: nat) returns (labels: seq<Label>)
    requires Overlapping(s, agent, n) && s.threads == map[] && |s.core.sessions| + j <= s.core.max && k > 0
    ensures var end := Run(s, labels);
            && Overlapping(end, agent, n + j) && AtMostStarting(s, labels, k) && end.threads == map[]
            && end.core.max == s.core.max && |end.core.sessions| == |s.core.sessions| + j
    decreases j
  {
    AllInFlight(s, agent, n);
    if j == 0 {
      assert InFlight(s) == {};
      return [];
    }
    var check := ManyCheck(s, agent, n, 1, k);
    var s1 := Run(s, check);
    var insert := AllInsert(s1, agent, n + 1, k);
    var s2 := Run(s1, insert);
    var rest := ManyStart(s2, agent, n + 1, j - 1, k);
    RunConcat(s, check, insert);
    AtMostStartingConcat(s, check, insert, k);
    labels := (check + insert) + rest;
    RunConcat(s, check + insert, rest);
    AtMostStartingConcat(s, check + insert, rest, k);
  }

  /** SessionsAreCapped cannot be improved: for every limit and every `k` some
      run with at most `k` overlapping starts tracks max + k - 1 sessions. */
  lemma CapIsReached(maxConcurrent: int, k: nat) returns (labels: seq<Label>)
    requires k > 0
    ensures var s := Initial(maxConcurrent);
            AtMostStarting(s, labels, k) && |Run(s, labels).core.sessions| == s.core.max + k - 1
  {
    var s, register := Initial(maxConcurrent), Begin(0, RegisterStream("a"));
    var s1 := Step(s, register);
    InitialInv(maxConcurrent);
    StepKeepsInv(s, register);
    assert InFlight(s) == {} && InFlight(s1) == {};
    var fill := ManyStart(s1, "a", 0, s.core.max - 1, k);
    var s2 := Run(s1, fill);
    assert InFlight(s2) == {};
    var overlap := ManyCheck(s2, "a", s.core.max - 1, k, k);
    var s3 := Run(s2, overlap);
    var insert := AllInsert(s3, "a", s.core.max - 1 + k, k);
    RunOne(s, register);
    RunConcat(s2, overlap, insert);
    AtMostStartingConcat(s2, overlap, insert, k);
    RunConcat(s1, fill, overlap + insert);
    AtMostStartingConcat(s1, fill, overlap + insert, k);
    labels := [register] + (fill + (overlap + insert));
    RunConcat(s, [register], fill + (overlap + insert));
    assert AtMostStarting(s1, [register][1..], k);
    AtMostStartingConcat(s, [register], fill + (overlap + insert), k);
  }
}
