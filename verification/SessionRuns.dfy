/** SessionManager under concurrency: every call runs as a thread that takes one
    critical section, or one send outside the lock, at a time, and the threads
    interleave freely.  A run is any sequence of labels. */
module SessionRuns {
  import opened Wire
  import opened ExecFrame
  import opened Sessions

  type Thread = nat

  datatype Call =
    | RegisterStream(agent: AgentId)
    | UnregisterStream(agent: AgentId)
    | StartSession(agent: AgentId, kind: Kind, id: SessionId)
    | CancelSession(id: SessionId)
    | RouteChunk(id: SessionId, chunk: Chunk)
    | RouteExit(id: SessionId, outcome: Outcome)
    | SendTo(id: SessionId, body: Octets)
    | ReceiveChunk(id: SessionId)           // a bridge, from its session's channel

  /** Where a call is while the lock is not held. */
  datatype Pc =
    | Checked(st: Stream, id: SessionId)                      // startSession, before the send
    | Sent(st: Stream, id: SessionId)                         // startSession, before the insert
    | Cancelling(id: SessionId, via: Option<Stream>)          // Cancel, before its send
    | Ending(id: SessionId, outcome: Outcome)                 // before dropSession
    | Dropped(id: SessionId, outcome: Outcome)                // before close
    | Delivering(id: SessionId, chunk: Chunk)                 // Route, before the channel send
    | Sending(st: Stream, cmd: Command)                       // SendStdin and the like
    | Disconnecting(dead: set<SessionId>)                     // Unregister, closing sessions

  /** `sendOk` is the result of a Send; `pick` the session Unregister closes next. */
  datatype Label =
    | Begin(t: Thread, call: Call)
    | Continue(t: Thread, sendOk: bool, pick: SessionId)

  datatype State = State(core: Core, threads: map<Thread, Pc>, crashed: bool)

  predicate IsStarting(pc: Pc) {
    pc.Checked? || pc.Sent?
  }

  // ----- transitions -------------------------------------------------------

  function BeginCancel(s: State, t: Thread, id: SessionId): State {
    if id in s.core.sessions
    then s.(threads := s.threads[t := Cancelling(id, ConnFor(s.core, id))])
    else s.(threads := s.threads - {t})
  }

  /** The first critical section of a call. */
  function Enter(s: State, t: Thread, call: Call): State {
    var c := s.core;
    match call
    case RegisterStream(agent) => s.(core := Register(c, agent))
    case UnregisterStream(agent) =>
      s.(core := Detach(c, agent), threads := s.threads[t := Disconnecting(Doomed(c, agent))])
    case StartSession(agent, kind, id) =>
      if MayStart(c, agent) && id !in c.store
      then s.(core := Allocate(c, agent, kind, id), threads := s.threads[t := Checked(c.agents[agent], id)])
      else s
    case CancelSession(id) => BeginCancel(s, t, id)
    case RouteChunk(id, chunk) =>
      if id !in c.sessions || id !in c.store || (chunk.Forward? && c.store[id].kind.Exec?) then s
      else s.(threads := s.threads[t := Delivering(id, chunk)])
    case RouteExit(id, outcome) =>
      if id in c.sessions then s.(threads := s.threads[t := Ending(id, outcome)]) else s
    case ReceiveChunk(id) => s.(core := Pop(c, id))
    case SendTo(id, body) =>
      match ConnFor(c, id)
      case Some(st) => s.(threads := s.threads[t := Sending(st, Relay(id, body))])
      case None => s
  }

  function Done(s: State, t: Thread, c: Core): State {
    s.(core := c, threads := s.threads - {t})
  }

  function Goto(s: State, t: Thread, c: Core, pc: Pc): State {
    s.(core := c, threads := s.threads[t := pc])
  }

  /** The next section of a call that is under way. */
  function Resume(s: State, t: Thread, sendOk: bool, pick: SessionId): State
    requires t in s.threads
  {
    var c := s.core;
    match s.threads[t]
    case Checked(st, id) =>
      if sendOk then Goto(s, t, Transmit(c, st, Start(id)), Sent(st, id)) else Done(s, t, c)
    case Sent(st, id) => Done(s, t, Insert(c, st, id))
    case Cancelling(id, st) =>
      Goto(s, t, if st.Some? && sendOk then Transmit(c, st.value, Cancel(id)) else c, Ending(id, CANCELED))
    case Ending(id, outcome) => Goto(s, t, Drop(c, id), Dropped(id, outcome))
    case Dropped(id, outcome) => Done(s, t, Close(c, id, outcome))
    case Delivering(id, chunk) =>
      // a send on a closed channel panics, on a full or nil one takes the default branch
      if Closed(c, id) && chunk.Output? == c.store[id].kind.Exec? then s.(crashed := true)
      else if id in c.store && HasRoom(c.store[id], chunk) then Done(s, t, Push(c, id, chunk))
      else BeginCancel(s, t, id)
    case Sending(st, cmd) => Done(s, t, if sendOk then Transmit(c, st, cmd) else c)
    case Disconnecting(dead) =>
      if pick in dead then Goto(s, t, Close(c, pick, DISCONNECTED), Disconnecting(dead - {pick}))
      else if dead == {} then Done(s, t, c)
      else s
  }

  function Step(s: State, l: Label): State {
    if s.crashed then s
    else
      match l
      case Begin(t, call) => if t in s.threads then s else Enter(s, t, call)
      case Continue(t, sendOk, pick) => if t in s.threads then Resume(s, t, sendOk, pick) else s
  }

  function Run(s: State, labels: seq<Label>): State
    decreases |labels|
  {
    if labels == [] then s else Run(Step(s, labels[0]), labels[1..])
  }

  /** NewSessionManager: a non-positive limit means 50. */
  function Initial(maxConcurrent: int): State {
    State(Core(if maxConcurrent <= 0 then 50 else maxConcurrent, map[], [], {}, map[], [], {}), map[], false)
  }

  // ----- invariant ---------------------------------------------------------

  /** What each point of a call may rely on. */
  predicate PcInv(c: Core, pc: Pc) {
    match pc
    case Checked(st, id) => Unborn(c, st, id)
    case Sent(st, id) => Unborn(c, st, id) && Announced(c.sent, id)
    case Cancelling(id, st) => id in c.inserted
    case Ending(id, _) => id in c.inserted
    case Dropped(id, _) => id in c.inserted && id !in c.sessions
    case Delivering(id, _) => id in c.inserted
    case Sending(st, cmd) => cmd.Relay? && cmd.id in c.inserted
    case Disconnecting(dead) => dead <= c.inserted && dead !! c.sessions
  }

  /** A session that has been allocated but not yet put into the map. */
  predicate Unborn(c: Core, st: Stream, id: SessionId) {
    id in c.store && id !in c.inserted && st < |c.conns| && c.conns[st].agent == c.store[id].agent
  }

  predicate Inv(s: State) {
    && CoreInv(s.core)
    && (forall t | t in s.threads :: PcInv(s.core, s.threads[t]))
    && forall t, u | t in s.threads && u in s.threads && t != u
         && IsStarting(s.threads[t]) && IsStarting(s.threads[u]) :: s.threads[t].id != s.threads[u].id
  }

  /** A point of another call stays justified while the state evolves, unless
      the session it is starting is the one that was just inserted. */
  lemma PcStable(c: Core, d: Core, pc: Pc)
    requires PcInv(c, pc) && Evolves(c, d)
    requires IsStarting(pc) ==> pc.id !in d.inserted
    ensures PcInv(d, pc)
  {
    if pc.Sent? {
      var i :| 0 <= i < |c.sent| && c.sent[i].1 == Start(pc.id);
      assert d.sent[i].1 == Start(pc.id);
    }
  }

  lemma EvolvesReflexive(c: Core)
    ensures Evolves(c, c)
  {
  }

  /** One thread moves: the others keep their justification. */
  lemma MoveKeepsInv(s: State, t: Thread, c: Core, pc: Option<Pc>)
    requires Inv(s) && CoreInv(c) && Evolves(s.core, c)
    requires forall u | u in s.threads && u != t && IsStarting(s.threads[u]) :: s.threads[u].id !in c.inserted
    requires pc.Some? ==> PcInv(c, pc.value)
    requires pc.Some? && IsStarting(pc.value) ==>
               forall u | u in s.threads && u != t && IsStarting(s.threads[u]) :: s.threads[u].id != pc.value.id
    ensures Inv(s.(core := c, threads := if pc.Some? then s.threads[t := pc.value] else s.threads - {t}))
  {
    forall u | u in s.threads && u != t
      ensures PcInv(c, s.threads[u])
    {
      PcStable(s.core, c, s.threads[u]);
    }
  }

  lemma BeginCancelKeepsInv(s: State, t: Thread, id: SessionId)
    requires Inv(s)
    ensures Inv(BeginCancel(s, t, id)) && Evolves(s.core, BeginCancel(s, t, id).core)
  {
    if id in s.core.sessions {
      MoveKeepsInv(s, t, s.core, Some(Cancelling(id, ConnFor(s.core, id))));
    } else {
      MoveKeepsInv(s, t, s.core, None);
    }
  }

  lemma EnterKeepsInv(s: State, t: Thread, call: Call)
    requires Inv(s) && t !in s.threads
    ensures Inv(Enter(s, t, call)) && Evolves(s.core, Enter(s, t, call).core)
  {
    var c := s.core;
    EvolvesReflexive(c);
    match call
    case RegisterStream(agent) =>
      RegisterKeeps(c, agent);
      MoveKeepsInv(s, t, Register(c, agent), None);
      assert s.threads - {t} == s.threads;
    case UnregisterStream(agent) =>
      DetachKeeps(c, agent);
      MoveKeepsInv(s, t, Detach(c, agent), Some(Disconnecting(Doomed(c, agent))));
    case StartSession(agent, kind, id) =>
      if MayStart(c, agent) && id !in c.store {
        AllocateKeeps(c, agent, kind, id);
        MoveKeepsInv(s, t, Allocate(c, agent, kind, id), Some(Checked(c.agents[agent], id)));
      }
    case ReceiveChunk(id) =>
      PopKeeps(c, id);
      MoveKeepsInv(s, t, Pop(c, id), None);
      assert s.threads - {t} == s.threads;
    case _ => LookupKeepsInv(s, t, call);
  }

  /** Calls that start by looking something up. */
  lemma LookupKeepsInv(s: State, t: Thread, call: Call)
    requires Inv(s) && t !in s.threads
    requires call.CancelSession? || call.RouteChunk? || call.RouteExit? || call.SendTo?
    ensures Inv(Enter(s, t, call)) && Evolves(s.core, Enter(s, t, call).core)
  {
    var c := s.core;
    EvolvesReflexive(c);
    match call
    case CancelSession(id) => BeginCancelKeepsInv(s, t, id);
    case RouteChunk(id, chunk) =>
      if id in c.sessions {
        MoveKeepsInv(s, t, c, Some(Delivering(id, chunk)));
      }
    case RouteExit(id, outcome) =>
      if id in c.sessions {
        MoveKeepsInv(s, t, c, Some(Ending(id, outcome)));
      }
    case SendTo(id, body) =>
      if ConnFor(c, id).Some? {
        MoveKeepsInv(s, t, c, Some(Sending(ConnFor(c, id).value, Relay(id, body))));
      }
  }

  lemma ResumeStartKeepsInv(s: State, t: Thread, sendOk: bool)
    requires Inv(s) && t in s.threads && IsStarting(s.threads[t])
    ensures Inv(Resume(s, t, sendOk, 0)) && Evolves(s.core, Resume(s, t, sendOk, 0).core)
  {
    var c := s.core;
    match s.threads[t]
    case Checked(st, id) =>
      if sendOk {
        TransmitKeeps(c, st, Start(id));
        MoveKeepsInv(s, t, Transmit(c, st, Start(id)), Some(Sent(st, id)));
      } else {
        MoveKeepsInv(s, t, c, None);
      }
    case Sent(st, id) =>
      InsertKeeps(c, st, id);
      MoveKeepsInv(s, t, Insert(c, st, id), None);
  }

  lemma ResumeEndKeepsInv(s: State, t: Thread, sendOk: bool)
    requires Inv(s) && t in s.threads
    requires s.threads[t].Cancelling? || s.threads[t].Ending? || s.threads[t].Dropped?
    ensures Inv(Resume(s, t, sendOk, 0)) && Evolves(s.core, Resume(s, t, sendOk, 0).core)
  {
    var c := s.core;
    match s.threads[t]
    case Cancelling(id, st) =>
      if st.Some? && sendOk {
        TransmitKeeps(c, st.value, Cancel(id));
        MoveKeepsInv(s, t, Transmit(c, st.value, Cancel(id)), Some(Ending(id, CANCELED)));
      } else {
        MoveKeepsInv(s, t, c, Some(Ending(id, CANCELED)));
      }
    case Ending(id, outcome) =>
      DropKeeps(c, id);
      MoveKeepsInv(s, t, Drop(c, id), Some(Dropped(id, outcome)));
    case Dropped(id, outcome) =>
      CloseKeeps(c, id, outcome);
      MoveKeepsInv(s, t, Close(c, id, outcome), None);
  }

  lemma ResumeTransferKeepsInv(s: State, t: Thread, sendOk: bool)
    requires Inv(s) && t in s.threads && (s.threads[t].Delivering? || s.threads[t].Sending?)
    ensures Inv(Resume(s, t, sendOk, 0)) && Evolves(s.core, Resume(s, t, sendOk, 0).core)
  {
    var c := s.core;
    EvolvesReflexive(c);
    match s.threads[t]
    case Delivering(id, chunk) =>
      if Closed(c, id) && chunk.Output? == c.store[id].kind.Exec? {
      } else if HasRoom(c.store[id], chunk) {
        PushKeeps(c, id, chunk);
        MoveKeepsInv(s, t, Push(c, id, chunk), None);
      } else {
        BeginCancelKeepsInv(s, t, id);
      }
    case Sending(st, cmd) =>
      if sendOk {
        TransmitKeeps(c, st, cmd);
        MoveKeepsInv(s, t, Transmit(c, st, cmd), None);
      } else {
        MoveKeepsInv(s, t, c, None);
      }
  }

  lemma ResumeDisconnectKeepsInv(s: State, t: Thread, pick: SessionId)
    requires Inv(s) && t in s.threads && s.threads[t].Disconnecting?
    ensures Inv(Resume(s, t, true, pick)) && Evolves(s.core, Resume(s, t, true, pick).core)
  {
    var c, dead := s.core, s.threads[t].dead;
    EvolvesReflexive(c);
    if pick in dead {
      CloseKeeps(c, pick, DISCONNECTED);
      MoveKeepsInv(s, t, Close(c, pick, DISCONNECTED), Some(Disconnecting(dead - {pick})));
    } else {
      MoveKeepsInv(s, t, c, None);
    }
  }

  lemma ResumeKeepsInv(s: State, t: Thread, sendOk: bool, pick: SessionId)
    requires Inv(s) && t in s.threads
    ensures Inv(Resume(s, t, sendOk, pick)) && Evolves(s.core, Resume(s, t, sendOk, pick).core)
  {
    match s.threads[t]
    case Checked(_, _) => ResumeStartKeepsInv(s, t, sendOk);
    case Sent(_, _) => ResumeStartKeepsInv(s, t, sendOk);
    case Cancelling(_, _) => ResumeEndKeepsInv(s, t, sendOk);
    case Ending(_, _) => ResumeEndKeepsInv(s, t, sendOk);
    case Dropped(_, _) => ResumeEndKeepsInv(s, t, sendOk);
    case Delivering(_, _) => ResumeTransferKeepsInv(s, t, sendOk);
    case Sending(_, _) => ResumeTransferKeepsInv(s, t, sendOk);
    case Disconnecting(_) => ResumeDisconnectKeepsInv(s, t, pick);
  }

  lemma StepKeepsInv(s: State, l: Label)
    requires Inv(s)
    ensures Inv(Step(s, l)) && Evolves(s.core, Step(s, l).core)
  {
    EvolvesReflexive(s.core);
    if !s.crashed {
      match l
      case Begin(t, call) =>
        if t !in s.threads {
          EnterKeepsInv(s, t, call);
        }
      case Continue(t, sendOk, pick) =>
        if t in s.threads {
          ResumeKeepsInv(s, t, sendOk, pick);
        }
    }
  }

  lemma {:induction false} RunKeepsInv(s: State, labels: seq<Label>)
    requires Inv(s)
    ensures Inv(Run(s, labels)) && Evolves(s.core, Run(s, labels).core)
    decreases |labels|
  {
    if labels == [] {
      EvolvesReflexive(s.core);
    } else {
      var next := Step(s, labels[0]);
      StepKeepsInv(s, labels[0]);
      RunKeepsInv(next, labels[1..]);
      EvolvesTransitive(s.core, next.core, Run(s, labels).core);
    }
  }

  lemma InitialInv(maxConcurrent: int)
    ensures Inv(Initial(maxConcurrent))
  {
  }

  // ----- main results ------------------------------------------------------

  /** Drop before close: under every interleaving a session in the map is open. */
  lemma TrackedSessionsAreOpen(maxConcurrent: int, labels: seq<Label>, id: SessionId)
    ensures id in Run(Initial(maxConcurrent), labels).core.sessions ==>
              !Closed(Run(Initial(maxConcurrent), labels).core, id)
  {
    InitialInv(maxConcurrent);
    RunKeepsInv(Initial(maxConcurrent), labels);
  }

  /** A session that left the map never returns, and whichever of Exit, Cancel
      and disconnect closed it, its outcome never changes afterwards. */
  lemma EndingsAreFinal(maxConcurrent: int, before: seq<Label>, after: seq<Label>, id: SessionId)
    ensures var c := Run(Initial(maxConcurrent), before).core;
            var d := Run(Run(Initial(maxConcurrent), before), after).core;
            && (id in c.inserted && id !in c.sessions ==> id !in d.sessions)
            && (Closed(c, id) ==> Closed(d, id) && d.store[id].outcome == c.store[id].outcome)
  {
    InitialInv(maxConcurrent);
    RunKeepsInv(Initial(maxConcurrent), before);
    RunKeepsInv(Run(Initial(maxConcurrent), before), after);
  }

  /** Central tells no agent about a session before its start was sent. */
  lemma NothingBeforeStart(maxConcurrent: int, labels: seq<Label>, i: nat)
    ensures var sent := Run(Initial(maxConcurrent), labels).core.sent;
            i < |sent| && !sent[i].1.Start? ==>
              exists j :: 0 <= j < i && sent[j].1 == Start(sent[i].1.id)
  {
    InitialInv(maxConcurrent);
    RunKeepsInv(Initial(maxConcurrent), labels);
    var sent := Run(Initial(maxConcurrent), labels).core.sent;
    if i < |sent| && !sent[i].1.Start? {
      var j :| 0 <= j < |sent[..i]| && sent[..i][j].1 == Start(sent[i].1.id);
      assert sent[j].1 == Start(sent[i].1.id);
    }
  }

  /** connFor never returns a stream that has been replaced or unregistered.  A call
      that had looked the stream up before may still send on it. */
  lemma StaleStreamsStayStale(maxConcurrent: int, before: seq<Label>, after: seq<Label>, st: Stream, id: SessionId)
    ensures var c := Run(Initial(maxConcurrent), before).core;
            var d := Run(Run(Initial(maxConcurrent), before), after).core;
            st < |c.conns| && !Registered(c, st) ==> ConnFor(d, id) != Some(st)
  {
    InitialInv(maxConcurrent);
    RunKeepsInv(Initial(maxConcurrent), before);
    RunKeepsInv(Run(Initial(maxConcurrent), before), after);
  }

  /** The streams list no session that is not in the map, under every interleaving. */
  lemma ListedSessionsAreTracked(maxConcurrent: int, labels: seq<Label>, agent: AgentId)
    ensures var c := Run(Initial(maxConcurrent), labels).core;
            Doomed(c, agent) <= c.sessions
  {
    InitialInv(maxConcurrent);
    RunKeepsInv(Initial(maxConcurrent), labels);
  }

  // ----- concurrency bound -------------------------------------------------

  function InFlight(s: State): set<Thread> {
    set t | t in s.threads && IsStarting(s.threads[t])
  }

  /** At no point of the run are more than `k` starts between check and insert. */
  predicate AtMostStarting(s: State, labels: seq<Label>, k: nat)
    decreases |labels|
  {
    && |InFlight(s)| <= k
    && (labels == [] || AtMostStarting(Step(s, labels[0]), labels[1..], k))
  }

  /** When one thread moves, only that thread can enter or leave the count. */
  lemma InFlightAfter(s: State, t: Thread, next: State)
    requires next.threads - {t} == s.threads - {t}
    ensures t in InFlight(next) && t !in InFlight(s) ==> |InFlight(next)| == |InFlight(s)| + 1
    ensures t !in InFlight(next) && t in InFlight(s) ==> |InFlight(next)| == |InFlight(s)| - 1
    ensures (t in InFlight(next) <==> t in InFlight(s)) ==> |InFlight(next)| == |InFlight(s)|
  {
    assert InFlight(next) - {t} == InFlight(s) - {t} by {
      forall u | u != t
        ensures u in InFlight(next) <==> u in InFlight(s)
      {
        assert u in next.threads - {t} <==> u in next.threads;
        assert u in s.threads - {t} <==> u in s.threads;
        if u in s.threads {
          assert next.threads[u] == (next.threads - {t})[u] == (s.threads - {t})[u] == s.threads[u];
        }
      }
    }
    SizeWithout(InFlight(s), t);
    SizeWithout(InFlight(next), t);
  }

  lemma SizeWithout<T>(a: set<T>, x: T)
    ensures |a - {x}| == if x in a then |a| - 1 else |a|
  {
    if x in a {
      assert a == (a - {x}) + {x};
    } else {
      assert a - {x} == a;
    }
  }

  /** Sessions in the map plus starts under way, as the bound counts them. */
  function Load(s: State): nat {
    |s.core.sessions| + |InFlight(s)|
  }

  lemma SmallerSet<T>(a: set<T>, b: set<T>)
    requires a <= b
    ensures |a| <= |b|
  {
    assert b == a + (b - a);
  }

  /** The load grows by at most one, and only while the map is below its cap. */
  predicate LoadStep(s: State, next: State) {
    && next.core.max == s.core.max
    && (Load(next) <= Load(s)
        || (|s.core.sessions| < s.core.max && Load(next) == Load(s) + 1
            && |InFlight(next)| == |InFlight(s)| + 1))
  }

  lemma EnterShape(s: State, t: Thread, call: Call)
    requires t !in s.threads
    ensures var next := Enter(s, t, call);
            && next.threads - {t} == s.threads - {t}
            && next.core.max == s.core.max && next.core.sessions <= s.core.sessions
            && (t in next.threads && IsStarting(next.threads[t]) ==> |s.core.sessions| < s.core.max)
  {
  }

  lemma EnterLoad(s: State, t: Thread, call: Call)
    requires t !in s.threads
    ensures LoadStep(s, Enter(s, t, call))
  {
    EnterShape(s, t, call);
    LoadWithoutInsert(s, t, Enter(s, t, call));
  }

  /** A move that inserts nothing adds to the load only by starting a start. */
  lemma LoadWithoutInsert(s: State, t: Thread, next: State)
    requires next.threads - {t} == s.threads - {t}
    requires next.core.max == s.core.max && next.core.sessions <= s.core.sessions
    requires t in InFlight(next) ==> t in InFlight(s) || |s.core.sessions| < s.core.max
    ensures LoadStep(s, next)
  {
    InFlightAfter(s, t, next);
    SmallerSet(next.core.sessions, s.core.sessions);
  }

  lemma ResumeShape(s: State, t: Thread, sendOk: bool, pick: SessionId)
    requires t in s.threads && !s.threads[t].Sent?
    ensures var next := Resume(s, t, sendOk, pick);
            && next.threads - {t} == s.threads - {t}
            && next.core.max == s.core.max && next.core.sessions <= s.core.sessions
            && (t in next.threads && IsStarting(next.threads[t]) ==> IsStarting(s.threads[t]))
  {
  }

  lemma ResumeLoad(s: State, t: Thread, sendOk: bool, pick: SessionId)
    requires t in s.threads
    ensures LoadStep(s, Resume(s, t, sendOk, pick))
  {
    if s.threads[t].Sent? {
      InsertLoad(s, t, sendOk, pick);
    } else {
      ResumeShape(s, t, sendOk, pick);
      LoadWithoutInsert(s, t, Resume(s, t, sendOk, pick));
    }
  }

  /** An insert turns a start under way into a session in the map. */
  lemma InsertLoad(s: State, t: Thread, sendOk: bool, pick: SessionId)
    requires t in s.threads && s.threads[t].Sent?
    ensures LoadStep(s, Resume(s, t, sendOk, pick))
  {
    var next := Resume(s, t, sendOk, pick);
    assert next.threads - {t} == s.threads - {t};
    InFlightAfter(s, t, next);
    var id := s.threads[t].id;
    SizeWithout(next.core.sessions, id);
    SmallerSet(next.core.sessions - {id}, s.core.sessions);
  }

  lemma StepLoad(s: State, l: Label)
    ensures LoadStep(s, Step(s, l))
  {
    if !s.crashed {
      match l
      case Begin(t, call) =>
        if t !in s.threads {
          EnterLoad(s, t, call);
        }
      case Continue(t, sendOk, pick) =>
        if t in s.threads {
          ResumeLoad(s, t, sendOk, pick);
        }
    }
  }

  /** With at most `k` overlapping starts the cap is max + k - 1: the plain cap
      when starts do not overlap, and one more for each start that overlaps. */
  lemma {:induction false} LoadIsBounded(s: State, labels: seq<Label>, k: nat)
    requires k > 0 && Load(s) <= s.core.max + k - 1 && AtMostStarting(s, labels, k)
    ensures Load(Run(s, labels)) <= s.core.max + k - 1
    decreases |labels|
  {
    if labels != [] {
      StepLoad(s, labels[0]);
      LoadIsBounded(Step(s, labels[0]), labels[1..], k);
    }
  }

  lemma SessionsAreCapped(maxConcurrent: int, labels: seq<Label>, k: nat)
    requires k > 0 && AtMostStarting(Initial(maxConcurrent), labels, k)
    ensures var limit := Initial(maxConcurrent).core.max;
            Load(Run(Initial(maxConcurrent), labels)) <= limit + k - 1
  {
    assert InFlight(Initial(maxConcurrent)) == {};
    LoadIsBounded(Initial(maxConcurrent), labels, k);
  }
}
