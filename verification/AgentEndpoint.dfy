/** OpenStream of internal/central/grpc.go: registers an agent's stream, routes
    what arrives on it, and unregisters it when it ends. */
module AgentEndpoint {
  import opened Sessions
  import opened SessionRuns
  import opened SessionCalls
  import opened StreamManager

  /** Session ids are fresh UUIDs. */
  predicate FreshStarts(c: Core, calls: seq<(Call, bool)>)
    decreases |calls|
  {
    calls == [] ||
    (&& (calls[0].0.StartSession? ==> calls[0].0.id !in c.store)
     && FreshStarts(After(c, calls[0].0, calls[0].1), calls[1..]))
  }

  /** The calls of one stream, with everything that happens between its
      registration and its end. */
  function StreamCalls(agent: AgentId, meanwhile: seq<(Call, bool)>): seq<(Call, bool)> {
    [(RegisterStream(agent), true)] + (meanwhile + [(UnregisterStream(agent), true)])
  }

  /** The sessions that the starts returned to their bridges. */
  predicate Holds(store: map<SessionId, StreamSession>, inserted: set<SessionId>, held: map<SessionId, StreamSession>) {
    held.Keys == inserted && Kept(held, store)
  }

  predicate Kept(before: map<SessionId, StreamSession>, after: map<SessionId, StreamSession>) {
    forall id | id in before :: id in after && after[id] == before[id]
  }

  lemma KeptHolds(
    store: map<SessionId, StreamSession>, store': map<SessionId, StreamSession>, inserted: set<SessionId>,
    held: map<SessionId, StreamSession>, id: SessionId)
    requires Holds(store, inserted, held) && Kept(store, store')
    ensures Holds(store', inserted, held)
    ensures id in store' ==> Holds(store', inserted + {id}, held[id := store'[id]])
  {
  }

  /** OpenStream while its stream lasts: `meanwhile` are the Route calls for what
      arrives on it, each with the result of the Send that a cancel would make, and
      in between any calls that other handlers make of the manager and the receives
      of the bridges. */
  method OpenStream(
    m: SessionManager, agent: AgentId, meanwhile: seq<(Call, bool)>, held: map<SessionId, StreamSession>)
    returns (held': map<SessionId, StreamSession>)
    requires m.Valid() && Holds(m.store, m.inserted, held) && FreshStarts(Register(m.View(), agent), meanwhile)
    modifies m, m.store.Values
    ensures m.Valid() && Holds(m.store, m.inserted, held') && m.View() == History(old(m.View()), StreamCalls(agent, meanwhile))
  {
    m.RegisterAgentStream(agent);
    held' := PerformAll(m, meanwhile, held);
    m.UnregisterAgentStream(agent);
    StreamHistory(old(m.View()), agent, meanwhile);
  }

  method PerformAll(m: SessionManager, calls: seq<(Call, bool)>, held: map<SessionId, StreamSession>)
    returns (held': map<SessionId, StreamSession>)
    requires m.Valid() && Holds(m.store, m.inserted, held) && FreshStarts(m.View(), calls)
    modifies m, m.store.Values
    ensures m.Valid() && Holds(m.store, m.inserted, held') && m.View() == History(old(m.View()), calls)
    ensures forall i | i in m.store && i !in old(m.store) :: fresh(m.store[i])
    ensures Kept(old(m.store), m.store)
  {
    held' := held;
    var i := 0;
    while i < |calls|
      invariant i <= |calls| && m.Valid() && Holds(m.store, m.inserted, held') && FreshStarts(m.View(), calls[i..])
      invariant History(m.View(), calls[i..]) == History(old(m.View()), calls)
      invariant forall i | i in m.store && i !in old(m.store) :: fresh(m.store[i])
      invariant Kept(old(m.store), m.store)
    {
      assert calls[i..][1..] == calls[i + 1..];
      held' := Perform(m, calls[i].0, calls[i].1, held');
      i := i + 1;
    }
  }

  /** One whole call. */
  method Perform(m: SessionManager, call: Call, sendOk: bool, held: map<SessionId, StreamSession>)
    returns (held': map<SessionId, StreamSession>)
    requires m.Valid() && Holds(m.store, m.inserted, held) && (call.StartSession? ==> call.id !in m.store)
    modifies m, m.store.Values
    ensures m.Valid() && Holds(m.store, m.inserted, held') && m.View() == After(old(m.View()), call, sendOk)
    ensures forall i | i in m.store && i !in old(m.store) :: fresh(m.store[i])
    ensures Kept(old(m.store), m.store)
  {
    held' := held;
    match call
    case StartSession(agent, kind, id) => held' := PerformStart(m, agent, kind, id, sendOk, held);
    case ReceiveChunk(id) =>
      if id in held {
        m.ReceiveChunk(held[id]);
      }
    case _ => PerformOther(m, call, sendOk);
  }

  method PerformStart(
    m: SessionManager, agent: AgentId, kind: Kind, id: SessionId, sendOk: bool, held: map<SessionId, StreamSession>)
    returns (held': map<SessionId, StreamSession>)
    requires m.Valid() && Holds(m.store, m.inserted, held) && id !in m.store
    modifies m
    ensures m.Valid() && Holds(m.store, m.inserted, held') && m.View() == AfterStart(old(m.View()), agent, kind, id, sendOk)
    ensures forall i | i in m.store && i !in old(m.store) :: fresh(m.store[i])
    ensures Kept(old(m.store), m.store)
  {
    ghost var store, inserted := m.store, m.inserted;
    held' := held;
    var sess, _ := m.Start(agent, kind, id, sendOk);
    KeptHolds(store, m.store, inserted, held, id);
    if sess.Some? {
      held' := held[id := sess.value];
    }
  }

  method PerformOther(m: SessionManager, call: Call, sendOk: bool)
    requires m.Valid() && !call.StartSession? && !call.ReceiveChunk?
    modifies m, m.store.Values
    ensures m.Valid() && m.View() == After(old(m.View()), call, sendOk)
    ensures m.store == old(m.store) && m.inserted == old(m.inserted)
  {
    match call
    case RegisterStream(agent) => m.RegisterAgentStream(agent);
    case UnregisterStream(agent) => m.UnregisterAgentStream(agent);
    case CancelSession(id) => m.Cancel(id, sendOk);
    case RouteChunk(id, chunk) => m.RouteChunk(id, chunk, sendOk);
    case RouteExit(id, outcome) => m.RouteExit(id, outcome);
    case SendTo(id, body) => var _ := m.SendTo(id, body, sendOk);
  }

  lemma {:induction false} HistoryAppend(c: Core, calls: seq<(Call, bool)>, call: (Call, bool))
    ensures History(c, calls + [call]) == After(History(c, calls), call.0, call.1)
    decreases |calls|
  {
    if calls == [] {
      assert [call][1..] == [] && [] + [call] == [call];
      assert History(After(c, call.0, call.1), []) == After(c, call.0, call.1);
    } else {
      assert (calls + [call])[1..] == calls[1..] + [call];
      HistoryAppend(After(c, calls[0].0, calls[0].1), calls[1..], call);
    }
  }

  lemma StreamHistory(c: Core, agent: AgentId, meanwhile: seq<(Call, bool)>)
    ensures History(c, StreamCalls(agent, meanwhile))
         == AfterUnregister(History(Register(c, agent), meanwhile), agent)
  {
    var rest := meanwhile + [(UnregisterStream(agent), true)];
    assert StreamCalls(agent, meanwhile)[1..] == rest;
    HistoryAppend(Register(c, agent), meanwhile, (UnregisterStream(agent), true));
  }

  /** When a stream ends, whatever calls came before, every session of its agent
      that was ever in the map is out of it and closed. */
  lemma StreamEndEndsSessions(maxConcurrent: int, calls: seq<(Call, bool)>, agent: AgentId, id: SessionId)
    requires OrderlyRegistration(Initial(maxConcurrent).core, calls)
    ensures var c := After(History(Initial(maxConcurrent).core, calls), UnregisterStream(agent), true);
            id in c.inserted && id in c.store && c.store[id].agent == agent ==> id !in c.sessions && Closed(c, id)
  {
    InitialInv(maxConcurrent);
    HistoryKeepsIndex(Initial(maxConcurrent).core, calls);
    var before := History(Initial(maxConcurrent).core, calls);
    var c := After(before, UnregisterStream(agent), true);
    AfterKeepsIndex(before, UnregisterStream(agent), true);
    assert Doomed(c, agent) == {};
  }
}
