/** internal/agent/stream.go: the table of in-flight sessions that the receive
    loop fills, and the guarantee that no session outlives the stream. */
module AgentStreams {
  import opened Wire

  type SessionId = nat

  /** A context, named by the order in which contexts were created. */
  type Ctx = nat

  /** A streamSession: its cancel function and, once set, its pfSession. */
  datatype Entry = Entry(ctx: Ctx, pf: Option<nat>)

  /** What happens to the table while the stream is served: messages of the
      receive loop and, at any moment, session goroutines setting their
      pfSession or finishing (their deferred cancel). */
  datatype Event =
    | Started(id: SessionId)
    | CancelReceived(id: SessionId)
    | Finished(id: SessionId)
    | PfEstablished(id: SessionId, pf: nat)

  datatype Table = Table(sessions: map<SessionId, Entry>, cancelled: set<Ctx>, created: nat)

  function Cancel(t: Table, id: SessionId): Table {
    if id in t.sessions
    then t.(sessions := t.sessions - {id}, cancelled := t.cancelled + {t.sessions[id].ctx})
    else t
  }

  function Handle(t: Table, e: Event): Table {
    match e
    case Started(id) => Table(t.sessions[id := Entry(t.created, None)], t.cancelled, t.created + 1)
    case CancelReceived(id) => Cancel(t, id)
    case Finished(id) => Cancel(t, id)
    case PfEstablished(id, pf) =>
      if id in t.sessions then t.(sessions := t.sessions[id := t.sessions[id].(pf := Some(pf))]) else t
  }

  function HandleAll(t: Table, events: seq<Event>): Table {
    if events == [] then t else Handle(HandleAll(t, events[..|events| - 1]), events[|events| - 1])
  }

  function CancelAll(t: Table): Table {
    t.(sessions := map[], cancelled := t.cancelled + set id | id in t.sessions :: t.sessions[id].ctx)
  }

  const EMPTY := Table(map[], {}, 0)

  /** sessionCancels and the loop of openAndServeStream. */
  class SessionCancels {
    var sessions: map<SessionId, Entry>
    var cancelled: set<Ctx>
    var created: nat

    function View(): Table
      reads this
    {
      Table(sessions, cancelled, created)
    }

    constructor ()
      ensures View() == EMPTY
    {
      sessions, cancelled, created := map[], {}, 0;
    }

    /** context.WithCancel, then add. */
    method Add(id: SessionId)
      modifies this
      ensures View() == Handle(old(View()), Started(id))
      ensures sessions == old(sessions)[id := Entry(old(created), None)] && cancelled == old(cancelled)
    {
      sessions := sessions[id := Entry(created, None)];
      created := created + 1;
    }

    method CancelOne(id: SessionId)
      modifies this
      ensures View() == Cancel(old(View()), id)
      ensures sessions == old(sessions) - {id}
      ensures cancelled == old(cancelled) + if id in old(sessions) then {old(sessions)[id].ctx} else {}
    {
      if id in sessions {
        cancelled := cancelled + {sessions[id].ctx};
        sessions := sessions - {id};
      }
    }

    method SetPf(id: SessionId, pf: nat)
      modifies this
      ensures View() == Handle(old(View()), PfEstablished(id, pf))
      ensures sessions == if id in old(sessions) then old(sessions)[id := Entry(old(sessions)[id].ctx, Some(pf))]
                          else old(sessions)
    {
      if id in sessions {
        sessions := sessions[id := sessions[id].(pf := Some(pf))];
      }
    }

    method PfFor(id: SessionId) returns (pf: Option<nat>)
      ensures pf == if id in sessions then sessions[id].pf else None
    {
      if id in sessions {
        return sessions[id].pf;
      }
      return None;
    }

    method CancelEverything()
      modifies this
      ensures View() == CancelAll(old(View()))
      ensures sessions == map[]
      ensures forall id | id in old(sessions) :: old(sessions)[id].ctx in cancelled
    {
      ghost var was := sessions;
      while sessions != map[]
        invariant sessions.Keys <= was.Keys && forall id | id in sessions :: sessions[id] == was[id]
        invariant cancelled == old(cancelled) + set id | id in was && id !in sessions :: was[id].ctx
        invariant created == old(created)
        decreases sessions.Keys
      {
        assert sessions.Keys != {};
        var id :| id in sessions.Keys;
        CancelOne(id);
      }
    }

    /** Serves the stream until it breaks, then tears everything down. */
    method Serve(events: seq<Event>)
      modifies this
      ensures View() == CancelAll(HandleAll(old(View()), events))
    {
      for i := 0 to |events|
        invariant View() == HandleAll(old(View()), events[..i])
      {
        assert events[..i + 1][..i] == events[..i];
        match events[i]
        case Started(id) => Add(id);
        case CancelReceived(id) => CancelOne(id);
        case Finished(id) => CancelOne(id);
        case PfEstablished(id, pf) => SetPf(id, pf);
      }
      assert events[..|events|] == events;
      CancelEverything();
    }
  }

  // ----- no orphaned sessions ----------------------------------------------

  /** A start finds its id still in the table, and so replaces that entry. */
  predicate Replaces(events: seq<Event>, i: nat) {
    i < |events| && events[i].Started? && events[i].id in HandleAll(EMPTY, events[..i]).sessions
  }

  predicate NothingReplaced(events: seq<Event>) {
    forall i | 0 <= i < |events| :: !Replaces(events, i)
  }

  predicate Tracked(t: Table, c: Ctx) {
    exists id | id in t.sessions :: t.sessions[id].ctx == c
  }

  /** Every context created is tracked or cancelled. */
  predicate Accounted(t: Table) {
    forall c | 0 <= c < t.created :: Tracked(t, c) || c in t.cancelled
  }

  /** No context is both, and none is tracked twice. */
  predicate Sound(t: Table) {
    && (forall c | c in t.cancelled :: c < t.created && !Tracked(t, c))
    && (forall id | id in t.sessions :: t.sessions[id].ctx < t.created)
    && (forall i, j | i in t.sessions && j in t.sessions && i != j :: t.sessions[i].ctx != t.sessions[j].ctx)
  }

  lemma {:induction false} TableIsSound(events: seq<Event>)
    ensures Sound(HandleAll(EMPTY, events))
  {
    if events != [] {
      TableIsSound(events[..|events| - 1]);
      HandleKeepsSound(HandleAll(EMPTY, events[..|events| - 1]), events[|events| - 1]);
    }
  }

  lemma HandleKeepsSound(t: Table, e: Event)
    requires Sound(t)
    ensures Sound(Handle(t, e))
  {
    var u := Handle(t, e);
    forall c | c in u.cancelled
      ensures c < u.created && !Tracked(u, c)
    {
      if c in t.cancelled {
        assert !Tracked(t, c);
        assert forall id | id in t.sessions :: t.sessions[id].ctx != c;
      }
    }
  }

  /** A replaced entry's context is lost for good: it is neither tracked nor
      cancelled any more, whatever follows. */
  lemma HandleLosesExactly(t: Table, e: Event)
    requires Sound(t)
    ensures Accounted(Handle(t, e)) <==> Accounted(t) && !(e.Started? && e.id in t.sessions)
  {
    HandleKeepsSound(t, e);
    if Accounted(t) && !(e.Started? && e.id in t.sessions) {
      KeptIsAccounted(t, e);
    } else if !Accounted(t) {
      LostStaysLost(t, e);
    } else {
      ReplacedIsLost(t, e);
    }
  }

  lemma KeptIsAccounted(t: Table, e: Event)
    requires Accounted(t) && !(e.Started? && e.id in t.sessions)
    ensures Accounted(Handle(t, e))
  {
    var u := Handle(t, e);
    forall c | 0 <= c < u.created
      ensures Tracked(u, c) || c in u.cancelled
    {
      if c == t.created {
        assert u.sessions[e.id].ctx == c;
      } else if Tracked(t, c) {
        var id :| id in t.sessions && t.sessions[id].ctx == c;
        assert id in u.sessions ==> u.sessions[id].ctx == c;
      }
    }
  }

  lemma LostStaysLost(t: Table, e: Event)
    requires Sound(t) && !Accounted(t)
    ensures !Accounted(Handle(t, e))
  {
    var c :| 0 <= c < t.created && !Tracked(t, c) && c !in t.cancelled;
    assert forall id | id in t.sessions :: t.sessions[id].ctx != c;
    assert !Tracked(Handle(t, e), c) && c !in Handle(t, e).cancelled;
  }

  lemma ReplacedIsLost(t: Table, e: Event)
    requires Sound(t) && e.Started? && e.id in t.sessions
    ensures !Accounted(Handle(t, e))
  {
    var c := t.sessions[e.id].ctx;
    assert Tracked(t, c);
    assert !Tracked(Handle(t, e), c) && c !in Handle(t, e).cancelled;
  }

  lemma {:induction false} AccountedExactly(events: seq<Event>)
    ensures Accounted(HandleAll(EMPTY, events)) <==> NothingReplaced(events)
  {
    if events != [] {
      var n := |events| - 1;
      var before := events[..n];
      AccountedExactly(before);
      TableIsSound(before);
      HandleLosesExactly(HandleAll(EMPTY, before), events[n]);
      assert forall i | 0 <= i < n :: before[..i] == events[..i] && before[i] == events[i];
      assert forall i: nat | i < n :: Replaces(before, i) <==> Replaces(events, i);
      assert Replaces(events, n) <==> events[n].Started? && events[n].id in HandleAll(EMPTY, before).sessions;
    }
  }

  /** When the stream ends the table is empty, and every context created on it
      has been cancelled exactly when no start reused the id of a session that
      was still in the table. */
  lemma NoOrphansExactly(events: seq<Event>)
    ensures var t := CancelAll(HandleAll(EMPTY, events));
            && t.sessions == map[]
            && ((forall c | 0 <= c < t.created :: c in t.cancelled) <==> NothingReplaced(events))
  {
    var t := HandleAll(EMPTY, events);
    AccountedExactly(events);
    TableIsSound(events);
    forall c
      ensures c in CancelAll(t).cancelled <==> c in t.cancelled || Tracked(t, c)
    {
      if Tracked(t, c) {
        var id :| id in t.sessions && t.sessions[id].ctx == c;
        assert t.sessions[id].ctx in set i | i in t.sessions :: t.sessions[i].ctx;
      }
    }
  }

  predicate DistinctStarts(events: seq<Event>) {
    forall i, j | 0 <= i < j < |events| && events[i].Started? && events[j].Started? :: events[i].id != events[j].id
  }

  lemma {:induction false} TrackedWasStarted(events: seq<Event>, id: SessionId) returns (i: nat)
    requires id in HandleAll(EMPTY, events).sessions
    ensures i < |events| && events[i] == Started(id)
  {
    var n := |events| - 1;
    if events[n] == Started(id) {
      return n;
    }
    i := TrackedWasStarted(events[..n], id);
  }

  /** Session ids are UUIDs; with distinct ids nothing is ever orphaned, for every
      order of starts, cancels and completions. */
  lemma DistinctIdsLeaveNoOrphans(events: seq<Event>, c: Ctx)
    requires DistinctStarts(events)
    ensures var t := CancelAll(HandleAll(EMPTY, events));
            t.sessions == map[] && (c < t.created ==> c in t.cancelled)
  {
    forall i | 0 <= i < |events|
      ensures !Replaces(events, i)
    {
      if Replaces(events, i) {
        var _ := TrackedWasStarted(events[..i], events[i].id);
      }
    }
    NoOrphansExactly(events);
  }

  // ----- what becomes of one session -------------------------------------------

  predicate Ends(e: Event, id: SessionId) {
    e == CancelReceived(id) || e == Finished(id)
  }

  /** Nothing after event `i`, up to `n`, is a start or an end of the session. */
  predicate Alone(events: seq<Event>, i: nat, n: nat, id: SessionId) {
    forall j | i < j < n && j < |events| :: events[j] != Started(id) && !Ends(events[j], id)
  }

  predicate EndedAfter(events: seq<Event>, i: nat, id: SessionId) {
    exists j | i < j < |events| :: Ends(events[j], id) && Alone(events, i, j, id)
  }

  /** The context created by event `i`. */
  function CtxOf(events: seq<Event>, i: nat): Ctx
    requires i < |events|
  {
    HandleAll(EMPTY, events[..i]).created
  }

  lemma Grows(events: seq<Event>, e: Event, i: nat, id: SessionId)
    requires i < |events|
    ensures Alone(events + [e], i, |events| + 1, id)
       <==> Alone(events, i, |events|, id) && e != Started(id) && !Ends(e, id)
    ensures EndedAfter(events + [e], i, id)
       <==> EndedAfter(events, i, id) || (Alone(events, i, |events|, id) && Ends(e, id))
    ensures CtxOf(events + [e], i) == CtxOf(events, i)
  {
    var all := events + [e];
    assert forall j | 0 <= j < |events| :: all[j] == events[j];
    assert all[|events|] == e;
    assert all[..i] == events[..i];
    if EndedAfter(events, i, id) {
      var j :| i < j < |events| && Ends(events[j], id) && Alone(events, i, j, id);
      assert Ends(all[j], id) && Alone(all, i, j, id);
    }
    if Alone(events, i, |events|, id) && Ends(e, id) {
      assert Ends(all[|events|], id) && Alone(all, i, |events|, id);
    }
    if EndedAfter(all, i, id) {
      var j :| i < j < |all| && Ends(all[j], id) && Alone(all, i, j, id);
      assert j < |events| ==> Ends(events[j], id) && Alone(events, i, j, id);
    }
  }

  /** Before the stream ends, a session's context is cancelled exactly if a cancel for
      it arrived or its goroutine finished before its id was started again; and the
      table tracks it exactly if neither has happened. */
  lemma {:induction false} CancelledExactly(events: seq<Event>, i: nat)
    requires i < |events| && events[i].Started?
    ensures var t, id, c := HandleAll(EMPTY, events), events[i].id, CtxOf(events, i);
            && c < t.created
            && (c in t.cancelled <==> EndedAfter(events, i, id))
            && (id in t.sessions && t.sessions[id].ctx == c <==> Alone(events, i, |events|, id))
            && forall k | k in t.sessions && k != id :: t.sessions[k].ctx != c
  {
    var n := |events| - 1;
    var before, e := events[..n], events[n];
    assert events == before + [e];
    TableIsSound(before);
    if i == n {
      var u := HandleAll(EMPTY, before);
      assert events[..i] == before && HandleAll(EMPTY, events) == Handle(u, e);
    } else {
      CancelledExactly(before, i);
      Grows(before, e, i, events[i].id);
      assert HandleAll(EMPTY, events) == Handle(HandleAll(EMPTY, before), e);
    }
  }

  /** The pfSession that PfFor finds is the last one established for the session
      since its start, if any. */
  lemma {:induction false} PfForExactly(events: seq<Event>, i: nat)
    requires i < |events| && events[i].Started? && Alone(events, i, |events|, events[i].id)
    ensures var t, id := HandleAll(EMPTY, events), events[i].id;
            && id in t.sessions
            && (t.sessions[id].pf.None? ==>
                  forall j, pf | i < j < |events| :: events[j] != PfEstablished(id, pf))
            && (t.sessions[id].pf.Some? ==>
                  exists j | i < j < |events| ::
                    && events[j] == PfEstablished(id, t.sessions[id].pf.value)
                    && forall k, pf | j < k < |events| :: events[k] != PfEstablished(id, pf))
  {
    var n := |events| - 1;
    if i < n {
      var before := events[..n];
      assert forall j | 0 <= j < n :: before[j] == events[j];
      PfForExactly(before, i);
      var id, u := events[i].id, HandleAll(EMPTY, before);
      assert HandleAll(EMPTY, events) == Handle(u, events[n]);
      if !(events[n].PfEstablished? && events[n].id == id) && u.sessions[id].pf.Some? {
        var j :| i < j < n && before[j] == PfEstablished(id, u.sessions[id].pf.value)
                 && forall k, pf | j < k < n :: before[k] != PfEstablished(id, pf);
        assert events[j] == PfEstablished(id, u.sessions[id].pf.value);
      }
    }
  }
}
