/** Where the outcome of a session comes from, under every interleaving of the
    manager's calls. */
module SessionOutcomes {
  import opened Wire
  import opened Sessions
  import opened SessionRuns

  // ----- what the calls of a run account for ----------------------------------

  /** A call of this kind was begun for the session. */
  predicate ExitBegun(labels: seq<Label>, id: SessionId, outcome: Outcome) {
    exists l | l in labels :: l.Begin? && l.call == RouteExit(id, outcome)
  }

  predicate CancelBegun(labels: seq<Label>, id: SessionId) {
    exists l | l in labels :: l.Begin? && l.call == CancelSession(id)
  }

  predicate ChunkBegun(labels: seq<Label>, id: SessionId) {
    exists l | l in labels :: l.Begin? && l.call.RouteChunk? && l.call.id == id
  }

  predicate UnregisterBegun(labels: seq<Label>, agent: AgentId) {
    exists l | l in labels :: l.Begin? && l.call == UnregisterStream(agent)
  }

  /** The outcome is one that an exit reported, or that of a cancel, by itself or
      for a chunk that found no room, or that of the loss of the agent. */
  predicate Caused(labels: seq<Label>, agent: AgentId, id: SessionId, outcome: Outcome) {
    || ExitBegun(labels, id, outcome)
    || (outcome == Outcome(-1, Text("canceled")) && (CancelBegun(labels, id) || ChunkBegun(labels, id)))
    || (outcome == Outcome(-1, Text("agent disconnected")) && UnregisterBegun(labels, agent))
  }

  lemma BegunOneMore(labels: seq<Label>, l: Label, agent: AgentId, id: SessionId, outcome: Outcome)
    ensures ExitBegun(labels, id, outcome) ==> ExitBegun(labels + [l], id, outcome)
    ensures CancelBegun(labels, id) ==> CancelBegun(labels + [l], id)
    ensures ChunkBegun(labels, id) ==> ChunkBegun(labels + [l], id)
    ensures UnregisterBegun(labels, agent) ==> UnregisterBegun(labels + [l], agent)
    ensures Caused(labels, agent, id, outcome) ==> Caused(labels + [l], agent, id, outcome)
  {
    assert forall x | x in labels :: x in labels + [l];
  }

  // ----- invariant -------------------------------------------------------------

  predicate PcCaused(c: Core, pc: Pc, labels: seq<Label>) {
    match pc
    case Cancelling(id, _) => CancelBegun(labels, id) || ChunkBegun(labels, id)
    case Ending(id, outcome) => id in c.store && Caused(labels, c.store[id].agent, id, outcome)
    case Dropped(id, outcome) => id in c.store && Caused(labels, c.store[id].agent, id, outcome)
    case Delivering(id, _) => ChunkBegun(labels, id)
    case Disconnecting(dead) => forall id | id in dead :: id in c.store && UnregisterBegun(labels, c.store[id].agent)
    case _ => true
  }

  predicate OutcomesCaused(c: Core, labels: seq<Label>) {
    forall id | id in c.store && c.store[id].outcome.Some? ::
      Caused(labels, c.store[id].agent, id, c.store[id].outcome.value)
  }

  ghost predicate CauseInv(s: State, labels: seq<Label>) {
    && Inv(s) && OutcomesCaused(s.core, labels)
    && forall t | t in s.threads :: PcCaused(s.core, s.threads[t], labels)
  }

  /** A point of a call stays accounted for as sessions keep their agents. */
  lemma PcStaysCaused(c: Core, d: Core, pc: Pc, labels: seq<Label>, l: Label)
    requires PcCaused(c, pc, labels)
    requires forall id | id in c.store :: id in d.store && d.store[id].agent == c.store[id].agent
    ensures PcCaused(d, pc, labels + [l])
  {
    match pc
    case Cancelling(id, _) => BegunOneMore(labels, l, "", id, CANCELED);
    case Ending(id, outcome) => BegunOneMore(labels, l, c.store[id].agent, id, outcome);
    case Dropped(id, outcome) => BegunOneMore(labels, l, c.store[id].agent, id, outcome);
    case Delivering(id, _) => BegunOneMore(labels, l, "", id, CANCELED);
    case Disconnecting(dead) =>
      forall id | id in dead
        ensures id in d.store && UnregisterBegun(labels + [l], d.store[id].agent)
      {
        BegunOneMore(labels, l, c.store[id].agent, id, CANCELED);
      }
    case _ =>
  }

  /** No outcome is set but that of the one session, if it was open. */
  ghost predicate Settles(c: Core, d: Core, id: SessionId, outcome: Outcome) {
    forall i | i in d.store && d.store[i].outcome.Some? ::
      || (i in c.store && d.store[i].agent == c.store[i].agent && d.store[i].outcome == c.store[i].outcome)
      || (i == id && i in c.store && d.store[i].agent == c.store[i].agent && d.store[i].outcome == Some(outcome))
  }

  lemma OutcomesStayCaused(c: Core, d: Core, labels: seq<Label>, l: Label, id: SessionId, outcome: Outcome)
    requires OutcomesCaused(c, labels) && Settles(c, d, id, outcome)
    requires id in c.store ==> Caused(labels, c.store[id].agent, id, outcome)
    ensures OutcomesCaused(d, labels + [l])
  {
    forall i | i in d.store && d.store[i].outcome.Some?
      ensures Caused(labels + [l], d.store[i].agent, i, d.store[i].outcome.value)
    {
      BegunOneMore(labels, l, d.store[i].agent, i, d.store[i].outcome.value);
    }
  }

  lemma SameOutcomes(c: Core, d: Core, labels: seq<Label>, l: Label)
    requires OutcomesCaused(c, labels)
    requires forall i | i in d.store && d.store[i].outcome.Some? ::
               i in c.store && d.store[i].agent == c.store[i].agent && d.store[i].outcome == c.store[i].outcome
    ensures OutcomesCaused(d, labels + [l])
  {
    forall i | i in d.store && d.store[i].outcome.Some?
      ensures Caused(labels + [l], d.store[i].agent, i, d.store[i].outcome.value)
    {
      BegunOneMore(labels, l, d.store[i].agent, i, d.store[i].outcome.value);
    }
  }

  /** One thread moves. */
  lemma MoveStaysCaused(s: State, t: Thread, next: State, labels: seq<Label>, l: Label)
    requires CauseInv(s, labels) && Inv(next) && Evolves(s.core, next.core)
    requires next.threads - {t} == s.threads - {t}
    requires OutcomesCaused(next.core, labels + [l])
    requires t in next.threads ==> PcCaused(next.core, next.threads[t], labels + [l])
    ensures CauseInv(next, labels + [l])
  {
    forall u | u in next.threads && u != t
      ensures PcCaused(next.core, next.threads[u], labels + [l])
    {
      assert u in next.threads - {t} && u in s.threads - {t};
      assert next.threads[u] == (next.threads - {t})[u] == (s.threads - {t})[u] == s.threads[u];
      PcStaysCaused(s.core, next.core, s.threads[u], labels, l);
    }
  }

  // ----- steps -----------------------------------------------------------------

  lemma EnterCaused(s: State, t: Thread, call: Call, labels: seq<Label>)
    requires CauseInv(s, labels) && t !in s.threads && !s.crashed
    ensures CauseInv(Step(s, Begin(t, call)), labels + [Begin(t, call)])
  {
    var l, next := Begin(t, call), Enter(s, t, call);
    StepKeepsInv(s, l);
    EnterShape(s, t, call);
    EnterSetsNothing(s, t, call);
    SameOutcomes(s.core, next.core, labels, l);
    assert (labels + [l])[|labels|] == l;
    EnterPcCaused(s, t, call, labels + [l]);
    MoveStaysCaused(s, t, next, labels, l);
  }

  lemma EnterSetsNothing(s: State, t: Thread, call: Call)
    ensures var d := Enter(s, t, call).core;
            forall i | i in d.store && d.store[i].outcome.Some? ::
              i in s.core.store && d.store[i].agent == s.core.store[i].agent
              && d.store[i].outcome == s.core.store[i].outcome
  {
  }

  lemma EnterPcCaused(s: State, t: Thread, call: Call, labels: seq<Label>)
    requires Inv(s) && t !in s.threads && Begin(t, call) in labels
    ensures var next := Enter(s, t, call);
            t in next.threads ==> PcCaused(next.core, next.threads[t], labels)
  {
    var l := Begin(t, call);
    match call
    case CancelSession(id) => assert CancelBegun(labels, id);
    case RouteChunk(id, _) => assert ChunkBegun(labels, id);
    case RouteExit(id, outcome) => assert ExitBegun(labels, id, outcome);
    case UnregisterStream(agent) => assert UnregisterBegun(labels, agent);
    case _ =>
  }

  lemma ResumeCaused(s: State, t: Thread, sendOk: bool, pick: SessionId, labels: seq<Label>)
    requires CauseInv(s, labels) && t in s.threads && !s.crashed
    ensures CauseInv(Step(s, Continue(t, sendOk, pick)), labels + [Continue(t, sendOk, pick)])
  {
    var l, next := Continue(t, sendOk, pick), Resume(s, t, sendOk, pick);
    StepKeepsInv(s, l);
    PcStaysCaused(s.core, s.core, s.threads[t], labels, l);
    ResumeOutcomes(s, t, sendOk, pick, labels, l);
    ResumeMoves(s, t, sendOk, pick);
    ResumePcCaused(s, t, sendOk, pick, labels + [l]);
    MoveStaysCaused(s, t, next, labels, l);
  }

  lemma ResumeMoves(s: State, t: Thread, sendOk: bool, pick: SessionId)
    requires t in s.threads
    ensures Resume(s, t, sendOk, pick).threads - {t} == s.threads - {t}
  {
  }

  /** Only the last step of a call that ends a session sets an outcome. */
  lemma ResumeOutcomes(s: State, t: Thread, sendOk: bool, pick: SessionId, labels: seq<Label>, l: Label)
    requires CauseInv(s, labels) && t in s.threads
    ensures OutcomesCaused(Resume(s, t, sendOk, pick).core, labels + [l])
  {
    var c, d := s.core, Resume(s, t, sendOk, pick).core;
    match s.threads[t]
    case Dropped(id, outcome) => OutcomesStayCaused(c, d, labels, l, id, outcome);
    case Disconnecting(dead) =>
      if pick in dead {
        OutcomesStayCaused(c, d, labels, l, pick, DISCONNECTED);
      } else {
        SameOutcomes(c, d, labels, l);
      }
    case _ =>
      ResumeSetsNothing(s, t, sendOk, pick);
      SameOutcomes(c, d, labels, l);
  }

  lemma ResumeSetsNothing(s: State, t: Thread, sendOk: bool, pick: SessionId)
    requires t in s.threads && !s.threads[t].Dropped? && !s.threads[t].Disconnecting?
    ensures var d := Resume(s, t, sendOk, pick).core;
            forall i | i in d.store :: i in s.core.store && d.store[i].agent == s.core.store[i].agent
                                       && d.store[i].outcome == s.core.store[i].outcome
  {
  }

  lemma ResumePcCaused(s: State, t: Thread, sendOk: bool, pick: SessionId, labels: seq<Label>)
    requires Inv(s) && t in s.threads && PcCaused(s.core, s.threads[t], labels)
    ensures var next := Resume(s, t, sendOk, pick);
            t in next.threads ==> PcCaused(next.core, next.threads[t], labels)
  {
  }

  lemma StepCaused(s: State, l: Label, labels: seq<Label>)
    requires CauseInv(s, labels)
    ensures CauseInv(Step(s, l), labels + [l])
  {
    match l
    case Begin(t, call) =>
      if !s.crashed && t !in s.threads {
        EnterCaused(s, t, call, labels);
      } else {
        IdleCaused(s, l, labels);
      }
    case Continue(t, sendOk, pick) =>
      if !s.crashed && t in s.threads {
        ResumeCaused(s, t, sendOk, pick, labels);
      } else {
        IdleCaused(s, l, labels);
      }
  }

  lemma IdleCaused(s: State, l: Label, labels: seq<Label>)
    requires CauseInv(s, labels)
    ensures CauseInv(s, labels + [l])
  {
    SameOutcomes(s.core, s.core, labels, l);
    forall t | t in s.threads
      ensures PcCaused(s.core, s.threads[t], labels + [l])
    {
      PcStaysCaused(s.core, s.core, s.threads[t], labels, l);
    }
  }

  lemma {:induction false} RunCaused(s: State, past: seq<Label>, labels: seq<Label>)
    requires CauseInv(s, past)
    ensures CauseInv(Run(s, labels), past + labels)
    decreases |labels|
  {
    if labels == [] {
      assert past + labels == past;
    } else {
      StepCaused(s, labels[0], past);
      RunCaused(Step(s, labels[0]), past + [labels[0]], labels[1..]);
      assert (past + [labels[0]]) + labels[1..] == past + labels;
    }
  }

  // ----- main result -----------------------------------------------------------

  /** Whatever races, the outcome of a session is one that an exit routed for it has
      reported, or (-1, "canceled") after a cancel or a chunk for it, or
      (-1, "agent disconnected") after an unregistration of its agent. */
  lemma OutcomesHaveCauses(maxConcurrent: int, labels: seq<Label>, id: SessionId)
    requires id in Run(Initial(maxConcurrent), labels).core.store
    requires Run(Initial(maxConcurrent), labels).core.store[id].outcome.Some?
    ensures var sess := Run(Initial(maxConcurrent), labels).core.store[id];
            || (exists l | l in labels :: l.Begin? && l.call == RouteExit(id, sess.outcome.value))
            || (sess.outcome.value == Outcome(-1, Text("canceled"))
                && exists l | l in labels ::
                     l.Begin? && (l.call == CancelSession(id) || (l.call.RouteChunk? && l.call.id == id)))
            || (sess.outcome.value == Outcome(-1, Text("agent disconnected"))
                && exists l | l in labels :: l.Begin? && l.call == UnregisterStream(sess.agent))
  {
    InitialInv(maxConcurrent);
    RunCaused(Initial(maxConcurrent), [], labels);
    assert [] + labels == labels;
  }
}
