/** internal/central/commands.go and its gRPC callers in their own form.  View()
    reads the queue as a state of CommandRuns; the contracts say which critical
    sections a call is made of when nothing comes in between. */
module CommandQueues {
  import opened Wire
  import opened ExecFrame
  import opened CommandRuns

  class PendingCommand {
    const id: RequestId
    const agent: AgentId
    var status: Status
    var slot: Option<CommandResult>

    constructor (id: RequestId, agent: AgentId)
      ensures this.id == id && View() == Command(agent, Pending, None)
    {
      this.id, this.agent := id, agent;
      status, slot := Pending, None;
    }

    function View(): Command
      reads this
    {
      Command(agent, status, slot)
    }

    /** The non-blocking send on the one-place result channel. */
    method TrySend(r: CommandResult)
      modifies this`slot
      ensures slot == if old(slot).None? then Some(r) else old(slot)
    {
      if slot.None? {
        slot := Some(r);
      }
    }
  }

  class CommandQueue {
    var commands: map<RequestId, PendingCommand>
    ghost var created: map<RequestId, PendingCommand>

    ghost predicate Valid()
      reads this, created.Values
    {
      && (forall id | id in created :: created[id].id == id)
      && (forall id | id in commands :: id in created && commands[id] == created[id])
    }

    ghost function View(): Queue
      reads this, created.Values
    {
      Queue(commands.Keys, map id | id in created :: created[id].View())
    }

    constructor ()
      ensures Valid() && View() == INITIAL.queue && created == map[]
    {
      commands, created := map[], map[];
    }

    /** `id` is the freshly generated request id. */
    method Enqueue(id: RequestId, agent: AgentId)
      requires Valid() && id !in created
      modifies this
      ensures Valid() && View() == CommandRuns.Enqueue(old(View()), id, agent)
      ensures id in created && created == old(created)[id := created[id]] && fresh(created[id])
      ensures commands == old(commands)[id := created[id]]
      ensures created[id].agent == agent && created[id].status == Pending && created[id].slot == None
    {
      var cmd := new PendingCommand(id, agent);
      commands := commands[id := cmd];
      created := created[id := cmd];
      assert View().objects == old(View()).objects[id := Command(agent, Pending, None)];
    }

    /** The snapshot a poll works on: its agent's pending commands, each once, in
        whatever order the map yields them. */
    method GetPendingForAgent(agent: AgentId) returns (pending: seq<RequestId>)
      requires Valid()
      ensures Lists(pending, PendingFor(View(), agent))
      ensures forall id :: id in pending <==>
                id in commands && commands[id].agent == agent && commands[id].status.Pending?
    {
      pending := [];
      var left := commands.Keys;
      while left != {}
        invariant left <= commands.Keys
        invariant forall id :: id in pending <==>
                    id in commands && id !in left && commands[id].agent == agent && commands[id].status.Pending?
        invariant forall i, j | 0 <= i < j < |pending| :: pending[i] != pending[j]
      {
        var id :| id in left;
        left := left - {id};
        if commands[id].agent == agent && commands[id].status.Pending? {
          pending := pending + [id];
        }
      }
      PendingMeans(agent);
    }

    lemma PendingMeans(agent: AgentId)
      requires Valid()
      ensures forall id :: id in PendingFor(View(), agent) <==>
                id in commands && commands[id].agent == agent && commands[id].status.Pending?
    {
      assert forall id | id in commands :: View().objects[id] == commands[id].View();
    }

    method Mark(id: RequestId, status: Status) returns (found: bool)
      requires Valid()
      modifies created.Values
      ensures Valid() && View() == SetStatus(old(View()), id, status)
      ensures found <==> id in commands
      ensures forall i | i in created ::
                && created[i].slot == old(created[i].slot)
                && created[i].status == if i == id && found then status else old(created[i].status)
    {
      if id !in commands {
        return false;
      }
      commands[id].status := status;
      return true;
    }

    /** Complete and Fail: a status under the lock, then the result. */
    method Settle(id: RequestId, status: Status, r: CommandResult) returns (found: bool)
      requires Valid()
      modifies created.Values
      ensures Valid() && (found <==> id in commands)
      ensures View() == if found then Offer(SetStatus(old(View()), id, status), id, r) else old(View())
      ensures found ==> commands[id].status == status && commands[id].slot == FirstOf(old(commands[id].slot), r)
      ensures forall i | i in created && i != id :: created[i].View() == old(created[i].View())
    {
      found := Mark(id, status);
      if found {
        ghost var marked := View();
        var cmd := commands[id];
        cmd.TrySend(r);
        assert View() == Offer(marked, id, r);
      }
    }

    /** The select of WaitForResult.  It blocks until a result is there or the
        context is done; `timeout` says which branch was taken. */
    method WaitForResult(id: RequestId, timeout: bool) returns (answer: Option<CommandResult>)
      requires Valid()
      requires id in commands && !timeout ==> commands[id].slot.Some?
      modifies created.Values
      ensures Valid()
      ensures View() == if id !in commands then old(View())
                        else if timeout then Expire(old(View()), id) else Take(old(View()), id)
      ensures answer == if id in commands && !timeout then old(View()).objects[id].slot else None
      ensures id in commands && timeout ==>
                commands[id].status == if old(commands[id].status) in {Pending, Running} then TimedOut else old(commands[id].status)
      ensures id in commands && !timeout ==> commands[id].slot == None && answer == old(commands[id].slot)
      ensures forall i | i in created && i != id :: created[i].View() == old(created[i].View())
    {
      if id !in commands {
        return None;
      }
      var cmd := commands[id];
      if timeout {
        if cmd.status == Pending || cmd.status == Running {
          cmd.status := TimedOut;
        }
        return None;
      }
      answer := cmd.slot;
      cmd.slot := None;
    }

    method Remove(id: RequestId)
      requires Valid()
      modifies this`commands
      ensures Valid() && View() == CommandRuns.Remove(old(View()), id)
      ensures commands == old(commands) - {id}
    {
      commands := commands - {id};
    }

    /** The poll of grpc.go, undisturbed: it hands out exactly the agent's pending
        commands, all of them are running afterwards, nothing else changes. */
    method GetPendingCommands(agent: AgentId) returns (response: seq<RequestId>)
      requires Valid()
      modifies created.Values
      ensures Valid() && Lists(response, PendingFor(old(View()), agent))
      ensures View().listed == old(View()).listed
      ensures forall id | id in created ::
                created[id].View() == if id in PendingFor(old(View()), agent)
                                      then Command(agent, Running, old(created[id].slot)) else old(created[id].View())
      ensures PendingFor(View(), agent) == {}
      ensures forall id :: id in response <==>
                id in commands && commands[id].agent == agent && old(commands[id].status).Pending?
      ensures forall id | id in response :: commands[id].status == Running
    {
      PendingMeans(agent);
      var pending := GetPendingForAgent(agent);
      assert forall id :: id in pending <==> id in set i | i in pending;
      response := MarkAll(pending);
      PendingMeans(agent);
    }

    method MarkAll(pending: seq<RequestId>) returns (response: seq<RequestId>)
      requires Valid() && forall id | id in pending :: id in commands
      modifies created.Values
      ensures Valid() && response == pending
      ensures forall id | id in created ::
                && created[id].slot == old(created[id].slot)
                && created[id].status == if id in pending then Running else old(created[id].status)
    {
      response := [];
      for i := 0 to |pending|
        invariant Valid() && response == pending[..i]
        invariant forall id | id in created ::
                    && created[id].slot == old(created[id].slot)
                    && created[id].status == if id in pending[..i] then Running else old(created[id].status)
      {
        var _ := Mark(pending[i], Running);
        assert pending[..i + 1] == pending[..i] + [pending[i]];
        response := response + [pending[i]];
      }
      assert pending[..|pending|] == pending;
    }

    /** SubmitCommandResult: an error message makes it a failure. */
    method SubmitCommandResult(r: CommandResult)
      requires Valid()
      modifies created.Values
      ensures Valid()
      ensures View() == if r.request in commands
                        then Offer(SetStatus(old(View()), r.request, FinalStatus(r)), r.request, Delivered(r))
                        else old(View())
      ensures r.request in commands ==>
                && commands[r.request].status == (if r.error == [] then Completed else Failed)
                && SlotShows(r, old(commands[r.request].slot), commands[r.request].slot)
      ensures forall i | i in created && i != r.request :: created[i].View() == old(created[i].View())
    {
      if r.error != [] {
        var _ := Settle(r.request, Failed, CommandResult(r.request, [], [], -1, r.error, true));
      } else {
        var _ := Settle(r.request, Completed, r.(completed := true));
      }
    }

    /** The exec handler of http.go between its checks and its response.  While it
        waits, `meanwhile` happens: it answers with the first result submitted for
        its own request, whatever else comes in.  The wait ends when a result is
        there or the context is done; `timeout` says which branch the select takes,
        and with a result waiting that may still be the context's. */
    method HandleExec(id: RequestId, agent: AgentId, meanwhile: seq<Event>, timeout: bool)
      returns (answer: Option<CommandResult>)
      requires Valid() && id !in created && OfOthers(meanwhile, id, created.Keys + {id})
      requires !timeout ==> FirstFor(Submissions(meanwhile), id).Some?
      modifies this, created.Values
      ensures Valid() && id !in commands
      ensures answer == if timeout then None else FirstFor(Submissions(meanwhile), id)
      ensures forall i: nat | IsFirstSubmission(meanwhile, i, id) && !timeout ::
                answer.Some? && Answers(meanwhile[i].result, answer.value)
    {
      Enqueue(id, agent);
      assert created.Keys == old(created.Keys) + {id};
      HandleAll(meanwhile, id);
      var cmd := commands[id];
      assert cmd.slot == View().objects[id].slot;
      answer := WaitForResult(id, timeout);
      Remove(id);
      FirstSubmissionAnswers(meanwhile, id);
    }

    method HandleAll(events: seq<Event>, ghost id: RequestId)
      requires Valid() && id in commands && View().objects[id].slot == None && OfOthers(events, id, created.Keys)
      modifies this, created.Values
      ensures Valid() && id in commands && View().objects[id].slot == FirstFor(Submissions(events), id)
      ensures Grown(old(created), created)
      ensures forall i | i in created && i !in old(created) :: fresh(created[i])
    {
      assert events[..0] == [];
      for i := 0 to |events|
        invariant Valid() && id in commands && OfOthers(events[i..], id, created.Keys)
        invariant View().objects[id].slot == FirstFor(Submissions(events[..i]), id)
        invariant Grown(old(created), created)
        invariant forall i | i in created && i !in old(created) :: fresh(created[i])
      {
        assert events[i..][1..] == events[i + 1..];
        SubmissionsAppend(events, i, id);
        HandleOne(events[i], id);
      }
      assert events[..|events|] == events;
    }

    method HandleOne(e: Event, ghost id: RequestId)
      requires Valid() && id in commands && OfOther(e, id, created.Keys)
      modifies this, created.Values
      ensures Valid() && id in commands && created.Keys == Known(e, old(created.Keys)) && Grown(old(created), created)
      ensures forall i | i in created && i !in old(created) :: fresh(created[i])
      ensures View().objects[id].slot == NextSlot(e, id, old(View()).objects[id].slot)
    {
      match e
      case Submitted(r) => SubmitCommandResult(r);
      case Polled(agent) => var _ := GetPendingCommands(agent);
      case OtherEnqueued(other, agent) => Enqueue(other, agent);
      case OtherRemoved(other) => Remove(other);
    }
  }

  /** A one-place channel keeps the first result. */
  function FirstOf(slot: Option<CommandResult>, r: CommandResult): Option<CommandResult> {
    if slot == None then Some(r) else slot
  }

  predicate SlotShows(x: CommandResult, before: Option<CommandResult>, after: Option<CommandResult>) {
    if before == None then after.Some? && Answers(x, after.value) else after == before
  }

  /** Event `i` is the first submission for the request. */
  predicate IsFirstSubmission(events: seq<Event>, i: nat, id: RequestId) {
    && i < |events| && events[i].Submitted? && events[i].result.request == id
    && forall j | 0 <= j < i && events[j].Submitted? :: events[j].result.request != id
  }

  lemma {:induction false} FirstSubmissionCounts(events: seq<Event>, i: nat, id: RequestId)
    requires IsFirstSubmission(events, i, id)
    ensures FirstFor(Submissions(events), id) == Some(Delivered(events[i].result))
    decreases |events|
  {
    var n := |events| - 1;
    SubmissionsAppend(events, n, id);
    assert events[..n + 1] == events;
    if i < n {
      FirstSubmissionCounts(events[..n], i, id);
    } else {
      NoSubmissionYet(events[..n], id);
    }
  }

  lemma FirstSubmissionAnswers(events: seq<Event>, id: RequestId)
    ensures forall i: nat | IsFirstSubmission(events, i, id) ::
              && FirstFor(Submissions(events), id).Some?
              && Answers(events[i].result, FirstFor(Submissions(events), id).value)
  {
    forall i: nat | IsFirstSubmission(events, i, id)
      ensures FirstFor(Submissions(events), id) == Some(Delivered(events[i].result))
    {
      FirstSubmissionCounts(events, i, id);
    }
  }

  lemma {:induction false} NoSubmissionYet(events: seq<Event>, id: RequestId)
    requires forall e | e in events && e.Submitted? :: e.result.request != id
    ensures FirstFor(Submissions(events), id) == None
  {
    if events != [] {
      var n := |events| - 1;
      NoSubmissionYet(events[..n], id);
      SubmissionsAppend(events, n, id);
      assert events[..n + 1] == events;
    }
  }

  /** What may happen in the queue while a handler waits. */
  datatype Event =
    | Submitted(result: CommandResult)
    | Polled(agent: AgentId)
    | OtherEnqueued(id: RequestId, agent: AgentId)
    | OtherRemoved(id: RequestId)

  function Known(e: Event, known: set<RequestId>): set<RequestId> {
    if e.OtherEnqueued? then known + {e.id} else known
  }

  /** Other handlers use fresh request ids, and remove only their own. */
  predicate OfOther(e: Event, id: RequestId, known: set<RequestId>) {
    (e.OtherEnqueued? ==> e.id !in known) && (e.OtherRemoved? ==> e.id != id)
  }

  predicate OfOthers(events: seq<Event>, id: RequestId, known: set<RequestId>)
    decreases |events|
  {
    events == [] || (OfOther(events[0], id, known) && OfOthers(events[1..], id, Known(events[0], known)))
  }

  predicate Grown(before: map<RequestId, PendingCommand>, after: map<RequestId, PendingCommand>) {
    forall i | i in before :: i in after && after[i] == before[i]
  }

  function NextSlot(e: Event, id: RequestId, slot: Option<CommandResult>): Option<CommandResult> {
    if e.Submitted? && e.result.request == id && slot.None? then Some(Delivered(e.result)) else slot
  }

  function Submissions(events: seq<Event>): seq<CommandResult> {
    if events == [] then []
    else
      var last := events[|events| - 1];
      Submissions(events[..|events| - 1]) + if last.Submitted? then [last.result] else []
  }

  lemma SubmissionsAppend(events: seq<Event>, i: nat, id: RequestId)
    requires i < |events|
    ensures FirstFor(Submissions(events[..i + 1]), id) == NextSlot(events[i], id, FirstFor(Submissions(events[..i]), id))
  {
    assert events[..i + 1][..i] == events[..i];
    var before := Submissions(events[..i]);
    if events[i].Submitted? {
      assert (before + [events[i].result])[..|before|] == before;
    } else {
      assert before + [] == before;
    }
  }

  /** What a waiter for this request gets to see of the results submitted. */
  function FirstFor(arrivals: seq<CommandResult>, id: RequestId): Option<CommandResult> {
    if arrivals == [] then None
    else
      var earlier := FirstFor(arrivals[..|arrivals| - 1], id);
      var last := arrivals[|arrivals| - 1];
      if earlier.None? && last.request == id then Some(Delivered(last)) else earlier
  }

  /** It is the earliest submission for the request, if there is one, with its output
      and exit code, or its error. */
  lemma FirstForIsEarliest(arrivals: seq<CommandResult>, id: RequestId)
    ensures FirstFor(arrivals, id).None? <==> forall r | r in arrivals :: r.request != id
    ensures forall i | 0 <= i < |arrivals| && IsEarliest(arrivals, i, id) ::
              FirstFor(arrivals, id).Some? && Answers(arrivals[i], FirstFor(arrivals, id).value)
  {
    NoneWithoutArrival(arrivals, id);
    forall i | 0 <= i < |arrivals| && IsEarliest(arrivals, i, id)
      ensures FirstFor(arrivals, id) == Some(Delivered(arrivals[i]))
    {
      EarliestIsDelivered(arrivals, i, id);
    }
  }

  predicate IsEarliest(arrivals: seq<CommandResult>, i: nat, id: RequestId)
    requires i < |arrivals|
  {
    arrivals[i].request == id && forall j | 0 <= j < i :: arrivals[j].request != id
  }

  lemma {:induction false} NoneWithoutArrival(arrivals: seq<CommandResult>, id: RequestId)
    ensures FirstFor(arrivals, id).None? <==> forall r | r in arrivals :: r.request != id
  {
    if arrivals != [] {
      var n := |arrivals| - 1;
      NoneWithoutArrival(arrivals[..n], id);
      assert arrivals == arrivals[..n] + [arrivals[n]];
    }
  }

  lemma {:induction false} EarliestIsDelivered(arrivals: seq<CommandResult>, i: nat, id: RequestId)
    requires i < |arrivals| && IsEarliest(arrivals, i, id)
    ensures FirstFor(arrivals, id) == Some(Delivered(arrivals[i]))
    decreases |arrivals|
  {
    var n := |arrivals| - 1;
    if i < n {
      EarliestIsDelivered(arrivals[..n], i, id);
    } else {
      NoneWithoutArrival(arrivals[..n], id);
    }
  }
}
