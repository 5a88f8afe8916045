/** The request queue of internal/central/commands.go with its three users: the
    HTTP exec handler (http.go), the agent's poll and its result submission
    (grpc.go).  They interleave between critical sections; a PendingCommand
    pointer is named by its request id. */
module CommandRuns {
  import opened Wire
  import opened ExecFrame

  type AgentId = string
  type RequestId = nat

  datatype Status = Pending | Running | Completed | Failed | TimedOut

  datatype CommandResult = CommandResult(
    request: RequestId, stdout: Octets, stderr: Octets, exitCode: I32, error: Octets, completed: bool)

  /** A PendingCommand; `slot` is its one-place result channel. */
  datatype Command = Command(agent: AgentId, status: Status, slot: Option<CommandResult>)

  /** The queue's map, and every command ever created. */
  datatype Queue = Queue(listed: set<RequestId>, objects: map<RequestId, Command>)

  // ----- critical sections -------------------------------------------------

  function Enqueue(q: Queue, id: RequestId, agent: AgentId): Queue {
    Queue(q.listed + {id}, q.objects[id := Command(agent, Pending, None)])
  }

  function PendingFor(q: Queue, agent: AgentId): set<RequestId> {
    set id | id in q.listed && id in q.objects && q.objects[id].agent == agent && q.objects[id].status.Pending?
  }

  function SetStatus(q: Queue, id: RequestId, status: Status): Queue {
    if id in q.listed && id in q.objects
    then q.(objects := q.objects[id := q.objects[id].(status := status)])
    else q
  }

  /** The non-blocking send on the result channel. */
  function Offer(q: Queue, id: RequestId, r: CommandResult): Queue {
    if id in q.objects && q.objects[id].slot.None?
    then q.(objects := q.objects[id := q.objects[id].(slot := Some(r))])
    else q
  }

  function Take(q: Queue, id: RequestId): Queue {
    if id in q.objects then q.(objects := q.objects[id := q.objects[id].(slot := None)]) else q
  }

  /** The timeout mark is made through the pointer, listed or not. */
  function Expire(q: Queue, id: RequestId): Queue {
    if id in q.objects && (q.objects[id].status.Pending? || q.objects[id].status.Running?)
    then q.(objects := q.objects[id := q.objects[id].(status := TimedOut)])
    else q
  }

  function Remove(q: Queue, id: RequestId): Queue {
    q.(listed := q.listed - {id})
  }

  /** What a submission hands to the waiter: Fail keeps only the error. */
  function Delivered(r: CommandResult): CommandResult {
    if r.error != [] then CommandResult(r.request, [], [], -1, r.error, true) else r.(completed := true)
  }

  /** `r` is what a waiter is to see of the submission `x`: its output and exit code,
      or its error alone. */
  predicate Answers(x: CommandResult, r: CommandResult) {
    && r.request == x.request && r.error == x.error && r.completed
    && if x.error == [] then r.stdout == x.stdout && r.stderr == x.stderr && r.exitCode == x.exitCode
       else r.stdout == [] && r.stderr == [] && r.exitCode == -1
  }

  function FinalStatus(r: CommandResult): Status {
    if r.error != [] then Failed else Completed
  }

  // ----- the users ---------------------------------------------------------

  /** The exec handler between Enqueue and its deferred Remove. */
  datatype Handler =
    | Queued
    | Waiting
    | Answered(answer: Option<CommandResult>)
    | Gone(answer: Option<CommandResult>)

  /** A poll: the snapshot still to be marked. */
  datatype Poll = Poll(agent: AgentId, todo: seq<RequestId>)

  /** `dispatched` logs poll responses, `submitted` and `placed` the results sent
      in and those that found room in their slot. */
  datatype State = State(
    queue: Queue,
    handlers: map<RequestId, Handler>,
    polls: map<nat, Poll>,
    sending: map<nat, CommandResult>,
    dispatched: seq<(AgentId, RequestId)>,
    submitted: seq<CommandResult>,
    placed: map<RequestId, seq<CommandResult>>)

  datatype Label =
    | DoEnqueue(id: RequestId, agent: AgentId)
    | BeginWait(id: RequestId)
    | Receive(id: RequestId)
    | GiveUp(id: RequestId)
    | DoRemove(id: RequestId)
    | StartPoll(poll: nat, agent: AgentId, order: seq<RequestId>)
    | Mark(poll: nat)
    | Submit(k: nat, result: CommandResult)
    | Send(k: nat)

  /** `order` lists the set, each element once, as ranging over a map does. */
  predicate Lists(order: seq<RequestId>, ids: set<RequestId>) {
    && (set id | id in order) == ids
    && (forall i, j | 0 <= i < j < |order| :: order[i] != order[j])
  }

  function Enqueued(s: State, id: RequestId, agent: AgentId): State {
    if id in s.queue.objects then s
    else s.(queue := Enqueue(s.queue, id, agent), handlers := s.handlers[id := Queued], placed := s.placed[id := []])
  }

  /** WaitForResult looks the command up and starts to wait. */
  function WaitBegun(s: State, id: RequestId): State {
    if id in s.handlers && s.handlers[id].Queued?
    then s.(handlers := s.handlers[id := if id in s.queue.listed then Waiting else Answered(None)])
    else s
  }

  function Received(s: State, id: RequestId): State {
    if id in s.handlers && s.handlers[id].Waiting? && id in s.queue.objects && s.queue.objects[id].slot.Some?
    then s.(queue := Take(s.queue, id), handlers := s.handlers[id := Answered(s.queue.objects[id].slot)])
    else s
  }

  function GivenUp(s: State, id: RequestId): State {
    if id in s.handlers && s.handlers[id].Waiting?
    then s.(queue := Expire(s.queue, id), handlers := s.handlers[id := Answered(None)])
    else s
  }

  function Removed(s: State, id: RequestId): State {
    if id in s.handlers && s.handlers[id].Answered?
    then s.(queue := Remove(s.queue, id), handlers := s.handlers[id := Gone(s.handlers[id].answer)])
    else s
  }

  function PollStarted(s: State, p: nat, agent: AgentId, order: seq<RequestId>): State {
    if p !in s.polls && Lists(order, PendingFor(s.queue, agent))
    then s.(polls := s.polls[p := Poll(agent, order)])
    else s
  }

  function Marked(s: State, p: nat): State {
    if p in s.polls && s.polls[p].todo != [] then
      var poll := s.polls[p];
      s.(queue := SetStatus(s.queue, poll.todo[0], Running),
         polls := s.polls[p := Poll(poll.agent, poll.todo[1..])],
         dispatched := s.dispatched + [(poll.agent, poll.todo[0])])
    else s
  }

  /** SubmitCommandResult up to the end of Complete's or Fail's critical section. */
  function Submission(s: State, k: nat, r: CommandResult): State {
    if k in s.sending then s
    else if r.request !in s.queue.listed then s.(submitted := s.submitted + [r])
    else s.(queue := SetStatus(s.queue, r.request, FinalStatus(r)),
            sending := s.sending[k := Delivered(r)], submitted := s.submitted + [r])
  }

  /** The non-blocking send that follows. */
  function SendDone(s: State, k: nat): State {
    if k !in s.sending then s
    else
      var r := s.sending[k];
      var id := r.request;
      if id in s.queue.objects && s.queue.objects[id].slot.None? && id in s.placed
      then s.(queue := Offer(s.queue, id, r), sending := s.sending - {k}, placed := s.placed[id := s.placed[id] + [r]])
      else s.(sending := s.sending - {k})
  }

  function Step(s: State, l: Label): State {
    match l
    case DoEnqueue(id, agent) => Enqueued(s, id, agent)
    case BeginWait(id) => WaitBegun(s, id)
    case Receive(id) => Received(s, id)
    case GiveUp(id) => GivenUp(s, id)
    case DoRemove(id) => Removed(s, id)
    case StartPoll(p, agent, order) => PollStarted(s, p, agent, order)
    case Mark(p) => Marked(s, p)
    case Submit(k, r) => Submission(s, k, r)
    case Send(k) => SendDone(s, k)
  }

  function Run(s: State, labels: seq<Label>): State
    decreases |labels|
  {
    if labels == [] then s else Run(Step(s, labels[0]), labels[1..])
  }

  const INITIAL := State(Queue({}, map[]), map[], map[], map[], [], [], map[])

  // ----- queue conservation ------------------------------------------------

  /** The listed requests are those whose handler has yet to remove them. */
  predicate Conserved(s: State) {
    && s.handlers.Keys == s.queue.objects.Keys == s.placed.Keys
    && s.queue.listed == set id | id in s.handlers && !s.handlers[id].Gone?
  }

  function AnswerOf(h: Handler): Option<Option<CommandResult>> {
    match h
    case Answered(a) => Some(a)
    case Gone(a) => Some(a)
    case _ => None
  }

  predicate HandlerEvolves(h: Handler, g: Handler) {
    && (h.Gone? ==> g.Gone?)
    && (AnswerOf(h).Some? ==> AnswerOf(g) == AnswerOf(h))
  }

  predicate CommandEvolves(c: Command, d: Command) {
    d.agent == c.agent && (!c.status.Pending? ==> !d.status.Pending?)
  }

  /** What never happens later: a removed request coming back, an answer
      changing, a command turning pending again. */
  predicate Evolves(s: State, t: State) {
    && (forall id | id in s.handlers :: id in t.handlers && HandlerEvolves(s.handlers[id], t.handlers[id]))
    && (forall id | id in s.queue.objects ::
          id in t.queue.objects && CommandEvolves(s.queue.objects[id], t.queue.objects[id]))
  }

  lemma EnqueuedConserves(s: State, id: RequestId, agent: AgentId)
    requires Conserved(s)
    ensures Conserved(Enqueued(s, id, agent)) && Evolves(s, Enqueued(s, id, agent))
  {
  }

  lemma WaitBegunConserves(s: State, id: RequestId)
    requires Conserved(s)
    ensures Conserved(WaitBegun(s, id)) && Evolves(s, WaitBegun(s, id))
  {
  }

  lemma ReceivedConserves(s: State, id: RequestId)
    requires Conserved(s)
    ensures Conserved(Received(s, id)) && Evolves(s, Received(s, id))
  {
  }

  lemma GivenUpConserves(s: State, id: RequestId)
    requires Conserved(s)
    ensures Conserved(GivenUp(s, id)) && Evolves(s, GivenUp(s, id))
  {
  }

  lemma RemovedConserves(s: State, id: RequestId)
    requires Conserved(s)
    ensures Conserved(Removed(s, id)) && Evolves(s, Removed(s, id))
  {
  }

  lemma PollStartedConserves(s: State, p: nat, agent: AgentId, order: seq<RequestId>)
    requires Conserved(s)
    ensures Conserved(PollStarted(s, p, agent, order)) && Evolves(s, PollStarted(s, p, agent, order))
  {
  }

  lemma MarkedConserves(s: State, p: nat)
    requires Conserved(s)
    ensures Conserved(Marked(s, p)) && Evolves(s, Marked(s, p))
  {
  }

  lemma SubmissionConserves(s: State, k: nat, r: CommandResult)
    requires Conserved(s)
    ensures Conserved(Submission(s, k, r)) && Evolves(s, Submission(s, k, r))
  {
  }

  lemma SendDoneConserves(s: State, k: nat)
    requires Conserved(s)
    ensures Conserved(SendDone(s, k)) && Evolves(s, SendDone(s, k))
  {
  }

  lemma StepConserves(s: State, l: Label)
    requires Conserved(s)
    ensures Conserved(Step(s, l)) && Evolves(s, Step(s, l))
  {
    match l
    case DoEnqueue(id, agent) => EnqueuedConserves(s, id, agent);
    case BeginWait(id) => WaitBegunConserves(s, id);
    case Receive(id) => ReceivedConserves(s, id);
    case GiveUp(id) => GivenUpConserves(s, id);
    case DoRemove(id) => RemovedConserves(s, id);
    case StartPoll(p, agent, order) => PollStartedConserves(s, p, agent, order);
    case Mark(p) => MarkedConserves(s, p);
    case Submit(k, r) => SubmissionConserves(s, k, r);
    case Send(k) => SendDoneConserves(s, k);
  }

  lemma {:induction false} RunConserves(s: State, labels: seq<Label>)
    requires Conserved(s)
    ensures Conserved(Run(s, labels)) && Evolves(s, Run(s, labels))
    decreases |labels|
  {
    if labels != [] {
      StepConserves(s, labels[0]);
      RunConserves(Step(s, labels[0]), labels[1..]);
    }
  }

  /** At all times the queue holds exactly the requests between their Enqueue and
      their Remove, and no late result or poll brings one back. */
  lemma QueueIsConserved(before: seq<Label>, after: seq<Label>, id: RequestId)
    ensures var s, t := Run(INITIAL, before), Run(Run(INITIAL, before), after);
            && (id in s.queue.listed <==> id in s.handlers && !s.handlers[id].Gone?)
            && (id in s.handlers && s.handlers[id].Gone? ==> id !in t.queue.listed)
            && (id in s.queue.objects && !s.queue.objects[id].status.Pending? ==>
                  id in t.queue.objects && !t.queue.objects[id].status.Pending?)
  {
    RunConserves(INITIAL, before);
    RunConserves(Run(INITIAL, before), after);
  }

  // ----- result integrity --------------------------------------------------

  predicate Submitted(submitted: seq<CommandResult>, r: CommandResult) {
    exists x | x in submitted :: x.request == r.request && r == Delivered(x)
  }

  function Contents(slot: Option<CommandResult>): seq<CommandResult> {
    if slot.Some? then [slot.value] else []
  }

  /** A handler that has not been answered will see the first result placed. */
  predicate SlotInv(h: Handler, slot: Option<CommandResult>, placed: seq<CommandResult>) {
    match AnswerOf(h)
    case None => placed == Contents(slot)
    case Some(a) => a.Some? ==> placed != [] && placed[0] == a.value
  }

  predicate ResultInv(s: State) {
    && Conserved(s)
    && (forall k | k in s.sending :: Submitted(s.submitted, s.sending[k]))
    && (forall id, r | id in s.placed && r in s.placed[id] :: r.request == id && Submitted(s.submitted, r))
    && (forall id | id in s.handlers :: SlotInv(s.handlers[id], s.queue.objects[id].slot, s.placed[id]))
  }

  lemma SubmittedGrows(submitted: seq<CommandResult>, r: CommandResult, x: CommandResult)
    ensures Submitted(submitted, r) ==> Submitted(submitted + [x], r)
    ensures Submitted(submitted + [x], Delivered(x))
  {
    if Submitted(submitted, r) {
      var y :| y in submitted && y.request == r.request && r == Delivered(y);
      assert y in submitted + [x];
    }
    assert x in submitted + [x];
  }

  predicate SameSlots(s: State, t: State) {
    && t.handlers == s.handlers && t.placed == s.placed
    && (forall id | id in s.queue.objects && id in t.queue.objects ::
          t.queue.objects[id].slot == s.queue.objects[id].slot)
  }

  /** A result arrives: it may be on its way to its slot from now on. */
  lemma ArrivalKeepsResults(s: State, t: State, x: CommandResult)
    requires ResultInv(s) && Conserved(t) && SameSlots(s, t)
    requires t.submitted == s.submitted + [x]
    requires forall k | k in t.sending :: t.sending[k] == Delivered(x) || (k in s.sending && t.sending[k] == s.sending[k])
    ensures ResultInv(t)
  {
    forall r
      ensures Submitted(s.submitted, r) ==> Submitted(t.submitted, r)
    {
      SubmittedGrows(s.submitted, r, x);
    }
    SubmittedGrows(s.submitted, x, x);
  }

  /** A result finds its slot empty. */
  lemma PlacementKeepsResults(s: State, t: State, r: CommandResult)
    requires ResultInv(s) && Conserved(t) && Submitted(s.submitted, r)
    requires r.request in s.handlers && s.queue.objects[r.request].slot.None?
    requires t.handlers == s.handlers && t.submitted == s.submitted && t.queue == Offer(s.queue, r.request, r)
    requires t.placed == s.placed[r.request := s.placed[r.request] + [r]]
    requires forall k | k in t.sending :: k in s.sending && t.sending[k] == s.sending[k]
    ensures ResultInv(t)
  {
    forall id | id in t.handlers
      ensures SlotInv(t.handlers[id], t.queue.objects[id].slot, t.placed[id])
    {
      assert SlotInv(s.handlers[id], s.queue.objects[id].slot, s.placed[id]);
    }
  }

  lemma SubmissionKeepsResults(s: State, k: nat, r: CommandResult)
    requires ResultInv(s)
    ensures ResultInv(Submission(s, k, r))
  {
    SubmissionConserves(s, k, r);
    if k !in s.sending {
      ArrivalKeepsResults(s, Submission(s, k, r), r);
    }
  }

  lemma SendDoneKeepsResults(s: State, k: nat)
    requires ResultInv(s)
    ensures ResultInv(SendDone(s, k))
  {
    SendDoneConserves(s, k);
    var t := SendDone(s, k);
    if k in s.sending && t.placed != s.placed {
      PlacementKeepsResults(s, t, s.sending[k]);
    }
  }

  lemma EnqueuedKeepsResults(s: State, id: RequestId, agent: AgentId)
    requires ResultInv(s)
    ensures ResultInv(Enqueued(s, id, agent))
  {
    EnqueuedConserves(s, id, agent);
    if id !in s.queue.objects {
      var t := Enqueued(s, id, agent);
      forall i | i in t.handlers
        ensures SlotInv(t.handlers[i], t.queue.objects[i].slot, t.placed[i])
      {
        assert i == id || (t.handlers[i] == s.handlers[i] && t.queue.objects[i] == s.queue.objects[i]
                           && t.placed[i] == s.placed[i]);
      }
    }
  }

  lemma MarkedKeepsResults(s: State, p: nat)
    requires ResultInv(s)
    ensures ResultInv(Marked(s, p))
  {
    MarkedConserves(s, p);
  }

  /** One handler moves on; what it makes of its slot is as SlotInv says. */
  lemma OneHandlerKeepsResults(s: State, t: State, id: RequestId)
    requires ResultInv(s) && Conserved(t) && id in s.handlers && t.handlers.Keys == s.handlers.Keys
    requires t.placed == s.placed && t.submitted == s.submitted && t.sending == s.sending
    requires forall i | i in s.handlers && i != id ::
               t.handlers[i] == s.handlers[i] && t.queue.objects[i].slot == s.queue.objects[i].slot
    requires SlotInv(t.handlers[id], t.queue.objects[id].slot, t.placed[id])
    ensures ResultInv(t)
  {
    forall i | i in t.handlers
      ensures SlotInv(t.handlers[i], t.queue.objects[i].slot, t.placed[i])
    {
      assert SlotInv(s.handlers[i], s.queue.objects[i].slot, s.placed[i]);
    }
  }

  lemma WaitBegunKeepsResults(s: State, id: RequestId)
    requires ResultInv(s)
    ensures ResultInv(WaitBegun(s, id))
  {
    WaitBegunConserves(s, id);
    if id in s.handlers {
      assert SlotInv(s.handlers[id], s.queue.objects[id].slot, s.placed[id]);
      OneHandlerKeepsResults(s, WaitBegun(s, id), id);
    }
  }

  lemma ReceivedKeepsResults(s: State, id: RequestId)
    requires ResultInv(s)
    ensures ResultInv(Received(s, id))
  {
    ReceivedConserves(s, id);
    if id in s.handlers {
      assert SlotInv(s.handlers[id], s.queue.objects[id].slot, s.placed[id]);
      OneHandlerKeepsResults(s, Received(s, id), id);
    }
  }

  lemma GivenUpKeepsResults(s: State, id: RequestId)
    requires ResultInv(s)
    ensures ResultInv(GivenUp(s, id))
  {
    GivenUpConserves(s, id);
    if id in s.handlers {
      assert SlotInv(s.handlers[id], s.queue.objects[id].slot, s.placed[id]);
      OneHandlerKeepsResults(s, GivenUp(s, id), id);
    }
  }

  lemma RemovedKeepsResults(s: State, id: RequestId)
    requires ResultInv(s)
    ensures ResultInv(Removed(s, id))
  {
    RemovedConserves(s, id);
    if id in s.handlers {
      assert SlotInv(s.handlers[id], s.queue.objects[id].slot, s.placed[id]);
      OneHandlerKeepsResults(s, Removed(s, id), id);
    }
  }

  lemma StepKeepsResults(s: State, l: Label)
    requires ResultInv(s)
    ensures ResultInv(Step(s, l))
  {
    match l
    case DoEnqueue(id, agent) => EnqueuedKeepsResults(s, id, agent);
    case BeginWait(id) => WaitBegunKeepsResults(s, id);
    case Receive(id) => ReceivedKeepsResults(s, id);
    case GiveUp(id) => GivenUpKeepsResults(s, id);
    case DoRemove(id) => RemovedKeepsResults(s, id);
    case StartPoll(p, agent, order) =>
    case Mark(p) => MarkedKeepsResults(s, p);
    case Submit(k, r) => SubmissionKeepsResults(s, k, r);
    case Send(k) => SendDoneKeepsResults(s, k);
  }

  lemma {:induction false} RunKeepsResults(s: State, labels: seq<Label>)
    requires ResultInv(s)
    ensures ResultInv(Run(s, labels))
    decreases |labels|
  {
    if labels != [] {
      StepKeepsResults(s, labels[0]);
      RunKeepsResults(Step(s, labels[0]), labels[1..]);
    }
  }

  /** A handler answered with a result. */
  predicate AnsweredWith(s: State, id: RequestId, r: CommandResult) {
    id in s.handlers && AnswerOf(s.handlers[id]) == Some(Some(r))
  }

  predicate FirstResult(s: State, id: RequestId, r: CommandResult) {
    id in s.placed && s.placed[id] != [] && s.placed[id][0] == r && r.request == id && Submitted(s.submitted, r)
  }

  lemma AnswerIsFirst(s: State, id: RequestId, r: CommandResult)
    requires ResultInv(s) && AnsweredWith(s, id, r)
    ensures FirstResult(s, id, r)
  {
    assert SlotInv(s.handlers[id], s.queue.objects[id].slot, s.placed[id]);
    assert s.placed[id][0] in s.placed[id];
  }

  /** The handler's answer, if it is a result, is the first one placed for its
      request, was submitted for that request, and never changes. */
  lemma AnswersAreFirstResults(before: seq<Label>, after: seq<Label>, id: RequestId, r: CommandResult)
    requires AnsweredWith(Run(INITIAL, before), id, r)
    ensures FirstResult(Run(INITIAL, before), id, r)
    ensures exists x | x in Run(INITIAL, before).submitted :: x.request == id && Answers(x, r)
    ensures AnsweredWith(Run(Run(INITIAL, before), after), id, r)
  {
    var start := INITIAL;
    RunConserves(start, before);
    RunKeepsResults(start, before);
    AnswerIsFirst(Run(start, before), id, r);
    RunConserves(Run(start, before), after);
  }

  // ----- no answer, and the answer that is waiting --------------------------------

  lemma {:induction false} EmptyAnswerGaveUp(s: State, labels: seq<Label>, id: RequestId)
    requires Conserved(s) && (id in s.handlers ==> AnswerOf(s.handlers[id]) != Some(None))
    ensures var t := Run(s, labels);
            id in t.handlers && AnswerOf(t.handlers[id]) == Some(None) ==> GiveUp(id) in labels
    decreases |labels|
  {
    if labels != [] {
      var l, next := labels[0], Step(s, labels[0]);
      assert l in labels && forall x | x in labels[1..] :: x in labels;
      StepConserves(s, l);
      if l != GiveUp(id) {
        OnlyGiveUpAnswersNone(s, l, id);
        EmptyAnswerGaveUp(next, labels[1..], id);
      }
    }
  }

  lemma OnlyGiveUpAnswersNone(s: State, l: Label, id: RequestId)
    requires Conserved(s) && (id in s.handlers ==> AnswerOf(s.handlers[id]) != Some(None))
    requires l != GiveUp(id)
    ensures id in Step(s, l).handlers ==> AnswerOf(Step(s, l).handlers[id]) != Some(None)
  {
  }

  /** A handler is left without a result only if its context ended its wait. */
  lemma NoAnswerMeansGivenUp(labels: seq<Label>, id: RequestId)
    requires id in Run(INITIAL, labels).handlers && AnswerOf(Run(INITIAL, labels).handlers[id]) == Some(None)
    ensures GiveUp(id) in labels
  {
    EmptyAnswerGaveUp(INITIAL, labels, id);
  }

  predicate Waits(s: State, id: RequestId) {
    id in s.handlers && s.handlers[id].Waiting? && id in s.placed
  }

  /** In every reachable state in which a handler waits and nothing was placed for it,
      a submission answers it: field by field, as soon as it is sent and received. */
  lemma SubmissionAnswers(labels: seq<Label>, id: RequestId, x: CommandResult, k: nat)
    requires var s := Run(INITIAL, labels);
             k !in s.sending && Waits(s, id) && s.placed[id] == [] && x.request == id
    ensures var t := Step(Step(Step(Run(INITIAL, labels), Submit(k, x)), Send(k)), Receive(id));
            && id in t.handlers && t.handlers[id].Answered? && t.handlers[id].answer.Some?
            && Answers(x, t.handlers[id].answer.value)
            && t.queue.objects[id].status == if x.error == [] then Completed else Failed
  {
    RunConserves(INITIAL, labels);
    RunKeepsResults(INITIAL, labels);
    var s := Run(INITIAL, labels);
    assert SlotInv(s.handlers[id], s.queue.objects[id].slot, s.placed[id]);
    SubmissionPlaces(s, id, x, k);
  }

  lemma SubmissionPlaces(s: State, id: RequestId, x: CommandResult, k: nat)
    requires k !in s.sending && Waits(s, id) && x.request == id
    requires id in s.queue.listed && id in s.queue.objects && s.queue.objects[id].slot.None?
    ensures var b := Step(Step(s, Submit(k, x)), Send(k));
            && Waits(b, id) && id in b.queue.objects && b.queue.objects[id].slot.Some?
            && Answers(x, b.queue.objects[id].slot.value)
            && b.queue.objects[id].status == if x.error == [] then Completed else Failed
  {
    var a := Step(s, Submit(k, x));
    assert a.sending[k] == Delivered(x) && a.queue.objects[id].slot.None?;
  }

  /** A result that has been placed for a waiting handler is what it receives. */
  lemma PlacedIsReceived(labels: seq<Label>, id: RequestId)
    requires var s := Run(INITIAL, labels); Waits(s, id) && s.placed[id] != []
    ensures var s := Run(INITIAL, labels);
            AnsweredWith(Step(s, Receive(id)), id, s.placed[id][0])
  {
    RunConserves(INITIAL, labels);
    RunKeepsResults(INITIAL, labels);
    var s := Run(INITIAL, labels);
    assert SlotInv(s.handlers[id], s.queue.objects[id].slot, s.placed[id]);
  }
}
