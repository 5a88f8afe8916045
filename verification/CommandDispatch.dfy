/** Which requests polls hand out, and how often. */
module CommandDispatch {
  import opened Wire
  import opened CommandRuns

  // ----- at-most-once dispatch ---------------------------------------------

  /** A request is in a snapshot that is still being answered. */
  predicate Outstanding(polls: map<nat, Poll>, id: RequestId) {
    exists p | p in polls :: id in polls[p].todo
  }

  /** A poll that takes effect shares no request with a snapshot still being answered. */
  predicate TakesFresh(s: State, l: Label) {
    l.StartPoll? && l.poll !in s.polls && Lists(l.order, PendingFor(s.queue, l.agent)) ==>
      forall id | id in l.order :: !Outstanding(s.polls, id)
  }

  predicate SnapshotsDisjoint(s: State, labels: seq<Label>)
    decreases |labels|
  {
    labels == [] || (TakesFresh(s, labels[0]) && SnapshotsDisjoint(Step(s, labels[0]), labels[1..]))
  }

  /** A poll of this agent still has commands to mark. */
  predicate Polling(s: State, agent: AgentId) {
    exists p | p in s.polls :: s.polls[p].agent == agent && s.polls[p].todo != []
  }

  /** No poll starts while an earlier poll of the same agent is being answered. */
  predicate PollsInTurn(s: State, labels: seq<Label>)
    decreases |labels|
  {
    labels == [] ||
    (&& (labels[0].StartPoll? ==> !Polling(s, labels[0].agent))
     && PollsInTurn(Step(s, labels[0]), labels[1..]))
  }

  predicate Handed(dispatched: seq<(AgentId, RequestId)>, id: RequestId) {
    exists i | 0 <= i < |dispatched| :: dispatched[i].1 == id
  }

  predicate Owned(objects: map<RequestId, Command>, id: RequestId, agent: AgentId) {
    id in objects && objects[id].agent == agent
  }

  /** A snapshot holds requests of its agent that nobody was given yet. */
  predicate TodoInv(objects: map<RequestId, Command>, dispatched: seq<(AgentId, RequestId)>, poll: Poll) {
    && (forall id | id in poll.todo :: Owned(objects, id, poll.agent) && !Handed(dispatched, id))
    && (forall i, j | 0 <= i < j < |poll.todo| :: poll.todo[i] != poll.todo[j])
  }

  /** Every response so far went to the right agent, to nobody twice, and can
      not be handed out again. */
  predicate ResponsesInv(queue: Queue, dispatched: seq<(AgentId, RequestId)>) {
    && (forall i | 0 <= i < |dispatched| :: Owned(queue.objects, dispatched[i].1, dispatched[i].0))
    && (forall id | id in queue.listed && id in queue.objects && Handed(dispatched, id) ::
          !queue.objects[id].status.Pending?)
    && NoneTwice(dispatched)
  }

  predicate Disjoint(a: seq<RequestId>, b: seq<RequestId>) {
    forall id | id in a :: id !in b
  }

  predicate DispatchInv(s: State) {
    && Conserved(s)
    && ResponsesInv(s.queue, s.dispatched)
    && (forall p | p in s.polls :: TodoInv(s.queue.objects, s.dispatched, s.polls[p]))
    && (forall p, q | p in s.polls && q in s.polls && p != q :: Disjoint(s.polls[p].todo, s.polls[q].todo))
  }

  lemma ResponsesAfterHandingOut(queue: Queue, dispatched: seq<(AgentId, RequestId)>, next: (AgentId, RequestId))
    requires ResponsesInv(queue, dispatched) && Owned(queue.objects, next.1, next.0) && !Handed(dispatched, next.1)
    ensures ResponsesInv(SetStatus(queue, next.1, Running), dispatched + [next])
  {
    forall i
      ensures Handed(dispatched + [next], i) <==> i == next.1 || Handed(dispatched, i)
    {
      HandedAppend(dispatched, next.0, next.1, i);
    }
  }

  /** One request moves from a snapshot to the responses. */
  lemma HandingOutKeepsDispatch(s: State, t: State, p: nat)
    requires DispatchInv(s) && Conserved(t) && Evolves(s, t)
    requires p in s.polls && s.polls[p].todo != []
    requires t.queue == SetStatus(s.queue, s.polls[p].todo[0], Running)
    requires t.polls == s.polls[p := Poll(s.polls[p].agent, s.polls[p].todo[1..])]
    requires t.dispatched == s.dispatched + [(s.polls[p].agent, s.polls[p].todo[0])]
    ensures DispatchInv(t)
  {
    var poll, id := s.polls[p], s.polls[p].todo[0];
    assert TodoInv(s.queue.objects, s.dispatched, poll) && id in poll.todo;
    ResponsesAfterHandingOut(s.queue, s.dispatched, (poll.agent, id));
    forall q | q in t.polls
      ensures TodoInv(t.queue.objects, t.dispatched, t.polls[q])
    {
      var was := s.polls[q];
      assert TodoInv(s.queue.objects, s.dispatched, was);
      assert q != p ==> Disjoint(poll.todo, was.todo);
      TodoAfterHandingOut(s.queue.objects, t.queue.objects, s.dispatched, (poll.agent, id), was, t.polls[q]);
    }
  }

  lemma TodoAfterHandingOut(
    objects: map<RequestId, Command>, objects': map<RequestId, Command>, dispatched: seq<(AgentId, RequestId)>,
    next: (AgentId, RequestId), poll: Poll, poll': Poll)
    requires TodoInv(objects, dispatched, poll) && Owned(objects, next.1, next.0)
    requires forall id | id in objects :: id in objects' && objects'[id].agent == objects[id].agent
    requires (poll' == poll && next.1 !in poll.todo)
          || (poll.todo != [] && poll.todo[0] == next.1 && poll' == Poll(poll.agent, poll.todo[1..]))
    ensures TodoInv(objects', dispatched + [next], poll')
  {
    forall id | id in poll'.todo
      ensures Owned(objects', id, poll'.agent) && !Handed(dispatched + [next], id)
    {
      assert id in poll.todo && Owned(objects, id, poll.agent);
      HandedAppend(dispatched, next.0, next.1, id);
    }
  }

  lemma MarkedKeepsDispatch(s: State, p: nat)
    requires DispatchInv(s)
    ensures DispatchInv(Marked(s, p))
  {
    MarkedConserves(s, p);
    if p in s.polls && s.polls[p].todo != [] {
      HandingOutKeepsDispatch(s, Marked(s, p), p);
    }
  }

  lemma HandedAppend(d: seq<(AgentId, RequestId)>, agent: AgentId, id: RequestId, i: RequestId)
    ensures Handed(d + [(agent, id)], i) <==> i == id || Handed(d, i)
  {
    var e := d + [(agent, id)];
    if i == id {
      assert e[|d|].1 == i;
    }
    if j :| 0 <= j < |d| && d[j].1 == i {
      assert e[j].1 == i;
    }
  }

  lemma PollStartedKeepsDispatch(s: State, p: nat, agent: AgentId, order: seq<RequestId>)
    requires DispatchInv(s) && TakesFresh(s, StartPoll(p, agent, order))
    ensures DispatchInv(PollStarted(s, p, agent, order))
  {
    PollStartedConserves(s, p, agent, order);
    var t := PollStarted(s, p, agent, order);
    if t != s {
      assert forall id | id in order :: id in set i | i in order;
      assert forall id | id in order :: id in PendingFor(s.queue, agent);
    }
  }

  lemma QuietKeepsDispatch(s: State, t: State)
    requires DispatchInv(s) && Conserved(t) && Evolves(s, t)
    requires t.dispatched == s.dispatched && t.polls == s.polls
    ensures DispatchInv(t)
  {
    assert forall id, a | Owned(s.queue.objects, id, a) :: Owned(t.queue.objects, id, a);
    forall id | id in t.queue.listed && id in t.queue.objects && Handed(t.dispatched, id)
      ensures !t.queue.objects[id].status.Pending?
    {
      var i :| 0 <= i < |s.dispatched| && s.dispatched[i].1 == id;
      assert Owned(s.queue.objects, id, s.dispatched[i].0);
      assert CommandEvolves(s.queue.objects[id], t.queue.objects[id]);
      assert HandlerEvolves(s.handlers[id], t.handlers[id]);
    }
    forall p | p in t.polls
      ensures TodoInv(t.queue.objects, t.dispatched, t.polls[p])
    {
      assert TodoInv(s.queue.objects, s.dispatched, s.polls[p]);
    }
  }

  lemma StepKeepsDispatch(s: State, l: Label)
    requires DispatchInv(s) && TakesFresh(s, l)
    ensures DispatchInv(Step(s, l))
  {
    if l.Mark? {
      MarkedKeepsDispatch(s, l.poll);
    } else if l.StartPoll? {
      PollStartedKeepsDispatch(s, l.poll, l.agent, l.order);
    } else {
      StepConserves(s, l);
      OthersAreQuiet(s, l);
      QuietKeepsDispatch(s, Step(s, l));
    }
  }

  lemma OthersAreQuiet(s: State, l: Label)
    requires !l.Mark? && !l.StartPoll?
    ensures Step(s, l).dispatched == s.dispatched && Step(s, l).polls == s.polls
  {
  }

  lemma {:induction false} RunKeepsDispatch(s: State, labels: seq<Label>)
    requires DispatchInv(s) && SnapshotsDisjoint(s, labels)
    ensures DispatchInv(Run(s, labels))
    decreases |labels|
  {
    if labels != [] {
      StepKeepsDispatch(s, labels[0]);
      RunKeepsDispatch(Step(s, labels[0]), labels[1..]);
    }
  }

  // ----- exactly when a request is handed out twice --------------------------

  predicate HandedTwice(dispatched: seq<(AgentId, RequestId)>, id: RequestId) {
    exists i, j :: 0 <= i < j < |dispatched| && dispatched[i].1 == dispatched[j].1 == id
  }

  predicate NoneTwice(dispatched: seq<(AgentId, RequestId)>) {
    forall i, j | 0 <= i < j < |dispatched| :: dispatched[i].1 != dispatched[j].1
  }

  /** The request was handed out twice, or will be once all polls are answered. */
  predicate Doubled(s: State, id: RequestId) {
    || HandedTwice(s.dispatched, id)
    || (Handed(s.dispatched, id) && Outstanding(s.polls, id))
    || InTwoPolls(s.polls, id)
  }

  predicate InTwoPolls(polls: map<nat, Poll>, id: RequestId) {
    exists p, q | p in polls && q in polls :: p != q && id in polls[p].todo && id in polls[q].todo
  }

  lemma TwiceAppend(d: seq<(AgentId, RequestId)>, next: (AgentId, RequestId), id: RequestId)
    ensures HandedTwice(d, id) ==> HandedTwice(d + [next], id)
    ensures Handed(d, id) && next.1 == id ==> HandedTwice(d + [next], id)
  {
    var e := d + [next];
    if i, j :| 0 <= i < j < |d| && d[i].1 == d[j].1 == id {
      assert e[i].1 == e[j].1 == id;
    }
    if i :| 0 <= i < |d| && d[i].1 == id {
      assert e[i].1 == id && e[|d|] == next;
    }
  }

  lemma MarkedKeepsDoubled(s: State, p: nat, id: RequestId)
    requires Doubled(s, id)
    ensures Doubled(Marked(s, p), id)
  {
    if p in s.polls && s.polls[p].todo != [] {
      var t, next := Marked(s, p), (s.polls[p].agent, s.polls[p].todo[0]);
      HandedAppend(s.dispatched, next.0, next.1, id);
      TwiceAppend(s.dispatched, next, id);
      MarkedKeepsOthers(s, p, id);
      if next.1 != id || Handed(s.dispatched, id) {
      } else if a, b :| a in s.polls && b in s.polls && a != b && id in s.polls[a].todo && id in s.polls[b].todo {
        var other := if a == p then b else a;
        assert other in t.polls && id in t.polls[other].todo;
      }
    }
  }

  /** Marking another request leaves this one in its snapshots. */
  lemma MarkedKeepsOthers(s: State, p: nat, id: RequestId)
    requires p in s.polls && s.polls[p].todo != []
    ensures var t := Marked(s, p);
            s.polls[p].todo[0] != id ==>
              && (Outstanding(s.polls, id) ==> Outstanding(t.polls, id))
              && (InTwoPolls(s.polls, id) ==> InTwoPolls(t.polls, id))
  {
    var t := Marked(s, p);
    if s.polls[p].todo[0] != id {
      assert forall q | q in s.polls && id in s.polls[q].todo :: q in t.polls && id in t.polls[q].todo;
    }
  }

  lemma StepKeepsDoubled(s: State, l: Label, id: RequestId)
    requires Doubled(s, id)
    ensures Doubled(Step(s, l), id)
  {
    if l.Mark? {
      MarkedKeepsDoubled(s, l.poll, id);
    } else {
      KeepsSnapshots(s, l);
      assert forall p | p in s.polls :: Step(s, l).polls[p] == s.polls[p];
    }
  }

  lemma KeepsSnapshots(s: State, l: Label)
    requires !l.Mark?
    ensures Step(s, l).dispatched == s.dispatched
    ensures forall p | p in s.polls :: p in Step(s, l).polls && Step(s, l).polls[p] == s.polls[p]
  {
  }

  lemma {:induction false} RunKeepsDoubled(s: State, labels: seq<Label>, id: RequestId)
    requires Doubled(s, id)
    ensures Doubled(Run(s, labels), id)
    decreases |labels|
  {
    if labels != [] {
      StepKeepsDoubled(s, labels[0], id);
      RunKeepsDoubled(Step(s, labels[0]), labels[1..], id);
    }
  }

  lemma {:induction false} OverlapDoubles(s: State, labels: seq<Label>) returns (id: RequestId)
    requires !SnapshotsDisjoint(s, labels)
    ensures Doubled(Run(s, labels), id)
    decreases |labels|
  {
    var l := labels[0];
    if TakesFresh(s, l) {
      id := OverlapDoubles(Step(s, l), labels[1..]);
    } else {
      id :| id in l.order && Outstanding(s.polls, id);
      var q :| q in s.polls && id in s.polls[q].todo;
      var t := Step(s, l);
      assert t.polls == s.polls[l.poll := Poll(l.agent, l.order)];
      assert l.poll in t.polls && q in t.polls && id in t.polls[l.poll].todo && id in t.polls[q].todo;
      RunKeepsDoubled(t, labels[1..], id);
    }
  }

  /** Once every poll has been answered, no request was handed out twice exactly
      if no poll took up a request of a snapshot still being answered. */
  lemma DispatchedOnceExactly(labels: seq<Label>)
    requires forall p | p in Run(INITIAL, labels).polls :: Run(INITIAL, labels).polls[p].todo == []
    ensures NoneTwice(Run(INITIAL, labels).dispatched) <==> SnapshotsDisjoint(INITIAL, labels)
  {
    var s := Run(INITIAL, labels);
    if SnapshotsDisjoint(INITIAL, labels) {
      RunKeepsDispatch(INITIAL, labels);
    } else {
      var id := OverlapDoubles(INITIAL, labels);
      assert !Outstanding(s.polls, id) && !InTwoPolls(s.polls, id);
      assert HandedTwice(s.dispatched, id);
    }
  }

  /** At any time, under that condition, each request has been handed out at most
      once, and to its own agent. */
  lemma DispatchedAtMostOnce(labels: seq<Label>, i: nat, j: nat)
    requires SnapshotsDisjoint(INITIAL, labels)
    ensures var s := Run(INITIAL, labels);
            i < j < |s.dispatched| ==> s.dispatched[i].1 != s.dispatched[j].1
    ensures var s := Run(INITIAL, labels);
            i < |s.dispatched| ==> Owned(s.queue.objects, s.dispatched[i].1, s.dispatched[i].0)
  {
    RunKeepsDispatch(INITIAL, labels);
  }

  /** Polls of one agent that take turns meet the condition. */
  lemma {:induction false} TurnsAreDisjoint(s: State, labels: seq<Label>)
    requires DispatchInv(s) && PollsInTurn(s, labels)
    ensures SnapshotsDisjoint(s, labels)
    decreases |labels|
  {
    if labels != [] {
      TurnTakesFresh(s, labels[0]);
      StepKeepsDispatch(s, labels[0]);
      TurnsAreDisjoint(Step(s, labels[0]), labels[1..]);
    }
  }

  lemma TurnTakesFresh(s: State, l: Label)
    requires DispatchInv(s) && (l.StartPoll? ==> !Polling(s, l.agent))
    ensures TakesFresh(s, l)
  {
    if l.StartPoll? && l.poll !in s.polls && Lists(l.order, PendingFor(s.queue, l.agent)) {
      forall id | id in l.order
        ensures !Outstanding(s.polls, id)
      {
        assert id in set i | i in l.order;
        assert id in PendingFor(s.queue, l.agent);
        forall p | p in s.polls
          ensures id !in s.polls[p].todo
        {
          assert TodoInv(s.queue.objects, s.dispatched, s.polls[p]);
        }
      }
    }
  }

  lemma PollsInTurnDispatchOnce(labels: seq<Label>)
    requires PollsInTurn(INITIAL, labels)
    ensures NoneTwice(Run(INITIAL, labels).dispatched)
  {
    TurnsAreDisjoint(INITIAL, labels);
    RunKeepsDispatch(INITIAL, labels);
  }

  // ----- overlapping polls ----------------------------------------------------

  lemma RunCons(s: State, l: Label, rest: seq<Label>)
    ensures Run(s, [l] + rest) == Run(Step(s, l), rest)
  {
    assert ([l] + rest)[1..] == rest;
  }

  lemma {:induction false} RunConcat(s: State, a: seq<Label>, b: seq<Label>)
    ensures Run(s, a + b) == Run(Run(s, a), b)
    decreases |a|
  {
    if a == [] {
      assert a + b == b;
    } else {
      assert (a + b)[1..] == a[1..] + b;
      RunConcat(Step(s, a[0]), a[1..], b);
    }
  }

  /** A poll can be answered to its end without anything in between. */
  lemma {:induction false} Answer(s: State, p: nat) returns (labels: seq<Label>)
    requires p in s.polls
    ensures var t := Run(s, labels);
            && s.dispatched <= t.dispatched
            && (forall id | id in s.polls[p].todo :: Handed(t.dispatched[|s.dispatched|..], id))
            && (forall q | q in s.polls && q != p :: q in t.polls && t.polls[q] == s.polls[q])
    decreases |s.polls[p].todo|
  {
    labels := [];
    var todo := s.polls[p].todo;
    if todo != [] {
      var s1 := Step(s, Mark(p));
      var rest := Answer(s1, p);
      labels := [Mark(p)] + rest;
      RunCons(s, Mark(p), rest);
      var t, n := Run(s1, rest), |s.dispatched|;
      assert t.dispatched[n] == s1.dispatched[n] && s1.dispatched[n].1 == todo[0];
      forall id | id in todo
        ensures Handed(t.dispatched[n..], id)
      {
        if id == todo[0] {
          assert t.dispatched[n..][0].1 == id;
        } else {
          assert id in s1.polls[p].todo;
          LaterHanded(t.dispatched, n, n + 1, id);
        }
      }
    }
  }

  lemma LaterHanded(d: seq<(AgentId, RequestId)>, n: nat, m: nat, id: RequestId)
    requires n <= m <= |d| && Handed(d[m..], id)
    ensures Handed(d[n..], id)
  {
    var i :| 0 <= i < |d[m..]| && d[m..][i].1 == id;
    assert d[n..][i + (m - n)].1 == id;
  }

  /** Whenever two snapshots share a request, it can be handed out twice. */
  lemma SharedSnapshotDispatchesTwice(s: State, p: nat, q: nat, id: RequestId) returns (labels: seq<Label>)
    requires p in s.polls && q in s.polls && p != q && id in s.polls[p].todo && id in s.polls[q].todo
    ensures HandedTwice(Run(s, labels).dispatched, id)
  {
    var first := Answer(s, p);
    var t := Run(s, first);
    var second := Answer(t, q);
    var u := Run(t, second);
    labels := first + second;
    RunConcat(s, first, second);
    var i :| 0 <= i < |t.dispatched[|s.dispatched|..]| && t.dispatched[|s.dispatched|..][i].1 == id;
    var j :| 0 <= j < |u.dispatched[|t.dispatched|..]| && u.dispatched[|t.dispatched|..][j].1 == id;
    assert u.dispatched[|s.dispatched| + i] == t.dispatched[|s.dispatched| + i];
    assert u.dispatched[|s.dispatched| + i].1 == id && u.dispatched[|t.dispatched| + j].1 == id;
  }

  lemma {:induction false} ListSet(ids: set<RequestId>) returns (order: seq<RequestId>)
    ensures Lists(order, ids)
  {
    order := [];
    if id :| id in ids {
      var rest := ListSet(ids - {id});
      order := [id] + rest;
      assert forall i | i in rest :: i in (set x | x in rest);
      assert (set i | i in order) == {id} + (set i | i in rest);
      assert (set i | i in rest) == ids - {id} && id !in rest;
      assert ids == {id} + (ids - {id});
    } else {
      assert ids == {} && (set i | i in order) == {};
    }
  }

  /** The snapshot and the marks are separate sections, so two overlapping polls
      can hand out any pending request twice. */
  lemma OverlappingPollsDispatchTwice(s: State, agent: AgentId, id: RequestId, p: nat, q: nat)
    returns (labels: seq<Label>)
    requires p !in s.polls && q !in s.polls && p != q && id in PendingFor(s.queue, agent)
    ensures HandedTwice(Run(s, labels).dispatched, id)
  {
    var order := ListSet(PendingFor(s.queue, agent));
    assert id in set i | i in order;
    var s1 := Step(s, StartPoll(p, agent, order));
    var s2 := Step(s1, StartPoll(q, agent, order));
    var rest := SharedSnapshotDispatchesTwice(s2, p, q, id);
    labels := [StartPoll(p, agent, order)] + ([StartPoll(q, agent, order)] + rest);
    RunCons(s1, StartPoll(q, agent, order), rest);
    RunCons(s, StartPoll(p, agent, order), [StartPoll(q, agent, order)] + rest);
  }
}
