/** Closing forwarded connections under every interleaving of
    internal/agent/portforward.go: removing a connection from the map under the
    lock hands it to one closer, which closes it after giving up the lock. */
module AgentTeardown {
  import opened PfFrame

  type Thread = nat

  /** A pfConn, named by the order in which connections were opened. */
  type Conn = nat

  /** What a call holds while it does not hold the lock. */
  datatype Pc =
    | Delivering(id: ConnId, conn: Conn)   // data: looked up, before the channel send
    | Closing(conn: Conn)                  // closeConn: removed, before the close
    | ShuttingDown(left: set<Conn>)        // shutdown: swapped out, closing one by one

  /** `closes` counts the closes of each channel; `replaced` are connections whose
      map entry was overwritten by an open with the same id; `crashed` is set by a
      send on a closed channel. */
  datatype State = State(
    count: nat, conns: map<ConnId, Conn>, threads: map<Thread, Pc>, closes: multiset<Conn>, replaced: set<Conn>,
    crashed: bool)

  datatype Label =
    | Open(id: ConnId)
    | BeginData(t: Thread, id: ConnId)
    | BeginClose(t: Thread, id: ConnId)
    | BeginShutdown(t: Thread)
    | Continue(t: Thread, full: bool, pick: Conn)

  const INITIAL := State(0, map[], map[], multiset{}, {}, false)

  function Opened(s: State, id: ConnId): State {
    s.(count := s.count + 1, conns := s.conns[id := s.count],
       replaced := if id in s.conns then s.replaced + {s.conns[id]} else s.replaced)
  }

  /** The locked part of closeConn. */
  function Unlisted(s: State, t: Thread, id: ConnId): State {
    if id in s.conns
    then s.(conns := s.conns - {id}, threads := s.threads[t := Closing(s.conns[id])])
    else s.(threads := s.threads - {t})
  }

  function Swapped(s: State, t: Thread): State {
    s.(conns := map[], threads := s.threads[t := ShuttingDown(s.conns.Values)])
  }

  function Resumed(s: State, t: Thread, full: bool, pick: Conn): State
    requires t in s.threads
  {
    match s.threads[t]
    case Delivering(id, conn) =>
      if s.closes[conn] > 0 then s.(crashed := true)
      else if full then Unlisted(s, t, id)
      else s.(threads := s.threads - {t})
    case Closing(conn) => s.(threads := s.threads - {t}, closes := s.closes + multiset{conn})
    case ShuttingDown(left) =>
      if pick in left
      then s.(threads := s.threads[t := ShuttingDown(left - {pick})], closes := s.closes + multiset{pick})
      else if left == {} then s.(threads := s.threads - {t})
      else s
  }

  function Step(s: State, l: Label): State {
    if s.crashed then s
    else
      match l
      case Open(id) => Opened(s, id)
      case BeginData(t, id) =>
        if t in s.threads || id !in s.conns then s else s.(threads := s.threads[t := Delivering(id, s.conns[id])])
      case BeginClose(t, id) => if t in s.threads then s else Unlisted(s, t, id)
      case BeginShutdown(t) => if t in s.threads then s else Swapped(s, t)
      case Continue(t, full, pick) => if t in s.threads then Resumed(s, t, full, pick) else s
  }

  function Run(s: State, labels: seq<Label>): State
    decreases |labels|
  {
    if labels == [] then s else Run(Step(s, labels[0]), labels[1..])
  }

  // ----- ownership ---------------------------------------------------------

  /** Who is responsible for a connection. */
  datatype Owner = InMap(id: ConnId) | HeldBy(t: Thread) | Shut | Lost

  /** The connections a call has taken out of the map and will close. */
  function Held(pc: Pc): set<Conn> {
    match pc
    case Delivering(_, _) => {}
    case Closing(conn) => {conn}
    case ShuttingDown(left) => left
  }

  /** `owner` tells for every connection where it is: exactly one listing, exactly
      one call that holds it, exactly one close so far, or replaced and lost. */
  ghost predicate Owns(s: State, owner: seq<Owner>) {
    && |owner| == s.count
    && (forall id | id in s.conns :: s.conns[id] < s.count && owner[s.conns[id]] == InMap(id))
    && (forall t | t in s.threads :: HoldsAll(Held(s.threads[t]), t, owner))
    && (forall c | 0 <= c < s.count :: Placed(s, c, owner[c]))
    && (forall c | c in s.closes :: c < s.count)
  }

  predicate HoldsAll(held: set<Conn>, t: Thread, owner: seq<Owner>) {
    forall c | c in held :: c < |owner| && owner[c] == HeldBy(t)
  }

  predicate Placed(s: State, c: Conn, o: Owner) {
    && (c in s.replaced <==> o.Lost?)
    && s.closes[c] == (if o.Shut? then 1 else 0)
    && match o
       case InMap(id) => id in s.conns && s.conns[id] == c
       case HeldBy(t) => t in s.threads && c in Held(s.threads[t])
       case _ => true
  }

  lemma OpenedOwns(s: State, owner: seq<Owner>, id: ConnId) returns (owner': seq<Owner>)
    requires Owns(s, owner) && forall c | c in s.replaced :: c < s.count
    ensures Owns(Opened(s, id), owner')
  {
    var marked := if id in s.conns then owner[s.conns[id] := Lost] else owner;
    owner' := marked + [InMap(id)];
    var u := Opened(s, id);
    forall c | 0 <= c < u.count
      ensures Placed(u, c, owner'[c])
    {
      if c < s.count {
        assert Placed(s, c, owner[c]);
      }
    }
  }

  lemma UnlistedOwns(s: State, owner: seq<Owner>, t: Thread, id: ConnId) returns (owner': seq<Owner>)
    requires Owns(s, owner) && (t in s.threads ==> Held(s.threads[t]) == {})
    ensures Owns(Unlisted(s, t, id), owner')
  {
    owner' := if id in s.conns then owner[s.conns[id] := HeldBy(t)] else owner;
    var u := Unlisted(s, t, id);
    forall c | 0 <= c < u.count
      ensures Placed(u, c, owner'[c])
    {
      assert Placed(s, c, owner[c]);
    }
  }

  lemma SwappedOwns(s: State, owner: seq<Owner>, t: Thread) returns (owner': seq<Owner>)
    requires Owns(s, owner) && t !in s.threads
    ensures Owns(Swapped(s, t), owner')
  {
    owner' := seq(|owner|, c requires 0 <= c < |owner| => if owner[c].InMap? then HeldBy(t) else owner[c]);
    var u := Swapped(s, t);
    forall c | 0 <= c < u.count
      ensures Placed(u, c, owner'[c])
    {
      assert Placed(s, c, owner[c]);
    }
  }

  lemma ResumedOwns(s: State, owner: seq<Owner>, t: Thread, full: bool, pick: Conn) returns (owner': seq<Owner>)
    requires Owns(s, owner) && t in s.threads && !s.threads[t].Delivering?
    ensures Owns(Resumed(s, t, full, pick), owner')
  {
    owner' := owner;
    match s.threads[t]
    case Closing(conn) => owner' := ClosedOwns(s, owner, t, conn, s.threads - {t});
    case ShuttingDown(left) =>
      if pick in left {
        owner' := ClosedOwns(s, owner, t, pick, s.threads[t := ShuttingDown(left - {pick})]);
      } else if left == {} {
        IdleOwns(s, owner, t, s.threads - {t});
      }
    case _ =>
  }

  /** A call closes one of the connections it holds, and keeps the others. */
  lemma ClosedOwns(s: State, owner: seq<Owner>, t: Thread, c: Conn, threads: map<Thread, Pc>) returns (owner': seq<Owner>)
    requires Owns(s, owner) && t in s.threads && c in Held(s.threads[t])
    requires threads - {t} == s.threads - {t}
    requires if t in threads then Held(threads[t]) == Held(s.threads[t]) - {c} else Held(s.threads[t]) == {c}
    ensures Owns(s.(threads := threads, closes := s.closes + multiset{c}), owner')
  {
    owner' := owner[c := Shut];
    var u := s.(threads := threads, closes := s.closes + multiset{c});
    assert forall v | v != t :: (v in threads <==> v in threads - {t}) && (v in s.threads <==> v in s.threads - {t});
    assert forall v | v in threads && v != t :: threads[v] == (threads - {t})[v] == (s.threads - {t})[v] == s.threads[v];
    forall d | 0 <= d < u.count
      ensures Placed(u, d, owner'[d])
    {
      assert Placed(s, d, owner[d]);
    }
  }

  /** A call that holds nothing starts to deliver or returns. */
  lemma IdleOwns(s: State, owner: seq<Owner>, t: Thread, threads: map<Thread, Pc>)
    requires Owns(s, owner) && (t in s.threads ==> Held(s.threads[t]) == {})
    requires forall u | u in threads && u != t :: u in s.threads && threads[u] == s.threads[u]
    requires forall u | u in s.threads && u != t :: u in threads
    requires t in threads ==> Held(threads[t]) == {}
    ensures Owns(s.(threads := threads), owner)
  {
    forall c | 0 <= c < s.count
      ensures Placed(s.(threads := threads), c, owner[c])
    {
      assert Placed(s, c, owner[c]);
    }
  }

  lemma StepReplacesKnown(s: State, owner: seq<Owner>, l: Label)
    requires Owns(s, owner) && forall c | c in s.replaced :: c < s.count
    ensures forall c | c in Step(s, l).replaced :: c < Step(s, l).count
  {
  }

  lemma StepOwns(s: State, owner: seq<Owner>, l: Label) returns (owner': seq<Owner>)
    requires Owns(s, owner) && forall c | c in s.replaced :: c < s.count
    ensures Owns(Step(s, l), owner')
  {
    owner' := owner;
    if !s.crashed {
      match l
      case Open(id) => owner' := OpenedOwns(s, owner, id);
      case BeginData(t, id) =>
        if t !in s.threads {
          IdleOwns(s, owner, t, Step(s, l).threads);
        }
      case BeginClose(t, id) =>
        if t !in s.threads {
          owner' := UnlistedOwns(s, owner, t, id);
        }
      case BeginShutdown(t) =>
        if t !in s.threads {
          owner' := SwappedOwns(s, owner, t);
        }
      case Continue(t, full, pick) =>
        if t in s.threads {
          if !s.threads[t].Delivering? {
            owner' := ResumedOwns(s, owner, t, full, pick);
          } else {
            owner' := SentOwns(s, owner, t, full, pick);
          }
        }
    }
  }

  lemma SentOwns(s: State, owner: seq<Owner>, t: Thread, full: bool, pick: Conn) returns (owner': seq<Owner>)
    requires Owns(s, owner) && t in s.threads && s.threads[t].Delivering?
    ensures Owns(Resumed(s, t, full, pick), owner')
  {
    owner' := owner;
    if s.closes[s.threads[t].conn] > 0 {
      CrashedOwns(s, owner);
    } else if full {
      owner' := UnlistedOwns(s, owner, t, s.threads[t].id);
    } else {
      IdleOwns(s, owner, t, s.threads - {t});
    }
  }

  lemma CrashedOwns(s: State, owner: seq<Owner>)
    requires Owns(s, owner)
    ensures Owns(s.(crashed := true), owner)
  {
    forall c | 0 <= c < s.count
      ensures Placed(s.(crashed := true), c, owner[c])
    {
      assert Placed(s, c, owner[c]);
    }
  }

  lemma {:induction false} RunOwns(s: State, owner: seq<Owner>, labels: seq<Label>) returns (owner': seq<Owner>)
    requires Owns(s, owner) && forall c | c in s.replaced :: c < s.count
    ensures Owns(Run(s, labels), owner')
    decreases |labels|
  {
    owner' := owner;
    if labels != [] {
      StepReplacesKnown(s, owner, labels[0]);
      owner' := StepOwns(s, owner, labels[0]);
      owner' := RunOwns(Step(s, labels[0]), owner', labels[1..]);
    }
  }

  // ----- main results ------------------------------------------------------

  /** No channel is closed twice, and none that is still listed is closed,
      whatever overlaps. */
  lemma ClosedAtMostOnce(labels: seq<Label>, c: Conn, id: ConnId)
    ensures var s := Run(INITIAL, labels);
            && s.closes[c] <= 1
            && (id in s.conns ==> s.closes[s.conns[id]] == 0)
  {
    var owner := RunOwns(INITIAL, [], labels);
    var s := Run(INITIAL, labels);
    if c < s.count {
      assert Placed(s, c, owner[c]);
    }
    if id in s.conns {
      assert Placed(s, s.conns[id], owner[s.conns[id]]);
    }
  }

  /** Once the map is empty and no closer is under way, every connection opened
      has been closed exactly once, unless an open reused its id while it was
      still listed: then it was never closed.  A crash leaves a call under way. */
  lemma TeardownIsExactlyOnce(labels: seq<Label>, c: Conn)
    requires Run(INITIAL, labels).conns == map[] && Run(INITIAL, labels).threads == map[]
    ensures var s := Run(INITIAL, labels);
            c < s.count ==> s.closes[c] == if c in s.replaced then 0 else 1
  {
    var owner := RunOwns(INITIAL, [], labels);
    var s := Run(INITIAL, labels);
    if c < s.count {
      assert Placed(s, c, owner[c]);
    }
  }

  /** With fresh ids, as the CLI allots them, nothing is ever replaced. */
  predicate FreshIds(labels: seq<Label>) {
    forall i, j | 0 <= i < j < |labels| && labels[i].Open? && labels[j].Open? :: labels[i].id != labels[j].id
  }

  lemma {:induction false} FreshIdsReplaceNothing(s: State, labels: seq<Label>)
    requires s.replaced == {} && FreshIds(labels)
    requires forall i | 0 <= i < |labels| && labels[i].Open? :: labels[i].id !in s.conns
    ensures Run(s, labels).replaced == {}
    decreases |labels|
  {
    if labels != [] {
      var next := Step(s, labels[0]);
      forall i | 0 <= i < |labels[1..]| && labels[1..][i].Open?
        ensures labels[1..][i].id !in next.conns
      {
        assert labels[1..][i] == labels[i + 1];
      }
      assert FreshIds(labels[1..]) by {
        forall i, j | 0 <= i < j < |labels[1..]| && labels[1..][i].Open? && labels[1..][j].Open?
          ensures labels[1..][i].id != labels[1..][j].id
        {
          assert labels[1..][i] == labels[i + 1] && labels[1..][j] == labels[j + 1];
        }
      }
      FreshIdsReplaceNothing(next, labels[1..]);
    }
  }

  // ----- when data meets a closed channel -------------------------------------

  /** The state before the n-th label of a run. */
  function At(labels: seq<Label>, n: nat): State
    requires n <= |labels|
  {
    Run(INITIAL, labels[..n])
  }

  lemma {:induction false} RunAppend(s: State, labels: seq<Label>, l: Label)
    ensures Run(s, labels + [l]) == Step(Run(s, labels), l)
    decreases |labels|
  {
    if labels == [] {
      assert [] + [l] == [l] && [l][1..] == [];
      assert Run(Step(s, l), []) == Step(s, l);
    } else {
      assert (labels + [l])[1..] == labels[1..] + [l];
      RunAppend(Step(s, labels[0]), labels[1..], l);
    }
  }

  lemma AtNext(labels: seq<Label>, n: nat)
    requires n < |labels|
    ensures At(labels, n + 1) == Step(At(labels, n), labels[n])
  {
    assert labels[..n + 1] == labels[..n] + [labels[n]];
    RunAppend(INITIAL, labels[..n], labels[n]);
  }

  predicate Resumes(l: Label, t: Thread) {
    l.Continue? && l.t == t
  }

  /** A data call looks its connection up at label `i`, its next step is label `k`,
      and by then the connection's channel has been closed. */
  predicate SendsLate(labels: seq<Label>, i: nat, k: nat) {
    && i < k < |labels| && labels[i].BeginData?
    && Resumes(labels[k], labels[i].t) && (forall j | i < j < k :: !Resumes(labels[j], labels[i].t))
    && var found := At(labels, i);
       labels[i].t !in found.threads && labels[i].id in found.conns
       && At(labels, k).closes[found.conns[labels[i].id]] > 0
  }

  lemma {:induction false} Waits(labels: seq<Label>, n: nat, m: nat, t: Thread)
    requires n <= m <= |labels| && t in At(labels, n).threads
    requires forall j | n <= j < m :: !Resumes(labels[j], t)
    ensures t in At(labels, m).threads && At(labels, m).threads[t] == At(labels, n).threads[t]
    decreases m
  {
    if n < m {
      Waits(labels, n, m - 1, t);
      AtNext(labels, m - 1);
    }
  }

  lemma {:induction false} CrashedStays(labels: seq<Label>, n: nat, m: nat)
    requires n <= m <= |labels| && At(labels, n).crashed
    ensures At(labels, m).crashed
    decreases m
  {
    if n < m {
      CrashedStays(labels, n, m - 1);
      AtNext(labels, m - 1);
    }
  }

  lemma LateSendCrashes(labels: seq<Label>, i: nat, k: nat)
    requires SendsLate(labels, i, k)
    ensures Run(INITIAL, labels).crashed
  {
    assert labels[..|labels|] == labels;
    if At(labels, k).crashed {
      CrashedStays(labels, k, |labels|);
    } else {
      if At(labels, i).crashed {
        CrashedStays(labels, i, k);
      }
      AtNext(labels, i);
      Waits(labels, i + 1, k, labels[i].t);
      AtNext(labels, k);
      CrashedStays(labels, k + 1, |labels|);
    }
  }

  lemma {:induction false} WasLookedUp(labels: seq<Label>, n: nat, t: Thread) returns (i: nat)
    requires n <= |labels| && !At(labels, n).crashed
    requires t in At(labels, n).threads && At(labels, n).threads[t].Delivering?
    ensures i < n && labels[i].BeginData? && labels[i].t == t && forall j | i < j < n :: !Resumes(labels[j], t)
    ensures t !in At(labels, i).threads && labels[i].id in At(labels, i).conns
    ensures At(labels, n).threads[t] == Delivering(labels[i].id, At(labels, i).conns[labels[i].id])
    decreases n
  {
    assert n > 0;
    AtNext(labels, n - 1);
    if t in At(labels, n - 1).threads {
      MovedOn(At(labels, n - 1), labels[n - 1], t);
      i := WasLookedUp(labels, n - 1, t);
    } else {
      i := n - 1;
    }
  }

  lemma MovedOn(s: State, l: Label, t: Thread)
    requires t in s.threads && t in Step(s, l).threads && Step(s, l).threads[t].Delivering? && !Step(s, l).crashed
    ensures !s.crashed && !Resumes(l, t) && Step(s, l).threads[t] == s.threads[t]
  {
  }

  lemma {:induction false} FirstCrash(labels: seq<Label>, n: nat) returns (k: nat)
    requires n <= |labels| && At(labels, n).crashed
    ensures k < n && !At(labels, k).crashed && At(labels, k + 1).crashed
    decreases n
  {
    assert n > 0;
    if At(labels, n - 1).crashed {
      k := FirstCrash(labels, n - 1);
    } else {
      k := n - 1;
    }
  }

  /** A run sends on a closed channel exactly if some data call found its connection
      listed and that was closed before the call's next step. */
  lemma CrashesExactly(labels: seq<Label>)
    ensures Run(INITIAL, labels).crashed <==> exists i: nat, k: nat :: SendsLate(labels, i, k)
  {
    if i: nat, k: nat :| SendsLate(labels, i, k) {
      LateSendCrashes(labels, i, k);
    }
    if Run(INITIAL, labels).crashed {
      assert labels[..|labels|] == labels;
      var k := FirstCrash(labels, |labels|);
      AtNext(labels, k);
      var i := WasLookedUp(labels, k, labels[k].t);
      assert SendsLate(labels, i, k);
    }
  }

  // ----- calls that nothing interrupts ----------------------------------------

  lemma RunTwo(s: State, a: Label, b: Label)
    ensures Run(s, [a, b]) == Step(Step(s, a), b)
  {
    assert [a, b][1..] == [b] && [b][1..] == [];
    assert Run(Step(s, a), [b]) == Run(Step(Step(s, a), b), []);
  }

  /** closeConn takes a listed connection out and closes it, and only that. */
  lemma CloseEndsOne(s: State, t: Thread, id: ConnId, full: bool, pick: Conn)
    requires !s.crashed && t !in s.threads
    ensures Run(s, [BeginClose(t, id), Continue(t, full, pick)])
         == if id in s.conns then s.(conns := s.conns - {id}, closes := s.closes + multiset{s.conns[id]}) else s
  {
    RunTwo(s, BeginClose(t, id), Continue(t, full, pick));
    assert s.threads - {t} == s.threads;
    if id in s.conns {
      assert s.threads[t := Closing(s.conns[id])] - {t} == s.threads;
    }
  }

  /** data changes nothing here while there is room, and ends a full connection. */
  lemma DataEndsFull(s: State, t: Thread, id: ConnId, full: bool, pick: Conn)
    requires !s.crashed && t !in s.threads && id in s.conns && s.closes[s.conns[id]] == 0
    ensures Step(Step(Step(s, BeginData(t, id)), Continue(t, full, pick)), Continue(t, full, pick))
         == if full then s.(conns := s.conns - {id}, closes := s.closes + multiset{s.conns[id]}) else s
  {
    assert s.threads[t := Delivering(id, s.conns[id])] - {t} == s.threads;
    assert s.threads[t := Delivering(id, s.conns[id])][t := Closing(s.conns[id])] - {t} == s.threads;
  }

  lemma {:induction false} ShutdownContinues(s: State, t: Thread) returns (labels: seq<Label>)
    requires !s.crashed && t in s.threads && s.threads[t].ShuttingDown?
    ensures Run(s, labels) == s.(threads := s.threads - {t}, closes := s.closes + multiset(s.threads[t].left))
    decreases |s.threads[t].left|
  {
    var left := s.threads[t].left;
    if left == {} {
      labels := [Continue(t, false, 0)];
      assert labels[1..] == [] && s.closes + multiset(left) == s.closes;
      assert Run(s, labels) == Run(Step(s, labels[0]), []) == Step(s, labels[0]);
    } else {
      var pick :| pick in left;
      var next := Step(s, Continue(t, false, pick));
      var more := ShutdownContinues(next, t);
      labels := [Continue(t, false, pick)] + more;
      assert labels[0] == Continue(t, false, pick) && labels[1..] == more;
      assert Run(s, labels) == Run(next, more);
      assert next.threads - {t} == s.threads - {t};
      assert multiset{pick} + multiset(left - {pick}) == multiset(left);
    }
  }

  /** shutdown can always go through, and then has closed what was listed. */
  lemma ShutdownEndsAll(s: State, t: Thread) returns (labels: seq<Label>)
    requires !s.crashed && t !in s.threads
    ensures Run(s, [BeginShutdown(t)] + labels)
         == s.(conns := map[], closes := s.closes + multiset(s.conns.Values))
  {
    var next := Swapped(s, t);
    labels := ShutdownContinues(next, t);
    assert ([BeginShutdown(t)] + labels)[1..] == labels;
    assert next.threads - {t} == s.threads;
  }

  lemma {:induction false} RunConcat(s: State, a: seq<Label>, b: seq<Label>)
    ensures Run(s, a + b) == Run(Run(s, a), b)
    decreases |a|
  {
    if a == [] {
      assert [] + b == b;
    } else {
      assert (a + b)[1..] == a[1..] + b;
      RunConcat(Step(s, a[0]), a[1..], b);
    }
  }

  /** From every state that a run reaches with no call under way, a shutdown can leave
      every connection that was not replaced closed exactly once. */
  lemma TornDown(labels: seq<Label>, t: Thread) returns (more: seq<Label>)
    requires Run(INITIAL, labels).threads == map[] && !Run(INITIAL, labels).crashed
    ensures var s, u := Run(INITIAL, labels), Run(INITIAL, labels + more);
            && u.conns == map[] && u.threads == map[] && u.count == s.count && u.replaced == s.replaced
            && forall c | 0 <= c < s.count :: u.closes[c] == if c in s.replaced then 0 else 1
  {
    var s := Run(INITIAL, labels);
    var rest := ShutdownEndsAll(s, t);
    more := [BeginShutdown(t)] + rest;
    RunConcat(INITIAL, labels, more);
    forall c | 0 <= c < s.count
      ensures Run(INITIAL, labels + more).closes[c] == if c in s.replaced then 0 else 1
    {
      TeardownIsExactlyOnce(labels + more, c);
    }
  }
}
