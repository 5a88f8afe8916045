/** When Route meets a closed channel: the exact condition over whole runs. */
module SessionCrashes {
  import opened Wire
  import opened Sessions
  import opened SessionRuns
  import opened SessionCalls

  /** The state before the n-th label of a run. */
  function At(s: State, labels: seq<Label>, n: nat): State
    requires n <= |labels|
  {
    Run(s, labels[..n])
  }

  lemma AtNext(s: State, labels: seq<Label>, n: nat)
    requires n < |labels|
    ensures At(s, labels, n + 1) == Step(At(s, labels, n), labels[n])
  {
    assert labels[..n + 1] == labels[..n] + [labels[n]];
    RunConcat(s, labels[..n], [labels[n]]);
    RunOne(At(s, labels, n), labels[n]);
  }

  predicate Resumes(l: Label, t: Thread) {
    l.Continue? && l.t == t
  }

  /** A Route call looks its session up at label `i` and finds it in the map. */
  predicate LooksUp(s: State, labels: seq<Label>, i: nat) {
    && i < |labels| && labels[i].Begin? && labels[i].call.RouteChunk?
    && var found := At(s, labels, i);
       labels[i].t !in found.threads && labels[i].call.id in found.core.sessions
  }

  /** Its next step is label `k`; by then the session has been closed, the channel
      for this kind of chunk with it. */
  predicate SendsLate(s: State, labels: seq<Label>, i: nat, k: nat) {
    && LooksUp(s, labels, i) && i < k < |labels|
    && Resumes(labels[k], labels[i].t) && (forall j | i < j < k :: !Resumes(labels[j], labels[i].t))
    && var late := At(s, labels, k).core;
       var id := labels[i].call.id;
       Closed(late, id) && labels[i].call.chunk.Output? == late.store[id].kind.Exec?
  }

  lemma Waits(s: State, labels: seq<Label>, n: nat, m: nat, t: Thread)
    requires n <= m <= |labels| && t in At(s, labels, n).threads
    requires forall j | n <= j < m :: !Resumes(labels[j], t)
    ensures t in At(s, labels, m).threads && At(s, labels, m).threads[t] == At(s, labels, n).threads[t]
    decreases m
  {
    if n < m {
      Waits(s, labels, n, m - 1, t);
      AtNext(s, labels, m - 1);
      OthersLeave(At(s, labels, m - 1), labels[m - 1], t);
    }
  }

  lemma OthersLeave(s: State, l: Label, t: Thread)
    requires t in s.threads && !Resumes(l, t)
    ensures t in Step(s, l).threads && Step(s, l).threads[t] == s.threads[t]
  {
  }

  lemma CrashedStays(s: State, labels: seq<Label>, n: nat, m: nat)
    requires n <= m <= |labels| && At(s, labels, n).crashed
    ensures At(s, labels, m).crashed
    decreases m
  {
    if n < m {
      CrashedStays(s, labels, n, m - 1);
      AtNext(s, labels, m - 1);
    }
  }

  lemma AtEvolves(s: State, labels: seq<Label>, n: nat, m: nat)
    requires Inv(s) && n <= m <= |labels|
    ensures Inv(At(s, labels, m)) && Evolves(At(s, labels, n).core, At(s, labels, m).core)
  {
    RunKeepsInv(s, labels[..n]);
    RunKeepsInv(At(s, labels, n), labels[n..m]);
    assert labels[..m] == labels[..n] + labels[n..m];
    RunConcat(s, labels[..n], labels[n..m]);
  }

  lemma LateSendCrashes(s: State, labels: seq<Label>, i: nat, k: nat)
    requires Inv(s) && SendsLate(s, labels, i, k)
    ensures Run(s, labels).crashed
  {
    var t, id := labels[i].t, labels[i].call.id;
    assert labels[..|labels|] == labels;
    if !At(s, labels, k).crashed {
      if At(s, labels, i).crashed {
        CrashedStays(s, labels, i, k);
      }
      AtNext(s, labels, i);
      AtEvolves(s, labels, i, k);
      AtEvolves(s, labels, 0, i);
      LookupDelivers(At(s, labels, i), labels[i]);
      Waits(s, labels, i + 1, k, t);
      AtNext(s, labels, k);
      PanicsExactlyWhenClosed(At(s, labels, k), t, labels[k].sendOk, labels[k].pick);
      CrashedStays(s, labels, k + 1, |labels|);
    } else {
      CrashedStays(s, labels, k, |labels|);
    }
  }

  lemma LookupDelivers(s: State, l: Label)
    requires Inv(s) && !s.crashed && l.Begin? && l.call.RouteChunk? && l.t !in s.threads && l.call.id in s.core.sessions
    requires l.call.chunk.Output? == s.core.store[l.call.id].kind.Exec?
    ensures l.t in Step(s, l).threads && Step(s, l).threads[l.t] == Delivering(l.call.id, l.call.chunk)
  {
  }

  /** A delivery that is under way was looked up, and has not moved since. */
  lemma WasLookedUp(s: State, labels: seq<Label>, n: nat, t: Thread) returns (i: nat)
    requires Inv(s) && s.threads == map[] && n <= |labels| && !At(s, labels, n).crashed
    requires t in At(s, labels, n).threads && At(s, labels, n).threads[t].Delivering?
    ensures i < n && LooksUp(s, labels, i) && labels[i].t == t
    ensures At(s, labels, n).threads[t] == Delivering(labels[i].call.id, labels[i].call.chunk)
    ensures forall j | i < j < n :: !Resumes(labels[j], t)
    decreases n
  {
    assert n > 0;
    var before := At(s, labels, n - 1);
    AtNext(s, labels, n - 1);
    AtEvolves(s, labels, 0, n - 1);
    if t in before.threads {
      MovedOn(before, labels[n - 1], t);
      i := WasLookedUp(s, labels, n - 1, t);
    } else {
      LookupIsRoute(before, labels[n - 1], t);
      i := n - 1;
    }
  }

  lemma MovedOn(s: State, l: Label, t: Thread)
    requires t in s.threads && !Step(s, l).crashed
    requires t in Step(s, l).threads && Step(s, l).threads[t].Delivering?
    ensures !s.crashed && !Resumes(l, t) && Step(s, l).threads[t] == s.threads[t]
  {
  }

  lemma LookupIsRoute(s: State, l: Label, t: Thread)
    requires Inv(s) && t !in s.threads && t in Step(s, l).threads && Step(s, l).threads[t].Delivering?
    ensures l.Begin? && l.t == t && l.call.RouteChunk? && l.call.id in s.core.sessions
    ensures Step(s, l).threads[t] == Delivering(l.call.id, l.call.chunk)
  {
  }

  /** The step that crashes. */
  lemma FirstCrash(s: State, labels: seq<Label>, n: nat) returns (k: nat)
    requires !s.crashed && n <= |labels| && At(s, labels, n).crashed
    ensures k < n && !At(s, labels, k).crashed && At(s, labels, k + 1).crashed
    decreases n
  {
    assert n > 0;
    AtNext(s, labels, n - 1);
    if At(s, labels, n - 1).crashed {
      k := FirstCrash(s, labels, n - 1);
    } else {
      k := n - 1;
    }
  }

  lemma CrashIsLateSend(s: State, l: Label)
    requires !s.crashed && Step(s, l).crashed
    ensures l.Continue? && l.t in s.threads && s.threads[l.t].Delivering?
    ensures Closed(s.core, s.threads[l.t].id)
    ensures s.threads[l.t].chunk.Output? == s.core.store[s.threads[l.t].id].kind.Exec?
  {
  }

  /** A run meets a closed channel exactly if some Route call found its session in
      the map and the session was closed before that call's next step. */
  lemma CrashesExactly(maxConcurrent: int, labels: seq<Label>)
    ensures Run(Initial(maxConcurrent), labels).crashed
       <==> exists i: nat, k: nat :: SendsLate(Initial(maxConcurrent), labels, i, k)
  {
    var s := Initial(maxConcurrent);
    InitialInv(maxConcurrent);
    if i: nat, k: nat :| SendsLate(s, labels, i, k) {
      LateSendCrashes(s, labels, i, k);
    }
    if Run(s, labels).crashed {
      assert labels[..|labels|] == labels;
      var k := FirstCrash(s, labels, |labels|);
      AtNext(s, labels, k);
      CrashIsLateSend(At(s, labels, k), labels[k]);
      var i := WasLookedUp(s, labels, k, labels[k].t);
      assert SendsLate(s, labels, i, k);
    }
  }
}
