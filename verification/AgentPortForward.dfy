/** internal/agent/portforward.go: the pfSession that fans the connections of a
    port-forward session out to local kubectl listeners. */
module AgentPortForward {
  import opened Wire
  import opened PfFrame
  import opened ExecFrame

  const WRITE_BUFFER: nat := 32
  const BUFFER_FULL: Octets := Text("write buffer full: connection dropped")

  /** A pfSession: the chunks waiting for each open connection, all bytes ever
      queued for a connection, and what has been sent to central. */
  datatype Pod = Pod(conns: map<ConnId, seq<Octets>>, queued: map<ConnId, Octets>, out: seq<Msg>)

  function At(m: map<ConnId, Octets>, id: ConnId): Octets {
    if id in m then m[id] else []
  }

  /** How dialling for an OPEN turns out: a connection, or the error to report. */
  datatype Dial = Connected | Refused(text: Octets)

  function PodOpen(p: Pod, id: ConnId, dial: Dial): Pod {
    match dial
    case Connected => p.(conns := p.conns[id := []])
    case Refused(text) => p.(out := p.out + [ConnError(id, text)])
  }

  function PodClose(p: Pod, id: ConnId): Pod {
    p.(conns := p.conns - {id})
  }

  /** A full queue kills the connection instead of leaving a gap. */
  function PodData(p: Pod, id: ConnId, data: Octets): Pod {
    if id !in p.conns then p
    else if |p.conns[id]| < WRITE_BUFFER then
      p.(conns := p.conns[id := p.conns[id] + [data]], queued := p.queued[id := At(p.queued, id) + data])
    else PodClose(p, id).(out := p.out + [ConnError(id, BUFFER_FULL)])
  }

  function PodShutdown(p: Pod): Pod {
    p.(conns := map[])
  }

  // ----- the objects -------------------------------------------------------

  /** A pfConn; `open` until its channel and its socket are closed. */
  class PfConn {
    var queue: seq<Octets>
    var open: bool

    constructor ()
      ensures queue == [] && open
    {
      queue, open := [], true;
    }

    /** Closing a closed channel would panic. */
    method Close()
      requires open
      modifies this
      ensures !open && queue == old(queue)
    {
      open := false;
    }
  }

  class PfSession {
    const remoteToLocal: map<U16, U16>
    var conns: map<ConnId, PfConn>
    var out: seq<Msg>
    ghost var queued: map<ConnId, Octets>

    /** A tracked connection is open, has at most 32 queued chunks, and is not
        tracked twice. */
    ghost predicate Valid()
      reads this, conns.Values
    {
      && (forall id | id in conns :: conns[id].open && |conns[id].queue| <= WRITE_BUFFER)
      && (forall i, j | i in conns && j in conns && i != j :: conns[i] != conns[j])
    }

    ghost function Queues(): map<ConnId, seq<Octets>>
      reads this`conns, conns.Values
    {
      map id | id in conns :: conns[id].queue
    }

    ghost function View(): Pod
      reads this, conns.Values
    {
      Pod(Queues(), queued, out)
    }

    constructor (remoteToLocal: map<U16, U16>)
      ensures Valid() && View() == Pod(map[], map[], []) && this.remoteToLocal == remoteToLocal
    {
      this.remoteToLocal := remoteToLocal;
      conns, out, queued := map[], [], map[];
    }

    method Send(m: Msg)
      modifies this`out
      ensures out == old(out) + [m]
    {
      out := out + [m];
    }

    /** `dial` is the outcome of net.Dial for a mapped port. */
    method OpenConn(id: ConnId, port: U16, dial: Dial, noForward: Octets)
      requires Valid()
      modifies this
      ensures Valid()
      ensures View() == PodOpen(old(View()), id, if port in remoteToLocal then dial else Refused(noForward))
      // a refusal is answered with one CONN_ERROR that carries its text
      ensures port in remoteToLocal && dial.Connected? ==>
                && conns.Keys == old(conns.Keys) + {id} && conns[id].queue == [] && out == old(out)
                && forall i | i in old(conns) && i != id :: conns[i] == old(conns[i])
      ensures port !in remoteToLocal ==> conns == old(conns) && out == old(out) + [ConnError(id, noForward)]
      ensures port in remoteToLocal && dial.Refused? ==>
                conns == old(conns) && out == old(out) + [ConnError(id, dial.text)]
    {
      if port !in remoteToLocal {
        Send(ConnError(id, noForward));
        return;
      }
      if dial.Refused? {
        Send(ConnError(id, dial.text));
        return;
      }
      var pc := new PfConn();
      conns := conns[id := pc];
      assert Queues() == old(Queues())[id := []];
    }

    method DataFor(id: ConnId, data: Octets)
      requires Valid()
      modifies this, conns.Values
      ensures Valid() && View() == PodData(old(View()), id, data)
      ensures id !in old(conns) ==> conns == old(conns) && Queues() == old(Queues()) && out == old(out)
      ensures id in old(conns) && |old(conns[id].queue)| < 32 ==>
                conns == old(conns) && conns[id].queue == old(conns[id].queue) + [data] && out == old(out)
      ensures id in old(conns) && |old(conns[id].queue)| >= 32 ==>
                && conns == old(conns) - {id} && !old(conns[id]).open
                && out == old(out) + [ConnError(id, Text("write buffer full: connection dropped"))]
    {
      if id !in conns {
        return;
      }
      var pc := conns[id];
      if |pc.queue| < WRITE_BUFFER {
        pc.queue := pc.queue + [data];
        queued := queued[id := At(queued, id) + data];
        assert Queues() == old(Queues())[id := old(Queues())[id] + [data]];
      } else {
        Close(id);
        Send(ConnError(id, BUFFER_FULL));
        assert View() == PodData(old(View()), id, data);
      }
    }

    method Close(id: ConnId)
      requires Valid()
      modifies this`conns, conns.Values
      ensures Valid() && View() == PodClose(old(View()), id) && conns == old(conns) - {id}
      ensures out == old(out) && queued == old(queued)
      ensures id in old(conns) ==> !old(conns)[id].open
    {
      if id in conns {
        var pc := conns[id];
        conns := conns - {id};
        pc.Close();
      }
    }

    /** The dispatch of one message from central.  A CLOSE leaves the connection
        untracked. */
    method Handle(m: Msg, dial: Dial, noForward: Octets)
      requires Valid() && IsUp(m)
      modifies this, conns.Values
      ensures Valid()
      ensures View() == Process(old(View()), m, if m.Open? && m.port !in remoteToLocal then Refused(noForward) else dial)
      ensures m.Close? ==> conns == old(conns) - {m.id} && out == old(out)
    {
      match m
      case Open(id, port) => OpenConn(id, port, dial, noForward);
      case Data(id, data) => DataFor(id, data);
      case Close(id) => Close(id);
    }

    /** The writer goroutine of a connection takes the next chunk. */
    method TakeChunk(id: ConnId) returns (chunk: Octets)
      requires Valid() && id in conns && conns[id].queue != []
      modifies conns[id]
      ensures Valid() && chunk == old(conns[id].queue[0]) && conns[id].queue == old(conns[id].queue[1..])
      ensures View() == old(View()).(conns := old(View()).conns[id := old(conns[id].queue[1..])])
    {
      var pc := conns[id];
      chunk := pc.queue[0];
      pc.queue := pc.queue[1..];
      assert Queues() == old(Queues())[id := old(pc.queue[1..])];
    }

    method ShutdownAll()
      requires Valid()
      modifies this`conns, conns.Values
      ensures Valid() && View() == PodShutdown(old(View())) && conns == map[]
      ensures forall id | id in old(conns) :: !old(conns)[id].open
    {
      var all := conns;
      conns := map[];
      var left := all.Keys;
      while left != {}
        invariant left <= all.Keys && conns == map[]
        invariant forall id | id in left :: all[id].open
        invariant forall id | id in all && id !in left :: !all[id].open
      {
        var id :| id in left;
        var pc := all[id];
        pc.Close();
        left := left - {id};
      }
    }
  }

  // ----- what the pod side does with a log of messages ----------------------

  function Process(p: Pod, m: Msg, dial: Dial): Pod {
    match m
    case Open(id, _) => PodOpen(p, id, dial)
    case Data(id, data) => PodData(p, id, data)
    case Close(id) => PodClose(p, id)
    case _ => p
  }

  /** An OPEN is the first message for its connection. */
  predicate OpensFirst(ms: seq<Msg>) {
    ms == [] || (OpensFirst(ms[..|ms| - 1])
                 && (ms[|ms| - 1].Open? ==> Unannounced(ms[..|ms| - 1], ms[|ms| - 1].id)))
  }

  predicate Unannounced(ms: seq<Msg>, id: ConnId) {
    forall m | m in ms :: !IsFor(m, id)
  }

  lemma {:induction false} OpensFirstAt(ms: seq<Msg>, k: nat)
    requires OpensFirst(ms) && k < |ms| && ms[k].Open?
    ensures Unannounced(ms[..k], ms[k].id)
  {
    if k < |ms| - 1 {
      OpensFirstAt(ms[..|ms| - 1], k);
      assert ms[..|ms| - 1][..k] == ms[..k];
    }
  }

  /** For every connection the bytes queued are a gap-free prefix of those
      received for it, and all of them while the connection is open. */
  ghost predicate QueuedIsPrefix(p: Pod, received: seq<Msg>) {
    forall id: ConnId :: QueuedFor(p, received, id)
  }

  predicate QueuedFor(p: Pod, received: seq<Msg>, id: ConnId) {
    && At(p.queued, id) <= DataOf(received, id)
    && (id in p.conns ==> At(p.queued, id) == DataOf(received, id))
  }

  lemma ProcessKeepsPrefix(p: Pod, received: seq<Msg>, m: Msg, dial: Dial)
    requires QueuedIsPrefix(p, received)
    requires m.Open? ==> Unannounced(received, m.id)
    ensures QueuedIsPrefix(Process(p, m, dial), received + [m])
  {
    forall id: ConnId
      ensures QueuedFor(Process(p, m, dial), received + [m], id)
    {
      assert QueuedFor(p, received, id);
      ProcessKeepsPrefixFor(p, received, m, dial, id);
    }
  }

  lemma ProcessKeepsPrefixFor(p: Pod, received: seq<Msg>, m: Msg, dial: Dial, id: ConnId)
    requires QueuedFor(p, received, id)
    requires m.Open? ==> Unannounced(received, m.id)
    ensures QueuedFor(Process(p, m, dial), received + [m], id)
  {
    DataOfAppend(received, m, id);
    if m.Data? && m.id == id {
      DataKeepsPrefixFor(p, DataOf(received, id), m.data, id);
    } else {
      assert DataOf(received + [m], id) == DataOf(received, id);
      if m.Open? && m.id == id {
        NoDataWithoutMessage(received, id);
      }
    }
  }

  lemma DataKeepsPrefixFor(p: Pod, before: Octets, data: Octets, id: ConnId)
    requires At(p.queued, id) <= before && (id in p.conns ==> At(p.queued, id) == before)
    ensures var q := PodData(p, id, data);
            At(q.queued, id) <= before + data && (id in q.conns ==> At(q.queued, id) == before + data)
  {
    PrefixExtends(At(p.queued, id), before, data);
  }

  lemma PrefixExtends(a: Octets, b: Octets, c: Octets)
    requires a <= b
    ensures a <= b + c
  {
  }

  /** Connections may be closed at any time, by the pod, a full queue or shutdown. */
  lemma ClosingKeepsPrefix(p: Pod, q: Pod, received: seq<Msg>)
    requires QueuedIsPrefix(p, received) && q.queued == p.queued && q.conns.Keys <= p.conns.Keys
    ensures QueuedIsPrefix(q, received)
  {
    forall id: ConnId
      ensures QueuedFor(q, received, id)
    {
      assert QueuedFor(p, received, id);
    }
  }
}
