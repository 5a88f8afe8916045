/** pfConnRegistry of internal/cli/portforward.go: the local connections of a
    port-forward session, their ids, and the loop that reads central's frames. */
module CliPortForward {
  import opened Wire
  import opened ExecFrame
  import opened PfFrame
  import opened AgentPortForward

  /** `delivered` are all bytes written to each local connection. */
  datatype Registry = Registry(
    conns: set<ConnId>, nextId: ConnId, delivered: map<ConnId, Octets>, ready: bool, done: bool, sessionError: Octets)

  const EMPTY := Registry({}, 0, map[], false, false, [])

  /** nextID is a uint32 that wraps around. */
  function Successor(id: ConnId): ConnId {
    (id + 1) % 0x1_0000_0000
  }

  function Accepted(r: Registry): Registry {
    r.(nextId := Successor(r.nextId), conns := r.conns + {Successor(r.nextId)})
  }

  function ConnClosed(r: Registry, id: ConnId): Registry {
    r.(conns := r.conns - {id})
  }

  /** readLoop's treatment of one message; nothing is read after the loop ended. */
  function Received(r: Registry, m: Msg): Registry {
    if r.done then r
    else
      match m
      case Ready => r.(ready := true)
      case Data(id, data) =>
        if id in r.conns then r.(delivered := r.delivered[id := At(r.delivered, id) + data]) else r
      case Close(id) => ConnClosed(r, id)
      case ConnError(id, _) => ConnClosed(r, id)
      case SessionError(text) => r.(sessionError := text, done := true)
      case Open(_, _) => r
  }

  function ReceivedAll(r: Registry, ms: seq<Msg>): Registry
    decreases |ms|
  {
    if ms == [] then r else ReceivedAll(Received(r, ms[0]), ms[1..])
  }

  class PfConnRegistry {
    var conns: set<ConnId>
    var nextId: ConnId
    var delivered: map<ConnId, Octets>
    var ready: bool
    var done: bool
    var sessionError: Octets
    const pw: ByteWriter
    var writing: bool           // the pipe writer is open
    var sockets: set<ConnId>    // accepted connections whose socket is open

    function View(): Registry
      reads this
    {
      Registry(conns, nextId, delivered, ready, done, sessionError)
    }

    /** A listed connection has its socket open, and only those have. */
    predicate Valid()
      reads this
    {
      sockets == conns
    }

    constructor (pw: ByteWriter)
      ensures Valid() && writing && View() == EMPTY && this.pw == pw
    {
      conns, nextId, delivered, ready, done, sessionError := {}, 0, map[], false, false, [];
      this.pw, writing, sockets := pw, true, {};
    }

    /** writeFrame: the pipe refuses everything once it is closed. */
    method WriteMsg(m: Msg)
      modifies pw
      ensures pw.written == old(pw.written) + if writing && Fits(FrameOf(m)) then Encode(FrameOf(m)) else []
    {
      if writing {
        var _ := WriteFrame(pw, FrameOf(m));
      }
    }

    /** The registration in handleConn, and its OPEN frame. */
    method HandleConn(port: U16) returns (id: ConnId)
      requires Valid()
      modifies this, pw
      ensures Valid() && View() == Accepted(old(View())) && id == nextId
      ensures nextId == (old(nextId) + 1) % 0x1_0000_0000 && conns == old(conns) + {id}
      ensures sockets == old(sockets) + {id} && writing == old(writing)
      ensures pw.written == old(pw.written) + if writing then Encode(FrameOf(Open(id, port))) else []
    {
      nextId := Successor(nextId);
      id := nextId;
      conns, sockets := conns + {id}, sockets + {id};
      WriteMsg(Open(id, port));
    }

    /** Whoever takes the connection out of the map closes its socket. */
    method CloseConn(id: ConnId)
      requires Valid()
      modifies this`conns, this`sockets
      ensures Valid() && View() == ConnClosed(old(View()), id) && sockets == old(sockets) - {id}
    {
      var listed := id in conns;
      conns := conns - {id};
      if listed {
        sockets := sockets - {id};
      }
    }

    /** Closes every listed connection's socket, and the pipe. */
    method Shutdown()
      requires Valid()
      modifies this`conns, this`sockets, this`writing
      ensures Valid() && View() == old(View()).(conns := {}) && sockets == {} && !writing
    {
      var left := conns;
      conns := {};
      while left != {}
        invariant left <= old(conns) && sockets == left && conns == {}
      {
        var id :| id in left;
        sockets, left := sockets - {id}, left - {id};
      }
      writing := false;
    }

    /** readLoop: frames until the body ends or a SESSION_ERROR arrives. */
    method ReadLoop(body: ByteReader)
      requires Valid() && !done
      modifies this, body
      ensures Valid() && writing == old(writing)
      ensures View() == ReceivedAll(old(View()), ParsedDown(DecodeAll(old(body.Contents())).frames)).(done := true)
      // which means, without following the loop:
      ensures HasRead(old(View()), UntilError(ParsedDown(DecodeAll(old(body.Contents())).frames)), View())
    {
      ReadLoopMeans(View(), ParsedDown(DecodeAll(body.Contents()).frames));
      ghost var goal := ReceivedAll(View(), ParsedDown(DecodeAll(body.Contents()).frames));
      while !done
        invariant Valid() && writing == old(writing)
        invariant ReceivedAll(View(), ParsedDown(DecodeAll(body.Contents()).frames)) == goal
        decreases !done, |body.Contents()|
      {
        ghost var before := body.Contents();
        var r := body.ReadFrame();
        if !r.Got? {
          done := true;
          return;
        }
        ghost var later := DecodeAll(body.Contents()).frames;
        assert DecodeAll(before).frames == [r.frame] + later;
        assert ParsedDown([r.frame] + later)
            == (match ParseDown(r.frame) case Some(m) => [m] case None => []) + ParsedDown(later) by {
          assert ([r.frame] + later)[1..] == later;
        }
        var m := ParseDown(r.frame);
        if m.Some? {
          assert ([m.value] + ParsedDown(later))[1..] == ParsedDown(later);
          Dispatch(m.value);
        } else {
          assert [] + ParsedDown(later) == ParsedDown(later);
        }
      }
      DoneStaysDone(View(), ParsedDown(DecodeAll(body.Contents()).frames));
    }

    method Dispatch(m: Msg)
      requires Valid() && !done
      modifies this
      ensures Valid() && writing == old(writing)
      ensures View() == Received(old(View()), m)
    {
      match m
      case Ready => ready := true;
      case Data(id, data) =>
        if id in conns {
          delivered := delivered[id := At(delivered, id) + data];
        }
      case Close(id) => CloseConn(id);
      case ConnError(id, _) => CloseConn(id);
      case SessionError(text) => sessionError, done := text, true;
      case Open(_, _) =>
    }
  }

  /** The registry `s` after the loop has read `read`, from `r`: the connections
      that the messages end are no longer listed, the others are, and each listed
      one has got its data from before its end. */
  ghost predicate HasRead(r: Registry, read: seq<Msg>, s: Registry) {
    && s.done && s.nextId == r.nextId
    && s.ready == (r.ready || Ready in read)
    && s.sessionError == (if read != [] && read[|read| - 1].SessionError? then read[|read| - 1].text
                          else r.sessionError)
    && (forall id :: id in s.conns <==>
          id in r.conns && Close(id) !in read && !exists m :: m in read && m.ConnError? && m.id == id)
    && (forall id: ConnId :: At(s.delivered, id) == At(r.delivered, id)
          + if id in r.conns then DataOf(BeforeEnd(read, id), id) else [])
  }

  lemma ReadLoopMeans(r: Registry, ms: seq<Msg>)
    requires !r.done
    ensures HasRead(r, UntilError(ms), ReceivedAll(r, ms).(done := true))
  {
    ReadLoopTells(r, ms);
    var read, s := UntilError(ms), ReceivedAll(r, ms);
    forall id: ConnId
      ensures id in s.conns <==>
                id in r.conns && Close(id) !in read && !exists m :: m in read && m.ConnError? && m.id == id
      ensures At(s.delivered, id) == At(r.delivered, id) + if id in r.conns then DataOf(BeforeEnd(read, id), id) else []
    {
      ReadLoopServes(r, ms, id);
    }
  }

  predicate Tells(r: Registry, read: seq<Msg>, s: Registry) {
    && s.nextId == r.nextId
    && s.ready == (r.ready || Ready in read)
    && s.sessionError == (if read != [] && read[|read| - 1].SessionError? then read[|read| - 1].text else r.sessionError)
  }

  lemma {:induction false} ReadLoopTells(r: Registry, ms: seq<Msg>)
    requires !r.done
    ensures Tells(r, UntilError(ms), ReceivedAll(r, ms))
    decreases |ms|
  {
    if ms == [] {
    } else if ms[0].SessionError? {
      DoneStaysDone(Received(r, ms[0]), ms[1..]);
    } else {
      ReadLoopTells(Received(r, ms[0]), ms[1..]);
      TellsOneMore(r, ms[0], UntilError(ms[1..]), ReceivedAll(r, ms));
    }
  }

  lemma TellsOneMore(r: Registry, m: Msg, later: seq<Msg>, s: Registry)
    requires !r.done && !m.SessionError? && Tells(Received(r, m), later, s)
    ensures Tells(r, [m] + later, s)
  {
  }

  predicate Serves(r: Registry, read: seq<Msg>, s: Registry, id: ConnId) {
    && (id in s.conns <==> id in r.conns && !SaysEnded(read, id))
    && At(s.delivered, id) == At(r.delivered, id) + if id in r.conns then DataOf(BeforeEnd(read, id), id) else []
  }

  lemma {:induction false} ReadLoopServes(r: Registry, ms: seq<Msg>, id: ConnId)
    requires !r.done
    ensures Serves(r, UntilError(ms), ReceivedAll(r, ms), id)
    decreases |ms|
  {
    if ms == [] {
    } else if ms[0].SessionError? {
      DoneStaysDone(Received(r, ms[0]), ms[1..]);
      NoDataWithoutMessage(UntilError(ms), id);
    } else {
      ReadLoopServes(Received(r, ms[0]), ms[1..], id);
      ServesOneMore(r, ms[0], UntilError(ms[1..]), ReceivedAll(r, ms), id);
    }
  }

  lemma ServesOneMore(r: Registry, m: Msg, later: seq<Msg>, s: Registry, id: ConnId)
    requires !r.done && !m.SessionError? && Serves(Received(r, m), later, s, id)
    ensures Serves(r, [m] + later, s, id)
  {
    OneMore(m, later, id);
    OneReceived(r, m, id);
    Associates(At(r.delivered, id), DataIn(m, id), DataOf(BeforeEnd(later, id), id));
  }

  lemma OneReceived(r: Registry, m: Msg, id: ConnId)
    requires !r.done && !m.SessionError?
    ensures id in Received(r, m).conns <==> id in r.conns && !SaysEnded([m], id)
    ensures At(Received(r, m).delivered, id) == At(r.delivered, id) + if id in r.conns then DataIn(m, id) else []
    ensures SaysEnded([m], id) ==> DataIn(m, id) == []
  {
    assert SaysEnded([m], id) <==> m == Close(id) || (m.ConnError? && m.id == id) by {
      assert m in [m];
    }
  }

  lemma OneMore(m: Msg, later: seq<Msg>, id: ConnId)
    ensures var all := [m] + later;
            && (SaysEnded(all, id) <==> SaysEnded([m], id) || SaysEnded(later, id))
            && DataOf(BeforeEnd(all, id), id)
               == if SaysEnded([m], id) then [] else DataIn(m, id) + DataOf(BeforeEnd(later, id), id)
  {
    SaysEndedOneMore(m, later, id);
    BeforeEndOneMore(m, later, id);
    DataOfPrepend(m, BeforeEnd(later, id), id);
  }

  lemma SaysEndedOneMore(m: Msg, later: seq<Msg>, id: ConnId)
    ensures SaysEnded([m] + later, id) <==> SaysEnded([m], id) || SaysEnded(later, id)
  {
    var all := [m] + later;
    assert m in all && m in [m] && forall x | x in later :: x in all;
    assert forall x | x in all :: x == m || x in later;
  }

  lemma BeforeEndOneMore(m: Msg, later: seq<Msg>, id: ConnId)
    ensures BeforeEnd([m] + later, id) == if SaysEnded([m], id) then [] else [m] + BeforeEnd(later, id)
  {
    assert ([m] + later)[0] == m && ([m] + later)[1..] == later;
  }

  lemma {:induction false} DoneStaysDone(r: Registry, ms: seq<Msg>)
    requires r.done
    ensures ReceivedAll(r, ms) == r
    decreases |ms|
  {
    if ms != [] {
      DoneStaysDone(r, ms[1..]);
    }
  }

  // ----- what reaches a local connection ------------------------------------

  /** For every connection the bytes delivered are a gap-free prefix of those
      received for it, and all of them while it is open and the loop runs. */
  ghost predicate DeliveredIsPrefix(r: Registry, received: seq<Msg>) {
    forall id: ConnId :: DeliveredFor(r, received, id)
  }

  predicate DeliveredFor(r: Registry, received: seq<Msg>, id: ConnId) {
    && At(r.delivered, id) <= DataOf(received, id)
    && (id in r.conns && !r.done ==> At(r.delivered, id) == DataOf(received, id))
  }

  lemma ReceivedKeepsPrefix(r: Registry, received: seq<Msg>, m: Msg)
    requires DeliveredIsPrefix(r, received)
    ensures DeliveredIsPrefix(Received(r, m), received + [m])
  {
    forall id: ConnId
      ensures DeliveredFor(Received(r, m), received + [m], id)
    {
      assert DeliveredFor(r, received, id);
      ReceivedKeepsPrefixFor(r, received, m, id);
    }
  }

  lemma ReceivedKeepsPrefixFor(r: Registry, received: seq<Msg>, m: Msg, id: ConnId)
    requires DeliveredFor(r, received, id)
    ensures DeliveredFor(Received(r, m), received + [m], id)
  {
    DataOfAppend(received, m, id);
    PrefixExtends(At(r.delivered, id), DataOf(received, id), DataIn(m, id));
  }

  /** A new connection starts clean if nothing was received for its id before. */
  lemma AcceptedKeepsPrefix(r: Registry, received: seq<Msg>)
    requires DeliveredIsPrefix(r, received)
    requires forall m | m in received :: !IsFor(m, Successor(r.nextId))
    ensures DeliveredIsPrefix(Accepted(r), received)
  {
    var s := Accepted(r);
    NoDataWithoutMessage(received, s.nextId);
    forall id: ConnId
      ensures DeliveredFor(s, received, id)
    {
      assert DeliveredFor(r, received, id);
    }
  }

  lemma ClosedKeepsPrefix(r: Registry, received: seq<Msg>, conns: set<ConnId>)
    requires DeliveredIsPrefix(r, received) && conns <= r.conns
    ensures DeliveredIsPrefix(r.(conns := conns), received)
  {
    var s := r.(conns := conns);
    forall id: ConnId
      ensures DeliveredFor(s, received, id)
    {
      assert DeliveredFor(r, received, id);
    }
  }
}
