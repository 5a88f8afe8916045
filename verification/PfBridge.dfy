/** runPortForwardBridge of internal/central/portforward_http.go as loops over its
    streams and its session; PfRelay takes the same steps on values. */
module PfBridge {
  import opened Wire
  import opened ExecFrame
  import opened PfFrame
  import Sessions
  import opened StreamManager
  import PfRelay

  /** The upstream goroutine: the messages it passes to the manager's SendPfOpen,
      SendPfData and SendPfClose until the request body ends. */
  method ForwardUpstream(upstream: ByteReader) returns (calls: seq<Msg>)
    modifies upstream
    ensures calls == ParsedUp(DecodeAll(old(upstream.Contents())).frames)
  {
    calls := [];
    ghost var goal := ParsedUp(DecodeAll(upstream.Contents()).frames);
    while true
      invariant goal == calls + ParsedUp(DecodeAll(upstream.Contents()).frames)
      decreases |upstream.Contents()|
    {
      ghost var before := upstream.Contents();
      var r := upstream.ReadFrame();
      if !r.Got? {
        assert DecodeAll(before).frames == [];
        return;
      }
      var m := ParseUp(r.frame);
      ghost var later := DecodeAll(upstream.Contents()).frames;
      ParsedUpCons(calls, r.frame, later);
      if m.Some? {
        calls := calls + [m.value];
      }
    }
  }

  /** Understanding one more frame moves its message from what is left. */
  lemma ParsedUpCons(calls: seq<Msg>, f: Frame, later: seq<Frame>)
    ensures calls + ParsedUp([f] + later)
         == (if ParseUp(f).Some? then calls + [ParseUp(f).value] else calls) + ParsedUp(later)
  {
    assert ([f] + later)[1..] == later;
  }

  /** What the CLI writes is what the manager is asked to send, in order. */
  lemma UpstreamIsWhatWasWritten(ms: seq<Msg>)
    requires forall m | m in ms :: IsUp(m) && Fits(FrameOf(m))
    ensures ParsedUp(DecodeAll(Encodings(ms)).frames) == ms
  {
    EncodingsIsEncodeAll(ms);
    WireRoundTrip(ms);
  }

  function Chunks(ms: seq<Msg>): (cs: seq<Sessions.Chunk>)
    ensures |cs| == |ms|
  {
    seq(|ms|, i requires 0 <= i < |ms| => Sessions.Forward(ms[i]))
  }

  /** The session object in a state of PfRelay. */
  predicate Shows(s: PfRelay.State, sess: StreamSession)
    reads sess
  {
    && !s.cen.phase.Starting?
    && sess.queue == Chunks(s.cen.queue)
    && (s.cen.phase.Dropped? <==> sess.outcome.Some?)
    && (sess.outcome.Some? ==> sess.outcome.value.message == s.cen.reason)
  }

  /** One pass through the output branch of the select, which is a step of
      PfRelay; the bridge returns with the error when it stops serving. */
  method SelectOutput(sess: StreamSession, w: ByteWriter, ghost s: PfRelay.State) returns (returned: Option<Octets>)
    requires Shows(s, sess) && s.cen.serving && (sess.queue != [] || sess.outcome.Some?)
    modifies sess, w
    ensures var t := PfRelay.Select(s);
            && Shows(t, sess) && (returned.None? <==> t.cen.serving)
            && s.down <= t.down && w.written == old(w.written) + t.down[|s.down|..]
    ensures sess.outcome == old(sess.outcome)
    ensures returned.Some? ==> returned.value == (if s.cen.queue == [] then s.cen.reason else s.cen.queue[0].text)
  {
    var chunk := sess.Receive();
    if chunk.None? {
      var o := sess.Wait();
      if o.message != [] {
        var _ := WriteFrame(w, FrameOf(SessionError(o.message)));
      }
      return Some(o.message);
    }
    ghost var m := s.cen.queue[0];
    assert chunk.value == Sessions.Forward(m) && Chunks(s.cen.queue)[1..] == Chunks(s.cen.queue[1..]);
    var _ := WriteFrame(w, FrameOf(chunk.value.msg));
    return if chunk.value.msg.SessionError? then Some(chunk.value.msg.text) else None;
  }
}
