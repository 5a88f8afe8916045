/** The output half of runExecBridge (internal/central/exec_http.go): chunks that
    Route puts into Session.Output leave as frames on the HTTP response, and the
    session's outcome as a final EXIT frame; what Route sees before the session is
    in the map is lost.  Route and the calls that end a
    session are single steps here; they interleave freely with the bridge. */
module ExecBridge {
  import opened Wire
  import opened ExecFrame
  import opened Sessions
  import opened StreamManager
  import opened ExecClient

  /** How the session came to its end. */
  datatype Cause = Exited(outcome: Outcome) | Overflowed(lost: Chunk) | Cancelled | AgentLost

  function OutcomeOf(c: Cause): Outcome {
    match c
    case Exited(o) => o
    case Overflowed(_) => CANCELED
    case Cancelled => CANCELED
    case AgentLost => DISCONNECTED
  }

  /** The session from the moment its start was sent.  `inserted`: it has entered
      the map, and its bridge runs.  `early` are the chunks that were routed before
      that, and `missedExit` tells that the agent's exit was; both are dropped.
      `offered` are the chunks routed while it was in the map, `taken` those the
      bridge has received, `down` the response body.  The bridge has returned once
      `returned` is set; `clientLeft` says why. */
  datatype ExecRelay = ExecRelay(
    inserted: bool, early: seq<Chunk>, missedExit: bool,
    queue: seq<Chunk>, cause: Option<Cause>, offered: seq<Chunk>, taken: seq<Chunk>,
    down: Octets, returned: Option<Outcome>, clientLeft: bool)

  const START := ExecRelay(false, [], false, [], None, [], [], [], None, false)

  datatype Label = Insert | AgentOutput(chunk: Chunk) | End(cause: Cause) | Select | ClientGone

  function FrameOfChunk(c: Chunk): Frame {
    if c.Forward? then Frame(STDOUT, [])
    else Frame(if c.stdout then STDOUT else STDERR, c.data)
  }

  function ExitFrame(o: Outcome): Frame {
    Frame(EXIT, EncodeExit(o.code, o.message))
  }

  /** execframe.Encode, whose error the bridge ignores. */
  function Written(f: Frame): Octets {
    if Fits(f) then Encode(f) else []
  }

  /** Route of an output chunk: a full channel cancels the session. */
  function Offered(r: ExecRelay, chunk: Chunk): ExecRelay {
    if r.cause.Some? || chunk.Forward? then r
    else if !r.inserted then r.(early := r.early + [chunk])
    else if |r.queue| < OUTPUT_BUFFER then r.(queue := r.queue + [chunk], offered := r.offered + [chunk])
    else r.(cause := Some(Overflowed(chunk)), offered := r.offered + [chunk])
  }

  /** Exit, Cancel or disconnect; the first one decides.  None of them finds a
      session that is not in the map yet. */
  function EndedBy(r: ExecRelay, cause: Cause): ExecRelay {
    if r.cause.Some? || cause.Overflowed? then r
    else if !r.inserted then r.(missedExit := r.missedExit || cause.Exited?)
    else r.(cause := Some(cause))
  }

  /** The bridge's select takes the output branch, once it can. */
  function Selected(r: ExecRelay): ExecRelay {
    if r.returned.Some? || !r.inserted then r
    else if r.queue != [] then
      r.(queue := r.queue[1..], taken := r.taken + [r.queue[0]], down := r.down + Written(FrameOfChunk(r.queue[0])))
    else if r.cause.Some? then
      var o := OutcomeOf(r.cause.value);
      r.(down := r.down + Written(ExitFrame(o)), returned := Some(o))
    else r
  }

  /** The bridge's select takes the ctx.Done branch. */
  function Abandoned(r: ExecRelay): ExecRelay {
    if r.returned.Some? || !r.inserted then r
    else
      var e := EndedBy(r, Cancelled);
      e.(returned := Some(OutcomeOf(e.cause.value)), clientLeft := true)
  }

  function Step(r: ExecRelay, l: Label): ExecRelay {
    match l
    case Insert => r.(inserted := true)
    case AgentOutput(chunk) => Offered(r, chunk)
    case End(cause) => EndedBy(r, cause)
    case Select => Selected(r)
    case ClientGone => Abandoned(r)
  }

  function Run(r: ExecRelay, labels: seq<Label>): ExecRelay
    decreases |labels|
  {
    if labels == [] then r else Run(Step(r, labels[0]), labels[1..])
  }

  // ----- the loop itself ---------------------------------------------------

  /** The state of the objects, apart from the history. */
  predicate Shows(r: ExecRelay, sess: StreamSession, w: ByteWriter)
    reads sess, w
  {
    && r.inserted && sess.kind.Exec?
    && sess.queue == r.queue
    && sess.outcome == (if r.cause.Some? then Some(OutcomeOf(r.cause.value)) else None)
    && w.written == r.down
  }

  /** runExecBridge under a given schedule: what the manager does to the session
      happens between two selects.  `start` gives the history so far. */
  method RunExecBridge(sess: StreamSession, w: ByteWriter, schedule: seq<Label>, ghost start: ExecRelay)
    returns (returned: Option<Outcome>, ghost end: ExecRelay)
    requires Shows(start, sess, w) && start.returned.None?
    modifies sess, w
    ensures end == Run(start, schedule) && Shows(end, sess, w)
    ensures returned == end.returned
  {
    returned, end := None, start;
    var i := 0;
    while i < |schedule|
      invariant i <= |schedule|
      invariant Shows(end, sess, w) && returned == end.returned
      invariant Run(end, schedule[i..]) == Run(start, schedule)
    {
      var l := schedule[i];
      ghost var next := Step(end, l);
      assert schedule[i..][1..] == schedule[i + 1..];
      match l {
        case Insert =>
        case AgentOutput(chunk) =>
          Deliver(sess, chunk);
        case End(cause) =>
          if !cause.Overflowed? {
            sess.Close(OutcomeOf(cause));
          }
        case ClientGone =>
          if returned.None? {
            sess.Close(CANCELED);
            var o := sess.Wait();
            returned := Some(o);
          }
        case Select =>
          if returned.None? && (sess.queue != [] || sess.outcome.Some?) {
            returned := SelectOutput(sess, w);
          }
      }
      end, i := next, i + 1;
    }
  }

  /** Route's send, or the cancel that replaces it. */
  method Deliver(sess: StreamSession, chunk: Chunk)
    requires sess.kind.Exec?
    modifies sess
    ensures sess.queue == if old(sess.outcome).None? && chunk.Output? && |old(sess.queue)| < OUTPUT_BUFFER
                          then old(sess.queue) + [chunk] else old(sess.queue)
    ensures sess.outcome == if old(sess.outcome).None? && chunk.Output? && |old(sess.queue)| >= OUTPUT_BUFFER
                            then Some(CANCELED) else old(sess.outcome)
  {
    if sess.outcome.None? && chunk.Output? {
      var delivered := sess.TrySend(chunk);
      if !delivered {
        sess.Close(CANCELED);
      }
    }
  }

  /** One pass through the output branch of the select. */
  method SelectOutput(sess: StreamSession, w: ByteWriter) returns (returned: Option<Outcome>)
    requires sess.queue != [] || sess.outcome.Some?
    modifies sess, w
    ensures sess.outcome == old(sess.outcome)
    ensures old(sess.queue) != [] ==>
              && returned == None && sess.queue == old(sess.queue)[1..]
              && w.written == old(w.written) + Written(FrameOfChunk(old(sess.queue)[0]))
    // the frame that this is, for a chunk of at most 1 MiB and a message that fits
    ensures old(sess.queue) != [] && old(sess.queue)[0].Output? && |old(sess.queue)[0].data| <= 0x10_0000 ==>
              w.written == old(w.written)
                + Encode(Frame(if old(sess.queue)[0].stdout then 0x10 else 0x11, old(sess.queue)[0].data))
    ensures old(sess.queue) == [] && 4 + |old(sess.outcome).value.message| <= 0x10_0000 ==>
              w.written == old(w.written)
                + Encode(Frame(0x12, EncodeExit(old(sess.outcome).value.code, old(sess.outcome).value.message)))
    ensures old(sess.queue) == [] ==>
              && returned == old(sess.outcome) && sess.queue == []
              && w.written == old(w.written) + Written(ExitFrame(old(sess.outcome).value))
  {
    var chunk := sess.Receive();
    if chunk.None? {
      var o := sess.Wait();
      var _ := WriteFrame(w, ExitFrame(o));
      return Some(o);
    }
    var _ := WriteFrame(w, FrameOfChunk(chunk.value));
    return None;
  }

  // ----- the input half ----------------------------------------------------

  /** What the upstream goroutine passes to SendStdin and SendResize. */
  datatype Input = Typed(data: Octets) | Resized(rows: U16, cols: U16)

  function FrameOfInput(i: Input): Frame {
    match i
    case Typed(data) => Frame(STDIN, data)
    case Resized(rows, cols) => Frame(RESIZE, EncodeResize(rows, cols))
  }

  lemma InputLayout(i: Input)
    ensures var f := FrameOfInput(i);
            match i
            case Typed(data) => f == Frame(0x00, data)
            case Resized(rows, cols) =>
              && f.kind == 0x01 && |f.payload| == 4
              && f.payload[0] as int * 0x100 + f.payload[1] == rows && f.payload[2] as int * 0x100 + f.payload[3] == cols
  {
    if i.Resized? {
      ResizeLayout(i.rows, i.cols);
    }
  }

  /** Other frames, and a RESIZE that is not one, are skipped. */
  function InputOf(f: Frame): seq<Input> {
    if f.kind == STDIN then [Typed(f.payload)]
    else if f.kind == RESIZE then
      match DecodeResize(f.payload)
      case Some((rows, cols)) => [Resized(rows, cols)]
      case None => []
    else []
  }

  function InputsOf(fs: seq<Frame>): seq<Input> {
    if fs == [] then [] else InputOf(fs[0]) + InputsOf(fs[1..])
  }

  method ForwardInput(upstream: ByteReader) returns (calls: seq<Input>)
    modifies upstream
    ensures calls == InputsOf(DecodeAll(old(upstream.Contents())).frames)
  {
    calls := [];
    ghost var goal := InputsOf(DecodeAll(upstream.Contents()).frames);
    while true
      invariant goal == calls + InputsOf(DecodeAll(upstream.Contents()).frames)
      decreases |upstream.Contents()|
    {
      ghost var before := upstream.Contents();
      var r := upstream.ReadFrame();
      if !r.Got? {
        assert DecodeAll(before).frames == [];
        return;
      }
      NextInput(calls, r.frame, DecodeAll(upstream.Contents()).frames);
      var understood := [];
      if r.frame.kind == STDIN {
        understood := [Typed(r.frame.payload)];
      } else if r.frame.kind == RESIZE {
        var size := DecodeResize(r.frame.payload);
        if size.Some? {
          understood := [Resized(size.value.0, size.value.1)];
        }
      }
      assert understood == InputOf(r.frame);
      calls := calls + understood;
    }
  }

  lemma NextInput(calls: seq<Input>, f: Frame, later: seq<Frame>)
    ensures calls + InputsOf([f] + later) == (calls + InputOf(f)) + InputsOf(later)
  {
    assert ([f] + later)[1..] == later;
  }

  /** Whatever the client sends arrives as just that, in order. */
  lemma {:induction false} InputArrives(inputs: seq<Input>)
    requires forall i | i in inputs :: Fits(FrameOfInput(i))
    ensures InputsOf(DecodeAll(EncodeAll(InputFrames(inputs))).frames) == inputs
  {
    RoundTrip(InputFrames(inputs));
    InputsInvertFrames(inputs);
  }

  function InputFrames(inputs: seq<Input>): (fs: seq<Frame>)
    requires forall i | i in inputs :: Fits(FrameOfInput(i))
    ensures forall f | f in fs :: Fits(f)
  {
    if inputs == [] then [] else [FrameOfInput(inputs[0])] + InputFrames(inputs[1..])
  }

  lemma {:induction false} InputsInvertFrames(inputs: seq<Input>)
    requires forall i | i in inputs :: Fits(FrameOfInput(i))
    ensures InputsOf(InputFrames(inputs)) == inputs
  {
    if inputs != [] {
      InputInvertsFrame(inputs[0]);
      InputsInvertFrames(inputs[1..]);
    }
  }

  lemma InputInvertsFrame(i: Input)
    ensures InputOf(FrameOfInput(i)) == [i]
  {
    if i.Resized? {
      ResizeCodec(EncodeResize(i.rows, i.cols), i.rows, i.cols);
    }
  }

  // ----- invariant ---------------------------------------------------------

  function ChunkFrames(cs: seq<Chunk>): (fs: seq<Frame>)
    ensures |fs| == |cs|
  {
    seq(|cs|, i requires 0 <= i < |cs| => FrameOfChunk(cs[i]))
  }

  /** The frames among `fs` that can be written. */
  function Fitting(fs: seq<Frame>): (r: seq<Frame>)
    ensures forall f | f in r :: Fits(f)
  {
    if fs == [] then []
    else
      var init := Fitting(fs[..|fs| - 1]);
      if Fits(fs[|fs| - 1]) then init + [fs[|fs| - 1]] else init
  }

  lemma FittingAppend(fs: seq<Frame>, f: Frame)
    ensures Fitting(fs + [f]) == Fitting(fs) + if Fits(f) then [f] else []
  {
    assert (fs + [f])[..|fs|] == fs;
  }

  lemma {:induction false} FittingIsAllExactly(fs: seq<Frame>)
    ensures |Fitting(fs)| <= |fs| && (|Fitting(fs)| == |fs| ==> Fitting(fs) == fs)
    ensures Fitting(fs) == fs <==> forall f | f in fs :: Fits(f)
  {
    if fs != [] {
      var n := |fs| - 1;
      FittingIsAllExactly(fs[..n]);
      assert fs == fs[..n] + [fs[n]];
      FittingAppend(fs[..n], fs[n]);
    }
  }

  /** The frames the bridge has tried to write. */
  function Attempted(r: ExecRelay): seq<Frame> {
    ChunkFrames(r.taken) + if r.returned.Some? && !r.clientLeft then [ExitFrame(r.returned.value)] else []
  }

  predicate Inv(r: ExecRelay) {
    && r.down == EncodeAll(Fitting(Attempted(r)))
    && |r.queue| <= OUTPUT_BUFFER
    && r.offered == r.taken + r.queue + (if r.cause.Some? && r.cause.value.Overflowed? then [r.cause.value.lost] else [])
    && (r.returned.Some? ==> r.cause.Some? && r.returned == Some(OutcomeOf(r.cause.value)))
    && (r.returned.Some? && !r.clientLeft ==> r.queue == [])
    && (r.returned.None? ==> !r.clientLeft)
    && (!r.inserted ==> r.queue == [] && r.cause.None? && r.offered == [] && r.taken == [] && r.returned.None?)
  }

  lemma WrittenExtends(fs: seq<Frame>, f: Frame)
    ensures EncodeAll(Fitting(fs + [f])) == EncodeAll(Fitting(fs)) + Written(f)
  {
    FittingAppend(fs, f);
    if Fits(f) {
      EncodeAllAppend(Fitting(fs), f);
    } else {
      assert EncodeAll(Fitting(fs)) + [] == EncodeAll(Fitting(fs));
      assert Fitting(fs) + [] == Fitting(fs);
    }
  }

  lemma SelectedKeepsInv(r: ExecRelay)
    requires Inv(r)
    ensures Inv(Selected(r))
  {
    if r.returned.Some? || !r.inserted {
    } else if r.queue != [] {
      RelayedKeepsInv(r);
    } else if r.cause.Some? {
      ExitedKeepsInv(r);
    }
  }

  lemma RelayedKeepsInv(r: ExecRelay)
    requires Inv(r) && r.inserted && r.returned.None? && r.queue != []
    ensures Inv(Selected(r))
  {
    var f := FrameOfChunk(r.queue[0]);
    var taken := r.taken + [r.queue[0]];
    NothingAdded(ChunkFrames(r.taken));
    NothingAdded(ChunkFrames(taken));
    assert ChunkFrames(taken) == ChunkFrames(r.taken) + [f];
    WrittenExtends(ChunkFrames(r.taken), f);
    TakesNext(r.taken, r.queue);
  }

  lemma ExitedKeepsInv(r: ExecRelay)
    requires Inv(r) && r.inserted && r.returned.None? && r.queue == [] && r.cause.Some?
    ensures Inv(Selected(r))
  {
    NothingAdded(ChunkFrames(r.taken));
    WrittenExtends(ChunkFrames(r.taken), ExitFrame(OutcomeOf(r.cause.value)));
  }

  lemma NothingAdded<T>(fs: seq<T>)
    ensures fs + [] == fs
  {
  }

  lemma TakesNext<T>(taken: seq<T>, queue: seq<T>)
    requires queue != []
    ensures (taken + [queue[0]]) + queue[1..] == taken + queue
  {
  }

  lemma OfferedKeepsInv(r: ExecRelay, chunk: Chunk)
    requires Inv(r)
    ensures Inv(Offered(r, chunk))
  {
    var o := Offered(r, chunk);
    assert o.down == r.down && o.taken == r.taken && o.returned == r.returned && o.clientLeft == r.clientLeft;
    assert Attempted(o) == Attempted(r);
    if r.cause.None? && r.inserted && chunk.Output? {
      OfferAppends(r.taken, r.queue, chunk);
    }
  }

  lemma OfferAppends(taken: seq<Chunk>, queue: seq<Chunk>, chunk: Chunk)
    ensures taken + queue + [] == taken + queue
    ensures taken + (queue + [chunk]) + [] == (taken + queue) + [chunk]
  {
  }

  lemma EndedKeepsInv(r: ExecRelay, cause: Cause)
    requires Inv(r)
    ensures Inv(EndedBy(r, cause))
  {
  }

  lemma AbandonedKeepsInv(r: ExecRelay)
    requires Inv(r)
    ensures Inv(Abandoned(r))
  {
    EndedKeepsInv(r, Cancelled);
  }

  lemma StepKeepsInv(r: ExecRelay, l: Label)
    requires Inv(r)
    ensures Inv(Step(r, l))
  {
    match l
    case Insert =>
      assert Attempted(Step(r, l)) == Attempted(r);
    case AgentOutput(chunk) => OfferedKeepsInv(r, chunk);
    case End(cause) => EndedKeepsInv(r, cause);
    case Select => SelectedKeepsInv(r);
    case ClientGone => AbandonedKeepsInv(r);
  }

  lemma {:induction false} RunKeepsInv(r: ExecRelay, labels: seq<Label>)
    requires Inv(r)
    ensures Inv(Run(r, labels))
    decreases |labels|
  {
    if labels != [] {
      StepKeepsInv(r, labels[0]);
      RunKeepsInv(Step(r, labels[0]), labels[1..]);
    }
  }

  lemma StartInv()
    ensures Inv(START)
  {
    assert Attempted(START) == [];
  }

  // ----- what the client sees ------------------------------------------------

  predicate AreOutput(cs: seq<Chunk>) {
    forall c | c in cs :: c.Output?
  }

  lemma {:induction false} OnlyOutputArrives(r: ExecRelay, labels: seq<Label>)
    requires AreOutput(r.early) && AreOutput(r.offered)
    ensures AreOutput(Run(r, labels).early) && AreOutput(Run(r, labels).offered)
    decreases |labels|
  {
    if labels != [] {
      OnlyOutputArrives(Step(r, labels[0]), labels[1..]);
    }
  }

  /** The frames of the chunks that fit, as the client's loop shows them. */
  lemma {:induction false} ChunksAreShown(cs: seq<Chunk>)
    requires AreOutput(cs)
    ensures var fs := Fitting(ChunkFrames(cs));
            && (forall f | f in fs :: f.kind != EXIT)
            && Shown(fs).end == None && |Shown(fs).shown| == |fs| <= |cs|
            && (Shown(fs).shown == cs <==> forall c | c in cs :: c.Output? && |c.data| <= 0x10_0000)
  {
    if cs != [] {
      var n := |cs| - 1;
      var init, f := Fitting(ChunkFrames(cs[..n])), FrameOfChunk(cs[n]);
      assert forall c | c in cs[..n] :: c in cs;
      ChunksAreShown(cs[..n]);
      LastFrame(cs);
      LastChunkShown(init, cs, f);
    }
  }

  lemma LastFrame(cs: seq<Chunk>)
    requires cs != []
    ensures var n := |cs| - 1;
            Fitting(ChunkFrames(cs))
            == Fitting(ChunkFrames(cs[..n])) + if Fits(FrameOfChunk(cs[n])) then [FrameOfChunk(cs[n])] else []
  {
    var n := |cs| - 1;
    assert ChunkFrames(cs) == ChunkFrames(cs[..n]) + [FrameOfChunk(cs[n])];
    FittingAppend(ChunkFrames(cs[..n]), FrameOfChunk(cs[n]));
  }

  lemma LastChunkShown(init: seq<Frame>, cs: seq<Chunk>, f: Frame)
    requires cs != [] && AreOutput(cs) && f == FrameOfChunk(cs[|cs| - 1])
    requires (forall x | x in init :: x.kind != EXIT) && |Shown(init).shown| == |init| <= |cs| - 1
    requires Shown(init).shown == cs[..|cs| - 1] <==> forall c | c in cs[..|cs| - 1] :: c.Output? && |c.data| <= 0x10_0000
    ensures var fs := init + if Fits(f) then [f] else [];
            && (forall x | x in fs :: x.kind != EXIT)
            && Shown(fs).end == None && |Shown(fs).shown| == |fs| <= |cs|
            && (Shown(fs).shown == cs <==> forall c | c in cs :: c.Output? && |c.data| <= 0x10_0000)
  {
    var n := |cs| - 1;
    assert cs == cs[..n] + [cs[n]];
    ShownAppend(init, f);
    if Fits(f) {
      assert cs[n] in cs && ChunkShown(f) == [cs[n]];
      assert |init| == n ==> (Shown(init).shown + [cs[n]])[..n] == Shown(init).shown;
    } else {
      assert init + [] == init;
    }
  }

  /** What a client has seen of a bridge that is in this state. */
  lemma ClientSees(r: ExecRelay)
    requires Inv(r) && AreOutput(r.offered) && !r.clientLeft
    ensures var fs := Fitting(ChunkFrames(r.taken));
            && DecodeAll(r.down).end == Eof
            && (r.returned.None? ==> Seen(r.down) == Shown(fs))
            && (r.returned.Some? ==>
                  Seen(r.down) == Screen(Shown(fs).shown,
                                         if Fits(ExitFrame(r.returned.value)) then r.returned else None))
  {
    var fs := Fitting(ChunkFrames(r.taken));
    RoundTrip(Fitting(Attempted(r)));
    assert forall c | c in r.taken :: c in r.offered;
    ChunksAreShown(r.taken);
    if r.returned.None? {
      NothingAdded(ChunkFrames(r.taken));
    } else {
      var exit := ExitFrame(r.returned.value);
      FittingAppend(ChunkFrames(r.taken), exit);
      ShownAppend(fs, exit);
      ExitCodec(exit.payload, r.returned.value.code, r.returned.value.message);
    }
  }

  // ----- main results ------------------------------------------------------

  /** The chunks the agent sent until the session ended. */
  function AgentSent(r: ExecRelay): seq<Chunk> {
    r.early + r.offered
  }

  /** The chunks of a schedule, in the order in which Route gets them. */
  function OutputsOf(labels: seq<Label>): seq<Chunk> {
    if labels == [] then []
    else (if labels[0].AgentOutput? && labels[0].chunk.Output? then [labels[0].chunk] else []) + OutputsOf(labels[1..])
  }

  /** Early are the chunks that were routed before the insert. */
  lemma {:induction false} EarlyIsBeforeInsert(r: ExecRelay, labels: seq<Label>)
    requires !r.inserted && r.cause.None? && Insert !in labels
    ensures var t := Run(r, labels);
            t.early == r.early + OutputsOf(labels) && t.offered == r.offered && !t.inserted && t.cause.None?
    decreases |labels|
  {
    if labels != [] {
      assert labels[0] in labels && forall l | l in labels[1..] :: l in labels;
      EarlyIsBeforeInsert(Step(r, labels[0]), labels[1..]);
      OutputsAssociate(r.early, labels);
    }
  }

  lemma OutputsAssociate(cs: seq<Chunk>, labels: seq<Label>)
    requires labels != []
    ensures cs + OutputsOf(labels)
         == (if labels[0].AgentOutput? && labels[0].chunk.Output? then cs + [labels[0].chunk] else cs) + OutputsOf(labels[1..])
  {
  }

  /** Offered are those after it, up to the end of the session. */
  lemma {:induction false} OfferedIsAfterInsert(r: ExecRelay, labels: seq<Label>)
    requires r.inserted
    ensures var t := Run(r, labels);
            && t.inserted && t.early == r.early && t.offered <= r.offered + OutputsOf(labels)
            && (t.cause.None? ==> t.offered == r.offered + OutputsOf(labels))
    decreases |labels|
  {
    if labels != [] {
      OfferedIsAfterInsert(Step(r, labels[0]), labels[1..]);
      OutputsAssociate(r.offered, labels);
      if Step(r, labels[0]).cause.Some? {
        EndedOffersNoMore(Step(r, labels[0]), labels[1..]);
      }
    }
  }

  lemma {:induction false} EndedOffersNoMore(r: ExecRelay, labels: seq<Label>)
    requires r.cause.Some?
    ensures Run(r, labels).offered == r.offered && Run(r, labels).cause == r.cause
    decreases |labels|
  {
    if labels != [] {
      EndedOffersNoMore(Step(r, labels[0]), labels[1..]);
    }
  }

  /** A session ends because of a call that the schedule has. */
  lemma {:induction false} EndHasCause(r: ExecRelay, labels: seq<Label>)
    requires r.cause.None?
    ensures var t := Run(r, labels);
            t.cause.Some? ==>
              match t.cause.value
              case Overflowed(lost) => AgentOutput(lost) in labels
              case Cancelled => End(Cancelled) in labels || ClientGone in labels
              case other => End(other) in labels
    decreases |labels|
  {
    if labels != [] {
      var s := Step(r, labels[0]);
      assert labels[0] in labels && forall l | l in labels[1..] :: l in labels;
      if s.cause.None? {
        EndHasCause(s, labels[1..]);
      } else {
        EndedOffersNoMore(s, labels[1..]);
      }
    }
  }

  /** While the bridge runs, the client has seen a gap-free, in-order run of the
      chunks the agent sent, starting with the first one that came after the insert,
      and no end; its loop writes just their bytes. */
  lemma ReceivedIsPrefix(labels: seq<Label>)
    requires forall c | c in Run(START, labels).offered :: c.Output? && |c.data| <= 0x10_0000
    requires Run(START, labels).returned.None?
    ensures var r := Run(START, labels);
            && Seen(r.down) == Screen(r.taken, None) && DecodeAll(r.down).end == Eof
            && r.taken <= r.offered == AgentSent(r)[|r.early|..]
  {
    StartInv();
    RunKeepsInv(START, labels);
    OnlyOutputArrives(START, labels);
    var r := Run(START, labels);
    ClientSees(r);
    assert forall c | c in r.taken :: c in r.offered;
    ChunksAreShown(r.taken);
  }

  /** The chunks that a client must get when it stays to the end. */
  function ToDeliver(r: ExecRelay): seq<Chunk>
    requires r.cause.Some?
  {
    if r.cause.value.Overflowed? && r.offered != [] then r.offered[..|r.offered| - 1] else r.offered
  }

  /** A client that stays sees all chunks from the insert to the end and then the
      session's outcome - after an overflow all but the chunk that did not fit into
      the channel, and (-1, "canceled") - exactly if they all fit into frames. */
  lemma FinalConversation(labels: seq<Label>)
    requires Run(START, labels).returned.Some? && !Run(START, labels).clientLeft
    ensures var r := Run(START, labels);
            && r.cause.Some?
            && var o := (match r.cause.value
                         case Exited(o) => o
                         case Overflowed(_) => Outcome(-1, Text("canceled"))
                         case Cancelled => Outcome(-1, Text("canceled"))
                         case AgentLost => Outcome(-1, Text("agent disconnected")));
            && r.returned == Some(o)
            && (Seen(r.down) == Screen(ToDeliver(r), Some(o))
                <==> 4 + |o.message| <= 0x10_0000 && forall c | c in ToDeliver(r) :: c.Output? && |c.data| <= 0x10_0000)
  {
    StartInv();
    RunKeepsInv(START, labels);
    OnlyOutputArrives(START, labels);
    var r := Run(START, labels);
    ClientSees(r);
    DeliverIsTaken(r);
    ChunksAreShown(r.taken);
  }

  /** It misses nothing that the agent sent exactly if moreover every chunk came
      after the insert. */
  lemma NothingMissedExactly(labels: seq<Label>)
    requires Run(START, labels).returned.Some? && !Run(START, labels).clientLeft
    ensures var r := Run(START, labels);
            && r.cause.Some?
            && (Seen(r.down) == Screen(r.early + ToDeliver(r), r.returned)
                <==> && r.early == [] && 4 + |r.returned.value.message| <= 0x10_0000
                     && forall c | c in ToDeliver(r) :: c.Output? && |c.data| <= 0x10_0000)
  {
    FinalConversation(labels);
    StartInv();
    RunKeepsInv(START, labels);
    OnlyOutputArrives(START, labels);
    var r := Run(START, labels);
    ClientSees(r);
    DeliverIsTaken(r);
    ChunksAreShown(r.taken);
    if r.early == [] {
      assert r.early + ToDeliver(r) == ToDeliver(r);
    } else {
      assert |r.early + ToDeliver(r)| > |Seen(r.down).shown|;
    }
  }

  lemma DeliverIsTaken(r: ExecRelay)
    requires Inv(r) && r.returned.Some? && !r.clientLeft
    ensures ToDeliver(r) == r.taken
    ensures forall c | c in r.taken :: c in r.offered
  {
    assert r.taken + r.queue == r.taken;
    if r.cause.value.Overflowed? {
      assert r.offered == r.taken + [r.cause.value.lost];
      assert r.offered[..|r.offered| - 1] == r.taken;
    } else {
      assert r.offered == r.taken;
    }
  }

  /** Chunks do get lost: one that is routed before the insert never shows up. */
  lemma EarlyChunkIsLost(chunk: Chunk, o: Outcome)
    requires chunk.Output?
    ensures var r := Run(START, [AgentOutput(chunk), Insert, End(Exited(o)), Select]);
            && AgentSent(r) == [chunk] && r.taken == []
            && r.returned == Some(o) && r.down == Written(ExitFrame(o))
  {
    var all := [AgentOutput(chunk), Insert, End(Exited(o)), Select];
    var a := Step(START, AgentOutput(chunk));
    var b := Step(a, Insert);
    var c := Step(b, End(Exited(o)));
    assert all[1..] == [Insert, End(Exited(o)), Select];
    assert all[1..][1..] == [End(Exited(o)), Select] && [End(Exited(o)), Select][1..] == [Select] && [Select][1..] == [];
    assert Run(c, [Select]) == Run(Step(c, Select), []) == Step(c, Select);
    assert Run(b, [End(Exited(o)), Select]) == Run(c, [Select]);
    assert Run(a, all[1..]) == Run(b, all[1..][1..]);
    assert [] + Written(ExitFrame(o)) == Written(ExitFrame(o));
  }

  /** The loss need not show in the frames received so far: a repeated chunk makes
      them a prefix of what the agent sent all the same. */
  lemma RepeatedChunkHidesLoss(chunk: Chunk)
    requires chunk.Output?
    ensures var r := Run(START, [AgentOutput(chunk), Insert, AgentOutput(chunk), Select]);
            r.early == [chunk] && r.taken == [chunk] && r.taken <= AgentSent(r)
  {
    var all := [AgentOutput(chunk), Insert, AgentOutput(chunk), Select];
    var a := Step(START, AgentOutput(chunk));
    var b := Step(a, Insert);
    var c := Step(b, AgentOutput(chunk));
    var d := Step(c, Select);
    assert all[1..] == [Insert, AgentOutput(chunk), Select];
    assert all[1..][1..] == [AgentOutput(chunk), Select];
    assert [AgentOutput(chunk), Select][1..] == [Select] && [Select][1..] == [];
    assert Run(c, [Select]) == Run(d, []) == d;
    assert Run(b, [AgentOutput(chunk), Select]) == Run(c, [Select]);
    assert Run(a, all[1..]) == Run(b, all[1..][1..]);
    assert [] + [chunk] == [chunk] && c.queue[0] == chunk;
  }

  // ----- a lost exit --------------------------------------------------------

  predicate IsExit(l: Label) {
    l.End? && l.cause.Exited?
  }

  /** Ends that do not come from the agent's session: a cancel, the loss of the
      agent, or the client leaving. */
  predicate IsOutside(l: Label) {
    l.ClientGone? || (l.End? && (l.cause.Cancelled? || l.cause.AgentLost?))
  }

  predicate WaitsOn(r: ExecRelay) {
    && r.missedExit && r.offered == [] && r.queue == [] && r.taken == []
    && (r.cause.Some? ==> r.cause.value.Cancelled? || r.cause.value.AgentLost?)
  }

  lemma {:induction false} SilentRunWaits(r: ExecRelay, labels: seq<Label>)
    requires WaitsOn(r) && forall l | l in labels :: !IsExit(l) && !l.AgentOutput?
    ensures WaitsOn(Run(r, labels))
    ensures r.returned.None? && r.cause.None? && (forall l | l in labels :: !IsOutside(l)) ==>
              Run(r, labels).returned.None? && Run(r, labels).cause.None?
    decreases |labels|
  {
    if labels != [] {
      assert labels[0] in labels && forall l | l in labels[1..] :: l in labels;
      SilentRunWaits(Step(r, labels[0]), labels[1..]);
    }
  }

  /** If the agent's exit is routed before the insert, it is dropped: the client gets
      no chunk any more, and the bridge returns only because of a cancel, the loss of
      the agent, or the client leaving. */
  lemma MissedExitWaits(before: seq<Label>, o: Outcome, after: seq<Label>)
    requires !Run(START, before).inserted
    requires forall l | l in after :: !IsExit(l) && !l.AgentOutput?   // an exit is the agent's last word
    ensures var r := Run(Step(Run(START, before), End(Exited(o))), after);
            && r.missedExit && r.taken == [] && r.offered == []
            && (r.returned.Some? ==> r.cause == Some(Cancelled) || r.cause == Some(AgentLost))
            && ((forall l | l in after :: !IsOutside(l)) ==> r.returned.None?)
  {
    StartInv();
    RunKeepsInv(START, before);
    var s := Step(Run(START, before), End(Exited(o)));
    SilentRunWaits(s, after);
    StepKeepsInv(Run(START, before), End(Exited(o)));
    RunKeepsInv(s, after);
  }

  /** The bridge never returns without the session being over. */
  lemma ReturnMeansEnded(labels: seq<Label>)
    ensures Run(START, labels).returned.Some? ==> Run(START, labels).cause.Some?
  {
    StartInv();
    RunKeepsInv(START, labels);
  }
}
