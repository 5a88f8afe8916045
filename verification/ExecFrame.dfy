/** internal/execframe: the length-prefixed frame format shared by interactive
    exec and port-forward.  A frame is [kind:1][length:4 big-endian][payload]. */
module ExecFrame {
  import opened Wire

  const MAX_PAYLOAD: int := 0x10_0000

  const STDIN: Byte := 0x00
  const RESIZE: Byte := 0x01
  const STDOUT: Byte := 0x10
  const STDERR: Byte := 0x11
  const EXIT: Byte := 0x12

  datatype Frame = Frame(kind: Byte, payload: Octets)

  predicate Fits(f: Frame) {
    |f.payload| <= MAX_PAYLOAD
  }

  /** The bytes of one frame. */
  function Encode(f: Frame): (s: Octets)
    requires Fits(f)
    ensures |s| == 5 + |f.payload|
  {
    [f.kind] + Put32(|f.payload|) + f.payload
  }

  /** One byte for the kind, four for the length, the most significant first, and
      then the payload. */
  lemma EncodeLayout(f: Frame)
    requires Fits(f)
    ensures var s := Encode(f);
            && s[0] == f.kind && s[5..] == f.payload
            && s[1] as int * 0x100_0000 + s[2] as int * 0x1_0000 + s[3] as int * 0x100 + s[4] == |f.payload| <= 0x10_0000
  {
    Put32RoundTrip(|f.payload|);
  }

  /** The bytes of a whole conversation. */
  function EncodeAll(fs: seq<Frame>): Octets
    requires forall f | f in fs :: Fits(f)
  {
    if fs == [] then [] else Encode(fs[0]) + EncodeAll(fs[1..])
  }

  /** What one read of a frame yields: a frame, or one of the three errors. */
  datatype ReadResult =
    | Got(frame: Frame)
    | Eof
    | UnexpectedEof
    | TooLarge(length: U32)

  /** io.ReadFull of `want` bytes fails with Eof only when no byte was there. */
  function ShortRead(have: Octets): ReadResult {
    if have == [] then Eof else UnexpectedEof
  }

  /** The result of reading one frame from the front of `s`. */
  function Decode(s: Octets): ReadResult {
    if |s| < 5 then ShortRead(s)
    else
      var n := Get32(s[1..5]);
      if n > MAX_PAYLOAD then TooLarge(n)
      else if |s| < 5 + n then ShortRead(s[5..])
      else Got(Frame(s[0], s[5..5 + n]))
  }

  /** What that read leaves in the stream. */
  function Remaining(s: Octets): (rest: Octets)
    ensures Decode(s).Got? ==> |rest| < |s|
  {
    if |s| < 5 then []
    else
      var n := Get32(s[1..5]);
      if n > MAX_PAYLOAD then s[5..]
      else if |s| < 5 + n then []
      else s[5 + n..]
  }

  datatype Conversation = Conversation(frames: seq<Frame>, end: ReadResult)

  /** Reading frames until the first error, as every reader of this format does. */
  function DecodeAll(s: Octets): (c: Conversation)
    decreases |s|
  {
    match Decode(s)
    case Got(f) =>
      var tail := DecodeAll(Remaining(s));
      Conversation([f] + tail.frames, tail.end)
    case e => Conversation([], e)
  }

  // ----- one frame ---------------------------------------------------------

  lemma DecodeEncoded(f: Frame, rest: Octets)
    requires Fits(f)
    ensures Decode(Encode(f) + rest) == Got(f)
    ensures Remaining(Encode(f) + rest) == rest
  {
    var s := Encode(f) + rest;
    Put32RoundTrip(|f.payload|);
    assert s[1..5] == Put32(|f.payload|);
    assert s[5..5 + |f.payload|] == f.payload;
  }

  /** Every accepted frame re-encodes to exactly the bytes that were consumed. */
  lemma DecodedReencodes(s: Octets)
    requires Decode(s).Got?
    ensures Fits(Decode(s).frame)
    ensures s == Encode(Decode(s).frame) + Remaining(s)
  {
    Get32RoundTrip(s[1..5]);
    assert s == [s[0]] + s[1..5] + s[5..];
  }

  /** No encoding is a proper prefix of another, nor are two frames encoded alike. */
  lemma EncodingIsPrefixFree(f: Frame, g: Frame)
    requires Fits(f) && Fits(g)
    requires Encode(f) <= Encode(g)
    ensures f == g
  {
    var rest := Encode(g)[|Encode(f)|..];
    assert Encode(g) == Encode(f) + rest;
    DecodeEncoded(f, rest);
    assert Encode(g) == Encode(g) + [];
    DecodeEncoded(g, []);
  }

  /** A frame that has not arrived completely yields no frame. */
  lemma StrictPrefixYieldsNothing(f: Frame, k: nat)
    requires Fits(f) && k < |Encode(f)|
    ensures Decode(Encode(f)[..k]) == if k == 0 || k == 5 then Eof else UnexpectedEof
  {
    var s := Encode(f)[..k];
    if k >= 5 {
      Put32RoundTrip(|f.payload|);
      assert s[..5] == [f.kind] + Put32(|f.payload|);
      assert s[1..5] == s[..5][1..] == Put32(|f.payload|);
    }
  }

  // ----- whole conversations ----------------------------------------------

  lemma DecodeAllOne(f: Frame, rest: Octets)
    requires Fits(f)
    ensures DecodeAll(Encode(f) + rest)
         == Conversation([f] + DecodeAll(rest).frames, DecodeAll(rest).end)
  {
    DecodeEncoded(f, rest);
  }

  /** Decoding what is left after some frames continues after those frames. */
  lemma {:induction false} DecodeAllSplits(fs: seq<Frame>, rest: Octets)
    requires forall f | f in fs :: Fits(f)
    ensures DecodeAll(EncodeAll(fs) + rest)
         == Conversation(fs + DecodeAll(rest).frames, DecodeAll(rest).end)
  {
    var c := DecodeAll(rest);
    if fs == [] {
      assert EncodeAll(fs) + rest == rest;
      assert fs + c.frames == c.frames;
    } else {
      EncodeAllSplitsOff(fs, rest);
      DecodeAllOne(fs[0], EncodeAll(fs[1..]) + rest);
      DecodeAllSplits(fs[1..], rest);
      SplitsOff(fs, c.frames);
    }
  }

  lemma EncodeAllSplitsOff(fs: seq<Frame>, rest: Octets)
    requires fs != [] && forall f | f in fs :: Fits(f)
    ensures EncodeAll(fs) + rest == Encode(fs[0]) + (EncodeAll(fs[1..]) + rest)
  {
  }

  lemma RoundTrip(fs: seq<Frame>)
    requires forall f | f in fs :: Fits(f)
    ensures DecodeAll(EncodeAll(fs)) == Conversation(fs, Eof)
  {
    DecodeAllSplits(fs, []);
    assert EncodeAll(fs) + [] == EncodeAll(fs);
    assert fs + [] == fs;
  }

  lemma {:induction false} EncodeAllConcat(fs: seq<Frame>, gs: seq<Frame>)
    requires forall f | f in fs :: Fits(f)
    requires forall g | g in gs :: Fits(g)
    ensures forall h | h in fs + gs :: Fits(h)
    ensures EncodeAll(fs + gs) == EncodeAll(fs) + EncodeAll(gs)
  {
    if fs == [] {
      assert fs + gs == gs;
    } else {
      EncodeAllConcat(fs[1..], gs);
      assert (fs + gs)[1..] == fs[1..] + gs;
      Associates(Encode(fs[0]), EncodeAll(fs[1..]), EncodeAll(gs));
    }
  }

  lemma EncodeAllAppend(fs: seq<Frame>, f: Frame)
    requires forall g | g in fs :: Fits(g)
    requires Fits(f)
    ensures forall g | g in fs + [f] :: Fits(g)
    ensures EncodeAll(fs + [f]) == EncodeAll(fs) + Encode(f)
  {
    EncodeAllConcat(fs, [f]);
    EncodeAllOne(f);
  }

  /** Conversely: any byte string at all is the encoding of the frames it
      decodes to, followed by a tail in which no further frame can be read. */
  lemma {:induction false} DecodedConversationReencodes(s: Octets) returns (tail: Octets)
    ensures forall f | f in DecodeAll(s).frames :: Fits(f)
    ensures s == EncodeAll(DecodeAll(s).frames) + tail
    ensures !Decode(tail).Got? && Decode(tail) == DecodeAll(s).end
    decreases |s|
  {
    if Decode(s).Got? {
      DecodedReencodes(s);
      tail := DecodedConversationReencodes(Remaining(s));
    } else {
      tail := s;
    }
  }

  /** The first `n` frames, and no more, lie within the first `k` bytes. */
  predicate CompleteWithin(fs: seq<Frame>, n: nat, k: nat)
    requires forall f | f in fs :: Fits(f)
  {
    && n <= |fs|
    && |EncodeAll(fs[..n])| <= k
    && (n < |fs| ==> k < |EncodeAll(fs[..n + 1])|)
  }

  /** Cutting a conversation anywhere yields a prefix of its frames: all the
      frames that arrived completely and nothing else. */
  lemma {:induction false} CutYieldsCompleteFrames(fs: seq<Frame>, k: nat)
    requires forall f | f in fs :: Fits(f)
    requires k <= |EncodeAll(fs)|
    ensures CutAt(fs, k)
  {
    if fs != [] {
      if k < |Encode(fs[0])| {
        CutInFirstFrame(fs, k);
      } else {
        CutYieldsCompleteFrames(fs[1..], k - |Encode(fs[0])|);
        CutLater(fs, k);
        OneMoreArrived(fs, DecodeAll(EncodeAll(fs[1..])[..k - |Encode(fs[0])|]).frames, k);
      }
    }
  }

  predicate CutAt(fs: seq<Frame>, k: nat)
    requires forall f | f in fs :: Fits(f)
    requires k <= |EncodeAll(fs)|
  {
    var got := DecodeAll(EncodeAll(fs)[..k]).frames;
    got <= fs && CompleteWithin(fs, |got|, k)
  }

  lemma CutLater(fs: seq<Frame>, k: nat)
    requires fs != [] && forall f | f in fs :: Fits(f)
    requires |Encode(fs[0])| <= k <= |EncodeAll(fs)|
    ensures DecodeAll(EncodeAll(fs)[..k]).frames
         == [fs[0]] + DecodeAll(EncodeAll(fs[1..])[..k - |Encode(fs[0])|]).frames
  {
    CutSplitsOff(fs, k);
    DecodeAllOne(fs[0], EncodeAll(fs[1..])[..k - |Encode(fs[0])|]);
  }

  lemma OneMoreArrived(fs: seq<Frame>, got: seq<Frame>, k: nat)
    requires fs != [] && (forall f | f in fs :: Fits(f)) && |Encode(fs[0])| <= k
    requires got <= fs[1..] && CompleteWithin(fs[1..], |got|, k - |Encode(fs[0])|)
    ensures var more := [fs[0]] + got; more <= fs && CompleteWithin(fs, |more|, k)
  {
    CompleteOneMore(fs, |got|, k - |Encode(fs[0])|);
  }

  lemma CutInFirstFrame(fs: seq<Frame>, k: nat)
    requires fs != [] && forall f | f in fs :: Fits(f)
    requires k < |Encode(fs[0])|
    ensures k <= |EncodeAll(fs)|
    ensures DecodeAll(EncodeAll(fs)[..k]).frames == []
    ensures CompleteWithin(fs, 0, k)
  {
    assert EncodeAll(fs)[..k] == Encode(fs[0])[..k];
    StrictPrefixYieldsNothing(fs[0], k);
    assert fs[..1] == [fs[0]];
    EncodeAllOne(fs[0]);
  }

  lemma CutSplitsOff(fs: seq<Frame>, k: nat)
    requires fs != [] && forall f | f in fs :: Fits(f)
    requires |Encode(fs[0])| <= k <= |EncodeAll(fs)|
    ensures EncodeAll(fs)[..k] == Encode(fs[0]) + EncodeAll(fs[1..])[..k - |Encode(fs[0])|]
  {
  }

  lemma CompleteOneMore(fs: seq<Frame>, n: nat, k: nat)
    requires fs != [] && forall f | f in fs :: Fits(f)
    requires CompleteWithin(fs[1..], n, k)
    ensures CompleteWithin(fs, n + 1, k + |Encode(fs[0])|)
  {
    PrefixLength(fs, n);
    if n + 1 < |fs| {
      PrefixLength(fs, n + 1);
    }
  }

  lemma EncodeAllOne(f: Frame)
    requires Fits(f)
    ensures EncodeAll([f]) == Encode(f)
  {
    assert EncodeAll([f]) == Encode(f) + EncodeAll([]);
  }

  lemma PrefixLength(fs: seq<Frame>, n: nat)
    requires n < |fs| && forall f | f in fs :: Fits(f)
    ensures |EncodeAll(fs[..n + 1])| == |Encode(fs[0])| + |EncodeAll(fs[1..][..n])|
  {
    assert fs[..n + 1][0] == fs[0] && fs[..n + 1][1..] == fs[1..][..n];
  }

  // ----- typed payloads ----------------------------------------------------

  function EncodeResize(rows: U16, cols: U16): Octets {
    Put16(rows) + Put16(cols)
  }

  function DecodeResize(p: Octets): Option<(U16, U16)> {
    if |p| != 4 then None else Some((Get16(p[..2]), Get16(p[2..])))
  }

  function EncodeExit(code: I32, message: Octets): Octets {
    Put32(ToUnsigned(code)) + message
  }

  function DecodeExit(p: Octets): Option<(I32, Octets)> {
    if |p| < 4 then None else Some((ToSigned(Get32(p[..4])), p[4..]))
  }

  /** The decoder accepts exactly the encoder's range, and inverts it. */
  lemma ResizeCodec(p: Octets, rows: U16, cols: U16)
    ensures DecodeResize(p) == Some((rows, cols)) <==> p == EncodeResize(rows, cols)
  {
    if |p| == 4 {
      Get16RoundTrip(p[..2]);
      Get16RoundTrip(p[2..]);
      assert p == p[..2] + p[2..];
    }
    var e := EncodeResize(rows, cols);
    assert e[..2] == Put16(rows) && e[2..] == Put16(cols);
  }

  /** The same for exit payloads, negative codes included. */
  lemma ExitCodec(p: Octets, code: I32, message: Octets)
    ensures DecodeExit(p) == Some((code, message)) <==> p == EncodeExit(code, message)
  {
    if |p| >= 4 {
      Get32RoundTrip(p[..4]);
      assert p == p[..4] + p[4..];
    }
    var e := EncodeExit(code, message);
    Put32RoundTrip(ToUnsigned(code));
    assert e[..4] == Put32(ToUnsigned(code)) && e[4..] == message;
  }

  lemma ResizeLayout(rows: U16, cols: U16)
    ensures var s := EncodeResize(rows, cols);
            |s| == 4 && s[0] as int * 0x100 + s[1] == rows && s[2] as int * 0x100 + s[3] == cols
  {
  }

  /** The code is sent as its two's complement. */
  lemma ExitLayout(code: I32, message: Octets)
    ensures var s := EncodeExit(code, message);
            && |s| == 4 + |message| && s[4..] == message
            && s[0] as int * 0x100_0000 + s[1] as int * 0x1_0000 + s[2] as int * 0x100 + s[3]
               == if code < 0 then code + 0x1_0000_0000 else code
  {
    Put32RoundTrip(ToUnsigned(code));
  }

  // ----- the stream functions ---------------------------------------------

  /** An io.Writer that accepts everything it is given. */
  class ByteWriter {
    var written: Octets

    constructor ()
      ensures written == []
    {
      written := [];
    }

    method Write(p: Octets)
      modifies this
      ensures written == old(written) + p
    {
      written := written + p;
    }
  }

  /** An io.Reader over a transport that hands out its bytes in arbitrary
      pieces, some possibly empty, and then reports EOF. */
  class ByteReader {
    var pieces: seq<Octets>

    constructor (pieces: seq<Octets>)
      ensures this.pieces == pieces
    {
      this.pieces := pieces;
    }

    ghost function Contents(): Octets
      reads this
    {
      Flatten(pieces)
    }

    /** One Read call with room for `room` bytes. */
    method Read(room: nat) returns (got: Octets, eof: bool)
      requires room > 0
      modifies this
      ensures eof <==> old(pieces) == []
      ensures |got| <= room
      ensures old(Contents()) == got + Contents()
      ensures eof ==> got == [] && pieces == []
      ensures !eof ==> |pieces| < |old(pieces)| || (|pieces| == |old(pieces)| && |got| == room)
    {
      if pieces == [] {
        return [], true;
      }
      var first := pieces[0];
      if |first| <= room {
        got, pieces := first, pieces[1..];
      } else {
        got, pieces := first[..room], [first[room..]] + pieces[1..];
        assert first == first[..room] + first[room..];
      }
      eof := false;
    }

    /** io.ReadFull: keep reading until `want` bytes are there or the stream ends. */
    method ReadFull(want: nat) returns (got: Octets, ok: bool)
      modifies this
      ensures ok <==> |old(Contents())| >= want
      ensures ok ==> got == old(Contents())[..want] && Contents() == old(Contents())[want..]
      ensures !ok ==> got == old(Contents()) && Contents() == []
    {
      got, ok := [], true;
      var eof := false;
      while |got| < want && !eof
        invariant |got| <= want
        invariant old(Contents()) == got + Contents()
        invariant eof ==> Contents() == []
        decreases |pieces|, want - |got|, !eof
      {
        var more;
        more, eof := Read(want - |got|);
        got := got + more;
      }
      ok := |got| == want;
      assert ok ==> got == old(Contents())[..want];
    }

    /** ReadFrame: header, length check, payload. */
    method ReadFrame() returns (r: ReadResult)
      modifies this
      ensures r == Decode(old(Contents()))
      ensures Contents() == Remaining(old(Contents()))
    {
      var header, ok := ReadFull(5);
      if !ok {
        return ShortRead(header);
      }
      var n := Get32(header[1..]);
      assert header[1..] == old(Contents())[1..5];
      if n > MAX_PAYLOAD {
        return TooLarge(n);
      }
      var payload, ok' := ReadFull(n);
      if !ok' {
        return ShortRead(payload);
      }
      return Got(Frame(header[0], payload));
    }
  }

  /** WriteFrame: refuses an oversized payload, otherwise appends one frame. */
  method WriteFrame(w: ByteWriter, f: Frame) returns (ok: bool)
    modifies w
    ensures ok <==> Fits(f)
    ensures w.written == if Fits(f) then old(w.written) + Encode(f) else old(w.written)
  {
    if |f.payload| > MAX_PAYLOAD {
      return false;
    }
    w.Write([f.kind] + Put32(|f.payload|));
    if |f.payload| == 0 {
      assert Encode(f) == [f.kind] + Put32(|f.payload|);
      return true;
    }
    w.Write(f.payload);
    return true;
  }

  /** Reads frames until the transport yields no further one. */
  method ReadAll(r: ByteReader) returns (frames: seq<Frame>, end: ReadResult)
    modifies r
    ensures Conversation(frames, end) == DecodeAll(old(r.Contents()))
  {
    frames := [];
    ghost var all := DecodeAll(r.Contents());
    while true
      invariant all == Conversation(frames + DecodeAll(r.Contents()).frames, DecodeAll(r.Contents()).end)
      decreases |r.Contents()|
    {
      ghost var before := r.Contents();
      end := r.ReadFrame();
      if !end.Got? {
        assert DecodeAll(before) == Conversation([], end);
        assert frames + [] == frames;
        return;
      }
      ghost var later := DecodeAll(r.Contents());
      assert DecodeAll(before) == Conversation([end.frame] + later.frames, later.end);
      Associates(frames, [end.frame], later.frames);
      frames := frames + [end.frame];
    }
  }

  /** However the transport cuts the bytes written, the frames read are exactly
      those that were written. */
  method ReadPieces(pieces: seq<Octets>, ghost fs: seq<Frame>) returns (frames: seq<Frame>)
    requires (forall f | f in fs :: Fits(f)) && Flatten(pieces) == EncodeAll(fs)
    ensures frames == fs
  {
    RoundTrip(fs);
    var r := new ByteReader(pieces);
    var end;
    frames, end := ReadAll(r);
  }
}
