/** The loop of internal/cli/exec.go that shows central's frames to the user: STDOUT
    and STDERR frames are written out, and the first EXIT frame ends the session. */
module ExecClient {
  import opened Wire
  import opened ExecFrame
  import opened Sessions

  /** What the user has seen: the chunks written out, in order, and the end. */
  datatype Screen = Screen(shown: seq<Chunk>, end: Option<Outcome>)

  function ChunkShown(f: Frame): seq<Chunk> {
    if f.kind == 0x10 then [Output(true, f.payload)]
    else if f.kind == 0x11 then [Output(false, f.payload)]
    else []
  }

  /** An EXIT frame; one that is too short counts as a silent success. */
  function EndShown(f: Frame): Outcome {
    match DecodeExit(f.payload)
    case Some((code, message)) => Outcome(code, message)
    case None => Outcome(0, [])
  }

  /** Nothing is shown after the first EXIT frame. */
  function Shown(fs: seq<Frame>): Screen {
    if fs == [] then Screen([], None)
    else if fs[0].kind == 0x12 then Screen([], Some(EndShown(fs[0])))
    else
      var later := Shown(fs[1..]);
      Screen(ChunkShown(fs[0]) + later.shown, later.end)
  }

  /** What the bytes of a response body come to. */
  function Seen(down: Octets): Screen {
    Shown(DecodeAll(down).frames)
  }

  /** The bytes of the chunks for one of the two files. */
  function BytesOn(stdout: bool, cs: seq<Chunk>): Octets {
    if cs == [] then []
    else (if cs[0].Output? && cs[0].stdout == stdout then cs[0].data else []) + BytesOn(stdout, cs[1..])
  }

  /** `end` stays None if the body ends without an EXIT frame. */
  method ShowOutput(body: ByteReader) returns (stdout: Octets, stderr: Octets, end: Option<Outcome>)
    modifies body
    ensures var seen := Seen(old(body.Contents()));
            stdout == BytesOn(true, seen.shown) && stderr == BytesOn(false, seen.shown) && end == seen.end
  {
    stdout, stderr, end := [], [], None;
    ghost var seen, left := Seen(body.Contents()), body.Contents();
    while true
      invariant left == body.Contents() && end == None
      invariant ToShow(seen, stdout, stderr, Seen(left))
      decreases |left|
    {
      var r := body.ReadFrame();
      if !r.Got? {
        assert Seen(left) == Screen([], None);
        return;
      }
      SeenOneMore(left, body.Contents(), r.frame);
      ToShowOneMore(seen, stdout, stderr, r.frame, Seen(body.Contents()));
      left := body.Contents();
      if r.frame.kind == EXIT {
        end := Some(EndShown(r.frame));
        return;
      }
      stdout, stderr := Write(stdout, stderr, r.frame);
    }
  }

  /** The two writes of the switch. */
  method Write(stdout: Octets, stderr: Octets, f: Frame) returns (out: Octets, err: Octets)
    ensures out == stdout + if f.kind == 0x10 then f.payload else []
    ensures err == stderr + if f.kind == 0x11 then f.payload else []
  {
    out, err := stdout, stderr;
    if f.kind == STDOUT {
      out := out + f.payload;
    } else if f.kind == STDERR {
      err := err + f.payload;
    }
  }

  /** After these bytes `later` is what is left to be shown. */
  predicate ToShow(seen: Screen, stdout: Octets, stderr: Octets, later: Screen) {
    && BytesOn(true, seen.shown) == stdout + BytesOn(true, later.shown)
    && BytesOn(false, seen.shown) == stderr + BytesOn(false, later.shown)
    && seen.end == later.end
  }

  function ShownNext(f: Frame, later: Screen): Screen {
    if f.kind == EXIT then Screen([], Some(EndShown(f))) else Screen(ChunkShown(f) + later.shown, later.end)
  }

  lemma SeenOneMore(before: Octets, rest: Octets, f: Frame)
    requires Decode(before) == Got(f) && rest == Remaining(before)
    ensures Seen(before) == ShownNext(f, Seen(rest)) && |rest| < |before|
  {
    var later := DecodeAll(rest).frames;
    assert DecodeAll(before).frames == [f] + later;
    assert ([f] + later)[0] == f && ([f] + later)[1..] == later;
  }

  lemma BytesOneMore(stdout: bool, f: Frame, later: seq<Chunk>)
    ensures BytesOn(stdout, ChunkShown(f) + later)
         == (if f.kind == (if stdout then STDOUT else STDERR) then f.payload else []) + BytesOn(stdout, later)
  {
    var cs := ChunkShown(f);
    if cs == [] {
      assert cs + later == later;
    } else {
      assert (cs + later)[0] == cs[0] && (cs + later)[1..] == later;
    }
  }

  lemma ToShowOneMore(seen: Screen, stdout: Octets, stderr: Octets, f: Frame, later: Screen)
    requires ToShow(seen, stdout, stderr, ShownNext(f, later))
    ensures f.kind == EXIT ==> ToShow(seen, stdout, stderr, Screen([], Some(EndShown(f))))
    ensures f.kind != EXIT ==>
              ToShow(seen, stdout + if f.kind == STDOUT then f.payload else [],
                           stderr + if f.kind == STDERR then f.payload else [], later)
  {
    if f.kind != EXIT {
      BytesOneMore(true, f, later.shown);
      BytesOneMore(false, f, later.shown);
      Associates(stdout, if f.kind == STDOUT then f.payload else [], BytesOn(true, later.shown));
      Associates(stderr, if f.kind == STDERR then f.payload else [], BytesOn(false, later.shown));
    }
  }

  lemma {:induction false} ShownAppend(fs: seq<Frame>, f: Frame)
    requires forall x | x in fs :: x.kind != EXIT
    ensures Shown(fs).end == None
    ensures Shown(fs + [f])
         == if f.kind == EXIT then Screen(Shown(fs).shown, Some(EndShown(f)))
            else Screen(Shown(fs).shown + ChunkShown(f), None)
  {
    if fs == [] {
      assert Shown([f]) == if f.kind == EXIT then Screen([], Some(EndShown(f))) else Screen(ChunkShown(f) + [], None);
    } else {
      ShownAppend(fs[1..], f);
      assert (fs + [f])[0] == fs[0] && (fs + [f])[1..] == fs[1..] + [f];
      Associates(ChunkShown(fs[0]), Shown(fs[1..]).shown, ChunkShown(f));
    }
  }
}
