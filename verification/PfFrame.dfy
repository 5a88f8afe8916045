/** internal/pfframe: the port-forward messages carried in exec frames.
    Connection-scoped payloads start with a 4-byte connection id. */
module PfFrame {
  import opened Wire
  import opened ExecFrame

  const OPEN: Byte := 0x01
  const DATA: Byte := 0x02
  const CLOSE: Byte := 0x03
  const CONN_ERROR: Byte := 0x04
  const READY: Byte := 0x05
  const SESSION_ERROR: Byte := 0x06

  type ConnId = U32

  function EncodeOpen(id: ConnId, port: U16): Octets {
    Put32(id) + Put16(port)
  }

  function DecodeOpen(p: Octets): Option<(ConnId, U16)> {
    if |p| != 6 then None else Some((Get32(p[..4]), Get16(p[4..])))
  }

  /** DATA and CONN_ERROR payloads share this layout: id, then raw bytes. */
  function EncodeData(id: ConnId, data: Octets): Octets {
    Put32(id) + data
  }

  function DecodeData(p: Octets): Option<(ConnId, Octets)> {
    if |p| < 4 then None else Some((Get32(p[..4]), p[4..]))
  }

  function EncodeConnId(id: ConnId): Octets {
    Put32(id)
  }

  /** Unlike DecodeOpen this one tolerates trailing bytes. */
  function DecodeConnId(p: Octets): Option<ConnId> {
    if |p| < 4 then None else Some(Get32(p[..4]))
  }

  lemma OpenCodec(p: Octets, id: ConnId, port: U16)
    ensures DecodeOpen(p) == Some((id, port)) <==> p == EncodeOpen(id, port)
  {
    if |p| == 6 {
      Get32RoundTrip(p[..4]);
      Get16RoundTrip(p[4..]);
      assert p == p[..4] + p[4..];
    }
    var e := EncodeOpen(id, port);
    Put32RoundTrip(id);
    assert e[..4] == Put32(id) && e[4..] == Put16(port);
  }

  lemma DataCodec(p: Octets, id: ConnId, data: Octets)
    ensures DecodeData(p) == Some((id, data)) <==> p == EncodeData(id, data)
  {
    if |p| >= 4 {
      Get32RoundTrip(p[..4]);
      assert p == p[..4] + p[4..];
    }
    var e := EncodeData(id, data);
    Put32RoundTrip(id);
    assert e[..4] == Put32(id) && e[4..] == data;
  }

  /** A CLOSE payload is accepted iff it starts with an encoded id. */
  lemma ConnIdCodec(p: Octets, id: ConnId)
    ensures DecodeConnId(p) == Some(id) <==> EncodeConnId(id) <= p
  {
    if |p| >= 4 {
      Get32RoundTrip(p[..4]);
    }
    Put32RoundTrip(id);
  }

  /** A port-forward message: OPEN, DATA and CLOSE travel towards the pod;
      DATA, CLOSE, CONN_ERROR, READY and SESSION_ERROR towards the CLI. */
  datatype Msg =
    | Open(id: ConnId, port: U16)
    | Data(id: ConnId, data: Octets)
    | Close(id: ConnId)
    | ConnError(id: ConnId, text: Octets)
    | Ready
    | SessionError(text: Octets)

  predicate IsUp(m: Msg) {
    m.Open? || m.Data? || m.Close?
  }

  predicate IsDown(m: Msg) {
    !m.Open?
  }

  predicate IsFor(m: Msg, id: ConnId) {
    match m
    case Ready => false
    case SessionError(_) => false
    case _ => m.id == id
  }

  function FrameOf(m: Msg): Frame {
    match m
    case Open(id, port) => Frame(OPEN, EncodeOpen(id, port))
    case Data(id, data) => Frame(DATA, EncodeData(id, data))
    case Close(id) => Frame(CLOSE, EncodeConnId(id))
    case ConnError(id, text) => Frame(CONN_ERROR, EncodeData(id, text))
    case Ready => Frame(READY, [])
    case SessionError(text) => Frame(SESSION_ERROR, text)
  }

  function Weight(s: Octets): int
    requires |s| >= 4
  {
    s[0] as int * 0x100_0000 + s[1] as int * 0x1_0000 + s[2] as int * 0x100 + s[3]
  }

  /** The kinds, and the payloads byte by byte: a connection's id comes first. */
  lemma FrameOfLayout(m: Msg)
    ensures var f := FrameOf(m);
            match m
            case Open(id, port) =>
              && f.kind == 1 && |f.payload| == 6 && Weight(f.payload) == id
              && f.payload[4] as int * 0x100 + f.payload[5] == port
            case Data(id, data) =>
              f.kind == 2 && |f.payload| == 4 + |data| && Weight(f.payload) == id && f.payload[4..] == data
            case Close(id) => f.kind == 3 && |f.payload| == 4 && Weight(f.payload) == id
            case ConnError(id, text) =>
              f.kind == 4 && |f.payload| == 4 + |text| && Weight(f.payload) == id && f.payload[4..] == text
            case Ready => f.kind == 5 && f.payload == []
            case SessionError(text) => f.kind == 6 && f.payload == text
  {
    if !m.Ready? && !m.SessionError? {
      Put32RoundTrip(m.id);
    }
  }

  /** Central's reading of a frame from the CLI; None is ignored. */
  function ParseUp(f: Frame): Option<Msg> {
    if f.kind == OPEN then
      match DecodeOpen(f.payload)
      case Some((id, port)) => Some(Open(id, port))
      case None => None
    else if f.kind == DATA then
      match DecodeData(f.payload)
      case Some((id, data)) => Some(Data(id, data))
      case None => None
    else if f.kind == CLOSE then
      match DecodeConnId(f.payload)
      case Some(id) => Some(Close(id))
      case None => None
    else None
  }

  /** The CLI's reading of a frame from central; None is ignored. */
  function ParseDown(f: Frame): Option<Msg> {
    if f.kind == READY then Some(Ready)
    else if f.kind == DATA then
      match DecodeData(f.payload)
      case Some((id, data)) => Some(Data(id, data))
      case None => None
    else if f.kind == CLOSE then
      match DecodeConnId(f.payload)
      case Some(id) => Some(Close(id))
      case None => None
    else if f.kind == CONN_ERROR then
      match DecodeData(f.payload)
      case Some((id, text)) => Some(ConnError(id, text))
      case None => None
    else if f.kind == SESSION_ERROR then Some(SessionError(f.payload))
    else None
  }

  /** Each end reads exactly what the other end wrote. */
  lemma ParseInvertsFrameOf(m: Msg)
    ensures ParseUp(FrameOf(m)) == if IsUp(m) then Some(m) else None
    ensures ParseDown(FrameOf(m)) == if IsDown(m) then Some(m) else None
  {
    match m
    case Open(id, port) => OpenCodec(FrameOf(m).payload, id, port);
    case Data(id, data) => DataCodec(FrameOf(m).payload, id, data);
    case Close(id) => ConnIdCodec(FrameOf(m).payload, id);
    case ConnError(id, text) => DataCodec(FrameOf(m).payload, id, text);
    case Ready =>
    case SessionError(_) =>
  }

  // ----- message logs ------------------------------------------------------

  /** The messages that a writer puts on the wire: Encode refuses, and every
      caller ignores, a message whose payload is too large. */
  function Sendable(ms: seq<Msg>): (r: seq<Msg>)
    ensures forall m | m in r :: m in ms && Fits(FrameOf(m))
    ensures forall m | m in ms && Fits(FrameOf(m)) :: m in r
  {
    if ms == [] then []
    else
      var init := Sendable(ms[..|ms| - 1]);
      var m := ms[|ms| - 1];
      if Fits(FrameOf(m)) then init + [m] else init
  }

  function FramesOf(ms: seq<Msg>): (fs: seq<Frame>)
    requires forall m | m in ms :: Fits(FrameOf(m))
    ensures |fs| == |ms|
    ensures forall f | f in fs :: Fits(f)
  {
    seq(|ms|, i requires 0 <= i < |ms| => FrameOf(ms[i]))
  }

  /** The encodings of all these messages, one after the other. */
  function Encodings(ms: seq<Msg>): Octets
    requires forall m | m in ms :: Fits(FrameOf(m))
  {
    if ms == [] then [] else Encode(FrameOf(ms[0])) + Encodings(ms[1..])
  }

  lemma {:induction false} EncodingsIsEncodeAll(ms: seq<Msg>)
    requires forall m | m in ms :: Fits(FrameOf(m))
    ensures Encodings(ms) == EncodeAll(FramesOf(ms))
  {
    if ms != [] {
      EncodingsIsEncodeAll(ms[1..]);
      assert FramesOf(ms)[1..] == FramesOf(ms[1..]);
    }
  }

  lemma {:induction false} EncodingsAppend(ms: seq<Msg>, m: Msg)
    requires forall x | x in ms :: Fits(FrameOf(x))
    requires Fits(FrameOf(m))
    ensures Encodings(ms + [m]) == Encodings(ms) + Encode(FrameOf(m))
  {
    if ms != [] {
      EncodingsAppend(ms[1..], m);
      assert (ms + [m])[1..] == ms[1..] + [m];
      Associates(Encode(FrameOf(ms[0])), Encodings(ms[1..]), Encode(FrameOf(m)));
    }
  }

  /** The bytes carried for one connection by a log of messages. */
  function DataOf(ms: seq<Msg>, id: ConnId): Octets {
    if ms == [] then []
    else DataOf(ms[..|ms| - 1], id) + DataIn(ms[|ms| - 1], id)
  }

  function DataIn(m: Msg, id: ConnId): Octets {
    if m.Data? && m.id == id then m.data else []
  }

  lemma DataOfAppend(ms: seq<Msg>, m: Msg, id: ConnId)
    ensures DataOf(ms + [m], id) == DataOf(ms, id) + DataIn(m, id)
  {
    assert (ms + [m])[..|ms|] == ms;
  }

  lemma {:induction false} DataOfPrepend(m: Msg, ms: seq<Msg>, id: ConnId)
    ensures DataOf([m] + ms, id) == DataIn(m, id) + DataOf(ms, id)
  {
    if ms == [] {
      assert [m] + ms == [] + [m];
      DataOfAppend([], m, id);
    } else {
      var n := |ms| - 1;
      DataOfPrepend(m, ms[..n], id);
      assert [m] + ms == ([m] + ms[..n]) + [ms[n]];
      DataOfAppend([m] + ms[..n], ms[n], id);
      Associates(DataIn(m, id), DataOf(ms[..n], id), DataIn(ms[n], id));
    }
  }

  /** The log tells that the connection is over. */
  predicate SaysEnded(ms: seq<Msg>, id: ConnId) {
    exists m | m in ms :: m == Close(id) || (m.ConnError? && m.id == id)
  }

  /** The part of a log before it tells that the connection is over. */
  function BeforeEnd(ms: seq<Msg>, id: ConnId): (r: seq<Msg>)
    ensures r <= ms
    ensures forall m | m in r :: m != Close(id) && (m.ConnError? ==> m.id != id)
    ensures r != ms ==> ms[|r|] == Close(id) || (ms[|r|].ConnError? && ms[|r|].id == id)
  {
    if ms == [] || SaysEnded([ms[0]], id) then [] else [ms[0]] + BeforeEnd(ms[1..], id)
  }

  /** The part of a log up to its first SESSION_ERROR, with that. */
  function UntilError(ms: seq<Msg>): (r: seq<Msg>)
    ensures r <= ms
    ensures forall k | 0 <= k < |r| - 1 :: !r[k].SessionError?
    ensures r != ms ==> r != [] && r[|r| - 1].SessionError?
  {
    if ms == [] then [] else [ms[0]] + if ms[0].SessionError? then [] else UntilError(ms[1..])
  }

  lemma {:induction false} DataOfMonotone(ms: seq<Msg>, ns: seq<Msg>, id: ConnId)
    requires ms <= ns
    ensures DataOf(ms, id) <= DataOf(ns, id)
  {
    if |ms| < |ns| {
      DataOfMonotone(ms, ns[..|ns| - 1], id);
    } else {
      assert ms == ns;
    }
  }

  lemma {:induction false} NoDataWithoutMessage(ms: seq<Msg>, id: ConnId)
    requires forall m | m in ms :: !IsFor(m, id)
    ensures DataOf(ms, id) == []
  {
    if ms != [] {
      NoDataWithoutMessage(ms[..|ms| - 1], id);
      assert !IsFor(ms[|ms| - 1], id);
    }
  }

  /** Dropping unsendable messages loses no data as long as the data fits. */
  lemma {:induction false} SendableKeepsData(ms: seq<Msg>, id: ConnId)
    requires forall m | m in ms && m.Data? :: Fits(FrameOf(m))
    ensures DataOf(Sendable(ms), id) == DataOf(ms, id)
  {
    if ms != [] {
      SendableKeepsData(ms[..|ms| - 1], id);
      DataOfAppend(Sendable(ms[..|ms| - 1]), ms[|ms| - 1], id);
    }
  }

  lemma SendableAppend(ms: seq<Msg>, m: Msg)
    ensures Sendable(ms + [m]) == Sendable(ms) + if Fits(FrameOf(m)) then [m] else []
  {
    assert (ms + [m])[..|ms|] == ms;
  }

  /** What a reader of a conversation understands, in order. */
  function ParsedUp(fs: seq<Frame>): seq<Msg> {
    if fs == [] then []
    else (match ParseUp(fs[0]) case Some(m) => [m] case None => []) + ParsedUp(fs[1..])
  }

  function ParsedDown(fs: seq<Frame>): seq<Msg> {
    if fs == [] then []
    else (match ParseDown(fs[0]) case Some(m) => [m] case None => []) + ParsedDown(fs[1..])
  }

  /** End to end over the wire: whatever sendable messages the CLI writes,
      central understands exactly those, and the other way round. */
  lemma {:induction false} WireRoundTrip(ms: seq<Msg>)
    requires forall m | m in ms :: Fits(FrameOf(m))
    ensures (forall m | m in ms :: IsUp(m))
        ==> ParsedUp(DecodeAll(EncodeAll(FramesOf(ms))).frames) == ms
    ensures (forall m | m in ms :: IsDown(m))
        ==> ParsedDown(DecodeAll(EncodeAll(FramesOf(ms))).frames) == ms
  {
    RoundTrip(FramesOf(ms));
    ParsedInvertsFrames(ms);
  }

  lemma {:induction false} ParsedInvertsFrames(ms: seq<Msg>)
    requires forall m | m in ms :: Fits(FrameOf(m))
    ensures (forall m | m in ms :: IsUp(m)) ==> ParsedUp(FramesOf(ms)) == ms
    ensures (forall m | m in ms :: IsDown(m)) ==> ParsedDown(FramesOf(ms)) == ms
  {
    if ms != [] {
      ParseInvertsFrameOf(ms[0]);
      ParsedInvertsFrames(ms[1..]);
      assert FramesOf(ms)[1..] == FramesOf(ms[1..]);
      assert ms == [ms[0]] + ms[1..];
    }
  }
}
