/** One port-forward session end to end: CLI registry, HTTP frame streams,
    central's bridge and session, the agent's stream, its session goroutine and
    its pfSession.  Every step of every party is one action; a run is any
    sequence of actions.  Channels are FIFO; each is kept as the log of what went
    in and how much has come out, the two frame streams also as bytes. */
module PfRelay {
  import opened Wire
  import opened ExecFrame
  import opened PfFrame
  import opened AgentPortForward
  import opened CliPortForward

  const CHUNK: nat := 0x8000
  const PF_BUFFER: nat := 64

  /** Central's view of the session: PortForwardStart sent but not yet in the
      map; in the map; dropped and closed. */
  datatype Phase = Starting | Tracked | Dropped

  /** The session's entry in the agent's table. */
  datatype Entry = Missing | NoPf | HasPf | Gone

  /** Where the goroutine of runPortForwardSession is. */
  datatype Worker = Idle | Establishing | Attached | Running | Failed | Finished

  /** `accepted` connections so far; `pending` still owe their OPEN; `out` are the
      messages written, `received` those read back, `read` the bytes read from
      the local connections. */
  datatype Cli = Cli(
    reg: Registry, accepted: nat, pending: map<ConnId, U16>, readers: set<ConnId>,
    out: seq<Msg>, read: map<ConnId, Octets>, writing: bool, received: seq<Msg>)

  /** Upwards, `heard` came from the CLI and `sent` went to the agent; downwards
      Route has `seen` the agent's messages and put those `routed` into PfOutput,
      of which the bridge has `taken` some, writing `out`.  `linked`: the agent's
      registered stream is the one the session was started on.  `missed`: a
      message came before the session was in the map. */
  datatype Central = Central(
    phase: Phase, linked: bool, reason: Octets, heard: seq<Msg>, sent: seq<Msg>,
    seen: seq<Msg>, missed: bool, routed: seq<Msg>, queue: seq<Msg>, taken: seq<Msg>, serving: bool, out: seq<Msg>)

  /** `received` has come from the stream, `handled` reached the pfSession; `read`
      and `written` are the bytes read from and written to the pod. */
  datatype Agent = Agent(
    entry: Entry, worker: Worker, received: seq<Msg>, handled: seq<Msg>,
    pod: Pod, readers: set<ConnId>, read: map<ConnId, Octets>, written: map<ConnId, Octets>)

  datatype State = State(cli: Cli, up: Octets, cen: Central, streamUp: bool, agt: Agent, down: Octets)

  /** PortForwardStart has just been sent. */
  const START := State(
    Cli(EMPTY, 0, map[], {}, [], map[], true, []), [],
    Central(Starting, true, [], [], [], [], false, [], [], [], true, []), true,
    Agent(Missing, Idle, [], [], Pod(map[], map[], []), {}, map[], map[]), [])

  // ----- the CLI -----------------------------------------------------------

  /** writeFrame: nothing more is written once the pipe is closed. */
  function CliWrite(s: State, m: Msg): State {
    if s.cli.writing && Fits(FrameOf(m))
    then s.(cli := s.cli.(out := s.cli.out + [m]), up := s.up + Encode(FrameOf(m)))
    else s
  }

  /** A local connection arrives; listeners exist only after READY. */
  function Accept(s: State, port: U16): State {
    if !s.cli.reg.ready then s
    else s.(cli := s.cli.(reg := Accepted(s.cli.reg), accepted := s.cli.accepted + 1,
                          pending := s.cli.pending[Successor(s.cli.reg.nextId) := port]))
  }

  function WriteOpen(s: State, id: ConnId): State {
    if id !in s.cli.pending then s
    else
      CliWrite(s.(cli := s.cli.(pending := s.cli.pending - {id}, readers := s.cli.readers + {id})),
               Open(id, s.cli.pending[id]))
  }

  function LocalData(s: State, id: ConnId, chunk: Octets): State {
    if id !in s.cli.readers || |chunk| > CHUNK then s
    else CliWrite(s.(cli := s.cli.(read := s.cli.read[id := At(s.cli.read, id) + chunk])), Data(id, chunk))
  }

  function LocalEof(s: State, id: ConnId): State {
    if id !in s.cli.readers then s
    else CliWrite(s.(cli := s.cli.(readers := s.cli.readers - {id})), Close(id))
  }

  function LocalClose(s: State, id: ConnId): State {
    s.(cli := s.cli.(reg := ConnClosed(s.cli.reg, id)))
  }

  function CliShutdown(s: State): State {
    s.(cli := s.cli.(reg := s.cli.reg.(conns := {}), writing := false))
  }

  function CliRead(s: State): State {
    match Decode(s.down)
    case Got(f) =>
      if s.cli.reg.done then s
      else
        var t := s.(down := Remaining(s.down));
        (match ParseDown(f)
         case Some(m) => t.(cli := s.cli.(reg := Received(s.cli.reg, m), received := s.cli.received + [m]))
         case None => t)
    case _ => s
  }

  // ----- central -----------------------------------------------------------

  function Insert(c: Central): Central {
    if c.phase.Starting? then c.(phase := Tracked) else c
  }

  /** SendPfOpen, SendPfData or SendPfClose: only a session in the map has a
      stream, and only on its own stream does the agent know it. */
  function Heard(c: Central, m: Msg): Central {
    c.(heard := c.heard + [m], sent := if c.phase.Tracked? && c.linked then c.sent + [m] else c.sent)
  }

  /** The upstream goroutine of the bridge forwards one frame. */
  function Forward(s: State): State {
    if s.cen.phase.Starting? then s
    else
      match Decode(s.up)
      case Got(f) =>
        (match ParseUp(f)
         case Some(m) => s.(cen := Heard(s.cen, m), up := Remaining(s.up))
         case None => s.(up := Remaining(s.up)))
      case _ => s
  }

  /** The agent's stream is replaced or unregistered. */
  function Unlink(c: Central): Central {
    c.(linked := false)
  }

  /** Cancel or disconnect, from anywhere. */
  function Drop(c: Central, reason: Octets): Central {
    if c.phase.Tracked? then c.(phase := Dropped, reason := reason) else c
  }

  /** routePf delivers one message to the session, if it is in the map. */
  function Routed(c: Central, m: Msg): Central {
    var d := c.(seen := c.seen + [m]);
    match c.phase
    case Starting => d.(missed := true)
    case Tracked =>
      if |c.queue| < PF_BUFFER then d.(queue := c.queue + [m], routed := c.routed + [m])
      else Drop(d, Text("canceled"))
    case Dropped => d
  }

  /** Route takes the next message of the stream. */
  function Route(s: State): State {
    if s.streamUp && |s.cen.seen| < |s.agt.pod.out|
    then s.(cen := Routed(s.cen, s.agt.pod.out[|s.cen.seen|]))
    else s
  }

  function BridgeWrite(s: State, m: Msg): State {
    if Fits(FrameOf(m))
    then s.(cen := s.cen.(out := s.cen.out + [m]), down := s.down + Encode(FrameOf(m)))
    else s
  }

  /** The bridge's select takes the output branch, once it can. */
  function Select(s: State): State {
    if s.cen.phase.Starting? || !s.cen.serving then s
    else if s.cen.queue != [] then
      var m := s.cen.queue[0];
      BridgeWrite(
        s.(cen := s.cen.(queue := s.cen.queue[1..], taken := s.cen.taken + [m], serving := !m.SessionError?)), m)
    else if s.cen.phase.Dropped? then
      var t := s.(cen := s.cen.(serving := false));
      if s.cen.reason != [] then BridgeWrite(t, SessionError(s.cen.reason)) else t
    else s
  }

  /** The bridge's select takes the ctx.Done branch: Cancel, then return. */
  function Abandon(c: Central): Central {
    if c.phase.Starting? || !c.serving then c else Drop(c, Text("canceled")).(serving := false)
  }

  // ----- the agent ---------------------------------------------------------

  function AgentSend(a: Agent, m: Msg): Agent {
    a.(pod := a.pod.(out := a.pod.out + [m]))
  }

  /** PortForwardStart: the session enters the table and its goroutine starts. */
  function Begin(a: Agent): Agent {
    if a.entry.Missing? then a.(entry := NoPf, worker := Establishing) else a
  }

  /** An explicit cancel, the end of the stream, or of the goroutine. */
  function CancelEntry(a: Agent): Agent {
    if a.entry.Missing? then a else a.(entry := Gone)
  }

  /** kubectl did not come up; the goroutine reports that and ends. */
  function Fail(a: Agent, text: Octets): Agent {
    if a.worker.Establishing? then AgentSend(a, SessionError(text)).(worker := Failed) else a
  }

  /** setPf, which comes before READY is sent. */
  function Attach(a: Agent): Agent {
    if a.worker.Establishing?
    then a.(worker := Attached, entry := if a.entry.NoPf? then HasPf else a.entry)
    else a
  }

  function SendReady(a: Agent): Agent {
    if a.worker.Attached? then AgentSend(a, Ready).(worker := Running) else a
  }

  /** The context is cancelled or kubectl exits: shutdown. */
  function EndWorker(a: Agent): Agent {
    if a.worker.Running? then a.(pod := PodShutdown(a.pod), worker := Finished) else a
  }

  /** pfFor, and the pfSession's part if there is one. */
  function Takes(a: Agent, m: Msg, dial: Dial): Agent {
    var b := a.(received := a.received + [m]);
    if !a.entry.HasPf? then b
    else
      b.(handled := a.handled + [m], pod := Process(a.pod, m, dial),
         readers := if m.Open? && dial.Connected? then a.readers + {m.id} else a.readers)
  }

  /** The receive loop takes the next message of the stream. */
  function AgentReceive(s: State, dial: Dial): State {
    if s.streamUp && |s.agt.received| < |s.cen.sent|
    then s.(agt := Takes(s.agt, s.cen.sent[|s.agt.received|], dial))
    else s
  }

  /** The pod answers on a connection. */
  function PodRead(a: Agent, id: ConnId, chunk: Octets): Agent {
    if id !in a.readers || |chunk| > CHUNK then a
    else AgentSend(a.(read := a.read[id := At(a.read, id) + chunk]), Data(id, chunk))
  }

  function PodEof(a: Agent, id: ConnId): Agent {
    if id !in a.readers then a
    else AgentSend(a.(readers := a.readers - {id}, pod := PodClose(a.pod, id)), Close(id))
  }

  /** The writer goroutine passes one queued chunk on. */
  function PodWrite(a: Agent, id: ConnId): Agent {
    if id !in a.pod.conns || a.pod.conns[id] == [] then a
    else
      var q := a.pod.conns[id];
      a.(pod := a.pod.(conns := a.pod.conns[id := q[1..]]), written := a.written[id := At(a.written, id) + q[0]])
  }

  // ----- runs --------------------------------------------------------------

  datatype Action =
    | DoAccept(port: U16) | DoWriteOpen(id: ConnId) | DoLocalData(id: ConnId, chunk: Octets)
    | DoLocalEof(id: ConnId) | DoLocalClose(id: ConnId) | DoCliShutdown | DoCliRead
    | DoInsert | DoForward | DoUnlink | DoEndSession(reason: Octets) | DoRoute | DoSelect | DoAbandon
    | DoStreamLost | DoBegin | DoCancelEntry | DoFail(text: Octets) | DoAttach | DoSendReady | DoEndWorker
    | DoAgentReceive(dial: Dial) | DoPodRead(id: ConnId, chunk: Octets) | DoPodEof(id: ConnId) | DoPodWrite(id: ConnId)

  function Step(s: State, a: Action): State {
    match a
    case DoAccept(port) => Accept(s, port)
    case DoWriteOpen(id) => WriteOpen(s, id)
    case DoLocalData(id, chunk) => LocalData(s, id, chunk)
    case DoLocalEof(id) => LocalEof(s, id)
    case DoLocalClose(id) => LocalClose(s, id)
    case DoCliShutdown => CliShutdown(s)
    case DoCliRead => CliRead(s)
    case DoForward => Forward(s)
    case DoRoute => Route(s)
    case DoSelect => Select(s)
    case DoStreamLost => s.(streamUp := false)
    case DoAgentReceive(dial) => AgentReceive(s, dial)
    case _ => s.(cen := CentralStep(s.cen, a), agt := AgentStep(s.agt, a))
  }

  /** What happens to the session at central alone. */
  function CentralStep(c: Central, action: Action): Central {
    match action
    case DoInsert => Insert(c)
    case DoUnlink => Unlink(c)
    case DoEndSession(reason) => Drop(c, reason)
    case DoAbandon => Abandon(c)
    case _ => c
  }

  /** What happens at the agent alone. */
  function AgentStep(a: Agent, action: Action): Agent {
    match action
    case DoBegin => Begin(a)
    case DoCancelEntry => CancelEntry(a)
    case DoFail(text) => Fail(a, text)
    case DoAttach => Attach(a)
    case DoSendReady => SendReady(a)
    case DoEndWorker => EndWorker(a)
    case DoPodRead(id, chunk) => PodRead(a, id, chunk)
    case DoPodEof(id) => PodEof(a, id)
    case DoPodWrite(id) => PodWrite(a, id)
    case _ => a
  }

  function Run(s: State, actions: seq<Action>): State
    decreases |actions|
  {
    if actions == [] then s else Run(Step(s, actions[0]), actions[1..])
  }
}
