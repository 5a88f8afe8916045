# A verified model of kbridge's streaming core

kbridge lets a CLI run `kubectl` against clusters whose agents dial out to a
central service.  This project models, in Dafny, the parts of that system where
the pieces have to agree with each other, and proves what they promise:

- **Frames** (`Wire`, `ExecFrame`, `PfFrame`): the length-prefixed wire format, read
  and written over a transport that may cut the bytes anywhere, and the payloads
  carried in it.
- **Session manager** (`Sessions`, `SessionRuns`, `SessionCalls`, `SessionHomes`,
  `SessionCrashes`, `SessionOutcomes`, `StreamManager`, `AgentEndpoint`):
  many sessions multiplexed over one stream per agent.  `StreamManager` has the
  objects with their methods; each method is specified as a function on the
  manager's state.  `SessionRuns` runs the same calls as threads that interleave
  at lock granularity, and `SessionCalls` shows that an uninterrupted call is one
  particular run, so results about runs hold of the methods.
- **Exec relay** (`ExecBridge`, `ExecClient`): agent output to the client's frames and
  from there to the client's files, and the client's input back.
- **Port-forward relay** (`CliPortForward`, `PfBridge`, `AgentPortForward`,
  `AgentTeardown`, `PfRelay`, `PfRelaySafety`, `PfRelayRuns`, `PfRelayService`,
  `PfHandshake`, `PfDrain`, `PfSlots`, `PfEndings`, `PfParties`, `PfRefinement`): the three parties and the channels between them
  as one transition system, in which a run is any sequence of actions.
- **Agent stream** (`AgentStreams`): the agent's table of running sessions.
- **Access control** (`Glob`, `AccessRequests`, `Policies`): the wildcard matcher, the
  command parsers at both ends, and policy evaluation, validation and reload.
- **Command queue** (`CommandRuns`, `CommandDispatch`, `CommandQueues`): queued commands from enqueue to
  answer, with polls, late results and timeouts interleaved.

A run is always an arbitrary sequence of labels from the initial state, so every
theorem about runs is about every interleaving.  Steps that the code takes outside
its locks are separate labels.  Deterministic step functions make the environment's
choices (whether a send succeeds, how a dial turns out, the order in which a map
yields its keys) arguments of the label.

`dafny verify dfyconfig.toml` checks the project.

## What the proofs bring out

- `matchPattern` tests for a literal match before it looks at `*`.  It therefore
  misses matches when the value itself has a `*` anywhere but at its end:
  `Glob.ExactForValue` gives the exact set of values, `Glob.ExactForPattern` the
  exact set of patterns.  The single `*` that `--all-namespaces` yields is fine.
- Policy evaluation never grants more than the documented meaning, and it grants
  the same under every policy exactly for the values that are ordinary in that
  sense (`Policies.AsDocumentedExactly`).  The default role is held by everyone, not
  only by users without a binding; the model follows the code.
- The cap on concurrent sessions is `max + k - 1` when up to `k` starts overlap, and
  that is attained: the lock is released between check and insert.
- Route and `pfSession.data` look up, unlock, then send.  They meet a closed channel
  exactly when what they found is closed before their next step
  (`SessionCrashes.CrashesExactly`, `AgentTeardown.CrashesExactly`).
- The two maps of the session manager come apart in two ways: a stream is registered
  over one that lists sessions (`SessionCalls.RegisterKeepsIndexExactly`), or a start
  is inserted after its stream was replaced or unregistered
  (`SessionCalls.InsertKeepsIndexExactly`, `SessionHomes.StartOvertaken`).  In all runs
  a tracked session is listed exactly while the stream its start was sent on is
  registered (`SessionHomes.ListedExactly`); once unlisted it stays so, and no
  disconnect closes it.
- OpenStream unregisters its agent rather than its stream.  The end of a stream that
  was replaced therefore leaves its own sessions in the map, takes its successor's out
  and unregisters the successor (`SessionHomes.StaleEndTakesSuccessor`).
- Sessions enter the map only after their start was sent.  Chunks and exits that are
  routed before that are dropped: an exec client sees all output exactly if none was
  (`ExecBridge.NothingMissedExactly`), and after a lost exit the bridge waits for a
  cancel, the client or the loss of the agent (`ExecBridge.MissedExitWaits`).
- A port-forward bridge that relays a SESSION_ERROR returns without Cancel, and that
  is the only way it leaves its session in the map.  The session then keeps its slot
  until it is cancelled or its stream ends (`PfSlots.SlotKeptExactly`).
- Polls hand a command out twice exactly when a poll's snapshot shares a command
  with one that is still being answered (`CommandDispatch.DispatchedOnceExactly`).
- The server's scan and the CLI's scan for a namespace flag agree unless the first
  token of the command is that flag (`AccessRequests.OnlyCliSees` is the condition).
- A port-forward READY that is routed before the insert is dropped as well, and while
  all parties are up this is exactly what keeps the client from becoming ready
  (`PfHandshake.ReadyUnlessMissed`).
- A second start with a session id that is still in the agent's table orphans the
  first context; distinct ids exclude that.

## Model

| member | source | states |
|---|---|---|
| `ExecFrame.DecodeEncoded` | internal/execframe/frame.go:26-58 | reading what was written gives the frame back and leaves exactly the rest of the stream |
| `ExecFrame.DecodedReencodes` | internal/execframe/frame.go:44-58 | every frame accepted re-encodes to the very bytes consumed |
| `ExecFrame.EncodingIsPrefixFree` | internal/execframe/frame.go:26-40 | no encoding is a prefix of a different one |
| `ExecFrame.StrictPrefixYieldsNothing` | internal/execframe/frame.go:44-58 | a strict prefix of an encoding yields no frame; it reads as a clean EOF when nothing arrived, but also when the cut is right after the 5-byte header, and as an unexpected EOF anywhere else |
| `ExecFrame.RoundTrip` | internal/execframe/frame.go:26-58 | for every list of frames that fit, reading the concatenated encodings yields that list and then a clean EOF |
| `ExecFrame.DecodedConversationReencodes` | internal/execframe/frame.go:44-58 | any byte string is the encoding of the frames read from it plus a tail from which no frame can be read |
| `ExecFrame.CutYieldsCompleteFrames` | internal/execframe/frame.go:44-58 | cutting a conversation anywhere yields precisely the frames that arrived completely |
| `ExecFrame.ByteReader.ReadFull` | internal/execframe/frame.go:44-58 | io.ReadFull over a transport that cuts the bytes at will gets the next bytes of the stream, or reports how few there were |
| `ExecFrame.ByteReader.ReadFrame` | internal/execframe/frame.go:44-58 | ReadFrame under any chunking returns the first frame of the remaining bytes, or the right error, and consumes just that |
| `ExecFrame.ReadAll` | internal/execframe/frame.go:44-58 | repeated ReadFrame over any pieces yields the frames, and the final error, that the whole byte string decodes to |
| `ExecFrame.ReadPieces` | internal/execframe/frame.go:26-58 | however the transport cuts the bytes written, the frames read are exactly those written |
| `ExecFrame.WriteFrame` | internal/execframe/frame.go:26-40 | writes one encoding, or refuses a payload over MaxPayload and writes nothing |
| `ExecFrame.EncodeLayout` | internal/execframe/frame.go:26-40 | byte by byte: the kind, the payload's length in four bytes with the most significant first, the payload |
| `ExecFrame.ResizeCodec` | internal/execframe/frame.go:70-82 | a RESIZE payload decodes to given dimensions iff it is their encoding |
| `ExecFrame.ExitCodec` | internal/execframe/frame.go:85-97 | an EXIT payload decodes to a given signed code and message iff it is their encoding |
| `ExecFrame.ResizeLayout` | internal/execframe/frame.go:70-74 | rows, then columns, each in two bytes with the most significant first |
| `ExecFrame.ExitLayout` | internal/execframe/frame.go:85-90 | the two's complement of the code in four bytes with the most significant first, then the message |
| `PfFrame.OpenCodec` | internal/pfframe/frame.go:35-47 | an OPEN payload decodes to a given id and port iff it is their encoding |
| `PfFrame.DataCodec` | internal/pfframe/frame.go:50-62 | a DATA or CONN_ERROR payload decodes to a given id and bytes iff it is their encoding |
| `PfFrame.ConnIdCodec` | internal/pfframe/frame.go:65-76 | a CLOSE payload is accepted for an id iff it starts with that id's encoding |
| `PfFrame.FrameOfLayout` | internal/pfframe/frame.go:17-76 | the six kinds by number, and each payload byte by byte |
| `PfFrame.ParseInvertsFrameOf` | internal/central/portforward_http.go:18-41 | each end understands a frame of the other as exactly the message it was made from, and ignores frames of the wrong direction |
| `PfFrame.WireRoundTrip` | internal/pfframe/frame.go:26-33 | a whole log of messages crosses the wire unchanged in either direction |
| `Glob.MatchPattern` | internal/central/rbac.go:18-42 | the loop terminates within (value+1)(pattern+1) iterations; true implies a glob match, and both ways for values with no star before their last character |
| `Glob.MatcherIsSound` | internal/central/rbac.go:18-42 | whatever the matcher accepts, the recursive meaning of the pattern accepts |
| `Glob.MatcherIsComplete` | internal/central/rbac.go:18-42 | for values with no star before the last character every glob match is found, though only the last star is retried |
| `Glob.RunIsForced` | internal/central/rbac.go:30-34 | why retrying only the last star is enough: a match from there either ends the current run here or lies further right |
| `Glob.ExactForValue` | internal/central/rbac.go:20-34 | matcher and meaning agree on a value under all patterns iff the value has no star before its last character |
| `Glob.ExactForPattern` | internal/central/rbac.go:20-34 | they agree on a pattern for all values iff the pattern has no star |
| `Glob.MissedValue` | internal/central/rbac.go:23-25 | for every pattern with a star, a value that it means to match and the matcher rejects |
| `AccessRequests.ParseAccessRequest` | internal/central/rbac.go:67-109 | the verb is the first token; for logs, exec, attach, port-forward and cp the resource is "pods", otherwise the text before the first slash of the first argument that does not start with a dash, and "" if there is none; the namespace is that of the last flag not swallowed as a value, else the fallback, else "default" |
| `AccessRequests.FindNamespace` | internal/central/rbac.go:79-93 | the left-to-right scan ends with the value that the last effective flag names, in whichever of its forms it comes |
| `AccessRequests.FindResource` | internal/central/rbac.go:95-107 | the resource as stated for the whole request |
| `AccessRequests.ScanFindsLastEffective` | internal/central/rbac.go:79-103 | the scan with value skipping equals a position-based definition of the last effective flag |
| `AccessRequests.EffectiveExactly` | internal/central/rbac.go:79-93 | an argument is an effective flag iff it has one of the flag's forms and an even number of separate flags stands right before it |
| `AccessRequests.NamedIsEffective` | internal/central/rbac.go:79-103 | a command names a namespace iff some flag of it is effective |
| `AccessRequests.ExtractNamespace` | internal/cli/kubectl.go:89-96 | the CLI takes the value of the first separate flag, or nothing |
| `AccessRequests.ParsersAgree` | internal/central/rbac.go:67-109 | the CLI's namespace as fallback leaves the whole request as with an empty fallback, iff the flag is not one only the CLI sees |
| `AccessRequests.ParsersAgreeOnVerbFirst` | internal/cli/kubectl.go:89-96 | in particular for every command whose first token is not a namespace flag |
| `Policies.AnyMatch` | internal/central/policy.go:125-132 | true iff some pattern matches |
| `Policies.AnyVerb` | internal/central/policy.go:134-141 | true iff some verb of the rule is a star or the same as the request's up to case and space |
| `Policies.RolesFor` | internal/central/policy.go:55-66 | lists exactly the roles held by a matching binding or by default |
| `Policies.Allows` | internal/central/policy.go:69-85 | true iff a role that a matching binding or the default gives has a rule with a matching pattern for cluster, namespace and resource, and the verb |
| `Policies.GrantsAsDocumented` | internal/central/policy.go:46-85 | never grants more than the documented glob meaning, and the same on ordinary values |
| `Policies.GrantsLess` | internal/central/policy.go:46-85 | for every request outside the ordinary values, a policy under which the documentation grants it and the evaluator does not |
| `Policies.AsDocumentedExactly` | internal/central/policy.go:46-85 | the evaluator decides as documented under every policy iff subject, cluster, namespace and resource are ordinary values |
| `Policies.AddingNeverRevokes` | internal/central/policy.go:55-85 | monotone under adding bindings, roles, rules, patterns or verbs |
| `Policies.OrderIsIrrelevant` | internal/central/policy.go:55-85 | independent of the order of bindings, roles and rules |
| `Policies.Validate` | internal/central/policy.go:101-123 | accepts exactly the well-formed policies, with a true reason for each rejection |
| `Policies.HeldRolesAreDefined` | internal/central/policy.go:101-123 | under a validated policy every role a subject holds is defined, exactly once |
| `Policies.PolicyEngine.Reload` | internal/central/policy.go:175-182 | swaps the policy only for one that read, parsed and validated |
| `Policies.PolicyEngine.Watch` | internal/central/policy.go:188-228 | after any sequence of reloads the policy in force is the one InForce defines |
| `Policies.PolicyEngine.Permits` | internal/central/policy.go:169-173 | decides by the policy in force |
| `Policies.InForceIsLastValid` | internal/central/policy.go:175-182 | the policy in force is always validated: the last document that loaded, or the initial one |
| `StreamManager.StreamSession.Close` | internal/central/stream_manager.go:64-76 | only the first close sets the outcome |
| `StreamManager.StreamSession.TrySend` | internal/central/stream_manager.go:300-306 | delivers iff the session's channel for this kind of chunk has room |
| `StreamManager.StreamSession.Receive` | internal/central/exec_http.go:47-60 | a receive yields queued chunks in order and, once closed and drained, the end |
| `StreamManager.SessionManager.constructor` | internal/central/stream_manager.go:99-108 | an empty manager; a limit that is not positive means 50 |
| `StreamManager.SessionManager.RegisterAgentStream` | internal/central/stream_manager.go:111-115 | the new stream becomes the agent's, with no sessions |
| `StreamManager.SessionManager.Start` | internal/central/stream_manager.go:156-194 | no stream, cap reached, send failed or started, each with its whole effect on the state |
| `StreamManager.SessionManager.AllocateSession` | internal/central/stream_manager.go:166-173 | a fresh, open session that is not yet in the map |
| `StreamManager.SessionManager.InsertSession` | internal/central/stream_manager.go:189-192 | enters the session in both maps |
| `StreamManager.SessionManager.SendTo` | internal/central/stream_manager.go:197-293 | sends on the stream registered for the session's agent, and only for a session in the map |
| `StreamManager.SessionManager.DropSession` | internal/central/stream_manager.go:369-378 | leaves both maps, wherever the agent's stream now is |
| `StreamManager.SessionManager.Cancel` | internal/central/stream_manager.go:341-361 | a tracked session leaves the map and has the outcome (-1, "canceled"); its agent is sent one Cancel if it has a stream and the send succeeds |
| `StreamManager.SessionManager.RouteChunk` | internal/central/stream_manager.go:296-338 | delivers the chunk, or cancels the session if its channel is full, or ignores it |
| `StreamManager.SessionManager.ReceiveChunk` | internal/central/exec_http.go:47-60 | a bridge's receive takes the head of its session's channel, whether or not the session is still in the map |
| `StreamManager.SessionManager.RouteExit` | internal/central/stream_manager.go:307-311 | a tracked session leaves the map and has exactly the outcome that the agent reported |
| `StreamManager.SessionManager.UnregisterAgentStream` | internal/central/stream_manager.go:118-133 | takes the agent's listed sessions out, and each of them then has the outcome (-1, "agent disconnected"); no other session leaves |
| `Sessions.DetachKeeps` | internal/central/stream_manager.go:118-129 | unregistering keeps the invariant, and what it hands to be closed is out of the map |
| `Sessions.TransmitKeeps` | internal/central/stream_manager.go:175-186 | a send keeps the invariant provided the session's start came first |
| `Sessions.InsertKeeps` | internal/central/stream_manager.go:189-192 | the insert keeps the invariant for a session that was announced and never inserted |
| `Sessions.DropKeeps` | internal/central/stream_manager.go:369-378 | a drop keeps the invariant and only ever moves forward |
| `Sessions.CloseKeeps` | internal/central/stream_manager.go:64-76 | closing a session that is out of the map keeps the invariant and changes no earlier outcome |
| `Sessions.PopKeeps` | internal/central/exec_http.go:47-60 | a bridge's receive keeps the invariant and undoes nothing |
| `Sessions.PopMakesRoom` | internal/central/stream_manager.go:300-306 | after a receive a channel has room for the kind of chunk it takes |
| `SessionRuns.StepKeepsInv` | internal/central/stream_manager.go:111-378 | every step of every interleaving keeps the invariant and never undoes an ending |
| `SessionRuns.TrackedSessionsAreOpen` | internal/central/stream_manager.go:307-378 | drop before close: in every reachable state a session in the map is open |
| `SessionRuns.EndingsAreFinal` | internal/central/stream_manager.go:64-76 | a session that left the map never returns and its outcome never changes, whatever races |
| `SessionOutcomes.OutcomesHaveCauses` | internal/central/stream_manager.go:118-361 | in every reachable state the outcome of a session is one that a routed exit reported for it, or (-1, "canceled") after a cancel or a chunk for it, or (-1, "agent disconnected") after an unregistration of its agent |
| `SessionRuns.NothingBeforeStart` | internal/central/stream_manager.go:175-193 | no Cancel or relayed message is sent for a session, on any stream, before its start was sent |
| `SessionRuns.StaleStreamsStayStale` | internal/central/stream_manager.go:285-293 | connFor never returns a stream that was replaced or unregistered |
| `SessionRuns.ListedSessionsAreTracked` | internal/central/stream_manager.go:111-133 | a registered stream lists only sessions in the map, also under interleaving and re-registration |
| `SessionRuns.LoadIsBounded` | internal/central/stream_manager.go:163-192 | with at most k overlapping starts, tracked sessions plus starts under way stay within max + k - 1 |
| `SessionRuns.SessionsAreCapped` | internal/central/stream_manager.go:163-192 | the same bound in every state of every run from an empty manager |
| `SessionCalls.WholeCallIsRun` | internal/central/stream_manager.go:111-378 | an uninterrupted call is a run of the interleaved system with the effect its method has |
| `SessionCalls.DeliverUninterrupted` | internal/central/stream_manager.go:296-306 | Route never meets a closed channel if nothing comes between its lookup and its send |
| `SessionCalls.RegisterKeepsIndexExactly` | internal/central/stream_manager.go:111-115 | registering keeps the maps in agreement iff the replaced stream lists no session |
| `SessionCalls.InsertKeepsIndexExactly` | internal/central/stream_manager.go:189-192 | inserting a started session keeps the maps in agreement iff the stream captured at its check is still the registered one |
| `SessionCalls.IndexedIsDisjointUnion` | internal/central/stream_manager.go:84-97 | agreement makes the map the disjoint union of the streams' maps |
| `SessionCalls.IndexAgreement` | internal/central/stream_manager.go:111-378 | over every history of whole calls with orderly registration the map is that disjoint union, and every started session is tracked and open or untracked and closed |
| `SessionCalls.ChunksPassThrough` | internal/central/stream_manager.go:296-306 | any number of chunks passes through a session whose bridge keeps up, and leaves the manager as it was |
| `SessionCalls.CancelInBetweenPanics` | internal/central/stream_manager.go:298-306 | for every tracked session, a Cancel between Route's lookup and its send makes that send meet a closed channel |
| `SessionCalls.CapIsReached` | internal/central/stream_manager.go:163-192 | for every limit and every k some run reaches max + k - 1 sessions |
| `SessionCrashes.CrashesExactly` | internal/central/stream_manager.go:296-306 | a run sends on a closed session channel iff some Route call found its session in the map and the session was closed before that call's next step |
| `SessionHomes.ListedExactly` | internal/central/stream_manager.go:163-192 | under every interleaving a tracked session is listed by its agent's registered stream iff its start was sent on that stream |
| `SessionHomes.LookupFindsHomeExactly` | internal/central/stream_manager.go:285-293 | connFor finds the stream that carried the session's start iff the session is listed; otherwise a stream that never did |
| `SessionHomes.HomeHearsStartFirst` | internal/central/stream_manager.go:175-193 | what is sent for a session on the stream of its start comes after that start on that stream |
| `SessionHomes.EarlyMessagesAreDropped` | internal/central/stream_manager.go:175-192 | until the insert, chunks and exits routed to the session change nothing, and the insert leaves it tracked and open |
| `SessionHomes.DisconnectTakesExactly` | internal/central/stream_manager.go:118-133 | UnregisterAgentStream takes exactly the tracked sessions out whose start was sent on the stream now registered for the agent |
| `SessionHomes.StreamEndTakesExactly` | internal/central/grpc.go:231-241 | the end of a stream takes a session started on it out of the map iff that stream is still the registered one |
| `SessionHomes.StaleEndTakesSuccessor` | internal/central/grpc.go:231-241 | the end of a replaced stream leaves its own sessions in the map, takes its successor's out, and leaves the agent's sessions without a stream |
| `SessionHomes.StaleEndHappens` | internal/central/grpc.go:231-241 | an input: two registrations with a session each, then the end of the first stream |
| `SessionHomes.UnlistedForGood` | internal/central/stream_manager.go:111-133 | a tracked session that is not listed is never listed again |
| `SessionHomes.StartOvertaken` | internal/central/stream_manager.go:163-192 | from every state a start that passed its check can be overtaken by the end of its stream, leaving its session tracked, open and unlisted |
| `SessionHomes.LeftIsClosed` | internal/central/stream_manager.go:118-133 | a session that left the map is closed or some call still under way closes it; with no call under way it is tracked and open or untracked and closed |
| `SessionHomes.StreamEndEndsItsSessions` | internal/central/stream_manager.go:118-133 | when a stream ends that was not replaced, whatever else is under way, every session started on it is out of the map for good and closed once the calls under way are done; if it was replaced they stay |
| `AgentEndpoint.OpenStream` | internal/central/grpc.go:217-241 | serving a stream is registering, routing each message in order with any calls of other handlers and receives of bridges in between, and unregistering, on any state of the manager |
| `AgentEndpoint.StreamEndEndsSessions` | internal/central/stream_manager.go:118-133 | after any orderly history of whole calls, when an agent's stream ends every session of that agent that was ever in the map is out of it and closed |
| `ExecClient.ShowOutput` | internal/cli/exec.go:240-270 | the client's loop writes the data of the STDOUT and STDERR frames to their files, in order, up to the first EXIT, whose code and message it takes |
| `ExecBridge.RunExecBridge` | internal/central/exec_http.go:42-62 | the select loop under any schedule takes the steps of the relay model, byte for byte; what a client makes of those bytes is in the rows on what it sees |
| `ExecBridge.SelectOutput` | internal/central/exec_http.go:47-60 | one pass relays the next chunk as a frame of kind 0x10 or 0x11 with its data, or writes EXIT, kind 0x12, with the outcome's code and message, and returns it |
| `ExecBridge.ForwardInput` | internal/central/exec_http.go:25-40 | the upstream loop passes on exactly the STDIN and well-formed RESIZE frames of the body, in order |
| `ExecBridge.InputArrives` | internal/central/exec_http.go:25-40 | whatever input frames the client writes, the manager is asked to send exactly that input |
| `ExecBridge.InputLayout` | internal/execframe/frame.go:15-16 | typed bytes travel as kind 0x00 and window sizes as kind 0x01, rows first |
| `ExecBridge.EarlyIsBeforeInsert` | internal/central/stream_manager.go:175-192 | before the insert every chunk that Route gets is dropped, and nothing ends the session |
| `ExecBridge.OfferedIsAfterInsert` | internal/central/stream_manager.go:296-338 | after it every chunk is offered to the session, in order, up to its end |
| `ExecBridge.EndHasCause` | internal/central/stream_manager.go:296-361 | a session ends only by an exit, cancel, loss of the agent or overflowing chunk that the schedule has |
| `ExecBridge.ReceivedIsPrefix` | internal/central/exec_http.go:42-62 | while the bridge runs the client's loop has shown exactly the chunks the bridge took, which are a gap-free, in-order run of those the agent sent, from the first one after the insert |
| `ExecBridge.FinalConversation` | internal/central/exec_http.go:47-60 | a client that stays is shown all chunks from the insert on and then exactly the code and message of the session's outcome, after an overflow all but the lost chunk and (-1, "canceled"), iff chunks and message fit into frames |
| `ExecBridge.NothingMissedExactly` | internal/central/stream_manager.go:175-192 | it is shown all that the agent sent iff moreover no chunk was routed before the insert |
| `ExecBridge.EarlyChunkIsLost` | internal/central/stream_manager.go:175-192 | an input: a chunk routed before the insert never shows up |
| `ExecBridge.RepeatedChunkHidesLoss` | internal/central/stream_manager.go:175-192 | an input: after such a loss the frames received so far can still be a prefix of what the agent sent, because a chunk repeats |
| `ExecBridge.MissedExitWaits` | internal/central/stream_manager.go:307-311 | after an exit routed before the insert the bridge returns only by a cancel, the loss of the agent or the client leaving |
| `ExecBridge.ReturnMeansEnded` | internal/central/exec_http.go:42-62 | the bridge never returns before the session has ended |
| `CliPortForward.PfConnRegistry.HandleConn` | internal/cli/portforward.go:222-229 | allots the next id, lists the connection with its socket open, and writes its OPEN unless the pipe is closed |
| `CliPortForward.PfConnRegistry.CloseConn` | internal/cli/portforward.go:246-254 | takes the connection out and closes its socket, which only the caller that found it listed does |
| `CliPortForward.PfConnRegistry.ReadLoop` | internal/cli/portforward.go:256-293 | of the messages read up to the first SESSION_ERROR: a connection with a CLOSE or CONN_ERROR is no longer listed and its socket is closed, any other is as before, each listed one got its data from before its end, READY and the error text are kept |
| `CliPortForward.PfConnRegistry.Shutdown` | internal/cli/portforward.go:297-308 | leaves no connection listed, no socket open and the pipe closed |
| `CliPortForward.PfConnRegistry.WriteMsg` | internal/cli/portforward.go:198-202 | writes one frame, or nothing once the pipe is closed or the payload is too large |
| `CliPortForward.ReceivedKeepsPrefix` | internal/cli/portforward.go:268-291 | per connection, bytes delivered stay a prefix of bytes received, and all of them while it is listed |
| `CliPortForward.AcceptedKeepsPrefix` | internal/cli/portforward.go:222-226 | a new connection starts clean if its id was never used before |
| `CliPortForward.ReadLoopMeans` | internal/cli/portforward.go:256-293 | the loop's left-to-right treatment comes to that, whatever the messages |
| `PfBridge.ForwardUpstream` | internal/central/portforward_http.go:18-41 | the upstream goroutine passes on exactly the well-formed OPEN, DATA and CLOSE frames of the body, in order |
| `PfBridge.UpstreamIsWhatWasWritten` | internal/central/portforward_http.go:18-41 | whatever messages the CLI writes, those are what the manager is asked to send |
| `PfBridge.SelectOutput` | internal/central/portforward_http.go:43-72 | one pass of the select is the relay model's step: same bytes, same queue, and it returns the error just when serving ends |
| `PfRefinement.StartRefines` | internal/central/stream_manager.go:219-244 | the manager's state after a port-forward start's send is the relay model's first state |
| `PfRefinement.InsertRefines` | internal/central/stream_manager.go:246-249 | the insert is the relay model's step |
| `PfRefinement.HeardRefines` | internal/central/stream_manager.go:253-293 | a relayed message reaches the session's own stream in the manager exactly when it does in the relay model |
| `PfRefinement.RoutedRefines` | internal/central/stream_manager.go:328-338 | routePf in the manager is the relay model's step, overflow included |
| `PfRefinement.CancelRefines` | internal/central/stream_manager.go:341-361 | Cancel in the manager is the relay model's drop |
| `PfRefinement.AbandonRefines` | internal/central/portforward_http.go:45-48 | so is the bridge's Done branch |
| `PfRefinement.RegisterRefines` | internal/central/stream_manager.go:111-115 | re-registration only takes the session's stream away |
| `PfRefinement.UnregisterRefines` | internal/central/stream_manager.go:118-133 | the end of the registered stream drops the session iff that stream was its own |
| `PfRefinement.SelectRefines` | internal/central/portforward_http.go:43-72 | the bridge's select is a receive from the session's channel |
| `PfRefinement.FollowsRefines` | internal/central/stream_manager.go:111-378 | any call about this or another session or agent is the relay model's step for it, or changes nothing for the session |
| `PfRefinement.HistoryRefines` | internal/central/stream_manager.go:111-378 | over any history of such calls the manager's session stays the one the relay model's steps produce |
| `AgentPortForward.PfSession.OpenConn` | internal/agent/portforward.go:64-78 | lists the connection with an empty queue, or answers with one CONN_ERROR carrying the reason |
| `AgentPortForward.PfSession.DataFor` | internal/agent/portforward.go:112-126 | queues the chunk, or closes the connection and reports "write buffer full: connection dropped" when 32 are waiting, or ignores it |
| `AgentPortForward.PfSession.Close` | internal/agent/portforward.go:128-137 | takes the connection out and closes it |
| `AgentPortForward.PfSession.Handle` | internal/agent/stream.go:97-109 | handling a message from central is the step that the session model takes; a CLOSE leaves its connection untracked |
| `AgentPortForward.PfSession.ShutdownAll` | internal/agent/portforward.go:139-148 | closes every listed connection, each once |
| `AgentPortForward.ProcessKeepsPrefix` | internal/agent/portforward.go:64-137 | per connection, bytes queued stay a prefix of bytes received, and all of them while it is listed |
| `AgentPortForward.ClosingKeepsPrefix` | internal/agent/portforward.go:128-148 | closing connections at any time keeps that |
| `AgentTeardown.ClosedAtMostOnce` | internal/agent/portforward.go:112-148 | under every interleaving of data, closeConn and shutdown no channel is closed twice and no listed one is closed |
| `AgentTeardown.TeardownIsExactlyOnce` | internal/agent/portforward.go:75-148 | once all calls have returned every connection was closed exactly once, except those whose map entry an open overwrote, which never are |
| `AgentTeardown.CrashesExactly` | internal/agent/portforward.go:112-126 | a run sends on a closed connection channel iff some data call found its connection listed and that was closed before the call's next step |
| `AgentTeardown.FreshIdsReplaceNothing` | internal/agent/portforward.go:75-78 | with fresh ids no entry is ever overwritten |
| `AgentTeardown.CloseEndsOne` | internal/agent/portforward.go:128-137 | closeConn, undisturbed, takes the connection out and closes it once, and changes nothing else |
| `AgentTeardown.DataEndsFull` | internal/agent/portforward.go:112-126 | data, undisturbed, does so for a connection without room and leaves the others |
| `AgentTeardown.ShutdownEndsAll` | internal/agent/portforward.go:139-148 | from every state shutdown can go through, and has then closed exactly what was listed |
| `AgentTeardown.TornDown` | internal/agent/portforward.go:112-148 | from every reachable state with no call under way a shutdown can leave every connection that was not replaced closed exactly once |
| `AgentStreams.SessionCancels.Add` | internal/agent/stream.go:161-165 | enters a session with a new context |
| `AgentStreams.SessionCancels.CancelOne` | internal/agent/stream.go:170-177 | cancels and forgets the entry under the id, if there is one |
| `AgentStreams.SessionCancels.CancelEverything` | internal/agent/stream.go:180-187 | cancels every tracked context and empties the table |
| `AgentStreams.SessionCancels.Serve` | internal/agent/stream.go:52-96 | serving a stream to its end is handling its events in order and then cancelling everything |
| `AgentStreams.NoOrphansExactly` | internal/agent/stream.go:52-96 | when the stream ends every context created on it is cancelled iff no start reused the id of a tracked session; the table is empty either way |
| `AgentStreams.DistinctIdsLeaveNoOrphans` | internal/agent/stream.go:161-187 | with distinct ids no context outlives its stream, for every order of starts, cancels and completions |
| `AgentStreams.CancelledExactly` | internal/agent/stream.go:161-187 | before the stream ends a session's context is cancelled iff its cancel arrived or its goroutine finished before its id was started again, and tracked iff none of the three happened |
| `AgentStreams.SessionCancels.SetPf` | internal/agent/stream.go:213-219 | stores the pfSession of a tracked session |
| `AgentStreams.PfForExactly` | internal/agent/stream.go:213-228 | the pfSession found for a tracked session is the last one stored since its start, and none if there was none |
| `PfRelaySafety.Take` | internal/execframe/frame.go:44-58 | on a wire that carries a log, the next frame read is the next message of the log |
| `PfRelaySafety.Put` | internal/execframe/frame.go:26-40 | writing a message extends log and wire alike |
| `PfRelaySafety.ReadyCameThrough` | internal/agent/stream.go:126-131 | a client that has seen READY was told by the agent, whose session is set up |
| `PfRelaySafety.QuietBeforeRouting` | internal/cli/portforward.go:157-176 | until something was routed to the session the client has opened nothing and the agent has sent one message at most |
| `PfRelaySafety.NextForAgent` | internal/agent/stream.go:97-109 | what the agent takes next is a message the CLI wrote, and an OPEN is the first the agent hears of that connection |
| `PfRelaySafety.AcceptKeeps` | internal/cli/portforward.go:222-228 | accepting keeps the invariant of the whole session because nothing was ever said about the next id |
| `PfRelaySafety.RouteKeeps` | internal/central/stream_manager.go:328-338 | routing keeps it: an overflow ends the session instead of leaving a gap |
| `PfRelaySafety.AgentReceiveKeeps` | internal/agent/stream.go:97-109 | the agent's receive loop keeps it |
| `PfRelayRuns.StepKeeps` | internal/central/portforward_http.go:17-73 | every action of every party keeps the invariant |
| `PfRelayRuns.PodGetsPrefix` | internal/agent/portforward.go:64-137 | in every reachable state, for every connection, bytes written to the pod and bytes queued for it are gap-free prefixes of the bytes the CLI read on that connection |
| `PfRelayRuns.PodGetsAll` | internal/agent/portforward.go:64-137 | and all of them once nothing is under way and the connection stands |
| `PfRelayRuns.ClientGetsPrefix` | internal/cli/portforward.go:256-293 | in every reachable state, for every connection, bytes delivered to the client are a gap-free prefix of the bytes read from the pod on that connection |
| `PfRelayRuns.ClientGetsAll` | internal/cli/portforward.go:256-293 | and all of them once nothing is under way and the connection stands |
| `PfRelayRuns.ReadyBeforeOpen` | internal/agent/stream.go:113-131 | whenever the CLI has written anything, the agent had sent READY and finds the session set unless it was cancelled |
| `PfRelayRuns.AgentSpeaksInOrder` | internal/agent/stream.go:113-131 | an agent says nothing, or one SESSION_ERROR, or READY and then only messages about connections |
| `PfRelayRuns.ClientHearsPrefix` | internal/central/portforward_http.go:43-72 | what the client is told is in order what the agent said, but for one final error |
| `PfRelayRuns.ReadyCanBeLost` | internal/central/stream_manager.go:239-249 | a READY can be routed between PortForwardStart and the insert, with the agent's session set up |
| `PfEndings.EndedIsUnlisted` | internal/cli/portforward.go:279-286 | in every reachable state a connection whose CLOSE or CONN_ERROR the CLI has read is not listed there, and one whose CLOSE the agent has handled, or whose end it has told, is not tracked by it |
| `PfEndings.LocalEofReachesPod` | internal/cli/portforward.go:230-243 | once the local program has stopped sending and all has arrived upwards, the pod's side no longer tracks the connection |
| `PfEndings.PodEofReachesClient` | internal/agent/portforward.go:89-109 | once the pod has stopped sending on a connection, or its dial was refused, and all has arrived downwards, the CLI no longer lists it |
| `PfEndings.PodEndsHaveReasons` | internal/agent/portforward.go:64-148 | a connection that was opened is tracked unless its end was told, the CLI closed it, or the session ended |
| `PfEndings.CliEndsHaveReasons` | internal/cli/portforward.go:222-308 | an accepted connection is listed unless its end was read, or it was closed here, or the CLI shut down |
| `PfEndings.PortIsKept` | internal/cli/portforward.go:222-229 | whatever else goes on, the agent handles an OPEN for the port on which the connection was accepted |
| `PfEndings.SessionEndIsTold` | internal/central/portforward_http.go:43-72 | a bridge whose client stays returns after a SESSION_ERROR of the agent, or once the session was dropped and all that was routed to it is written, with the reason of the drop as its last message |
| `PfEndings.ShutdownLeavesNothing` | internal/agent/stream.go:126-140 | after the session's goroutine ended no connection is tracked until the agent handles another message |
| `PfEndings.CancelledHandlesNothing` | internal/agent/stream.go:170-228 | once a session left the agent's table the agent handles no further message for it |
| `PfParties.Connect` | internal/cli/portforward.go:222-229 | the registry's accept and OPEN are the relay model's two steps, with the same bytes |
| `PfParties.Pump` | internal/cli/portforward.go:230-240 | so is passing on a chunk |
| `PfParties.PumpEnd` | internal/cli/portforward.go:241-242 | and the end of a local connection |
| `PfParties.Interrupt` | internal/cli/portforward.go:297-308 | and the shutdown |
| `PfParties.ReadOne` | internal/cli/portforward.go:256-293 | and one pass of the read loop |
| `PfParties.Receive` | internal/agent/stream.go:97-109 | the pfSession's handling of the next message is the relay model's step at the agent |
| `PfParties.PumpBack` | internal/agent/portforward.go:89-104 | so is passing on what the pod sent |
| `PfParties.PumpBackEnd` | internal/agent/portforward.go:105-109 | and the end of the pod's side |
| `PfParties.PumpOut` | internal/agent/portforward.go:80-87 | and the write of a queued chunk |
| `PfParties.Teardown` | internal/agent/portforward.go:139-148 | and the shutdown of all connections |
| `PfHandshake.CanGetReadyExactly` | internal/cli/portforward.go:157-176 | in every reachable state some continuation makes the client ready iff READY is on its wire, in its session's queue or still to come, and nobody who has to pass it on has left |
| `PfHandshake.ReadyUnlessMissed` | internal/central/stream_manager.go:239-249 | in every reachable state with all parties up, the client can become ready iff Route did not drop a message before the insert |
| `PfHandshake.LostReadyIsNeverRepaired` | internal/central/stream_manager.go:239-249 | after such a drop, in every continuation of every run, the client is not ready and has opened nothing |
| `PfHandshake.SessionComesUp` | internal/agent/stream.go:113-131 | from every reachable state with all parties up and nothing of the session seen yet, the handshake completes and the session is quiet |
| `PfDrain.ComesToRest` | internal/central/portforward_http.go:17-73 | every reachable session with all parties up, a ready client and its own stream has a continuation in which all that was under way has arrived |
| `PfSlots.ReturnLeavesTrackedExactly` | internal/central/portforward_http.go:43-72 | the bridge's return leaves the session in the map iff it relayed a SESSION_ERROR of a session that was still there |
| `PfSlots.LeftAfterError` | internal/central/portforward_http.go:65-68 | in every reachable state such a session's agent said nothing but that error |
| `PfSlots.SlotKeptExactly` | internal/central/portforward_http.go:65-68 | from every such state the session stays in the map iff nobody cancels it from outside or ends its stream |
| `PfSlots.FailureLeavesSlot` | internal/agent/stream.go:119-124 | an input: kubectl does not come up, the error is relayed, the session stays |
| `PfRelayService.NewConnectionIsServed` | internal/cli/portforward.go:222-244 | from every reachable quiet state a new connection gets its chunk to the pod and the reply back, and the session is quiet again |
| `CommandQueues.CommandQueue.Enqueue` | internal/central/commands.go:63-87 | adds one pending command with an empty result slot |
| `CommandQueues.CommandQueue.GetPendingForAgent` | internal/central/commands.go:98-109 | lists exactly this agent's pending commands, each once, in any order |
| `CommandQueues.CommandQueue.Mark` | internal/central/commands.go:112-122 | sets the status of a command still in the queue |
| `CommandQueues.CommandQueue.Settle` | internal/central/commands.go:125-172 | sets the final status and offers the result to the one-place channel, which keeps the first |
| `CommandQueues.CommandQueue.WaitForResult` | internal/central/commands.go:175-196 | takes the result, or gives up and marks a command that was not settled as timed out |
| `CommandQueues.CommandQueue.Remove` | internal/central/commands.go:199-203 | takes the command out |
| `CommandQueues.CommandQueue.GetPendingCommands` | internal/central/grpc.go:147-184 | undisturbed, a poll returns exactly the agent's pending commands and leaves them running |
| `CommandQueues.CommandQueue.SubmitCommandResult` | internal/central/grpc.go:187-214 | a submission with an error fails a command still in the queue, anything else completes it, and an empty slot then holds its output and exit code, or its error alone with exit code -1 |
| `CommandQueues.CommandQueue.HandleExec` | internal/central/http.go:219-246 | enqueue, wait, remove: the command is gone afterwards; the answer is none if the context wins the wait, else the output and exit code, or the error, of the first submission for it, whatever polls, submissions and other handlers come in between |
| `CommandQueues.FirstForIsEarliest` | internal/central/commands.go:125-172 | that answer has, field by field, what the earliest submission for the request sent in, and there is none exactly if nothing was submitted for it |
| `CommandRuns.QueueIsConserved` | internal/central/http.go:220-246 | the queue holds exactly the requests between Enqueue and Remove; nothing brings one back, and no status returns to pending |
| `CommandRuns.AnswersAreFirstResults` | internal/central/commands.go:125-196 | an answer is the first result placed for its request, has field by field what some submission for it sent in, and never changes |
| `CommandRuns.NoAnswerMeansGivenUp` | internal/central/commands.go:175-196 | under every interleaving a handler is left without a result only if its context ended its wait |
| `CommandRuns.SubmissionAnswers` | internal/central/grpc.go:187-214 | in every reachable state in which a handler waits and nothing was placed for it, a submission for it, once sent and received, answers it with its fields |
| `CommandRuns.PlacedIsReceived` | internal/central/commands.go:175-196 | in every reachable state a waiting handler for which something was placed receives the first of it |
| `CommandDispatch.DispatchedOnceExactly` | internal/central/grpc.go:157-176 | once all polls are answered, no request was handed out twice iff no poll took up a request of a snapshot still being answered |
| `CommandDispatch.DispatchedAtMostOnce` | internal/central/grpc.go:147-184 | under that condition, at any time, each request was handed out at most once and to its own agent |
| `CommandDispatch.PollsInTurnDispatchOnce` | internal/central/grpc.go:147-184 | in particular when polls of one agent take turns |
| `CommandDispatch.SharedSnapshotDispatchesTwice` | internal/central/grpc.go:160-163 | whenever two snapshots share a request some continuation hands it out twice |
| `CommandDispatch.OverlappingPollsDispatchTwice` | internal/central/grpc.go:157-163 | and two overlapping polls can do so with any request that is pending, in any state |

## Left out

- Transports: HTTP/2, gRPC, TCP, pipes and processes are FIFO queues and byte sequences; writers accept what is written, and a failing send is an argument of the call.
- Outcomes of the environment: dial results, fresh UUIDs and request ids, timeouts and the choice a select makes are arguments.
- Pointers: a session is named by its UUID and an agent's stream by its registration number, so `agentConn` objects are values in a sequence.
- `SessionManager.UnregisterAgentStream` closes its sessions in an order the model leaves open.
- AgentEndpoint.StreamEndEndsSessions: whole calls that do not overlap; for interleaved calls `SessionHomes.StreamEndEndsItsSessions` says which sessions end.
- AgentEndpoint.OpenStream: the calls of other handlers come between the routed messages, not inside a call; `SessionRuns` has those.
- `PfRelay` follows one session: messages of other sessions on the same stream are not in it, and Route, connFor with the send that follows, pfSession calls and the closing of a dropped session are single steps there (their interleavings are in `SessionRuns` and `AgentTeardown`).
- `PfRelay` counts accepted connections and its theorems hold while there are fewer than 2^32 of them; after that ids wrap and are reused.
- CommandQueues.CommandQueue.HandleExec: what happens while it waits are whole calls (`CommandRuns` interleaves their sections); argument checks, authorization and audit around it are not modelled.
- PfRefinement.HistoryRefines: whole calls, and sends to the session's own stream that succeed; a failed send means a broken stream, which `PfRelay` has as `DoStreamLost`.
- PfBridge.SelectOutput: one pass of the select; the interleaving of passes with other parties is in `PfRelay`, and the Done branch is its `Abandon`.
- AgentPortForward.PfSession.OpenConn: the two goroutines it starts are the `PodWrite`, `PodRead` and `PodEof` steps of `PfRelay`; chunks a writer still drains between the close of its channel and of its socket are not counted as written.
- Input at the agent: `stdinTo` may drop a chunk after a second and `resizeTo` drops freely, so nothing is claimed there.
- Case folding and space trimming in verbs are the parameter `same`; YAML parsing, file watching and signals are the `Document` of a reload.
- Policies.PolicyEngine.Watch: a sequence of reload events stands for fsnotify and SIGHUP.
- `CommandQueue.Get` and `CleanupOld`, HTTP status mapping, audit records and timeouts' lengths.
- `parsePortForwardArgs`, `parsePortSpec`, `parseForwardLine`, `clampDim`, `buildExecArgs`, kubectl output parsing: single-branch logic on strings.
- Tokens, credentials, the agent store, the SQLite store and the CLI's configuration.
