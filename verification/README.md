# Verified model of the agent toolkit's protocols

This project models the parts of the repository that behave like protocols, and proves what they are relied on for.

- **Wire framing and messages** (`FramingSpec`, `Framing`, `Cbor`, `CborLaws`, `CborWriter`, `CborReader`, `ProtocolValues`,
  `Codec`): the incremental frame decoder over its header buffer and payload blocks refines a recursive parser under every
  chunking; the CBOR subset round-trips and decoding normalizes; lists of messages survive any chunking.
- **Client sessions over a connection** (`LeaseBooks`, `Leases`, `LeaseCleanup`, `LeaseWitnesses`, `SessionLeases`,
  `ClientState`, `Connection`, `Requests`): leases of a session as a transition system whose steps are the synchronous
  stretches of client code, server messages and user calls; the connection and its handshake; requests and answers.
- **Agent loop and its wrapper** (`AgentEvents`, `AgentTools`, `AgentLoop`, `AgentQueue`, `AgentScript`, `AgentRuns`,
  `AgentConversation`, `Agent`): nested loops that emit events, run tools in order or interleaved, and inject queued
  messages; the reducer that rebuilds the transcript from the events. The model, the tools and the hooks are finite scripts.
  The loops and the wrapper are proved to compute two reference functions, the course of a run (`AgentScript`) and what a
  sequence of operations makes of a conversation (`AgentConversation`), about which the properties of whole runs are proved.
- **Model catalog** (`Publication`, `Models`): generations, abort signals and the chain of publications of each provider.
- **Transcript packing** (`Packing`): a greedy packer and its optimality.

`Basics` holds shared vocabulary. `dafny verify dfyconfig.toml` checks everything.

## What the proofs found

- An acquire that is in flight when its session is removed leads to an exclusive and a shared lease that are active at the
  same time (`LeaseWitnesses.StraddlingSharesAnExclusiveLease`). The accounting survives an invalidation if and only if no
  acquire or detach is pending (`LeaseBooks.InvalidateKeepsIffIdle`).
- Between the rejection of a detach, which clears the detachment that acquires wait for, and the failure handler of the
  disposal there is one microtask. An acquire call made in it gets an active handle on a session that is then marked for
  cleanup, so a later reconciliation would cut it off
  (`LeaseWitnesses.WindowLeavesActiveHandleOnMarkedSession`). `LeaseCleanup.AcquireTidyIff` gives the exact condition, which
  a caller can check: no disposal is being given up, or the acquire is refused.
- A response stream with a second `start` leaves a partial message in the context for good and opens a second message before
  the first is closed (`AgentLoop.StreamedTrace`, `AgentLoop.LeftoversCount`). The documentation of the stream
  events allows one start.
- A batch of tool calls cut short by an abort leaves unanswered calls in the context, and every list built on it is ill
  formed (`AgentEvents.CutBatchIsIllFormed`, `AgentScript.NextRequestIffWhole`).
- A steering message that arrives after the last poll of the steering queue, while the follow-up queue is polled for the last
  time, stays queued when the run returns: `steer` during a run does not mean that this run injects it (`AgentScript.RunEnds`).
- The second flush of the packing loop, before an oversized transcript, is never reached with content: the first condition
  has already flushed it.

## Hypotheses

- Lease results hold for runs without straddling: no acquire or detach of a session is pending when that session is
  invalidated. The cleanup results also need that no acquire gets a reservation in the microtask described above, and that no
  snapshot event shows the session attached between the detach and the attach of a repair. These are the weakest conditions
  under which a step keeps the invariant (`LeaseCleanup.StepTidyIff`), and for each there is a run from the initial state in
  which it fails and the result with it (`LeaseWitnesses`).
- After a failed detach the releasing lease's own continuation and handler run before an acquire that waits for the same
  detach resumes, which is the order in which the reactions are registered (`packages/client/src/client.ts:231-268`).
- A created session has an id that this client has not used before, and the continuation of the create runs before the answer
  to a detach sent later.
- Connection callbacks do not call `connect()`, and no data arrive while a callback runs.
- A store operation takes effect no later than it settles. Publications may be made for any begun refresh at any time, which
  covers every order in which `refreshModels` of a provider can make them.
- In agent runs listeners and hooks do not throw, and each response stream starts at most once where a contract says so. A run
  whose environment ends before it returns is one that is still going on, and its contracts say where it has got.

## Model

| member | source | states |
|---|---|---|
| `FramingSpec.ParseAppend` | packages/protocol/src/framing.ts:73-144 | a stream parses as its prefix does, followed by what the prefix left over joined to the new bytes, for every cut |
| `FramingSpec.ParseRest` | packages/protocol/src/framing.ts:73-144 | the unconsumed rest of a parse holds no whole frame |
| `FramingSpec.BigEndianInjective` | packages/protocol/src/framing.ts:88-89 | a length prefix is determined by its value |
| `FramingSpec.ParseFrames` | packages/protocol/src/framing.ts:28-39 | the frames of any list of payloads under the limit parse to that list with nothing left over |
| `FramingSpec.FramesParse` | packages/protocol/src/framing.ts:73-144 | conversely, a stream that leaves no rest is exactly the frames of its payloads |
| `FramingSpec.PushAllIsParse` | packages/protocol/src/framing.ts:73-144 | successive pushes of any chunks, empty ones included, return the frames and the rest of the joined bytes; with an oversize header in the stream some push fails under every chunking |
| `FramingSpec.FailsAtFirstOversize` | packages/protocol/src/framing.ts:91-93 | the failing push is the k-th one exactly when the first k chunks parse and the first k+1 do not |
| `FramingSpec.EncodedPayloadsComeBack` | packages/protocol/src/framing.ts:28-144 | encoded payloads, joined and cut anywhere, come back from the pushes as the same list |
| `Framing.ResolveMaxFrameLength` | packages/protocol/src/framing.ts:19-25 | a limit is accepted exactly when it is between 0 and the largest 32-bit number; a missing one is the default |
| `Framing.EncodeFrame` | packages/protocol/src/framing.ts:28-39 | fails exactly beyond 32-bit lengths; otherwise a new array holds the four length bytes and then the payload |
| `Framing.CheckAcceptsOneFrame` | packages/protocol/src/framing.ts:42-53 | the check on a complete frame accepts exactly the bytes that parse to one frame and nothing else |
| `Framing.FrameDecoder.constructor` | packages/protocol/src/framing.ts:69-71 | a new decoder is open and has nothing pending |
| `Framing.FrameDecoder.TakePrefix` | packages/protocol/src/framing.ts:81-103 | the header buffer takes up to four bytes; the outcome follows the announced length, and an oversize one fails the decoder |
| `Framing.FrameDecoder.FillBlock` | packages/protocol/src/framing.ts:115-122 | one turn of the inner loop consumes at least one byte and writes it behind what the blocks hold |
| `Framing.FrameDecoder.AddBlock` | packages/protocol/src/framing.ts:109-114 | a new block is as long as the rest of the payload needs, at most 64 KiB |
| `Framing.FrameDecoder.AllocationBound` | packages/protocol/src/framing.ts:80-142 | while a payload is received, the blocks together are at most the announced length and at most the received bytes plus 65535 |
| `Framing.FrameDecoder.BlockIsPart` | packages/protocol/src/framing.ts:124-133 | when all is received, every block is full of its part of the payload |
| `Framing.FrameDecoder.JoinBlocks` | packages/protocol/src/framing.ts:128-134 | the joined array holds exactly the payload received |
| `Framing.FrameDecoder.TakeFrame` | packages/protocol/src/framing.ts:124-141 | a completed frame holds the payload, shares no storage with the decoder afterwards, and leaves nothing pending |
| `Framing.FrameDecoder.Turn` | packages/protocol/src/framing.ts:80-142 | one turn of the outer loop consumes at least one byte, and the fields then encode what the parser leaves over |
| `Framing.FrameDecoder.Push` | packages/protocol/src/framing.ts:73-144 | from what is pending and the chunk, exactly the frames of the parser are returned and its rest is pending; an oversize header fails the decoder; an ended or failed decoder refuses |
| `Framing.FrameDecoder.End` | packages/protocol/src/framing.ts:146-153 | succeeds exactly when the decoder is open and nothing is pending; otherwise it has failed for good |
| `Framing.FrameDecoder.Fail` | packages/protocol/src/framing.ts:155-164 | a failure clears every field |
| `Cbor.DigitsSplit` | packages/protocol/src/cbor/encoder.ts:50-55 | the bytes of a number are the bytes of its upper part followed by those of its lower part |
| `CborLaws.ArgumentBack` | packages/protocol/src/cbor/decoder.ts:119-143 | the head of an item reads back as its major type and its argument, for every safe integer |
| `CborLaws.ItemBack` | packages/protocol/src/cbor/encoder.ts:119-208 | whatever bytes follow, the encoding of an encodable value decodes to the value without its undefined properties, and the following bytes remain |
| `CborLaws.EncodedValuesComeBack` | packages/protocol/src/cbor/decoder.ts:161-168 | whatever is encoded within the limits is decoded, under the same limits, to the value without its undefined properties |
| `CborLaws.ArgumentIsShortest` | packages/protocol/src/cbor/decoder.ts:119-143 | no argument is read from fewer bytes than the encoder writes for it |
| `CborLaws.DecodedValuesComeBack` | packages/protocol/src/cbor/decoder.ts:20-24 | whatever is decoded can be encoded, in no more bytes, and decodes again to the same value |
| `CborWriter.CborWriter.EnsureCapacity` | packages/protocol/src/cbor/encoder.ts:68-80 | room is made exactly when the limit allows it; the contents stay, and the buffer never outgrows the limit |
| `CborWriter.CborWriter.WriteBytes` | packages/protocol/src/cbor/encoder.ts:28-32 | appends the bytes, or fails exactly when they exceed the limit and changes nothing |
| `CborWriter.WriteUint64` | packages/protocol/src/cbor/encoder.ts:50-55 | two words, upper first, are the eight bytes of the number |
| `CborWriter.WriteArgument` | packages/protocol/src/cbor/encoder.ts:83-100 | writes the head in its shortest form, and fails exactly when it does not fit |
| `CborWriter.EncodeText` | packages/protocol/src/cbor/encoder.ts:108-117 | text is written exactly when its UTF-8 form decodes back to it and fits |
| `CborWriter.EncodeValue` | packages/protocol/src/cbor/encoder.ts:119-208 | succeeds exactly for the encodable values whose encoding fits, and then appends that encoding |
| `CborWriter.EncodeCbor` | packages/protocol/src/cbor/encoder.ts:211-216 | returns the encoding exactly when the value is encodable and the encoding is within the limit |
| `CborReader.CborReader.ReadWord` | packages/protocol/src/cbor/decoder.ts:122-131 | reads a big-endian number of one, two or four bytes |
| `CborReader.CborReader.ReadArgumentValue` | packages/protocol/src/cbor/decoder.ts:119-143 | reads the argument that the decoding function gives, and moves the offset behind it |
| `CborReader.CborReader.ReadItem` | packages/protocol/src/cbor/decoder.ts:26-86 | reads the item that the decoding function gives from the rest of the bytes, or fails when it does |
| `CborReader.CborReader.ReadEntries` | packages/protocol/src/cbor/decoder.ts:61-78 | the entries of a map, refusing keys that are not text or occur twice |
| `CborReader.DecodeCbor` | packages/protocol/src/cbor/decoder.ts:161-168 | exactly one item within the limits and nothing after it |
| `ProtocolValues.IsProtocolValue` | packages/protocol/src/codec.ts:25-39 | ends on every finite object graph, leaves the ancestor set as it was, and computes the recursive search |
| `ProtocolValues.AcceptedIffAcyclicAndFine` | packages/protocol/src/codec.ts:25-39 | an object is accepted if and only if no path from it meets an object twice and every object reached is an array or a plain object with allowed leaves, undefined only as a property; sharing is accepted |
| `ProtocolValues.AcceptedIffTree` | packages/protocol/src/codec.ts:25-39 | the tree that a value stands for is a tree of protocol values if and only if the search accepts the value and no array it looks into has a hole |
| `Codec.EncodeProtocolMessage` | packages/protocol/src/codec.ts:60-76 | succeeds exactly for valid messages that are encodable under the resolved limit, with the frame of their encoding |
| `Codec.ValidatedMessageDecoder.constructor` | packages/protocol/src/codec.ts:95-100 | a new decoder has not failed and has nothing pending |
| `Codec.ValidatedMessageDecoder.Push` | packages/protocol/src/codec.ts:102-115 | returns the messages of the frames that the chunk completes; a framing failure or a frame that is no message fails it, and a failed decoder refuses every later push |
| `Codec.ValidatedMessageDecoder.End` | packages/protocol/src/codec.ts:117-125 | succeeds exactly when the decoder has neither failed nor ended and no frame is half received; a failure stays |
| `Codec.ReceiveAllIsParse` | packages/protocol/src/codec.ts:102-115 | pushing chunk by chunk gives the messages of the payloads of the joined bytes |
| `Codec.SentMessagesAreReceived` | packages/protocol/src/codec.ts:60-126 | any list of messages that can be sent under a limit, joined and cut into chunks anywhere, is received as that list without undefined properties and leaves nothing pending, if and only if the schema takes each message in that form; otherwise a push fails |
| `Codec.EndsWithWholeFrames` | packages/protocol/src/codec.ts:117-125 | when no push fails, nothing is pending at the end if and only if the stream is a whole number of frames |
| `Codec.ReceiveStream` | packages/protocol/src/codec.ts:88-126 | the decoder object, pushed any chunks and ended, returns the messages of the stream, or fails when a push or the end does |
| `LeaseBooks.LastHolder` | packages/client/src/client.ts:238-239 | a live lease that finds the count at one is the only holder |
| `LeaseBooks.ExclusiveIsAlone` | packages/client/src/client.ts:381-393 | a live exclusive lease is the only live lease, and no acquire is pending |
| `LeaseBooks.KeepReserve` | packages/client/src/client.ts:381-393 | a reservation keeps the accounting: count, exclusive token, and the one unfinished detach |
| `LeaseBooks.KeepFinish` | packages/client/src/client.ts:209-211 | turning a reservation into a lease of the current generation keeps the accounting |
| `LeaseBooks.KeepFail` | packages/client/src/client.ts:173-176 | a failed acquire gives its reservation back and keeps the accounting |
| `LeaseBooks.KeepReleaseNow` | packages/client/src/client.ts:250-253 | releasing one of several leases keeps the accounting |
| `LeaseBooks.KeepStartDetach` | packages/client/src/client.ts:238-241 | starting the last detach keeps the accounting |
| `LeaseBooks.KeepResume` | packages/client/src/client.ts:242-249 | the continuation of a detach, after success or failure, keeps the accounting |
| `LeaseBooks.KeepHandle` | packages/client/src/client.ts:254-266 | the failure handler of a release keeps the accounting, whether it relinquishes or restores the lease |
| `LeaseBooks.InvalidateKeepsIffIdle` | packages/client/src/client.ts:402-407 | invalidating a session keeps the accounting if and only if no acquire or detach of it is pending |
| `LeaseBooks.InvalidateIfReservedKeepsIffIdle` | packages/client/src/client.ts:409-412 | so does invalidating all counted sessions |
| `Leases.StepMoves` | packages/client/src/client.ts:151-268 | every step of a session changes its books only in the way its event allows |
| `Leases.MoveAccounting` | packages/client/src/client.ts:151-268 | every such change keeps the accounting; for an invalidation exactly when nothing straddles it |
| `Leases.RunAccounting` | packages/client/src/client.ts:151-268 | in every run without straddling, the count is the number of pending acquires and live leases, and an exclusive token exists only when that is one |
| `Leases.ExclusiveHandleIsAlone` | packages/client/src/client.ts:222-225 | in every such run, an active exclusive handle is the only active handle |
| `Leases.MoveLater` | packages/client/src/client.ts:214-221 | no change of the books revives a released or invalidated lease or lowers the generation |
| `Leases.InvalidationIsFinal` | packages/client/src/client.ts:402-412 | after a removal, a disconnect or a dispose, no lease made before it is ever active again, even when the session is attached anew |
| `LeaseCleanup.StepTidyIff` | packages/client/src/client.ts:151-177 | a step keeps the invariant of sessions that wait for cleanup if and only if it is calm: an invalidation that nothing straddles, a snapshot event that does not interfere with a repair, an acquire that does not slip into the window described above |
| `LeaseCleanup.SnapshotTidyIff` | packages/client/src/state.ts:88-98 | a snapshot event keeps that invariant if and only if it does not show the session attached between the detach and the attach of a repair |
| `LeaseCleanup.AcquireTidyIff` | packages/client/src/client.ts:151-177 | an acquire call keeps that invariant if and only if it does not slip in between the failure of a dispose and its handler |
| `LeaseCleanup.ActiveOnMarkedSession` | packages/client/src/client.ts:254-266 | whenever an acquire call does slip in on an attached session, the handler then marks the session while the new handle is active |
| `LeaseCleanup.RunTidy` | packages/client/src/client.ts:151-177 | the invariant holds in every run of calm steps |
| `LeaseCleanup.MarkedHasNoLiveLease` | packages/client/src/client.ts:254-266 | in every calm run, a session marked for cleanup has no live lease |
| `LeaseCleanup.ReconcilingCutsNothingOff` | packages/client/src/client.ts:363-379 | so the reconciling detach never cuts off a live handle |
| `LeaseCleanup.LiveLeaseIsRepaired` | packages/client/src/client.ts:157-171 | a lease that is live after a failed dispose has seen a successful detach and then a successful attach |
| `LeaseWitnesses.StraddlingSharesAnExclusiveLease` | packages/client/src/client.ts:395-407 | a run from the initial state in which an acquire straddles a removal ends with an exclusive and a shared lease both active |
| `LeaseWitnesses.WindowLeavesActiveHandleOnMarkedSession` | packages/client/src/client.ts:155-159 | a run from the initial state in which an acquire call falls between the rejection of a detach and the handler of the disposal ends with an active handle on a marked session |
| `LeaseWitnesses.SnapshotLeavesRepairHalfDone` | packages/client/src/client.ts:157-171 | a run from the initial state in which a snapshot event shows the session attached in the middle of a repair ends with an active handle that no attach was made for |
| `SessionLeases.SessionLeases.ReserveSessionLease` | packages/client/src/client.ts:381-393 | the maps change for this session as its books do, refuse when they do, and no other session is touched |
| `SessionLeases.SessionLeases.ReleaseSessionLease` | packages/client/src/client.ts:395-400 | gives a reservation back as the books do; no other session is touched |
| `SessionLeases.SessionLeases.InvalidateSessionLeases` | packages/client/src/client.ts:402-407 | count, token and mark are dropped and the generation grows; no other session is touched |
| `SessionLeases.SessionLeases.InvalidateAllSessionLeases` | packages/client/src/client.ts:409-412 | every counted session is invalidated once, others keep their generation, and every mark is dropped |
| `SessionLeases.HeldIsEnough` | packages/client/src/client.ts:381-407 | what these operations do to the maps depends on nothing else in the books |
| `ClientState.ClientState.ApplySessionSnapshot` | packages/client/src/state.ts:106-113 | an older snapshot is ignored unless forced; attachment follows the snapshot; no other session changes |
| `ClientState.ClientState.ApplyResult` | packages/client/src/state.ts:77-86 | a result changes only its own session, as the lease protocol assumes of attach, create and detach |
| `ClientState.ClientState.ApplyEvent` | packages/client/src/state.ts:88-98 | the server revision never goes back, a removed session is forgotten, and only the session of the event changes |
| `ClientState.ClientState.ForgetSessionSnapshot` | packages/client/src/state.ts:49-53 | the snapshot is returned and forgotten, and attachment stays |
| `ClientState.ClientState.RestoreSessionSnapshot` | packages/client/src/state.ts:55-57 | a snapshot that arrived meanwhile is kept |
| `ClientState.ClientState.ClearAttachments` | packages/client/src/state.ts:29-31 | no session stays attached and every snapshot stays |
| `Connection.SettledOnce` | packages/client/src/connection.ts:66-90 | in a proper log a handshake is settled at most once |
| `Connection.HelloComesFirst` | packages/client/src/connection.ts:162-204 | in a proper log an ordinary message is delivered only after the hello of its own connection |
| `Connection.NothingAfterTheEnd` | packages/client/src/connection.ts:225-231 | after a connection has reported its end nothing more comes out of it |
| `Connection.Connection.HandshakeIsSettled` | packages/client/src/connection.ts:66-90 | the handshake of every connect call that is not current has been settled, exactly once |
| `Connection.Connection.NoTransportIsForgotten` | packages/client/src/connection.ts:119-140 | every transport of the factory is the current one, was closed by the client, or reported itself closed |
| `Connection.Connection.Connect` | packages/client/src/connection.ts:66-90 | refused while a connection is current; otherwise the next call reports connecting, before anything else of it |
| `Connection.Connection.TransportMade` | packages/client/src/connection.ts:127-132 | the transport is kept if its call still waits for it, and closed otherwise; nothing else changes |
| `Connection.Connection.TransportFailed` | packages/client/src/connection.ts:121-126 | a factory failure ends its own call only, and no transport is closed |
| `Connection.Connection.OnClose` | packages/client/src/connection.ts:81-83 | a closing transport ends its own call only, rejecting a pending handshake first; of any other call nothing changes |
| `Connection.Connection.OnError` | packages/client/src/connection.ts:84-86 | an error ends its own call only and closes exactly its transport; of any other call nothing changes |
| `Connection.Connection.OnSendFailed` | packages/client/src/connection.ts:101-117 | a failed send ends the call that still uses the transport and closes it; otherwise nothing changes |
| `Connection.Connection.Disconnect` | packages/client/src/connection.ts:92-99 | ends the current call, if any, and closes its transport |
| `Connection.Connection.OnData` | packages/client/src/connection.ts:142-160 | the outputs of a chunk are those of its messages in order, up to the one that ends the call and closes its transport; data before the hello was sent, or undecodable data, end it |
| `Connection.Connection.HandleMessage` | packages/client/src/connection.ts:162-204 | a hello connects, an ordinary message is delivered once connected, and anything else ends the call and closes its transport |
| `Connection.Connection.HandleHello` | packages/client/src/connection.ts:177-196 | connected is reported before the handshake resolves; a callback that throws or ends the call has the handshake rejected instead and the transport closed |
| `Connection.Connection.EndCurrent` | packages/client/src/connection.ts:218-231 | a failure rejects a pending handshake, reports the end and closes the transport, and does nothing when idle |
| `Requests.SettledOnce` | packages/client/src/client.ts:189-207 | no request promise is settled twice |
| `Requests.FulfilledByOwnCommand` | packages/client/src/client.ts:309-318 | a fulfilled request was made, with the command of the result |
| `Requests.Client.Request` | packages/client/src/client.ts:189-207 | refused without a connection; otherwise pending under a new id, unless it cannot be encoded or the send ends the connection |
| `Requests.Client.HandleResponse` | packages/client/src/client.ts:294-319 | settles exactly the request with its id; an unknown id or another command ends the connection, which rejects all others |
| `Requests.Client.RejectPendingRequests` | packages/client/src/client.ts:336-340 | the table is emptied and exactly what was pending is rejected, in request order |
| `Requests.Client.Disconnected` | packages/client/src/client.ts:321-328 | after a disconnect every request made so far is settled |
| `Requests.Client.Dispose` | packages/client/src/client.ts:342-353 | after a dispose every request made so far is settled, and a second call does nothing |
| `AgentEvents.NothingAfterTheEnd` | packages/agent/src/agent-loop.ts:155-275 | in a finished trace the end of the run occurs exactly once, as the last event |
| `AgentEvents.WellFormedAppend` | packages/agent/src/agent-loop.ts:174-222 | after a well-formed context, what is added alone decides whether the whole is well formed |
| `AgentEvents.AnsweredReply` | packages/agent/src/agent-loop.ts:206-222 | a reply with results is well formed exactly when every call of it is answered |
| `AgentEvents.CutBatchIsIllFormed` | packages/agent/src/agent-loop.ts:478-480 | a batch that an abort cut short leaves every later list ill formed, whatever follows but a further result |
| `AgentTools.FailTruncated` | packages/agent/src/agent-loop.ts:381-406 | every call of a truncated reply is answered by an error, in order, and no tool script is consulted |
| `AgentTools.NothingRunsAfterCutOff` | packages/agent/src/agent-loop.ts:381-406 | the events of such a batch hold no tool update, and only error results |
| `AgentTools.ExecutePrepared` | packages/agent/src/agent-loop.ts:670-711 | the updates emitted are the reports made before the tool settles |
| `AgentTools.ExecuteSequential` | packages/agent/src/agent-loop.ts:433-487 | the calls are executed and answered one after the other, through the first one after which the run is aborted |
| `AgentTools.StepTool` | packages/agent/src/agent-loop.ts:670-711 | each step of a running tool extends its own events by at most one, never after its end |
| `AgentTools.ExecuteParallel` | packages/agent/src/agent-loop.ts:489-554 | in every interleaving every event belongs to a call that was reached, and each of these has one start, then its updates, then one end; all ends precede the first result message; results come once per call in source order; nothing is pending at the end |
| `AgentTools.AnnounceAll` | packages/agent/src/agent-loop.ts:543-553 | the result messages and the terminate flag depend on the calls in source order only |
| `AgentLoop.LeftoversCount` | packages/agent/src/agent-loop.ts:317-361 | a stream leaves one partial message in the context for each start but the first |
| `AgentLoop.StreamAssistantResponse` | packages/agent/src/agent-loop.ts:281-372 | the context gains the partials left over and the final message; every start and every update after the first start is shown, until the stream is done |
| `AgentLoop.StreamedTrace` | packages/agent/src/agent-loop.ts:317-371 | a streamed message completes exactly itself, and its events stay in the grammar if and only if the stream starts at most once |
| `AgentLoop.ExecuteToolCalls` | packages/agent/src/agent-loop.ts:411-426 | the batch runs refused, in order or interleaved as its reply and tools demand; its results are those of the calls reached, in order, and the loop stops exactly when all their tools ask to |
| `AgentLoop.TakeTurn` | packages/agent/src/agent-loop.ts:181-222 | a turn injects what is pending, hands the model that context, and adds the reply and its results, with the events of each part in order; the loop has more to do exactly when calls were made and not all their tools ask to stop |
| `AgentLoop.ReplyKeepsWellFormed` | packages/agent/src/agent-loop.ts:206-222 | a reply keeps a well-formed context so exactly when every call of it is answered |
| `AgentLoop.AnsweredWhole` | packages/agent/src/agent-loop.ts:478-480 | all calls of a reply are answered if and only if no abort cuts the batch short |
| `AgentScript.TurnIsHandedOn` | packages/agent/src/agent-loop.ts:181-222 | from a well-formed context a turn hands the model a well-formed list, and leaves a well-formed context if and only if every call of its reply is answered |
| `AgentScript.NextRequestIffWhole` | packages/agent/src/agent-loop.ts:174-259 | after a turn that keeps the context, the next list handed to the model is well formed if and only if no abort cut the batch of that turn short |
| `AgentScript.RunEnds` | packages/agent/src/agent-loop.ts:170-274 | a run goes on past a turn only if that does not stop it; it returns exactly after a turn that stops it or after which no tool call is left and both queues are empty but for steering messages that came after the last poll for them; otherwise it takes every turn of its environment |
| `AgentScript.RunConserves` | packages/agent/src/agent-loop.ts:155-275 | over any run, what was queued before it and what arrived during it, in its opening, in its turns and between the two polls of a turn end, is what the run injected, in order and once each, followed by what is pending, which is nothing after its return, and what is still queued; for steering and for follow-up messages |
| `AgentScript.FollowUpsWait` | packages/agent/src/agent-loop.ts:262-268 | while every turn leaves tool calls to go on with, no follow-up message leaves its queue, whatever arrives |
| `AgentScript.RunKeepsContext` | packages/agent/src/agent-loop.ts:103-106 | while hooks do not replace it, the context of a run is the transcript followed by its new messages |
| `AgentScript.RunHandsOver` | packages/agent/src/agent-loop.ts:167-193 | the model is first handed the transcript, the prompts and what the first poll gave |
| `AgentScript.RunIsClean` | packages/agent/src/agent-loop.ts:174-259 | when no abort cuts a batch short and only messages that stand alone are injected, every list handed to the model is well formed |
| `AgentScript.RunStaysClean` | packages/agent/src/agent-loop.ts:174-259 | when moreover no fatal reply carries tool calls, the run leaves a well-formed transcript |
| `AgentRuns.RunTurn` | packages/agent/src/agent-loop.ts:174-224 | one turn makes of the run what the reference function says; its events are its start, the injected messages, the streamed reply, the batch of its calls, and an end that carries the reply and its results |
| `AgentRuns.EndTurn` | packages/agent/src/agent-loop.ts:232-259 | what has arrived is behind what was queued; a fatal reply or a requested stop ends the run; otherwise the context may be replaced, the steering queue gives its front, and what comes later is behind the rest |
| `AgentRuns.Pass` | packages/agent/src/agent-loop.ts:174-260 | one pass of the inner loop takes exactly one step of the course of the run, and its turn is logged as it was played |
| `AgentRuns.RunInner` | packages/agent/src/agent-loop.ts:170-260 | the inner loop follows the course of the run, and ends by a stop, with no tool call and no steering message left, or with the turns of the environment; its events are those of the turns, one after the other |
| `AgentRuns.RunLoop` | packages/agent/src/agent-loop.ts:155-275 | the nested loops compute the course of the run: context, added messages, lists handed to the model, queues and whether it returns; their events are, for each turn taken, its start, its injected messages, its streamed reply, the executions of its tools and its end with the results, and agent_end after a return |
| `AgentRuns.EachIsPlayed` | packages/agent/src/agent-loop.ts:174-224 | of every turn of a run the events are the injected messages, the streamed reply and the batch of its calls, refused, in order or interleaved |
| `AgentRuns.RunAgentLoop` | packages/agent/src/agent-loop.ts:95-118 | computes the course of the run from the transcript with the prompts; the events are the opening, every turn with its stream and its tool executions, and agent_end with the new messages; they are in the grammar and complete exactly the new messages |
| `AgentRuns.RunAgentLoopContinue` | packages/agent/src/agent-loop.ts:120-143 | accepted exactly from a context whose last message is not a reply, with the same guarantees; otherwise the queues are untouched |
| `AgentQueue.PendingMessageQueue.Drain` | packages/agent/src/agent.ts:141-154 | takes everything or the first message, by mode; what is taken and what is left is what was there |
| `AgentQueue.PendingMessageQueue.Receive` | packages/agent/src/agent.ts:133-135 | what reaches a queue is appended in order, in any mode |
| `Agent.Agent.ProcessEvent` | packages/agent/src/agent.ts:544-582 | one event appends a completed message, follows the pending calls and the streaming message |
| `Agent.Agent.ProcessEvents` | packages/agent/src/agent.ts:544-582 | over any trace the transcript grows by exactly the completed messages, the pending set is that of the trace, and a message is shown exactly while one is open |
| `Agent.Agent.Absorb` | packages/agent/src/agent.ts:486-535 | the transcript grows by exactly the messages that the events of a run complete; after a run that has returned the agent is idle |
| `Agent.Agent.RunPromptMessages` | packages/agent/src/agent.ts:409-423 | afterwards the agent shows what the course of the run makes of what it showed; the events are those of the course, turn by turn, and the transcript has grown by exactly the messages they complete |
| `Agent.Agent.RunContinuation` | packages/agent/src/agent.ts:425-435 | the same for a run without prompts |
| `Agent.Agent.Prompt` | packages/agent/src/agent.ts:350-358 | refused exactly while a run is active, and then nothing changes; otherwise transcript and queues become what the operation makes of them, and the events are those of its run, turn by turn, with the new messages in agent_end |
| `Agent.Agent.Continue` | packages/agent/src/agent.ts:361-388 | refused exactly while busy, without messages, or after a reply with both queues empty, and then nothing changes; otherwise queued steering messages, then follow-ups, or the transcript itself are continued, with the same guarantees |
| `Agent.Agent.Steer` | packages/agent/src/agent.ts:283-285 | a steering message is queued last and nothing else changes |
| `Agent.Agent.Reset` | packages/agent/src/agent.ts:333-345 | refused while a run is active; otherwise transcript and queues are emptied, nothing is streaming or pending, and the modes stay |
| `AgentConversation.QueuesAreConserved` | packages/agent/src/agent.ts:125-159 | over any sequence of queueing calls, mode changes, prompts and continuations whose runs return, what the transcript shows injected from a queue followed by what is still queued is what was there before followed by everything put into that queue since, before, between and during the runs, in order and once each |
| `AgentConversation.ConversationStaysClean` | packages/agent/src/agent.ts:347-435 | over any sequence of clean operations every list handed to the model, by any run, is well formed, and so is the transcript that is left |
| `Publication.StepInLine` | packages/ai/src/models.ts:338-365 | every step keeps the publications in line: one that has started has only settled ones before it |
| `Publication.OneAtATime` | packages/ai/src/models.ts:344-346 | at most one store operation is under way |
| `Publication.StepLogged` | packages/ai/src/models.ts:338-365 | every step keeps the order of generations of started and effective store operations and of updates |
| `Publication.RunIsOrderly` | packages/ai/src/models.ts:320-365 | both hold in every run of refreshes, supersessions, aborts and publications |
| `Publication.OnlyTheCurrentRefreshPublishes` | packages/ai/src/models.ts:347-357 | a store operation starts, and memory is updated, only for the generation current at that instant and not aborted |
| `Publication.SupersededPublishNothing` | packages/ai/src/models.ts:320-347 | from any moment on no store operation starts and no update happens for a generation superseded by then |
| `Publication.StoreNeverGoesBack` | packages/ai/src/models.ts:344-353 | catalogs reach the store in non-decreasing order of generation |
| `Publication.PublishedTogether` | packages/ai/src/models.ts:349-357 | when a publication with a store operation completes, the store shows it, and memory its update |
| `Models.ModelsImpl.SupersedeProviderRefresh` | packages/ai/src/models.ts:320-329 | one provider takes the superseding step, and no other is touched |
| `Models.ModelsImpl.BeginProviderRefresh` | packages/ai/src/models.ts:331-336 | the new refresh has the controller, and the signal of the previous one is aborted |
| `Models.ModelsImpl.FinishProviderRefresh` | packages/ai/src/models.ts:431-435 | removes the controller only if it is still its own |
| `Models.ModelsImpl.ClearProviders` | packages/ai/src/models.ts:279-284 | every provider that is registered or being refreshed is superseded exactly once, and others are untouched |
| `Models.ModelsImpl.PublishProviderModels` | packages/ai/src/models.ts:338-346 | the publication is put behind the one whose tail is in the chain |
| `Models.ModelsImpl.StartPublication` | packages/ai/src/models.ts:346-353 | after the wait, the segment up to the store operation takes the starting step |
| `Models.ModelsImpl.SettlePublication` | packages/ai/src/models.ts:355-357 | the segment after the store operation takes the settling step |
| `Models.ModelsImpl.CleanUpTail` | packages/ai/src/models.ts:361-363 | the chain is cleared only by its own last publication |
| `Models.Upsert` | packages/ai/src/models.ts:768-772 | changes the lookup of one id and no other, and keeps ids in their places and distinct |
| `Models.CurrentModels` | packages/ai/src/models.ts:766-774 | every id is looked up as the last dynamic model with it, else as in the baseline; the baseline keeps its places and ids stay distinct |
| `Packing.JoinOfJoins` | scripts/session-transcripts.ts:196-241 | joining the contents of the groups gives the transcripts joined the same way |
| `Packing.GreedyIsMinimal` | scripts/session-transcripts.ts:201-233 | no order-preserving grouping into single transcripts and groups within the limit has fewer groups than the greedy one |
| `Packing.Collect` | scripts/session-transcripts.ts:182-189 | sessions without messages are skipped, the others become transcripts in order |
| `Packing.Pack` | scripts/session-transcripts.ts:196-241 | the files written, numbered from zero, hold the greedy groups |
| `Packing.PackingIsOptimal` | scripts/session-transcripts.ts:196-241 | the files are the fewest possible, each is within the limit or one oversized transcript, and together they give back the transcripts |

## Left out

- `Leases.StepMoves`: acquires and releases span several awaits, so they are steps on values and not methods; the maps they
  share are a class (`SessionLeases`).
- Timing: event loop and microtasks are replaced by atomic steps between awaits and the ordering fact above.
- `Framing.FrameDecoder.Push`: takes the chunk as a value, so a caller that changes its buffer during a push is not modelled.
- Type checks of arguments (`instanceof Uint8Array`) and error texts: the model is typed, and errors are kinds.
- `CborWriter.EncodeValue`: takes values as trees; cycles and holes are covered by `ProtocolValues` on object graphs, which run
  before encoding, and symbol keys and null prototypes are not modelled. Which properties a schema demands is a predicate.
- UTF-8 and 64-bit floats: functions of the platform, with strict decoding as the only assumption where it is needed.
- `AgentRuns.RunAgentLoopContinue`: copies the context; the original keeps pushing to the caller's array, which the wrapper
  passes as a copy of its own.
- The transcript being assigned from outside during a run, error messages on the agent state, usage, timestamps, model and
  reasoning changes between turns, and argument validation of tools: opaque to the properties.
- `AgentRuns.RunLoop`: the context is what is passed to `transformContext` and `convertToLlm`; what these make of it is not
  modelled.
- Runs that fail by an exception, and the failure messages the wrapper then emits.
- Listeners of the client, session handles' subscriptions and error reporting: they do not change the modelled state.
- Requests inside a lease that fail to encode or to send: an unsent request that can only be rejected.
- `Connection.Connection.OnData`: re-entrant data during a callback is not modelled.
- The control flow of `refreshModels` in `createProvider` and of `refresh` between publications: any order of publications by
  begun refreshes is allowed instead, which includes theirs.
- Auth resolution, credential stores, caller-signal racing of `refresh`, and streaming of model answers.
- Unix sockets, fetch proxies, the desktop renderer, the command-line programs, generated catalogs and scripts that download or
  stage files: plumbing without further protocol.
- Analysis of transcripts by sub-agents after packing, and reading session files from disk.
