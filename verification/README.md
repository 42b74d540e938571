# ScreenViewer, verified

A Dafny model of ScreenViewer's transport, of its proxy server and of the input and cursor code at the
two ends, with proofs about all inputs, all interleavings and all failures of the modelled kind.

The system: a streamer and a viewer each connect to the proxy, log in, and exchange framed messages with
it. The streamer registers under an identifier, the viewer asks for it, and the proxy joins the two
sockets by a bridge that copies bytes both ways. From then on the viewer sends input events and the
streamer sends screenshots.

| file | what it holds |
|---|---|
| Messages.dfy, Framing.dfy | header codec, frames, the stream reader, chunking |
| Streams.dfy, SocketBase.dfy, ClientSocket.dfy | the socket object with its shared receive buffer, the client's half of the protocol |
| Relays.dfy, Bridge.dfy | the bridge as a step system, and as an object with two buffers that implements it |
| Registry.dfy | the registry object, its sweep, and the theory of registration histories |
| Protocol.dfy, Sessions.dfy | the server's decisions, and the session objects that carry them out |
| Rendezvous.dfy | the whole proxy as a transition system |
| RendezvousInvariant.dfy, RendezvousSteps.dfy | its invariant, and the proof that every step keeps it |
| RendezvousTheorems.dfy, RendezvousOwnership.dfy, RendezvousReplies.dfy, RendezvousProgress.dfy | what follows for every reachable state and every run, and what can always still happen |
| Refinement.dfy, Handlers.dfy | the system's relays, reads and handlers against the contracts of the objects |
| Cleaner.dfy | the cleaner's thread and `reset` waiting for each other |
| Input.dfy, Viewer.dfy, ScreenViewerClient.dfy, Streamer.dfy | input events from SDL to X11, the viewer's loop, the streamer's two chains |
| Cursor.dfy | drawing the cursor |
| System.dfy | the viewer's events through proxy and bridge to the streamer's X server |

How to read it. The imperative sources are classes with the same fields and methods (sockets, bridge,
registry, sessions, viewer, streamer, input controller) whose contracts state the new state in terms of
functions such as `EncodeAll`, `Chunks`, `ReadFrame`, `Replay` or `Composite`; the lemmas are about these
functions. The proxy's concurrency is in `Rendezvous`: one I/O thread that runs one handler at a time
(`HandlerStep` stops wherever the program releases the registry's lock or writes to another socket), a
cleaner that may sweep between any two such points, peers that send arbitrary bytes or break at any time,
also in the middle of a write.
A connection is held where the program holds it (an armed read, the running handler, the node taken out of
the registry, a registry entry, a bridge), and the theorems about ownership are about these structures.

Conventions and assumptions. Little-endian 64-bit `size_t`, 32-bit two's complement `int`. A TLS stream is
a reliable FIFO byte channel that may fail; a write that fails may have put any prefix on the wire
(`TlsStream.Write`). In the classes `inbound` stands for everything the peer sends until it ends the
stream, so a blocking read fails exactly when the stream ends too early. Moving a stream keeps its unread
bytes. Clocks never go back. What the users manager answers, and the texts of exceptions, are inputs.

What is worth knowing about the code as written:

* `Bridge::close` shuts down `peer_one` in both of its branches. It never closes `peer_two`, and it throws
  whenever `peer_two` was open (`Bridges.Bridge.Close`).
* The viewer's event loop polls before it looks at the clock, so each call may lose the event polled after
  its deadline. Over any number of calls the streamer's held buttons agree with the viewer's exactly if
  every button event that was lost, and was the last about its button, repeats how the handled ones left
  that button (`ViewerClient.HeldAfterPolling`, with `ViewerClient.StuckButton` as the concrete case, both
  ways).
* A viewer that was told ACK for its find may still be told DISCONNECT, but only when the streamer it was
  given has gone, whatever else broke (`RendezvousTheorems.AckThenDisconnectMeansLost`). A find that
  succeeds fails to become a bridge only if its viewer or its streamer broke
  (`RendezvousTheorems.RegistryAccounts`).
* A handler whose identifier could not be sent leaves its session in the registry, where the entry alone
  holds it (`RendezvousProgress.EntryOutlivesBreak`, with `RendezvousProgress.BrokenRegistrant` as a run that
  leads there).
* A session that registered, and whose entry expires or is replaced, is let go without a word
  (`RendezvousOwnership.LetsGo` lists every way in which a connection is let go).
* If the encoder has no packet for a screenshot, the chain of screenshots ends for good: what is written is
  the packets before the first that is missing, and a write is outstanding exactly while none is missing and
  no write has failed (`Streamer.ScreenViewerStreamer.Run`, `Streamer.MissingPacketEnds`). With no first
  packet no screenshot is ever written. A packet over 5 MiB is refused by the viewer
  (`Streamer.UncutFrameAccepted`).
* `reset` joins the cleaner while it holds the lock. It can return exactly if the cleaner is not on its way to
  the lock then; otherwise both wait for ever (`Cleaner.ResetReturns`, with `Cleaner.Deadlock` as the case).

## Model

| member | source | states |
|---|---|---|
| Messages.BytesOfInteger | include/Message.hpp:60-65 | an integer that fits its width survives being laid out as bytes and read back |
| Messages.WireVocabulary | include/Message.hpp:12-28 | a type's code is its place in the enumeration, in both directions, and there are thirteen |
| Messages.ByteAt | include/Message.hpp:60-65 | the i-th byte of an integer in memory is its i-th digit to the base 256, lowest first |
| Messages.HeaderLayout | include/Message.hpp:60-65 | a header is eight bytes of length, lowest first, and the type's place in the enumeration |
| Messages.DeserializeHeaderBytes | src/MessageHeader.cpp:7-24 | decoding undoes encoding for every header within the limit, whatever follows it in the buffer |
| Messages.DeserializeExact | src/MessageHeader.cpp:7-24 | a header is accepted iff there are nine bytes, the length is within the limit and the ninth byte at most 12; then the nine bytes are its encoding; and each error is that of the first check that fails |
| Framing.FrameLayout | src/SocketBase.cpp:32-39 | a frame is the header's nine bytes and then the content as it is |
| Framing.ReadFrameExact | src/SocketBase.cpp:65-73 | a frame is read iff the stream starts with the encoding of a message within the limit, and exactly its bytes are consumed |
| Framing.ReadPartialFrame | src/SocketBase.cpp:65-73 | a frame cut anywhere is waited for, never misread |
| Framing.ReadEncoded | src/SocketBase.cpp:32-39 | reading the concatenation of any frame list, whatever follows, gives the list and then what follows |
| Framing.ReadAllExact | src/SocketBase.cpp:50-73 | any byte string is the encoding of what is read from it plus a rest that yields no frame |
| Framing.EncodingUnambiguous | src/SocketBase.cpp:32-39 | two different frame lists never share an encoding |
| Framing.ReadPrefix | src/SocketBase.cpp:50-73 | a prefix of a stream yields a prefix of its messages |
| Framing.ChunksExact | src/SocketBase.cpp:21-30 | the chunk list is the only one with one type, full frames but the last, none empty unless the message is, joining to the content; it has max(1, ceil(n / 5 MiB)) frames |
| Framing.ChunkAllAppend | src/SocketBase.cpp:21-30 | the frames of a list of messages grow by what one more send writes |
| Framing.SendThenRead | src/SocketBase.cpp:21-39 | any list of messages, sent and read back, is its chunk-expanded list, and prefixes give prefixes |
| Streams.TlsStream.Write | src/SocketBase.cpp:32-39 | all bytes are written or an error leaves a prefix of them on the wire |
| Sockets.SocketBase.Send | src/SocketBase.cpp:21-30 | the loop ends and puts exactly the chunk frames on the wire, or a prefix of them when it fails |
| Sockets.SocketBase.Disconnect | src/SocketBase.cpp:41-48 | says farewell if there is a text, then closes; fails without closing if the farewell cannot be written |
| Sockets.SocketBase.ReadHeader | src/SocketBase.cpp:58-63 | nine bytes are consumed and decoded, or the stream ended before |
| Sockets.SocketBase.Receive | src/SocketBase.cpp:50-56 | delivers the next frame of the input, consuming exactly its bytes, and fails iff there is none |
| Sockets.SocketBase.ReceiveToBuffer | src/SocketBase.cpp:65-73 | the same with the body in the front of the shared buffer, whose other bytes are untouched |
| Sockets.SocketBase.ReceiveACK | src/SocketBase.cpp:133-148 | succeeds iff the next frame is an ACK; otherwise the error is what the next read comes to |
| Sockets.SocketBase.AsyncReadMessage | src/SocketBase.cpp:75-82 | arms a read unless the limit exceeds the buffer |
| Sockets.SocketBase.ReadFails | src/SocketBase.cpp:101-104 | a read that completes with an error ends the chain silently |
| Sockets.SocketBase.ReadCompletes | src/SocketBase.cpp:84-131 | on any bytes: waits, accepts a header, delivers exactly the next frame from the frame boundary, or stops for good, having said why and closed, or found the connection down; stays within the limit and the buffer |
| Clients.ClientSocket.Login | src/ClientSocket.cpp:44-50 | success means the LOGIN frames went out and exactly one ACK frame was taken off the stream; failure that the connection is down, or that all went out and the next frame is no ACK |
| Clients.ClientSocket.FindOtherClient | src/ClientSocket.cpp:52-55 | true iff the one frame taken is an ACK; fails only if the connection is down or no frame follows |
| Clients.ClientSocket.RequestStreamerID | src/ClientSocket.cpp:100-107 | the identifier is the content of the one ID frame taken; fails only if the connection is down or the next frame is no ID |
| Clients.ClientSocket.WaitForStartStreamMessage | src/ClientSocket.cpp:86-98 | consumes frames up to and including the first START_STREAM and leaves what follows unread; gives up exactly when a reading of the clock, one before every message, shows that the time is up; fails only when no frame follows |
| Relays.RunKeepsFaithful | include/Bridge.hpp:39-94 | over every run a direction's output is a prefix of its input, and all that was read while it lives |
| Relays.RelayedPerRun | include/Bridge.hpp:116-118 | relaying n bytes takes between ceil(n / 1,000,000) and n handler runs |
| Relays.RelayMakesProgress | include/Bridge.hpp:39-64 | over every run of a live direction each handler run takes at least a byte off what is undelivered, and only arrivals add to it |
| Relays.Drain | include/Bridge.hpp:116-118 | a live direction can always deliver everything, and both bounds on the handler runs are attained |
| Relays.DirectionsIndependent | include/Bridge.hpp:20-36 | in any interleaving a direction becomes what it becomes alone |
| Relays.EndToEnd | include/Bridge.hpp:39-94 | what one peer sends as messages the other receives as a prefix of their frames, and all of them once relayed, for every way of cutting and interleaving |
| Bridges.Bridge.constructor | include/Bridge.hpp:16-18 | takes over both streams with their unread input |
| Bridges.Bridge.Join | include/Bridge.hpp:16-18 | makes a bridge, or throws because a peer is lost, and then both sockets are closed |
| Bridges.Bridge.Start | include/Bridge.hpp:20-36 | arms one read in each direction |
| Bridges.Bridge.UpstreamReadCompletes | include/Bridge.hpp:39-64 | the n bytes read overwrite the front of the client buffer, stale bytes behind them stay and are not forwarded; the pipe makes exactly a relay, and the next read is armed, or a failing step, and then the receiver is down; the other direction is untouched |
| Bridges.Bridge.UpstreamReadFails | include/Bridge.hpp:47-49 | after a failed read the direction never relays again and the bridge is closed as `Close` does it |
| Bridges.Bridge.DownstreamReadCompletes | include/Bridge.hpp:67-94 | the mirror image through the server buffer |
| Bridges.Bridge.DownstreamReadFails | include/Bridge.hpp:77-79 | after a failed read the direction never relays again |
| Bridges.Bridge.Close | include/Bridge.hpp:96-109 | never closes peer_two; closes peer_one unless it is no longer connected; throws iff one of the two is open afterwards |
| Registry.ReplayIsLatest | src/ServerSessionsManager.cpp:51-58 | an entry is present iff it is the most recent registration of its identifier not claimed, expired or cleared since |
| Registry.PresentIsLatest | src/ServerSessionsManager.cpp:51-69 | a registration has met none of the four ends iff it is that latest survivor |
| Registry.RemovalStep | src/ServerSessionsManager.cpp:65-69 | a claim or an expiration removes exactly the latest survivor of its identifier |
| Registry.FateKept | src/ServerSessionsManager.cpp:25-69 | a registration once claimed, expired, evicted or cleared stays so in every longer history |
| Registry.RemovalsCounted | src/ServerSessionsManager.cpp:25-69 | claims and expirations match extracted and timed-out registrations one to one |
| Registry.Conservation | src/ServerSessionsManager.cpp:25-110 | registrations = present + evicted + claimed + expired + cleared, and none is both claimed and expired |
| Registry.AtMostOneEntry | src/ServerSessionsManager.cpp:51-58 | with one identifier there is at most one entry |
| Registry.SweptStep | src/ServerSessionsManager.cpp:27-36 | one turn of the sweep keeps the condition on survivors and removed entries |
| Registry.ServerSessionsManager.RegisterStreamer | src/ServerSessionsManager.cpp:39-59 | the session replaces whatever was registered under "test" |
| Registry.ServerSessionsManager.ExtractStreamer | src/ServerSessionsManager.cpp:65-69 | takes out exactly the entry asked for, or changes nothing |
| Registry.ServerSessionsManager.TerminateTimeoutClients | src/ServerSessionsManager.cpp:25-37 | in any order: visits each key once, reads the clock once for each, and removes exactly what is older than the timeout at its own reading; so only entries too old at the end, and all too old at the start |
| Registry.ServerSessionsManager.EraseIfExpired | src/ServerSessionsManager.cpp:28-35 | erases the entry iff it is older than the timeout at its own clock reading |
| Registry.ServerSessionsManager.CurrentSessions | src/ServerSessionsManager.cpp:98-101 | counts the registrations still present in the history |
| Registry.ServerSessionsManager.InitCleanerThread | src/ServerSessionsManager.cpp:12-14 | a cleaner runs afterwards |
| Registry.ServerSessionsManager.Reset | src/ServerSessionsManager.cpp:103-110 | clears the map and stops the cleaner, if it returns |
| Cleaner.OneSweepEach | src/ServerSessionsManager.cpp:14-22 | the cleaner sweeps exactly once between two waits |
| Cleaner.ResetReturns | src/ServerSessionsManager.cpp:103-110 | over every run of the cleaner's loop and `reset`: once it joins the cleaner it can return iff the cleaner is not on its way to the lock, and if it is no thread can ever go on |
| Cleaner.Deadlock | src/ServerSessionsManager.cpp:14-22 | a run that ends there |
| Sessions.ProxySession.Start | src/AuthenticatedSession.cpp:18-22 | arms the first read with the limit of 1000 bytes |
| Sessions.ProxySession.ScheduleNewAsyncRead | src/AuthenticatedSession.cpp:44-46 | arms the next read with the full limit |
| Sessions.ProxySession.AuthenticateCallback | src/AuthenticatedSession.cpp:29-42 | the login gate: the decision is carried out; reads on iff the login succeeded and the ACK was written; throws only for the verdict or because the connection is down, having written some first part of the answer |
| Sessions.ProxySession.HandleRead | src/ProxySession.cpp:12-38 | the answer to every kind of message and whether the session reads on, the registration or the claim, the bridge; throws only because its connection, or the streamer it found, is down; the cleaner may run in between |
| Sessions.ProxySession.CreateBridgeWithStreamer | src/ServerSessionsManager.cpp:62-79 | finds iff registered; removes under the lock, writes and bridges after it; throws only after a find, with one of the two connections down |
| Sessions.ProxySession.Connect | src/ServerSessionsManager.cpp:70-75 | ACK to the viewer, then START_STREAM to the streamer, and a bridge over both unread inputs; or no bridge, with one of the two down and nothing but first parts of these written, in that order |
| RendezvousSteps.StepKeeps | src/ProxySession.cpp:12-38 | every step of connections, handlers, cleaner and bridges keeps the invariant |
| RendezvousTheorems.RunKeeps | include/ScreenViewerSessionsServer.hpp:30-53 | every run keeps the invariant |
| RendezvousOwnership.SingleOwner | src/ProxySession.cpp:15-35 | no connection is ever held in two places, but for the handler that has just registered it |
| RendezvousOwnership.StepKeepsHold | src/ProxySession.cpp:15-35 | a step lets go of exactly the connections of the listed cases, keeps all others, and never takes one back |
| RendezvousOwnership.ExactlyOneOwner | src/AuthenticatedSession.cpp:36-46 | over every run: a connection is held at the end iff no step let go of it, and then by exactly one holder, but for that overlap |
| RendezvousOwnership.ArmsAlone | src/AuthenticatedSession.cpp:36-46 | a read is armed only where none is outstanding and nobody but the handler holds the connection |
| RendezvousTheorems.BridgesJoinUsers | src/ServerSessionsManager.cpp:62-77 | every bridge joins two different connections that both logged in, one by registering and one by finding |
| RendezvousTheorems.ReplyGrammar | src/ProxySession.cpp:14-37 | an accepted login sees ACK, answers and one of the endings, or nothing if it broke; anybody else nothing, one NACK or one DISCONNECT; until it is bridged a client reads exactly the session's replies |
| RendezvousTheorems.AckThenDisconnectMeansLost | src/ServerSessionsManager.cpp:70-73 | a viewer told DISCONNECT after the ACK to its find had found a streamer whose own connection broke |
| RendezvousReplies.RefusedToTheLetter | src/AuthenticatedSession.cpp:29-42 | in every reachable state: a refused login has been told NACK only, one that could not be checked why, a client that did not log in that it has to; and every request read has its answer, unless the connection broke or it is being handled |
| RendezvousReplies.FarewellIsSaid | src/SocketBase.cpp:119-124 | whatever happens meanwhile, a client whose handler failed is told DISCONNECT with the text of the exception, unless its connection breaks |
| RendezvousReplies.NobodyIsIgnored | src/SocketBase.cpp:96-107 | in every run a client has been told nothing only if its connection broke, its read failed, a read is still armed, or it is being handled |
| RendezvousReplies.SweepsInTime | src/ServerSessionsManager.cpp:27-36 | no registration is from the future, and a sweep takes only entries older than the timeout at its end and all older at its start |
| Protocol.FirstAnswer | src/AuthenticatedSession.cpp:29-42 | the answers to a first message spelled out |
| Protocol.LaterAnswer | src/ProxySession.cpp:14-37 | the answers to every later type of message spelled out |
| Protocol.NamesAndTexts | include/Message.hpp:30-44 | the types' names, and texts as bytes |
| RendezvousTheorems.AnsweredInOrder | src/ProxySession.cpp:21-36 | while a session reads on, the bytes consumed are its requests and the k-th reply answers the k-th request |
| RendezvousTheorems.RequestsBounded | src/AuthenticatedSession.cpp:18-22 | no handler gets a first message over 1000 bytes or a later one over 5 MiB |
| RendezvousTheorems.PipedEndToEnd | include/Bridge.hpp:39-94 | one direction of a bridge: requests are the first frames sent, and the other client reads its session's replies and then the frames after them |
| RendezvousTheorems.EndToEnd | src/ServerSessionsManager.cpp:67-75 | in every reachable state and both directions: nothing lost, repeated or misplaced from login through hand-off to relay, and all of it once relayed |
| RendezvousTheorems.HandOff | src/ServerSessionsManager.cpp:70-75 | whenever a bridge is about to open both streams stand right after the request that led to it, and each client has been sent exactly its replies |
| RendezvousTheorems.HandOffPoint | src/ServerSessionsManager.cpp:70-73 | the streamer's replies end with ID and START_STREAM, the viewer's with ACK, and the rest is what the other side sent after its last request |
| RendezvousTheorems.RegistryAccounts | src/ServerSessionsManager.cpp:51-69 | the registry is the latest surviving registration, at most one, and registrations balance with bridges, lost claims, evictions, expirations and resets; every lost claim is due to its viewer or its streamer breaking |
| RendezvousTheorems.FindClaimsLatest | src/ServerSessionsManager.cpp:65-69 | a find claims the latest surviving registrant, which stays extracted in every continuation, and fails iff there is none |
| Refinement.BridgeRefinesRelays | include/Bridge.hpp:39-94 | every step is, for each direction of every bridge, exactly the relay's move for it, at most one, and of the two directions at most one moves |
| Refinement.BridgeIsRelayRun | include/Bridge.hpp:39-94 | over every run of the proxy a direction of a bridge is what some run of the relay makes of an empty pipe, with as many handler runs |
| Refinement.RoundsOfBridge | include/Bridge.hpp:116-118 | so a live direction has relayed its n bytes in between ceil(n / 1,000,000) and n handler runs |
| Refinement.ReadsAsSocket | src/SocketBase.cpp:84-131 | the system's reads take exactly the next frame, or refuse exactly a malformed header, as the socket does |
| Handlers.FirstAsSession | src/AuthenticatedSession.cpp:29-42 | a handler of the first message meets the contract of `AuthenticateCallback` |
| Handlers.NextAsSession | src/ProxySession.cpp:12-38 | a handler of a later message, with any steps of cleaner and peers in between and any write failing, ends as the contract of `HandleRead` says: answer, reading on, bridge, history, and whom an exception is due to |
| RendezvousProgress.HandlerNeverStuck | src/ProxySession.cpp:12-38 | in every reachable state the running handler can make its next step, which brings it closer to its end |
| RendezvousProgress.HandlerFinishes | src/ProxySession.cpp:12-38 | it can be done after at most four steps |
| RendezvousProgress.MessageReachesHandler | src/SocketBase.cpp:84-131 | a whole message at the front of an armed connection's input can be brought to its handler, and nothing after it is taken |
| RendezvousProgress.AllAnswered | src/ProxySession.cpp:32-35 | any list of messages that the session does not expect can all be answered, in order, and the session reads on |
| RendezvousProgress.EverythingDelivered | include/Bridge.hpp:39-94 | from every reachable state a live direction with its receiver there can deliver everything sent, in at most four steps of the handler and the least number of rounds |
| RendezvousProgress.EntryOutlivesBreak | src/ProxySession.cpp:15-20 | a session that broke before it could be told its identifier stays in the registry, held by the entry alone |
| RendezvousProgress.BrokenRegistrant | src/ProxySession.cpp:15-20 | a run that leads there |
| Input.InputRoundTrip | include/Message.hpp:91-113 | packed events survive sending and decoding |
| Input.DecodeExact | include/Message.hpp:105-113 | input is refused iff its size is wrong; else it is the event whose struct the bytes are |
| Input.StructLayout | include/Message.hpp:67-97 | where each field of the structs is, in which byte order, and under which type they are sent |
| Input.MaskTable | src/MouseConfig.cpp:5-37 | the masks of the buttons |
| Input.X11IOController.HandleMouseEvent | src/streamer/X11IOController.cpp:57-78 | injects a motion, a press and release of the wheel button, or one button change |
| Input.X11IOController.HandleKeyboardEvent | src/streamer/X11IOController.cpp:45-55 | injects one key change, or nothing if the keyboard has no such key |
| Viewer.ButtonInjection | src/MouseConfig.cpp:5-37 | SDL buttons 1 to 5 arrive as X11 buttons 1, 2, 3, 8, 9 with the same state |
| Viewer.PositionSent | src/ScreenViewerClient.cpp:77-109 | a motion or a button event carries the mapped position, outside the window as well |
| Viewer.EventsInjected | src/ScreenViewerClient.cpp:77-118 | the wheel arrives as a press and release of button 4 or 5, a key as the same key in the same direction, anything else as nothing |
| Viewer.ResizeTakesEffect | src/ScreenViewerClient.cpp:119-121 | a resize changes the window's size, a new frame the frame's, and nothing else |
| Viewer.EventTracked | src/ScreenViewerClient.cpp:77-109 | one event keeps held X11 buttons the image of held SDL buttons; wheel and motion change nothing |
| Viewer.InputReplay | src/ScreenViewerClient.cpp:77-109 | after every event list, with resizes of window and frame in it, sent and replayed, all messages decode and held X11 buttons are the image of held SDL buttons |
| Viewer.PointerMapping | src/ScreenViewerClient.cpp:80-81 | positions in the window map into the frame, in order, identically for equal sizes, and into the streamed screen |
| Viewer.PointerExact | src/ScreenViewerClient.cpp:80-81 | on both axes the mapped position is the exact quotient rounded towards zero |
| ViewerClient.ScreenViewerClient.GetNewFrame | src/ScreenViewerClient.cpp:50-68 | the frame size follows the decoded frame, if there is one |
| ViewerClient.NewFrameTaken | src/ScreenViewerClient.cpp:30-33 | a message is a new frame iff it is a SCREEN_UPDATE that decodes to an image of another size |
| ViewerClient.ScreenViewerClient.HandleIOEvents | src/ScreenViewerClient.cpp:70-130 | sends the messages of the events handled, in order, up to the deadline, a quit or a failed write, and loses the one polled after the deadline |
| ViewerClient.ScreenViewerClient.RunLoop | src/ScreenViewerClient.cpp:29-48 | any number of turns: one message consumed in each, the frame size followed, the events of `TurnsTaken` polled; ends early only without a further message, by a quit, or by a failed write; what was written is the messages of the events told, whole if no write failed |
| ViewerClient.HeldAfterPolling | src/ScreenViewerClient.cpp:75-75 | over any calls and frames, held buttons agree iff no event that was lost is the last about its button and differs from how the handled ones left it |
| ViewerClient.HeldAfterCall | src/ScreenViewerClient.cpp:75-75 | after an agreeing history one more call keeps agreement iff the event polled too late does not change what is held |
| ViewerClient.StuckButton | src/ScreenViewerClient.cpp:75-75 | a release polled too late leaves the button held on the other side; a lost press is made good by its release |
| Streamer.ScreenViewerStreamer.constructor | src/streamer/ScreenViewerStreamer.cpp:11-14 | nothing is outstanding yet |
| Streamer.ScreenViewerStreamer.Run | src/streamer/ScreenViewerStreamer.cpp:16-24 | both chains started; a read is outstanding unless one failed or a header was refused; everything received by the last draining is handled, in order; the screenshots written, torn and being written are the packets before the first missing one, and a write is outstanding iff none is missing and none failed |
| Streamer.ScreenViewerStreamer.ReadFails | src/SocketBase.cpp:125-129 | the chain of reads ends |
| Streamer.ScreenViewerStreamer.ReadCompletes | src/streamer/ScreenViewerStreamer.cpp:26-32 | a delivered message is copied to the end of the queue and the next read armed; received = handled + queued, as the input says; a malformed header ends the chain |
| Streamer.ScreenViewerStreamer.OtherThread | src/streamer/ScreenViewerStreamer.cpp:26-50 | any completions of reads and writes: once no write is outstanding there never is one again |
| Streamer.ScreenViewerStreamer.HandleIOEvents | src/streamer/ScreenViewerStreamer.cpp:52-58 | with the read callback running in between, ends with everything received handled once and in order, or at a message that cannot be decoded |
| Streamer.ScreenViewerStreamer.HandleInput | src/streamer/ScreenViewerStreamer.cpp:60-75 | injects what the message decodes to, or throws iff its size is wrong |
| Streamer.ScreenViewerStreamer.ScheduleAsyncSendScreenshots | src/streamer/ScreenViewerStreamer.cpp:34-50 | takes the next screenshot and starts one write iff there is a packet |
| Streamer.ScreenViewerStreamer.WriteCompletes | src/streamer/ScreenViewerStreamer.cpp:46-48 | the frame is on the wire and the next screenshot is taken, or the write failed because the connection is down and the chain ends |
| Streamer.MissingPacketEnds | src/streamer/ScreenViewerStreamer.cpp:42-49 | however many screenshots are taken, the messages are those of the packets before the first missing one |
| Streamer.InputPipeline | src/streamer/ScreenViewerStreamer.cpp:26-58 | at every moment the streamer's held buttons are those of the viewer after some first part of its events |
| Streamer.UncutFrameAccepted | include/SocketBase.hpp:33-49 | a message sent without chunking is accepted iff it is within 5 MiB |
| Cursor.CaptureCursor | src/streamer/X11IOController.cpp:93-121 | the loops leave the pointwise picture: outside the clipped rectangle unchanged, inside blended exactly once |
| Cursor.Mix | src/streamer/X11IOController.cpp:113-115 | the weighted mean of source and background, rounded down; it lies between them |
| Cursor.MixAlpha | src/streamer/X11IOController.cpp:116-116 | the alpha store is the source's plus the background's share, rounded down; it fits a byte |
| Cursor.CursorPlaced | src/streamer/X11IOController.cpp:101-107 | each cursor pixel lands at the cursor's position less its hot spot, and where none lands the background stays |
| Cursor.Channels | src/streamer/X11IOController.cpp:106-109 | alpha, red, green and blue from the highest of the low four bytes down |
| Cursor.BlendByChannel | src/streamer/X11IOController.cpp:113-116 | blue, green, red and alpha are mixed each with its own |
| Cursor.TransparentBlend | src/streamer/X11IOController.cpp:111-111 | skipping alpha 0 agrees with the formula |
| Cursor.OpaqueBlend | src/streamer/X11IOController.cpp:112-116 | alpha 255 copies the cursor pixel |
| System.InputThroughProxy | src/ServerSessionsManager.cpp:62-79 | through proxy and bridge, in every reachable state, the streamer's held buttons are those of the viewer after some first part of the events told, and in the end those really held iff no event is mistold |

## Left out

- Close: the exception it throws leaves the I/O thread's run loop; what the process does then is not modelled, a stopped direction of a bridge just relays nothing more.
- StepKeeps: an exception's text is an input of at most 5 MiB, so a farewell is one frame.
- StepKeeps: after a farewell, a shutdown that fails on a connection already gone makes the reader try a second farewell, which nobody can receive.
- Join: the exception of a bridge that cannot be made reaches a reader whose socket has been moved away; what its farewell then does is not modelled.
- InputReplay: SDL buttons other than 1 to 5, whose masks collide with the clicked bit or with the X11 buttons 8 and 9.
- PointerMapping: overflow of the 32-bit products and of coordinates outside an int, which is undefined in the source.
- EventTracked: which field of a wheel event decides its direction.
- HandleIOEvents: the wall-clock time of the deadline and of the motion interval are inputs, a number of polls and a flag per event.
- WriteCompletes: how the DISCONNECT of a refused header mixes with an outstanding write is not modelled; after it nothing is said about the bytes on the wire.
- Run: the first rounds of the loop, any number of them; when its condition ends it races the read callback and is not modelled.
- WaitForStartStreamMessage: says nothing about how long it blocks, because a blocking read may outlast the timeout.
- CaptureCursor: overflow of the pixel index for cursors of more than 2^31 pixels.
- TLS handshakes, certificates, name resolution, threads of the client socket.
- The users manager, its database and password hashes, JSON parsing: their outcome is an input.
- The echo session on the other port, and `generateSessionID`, which live code does not reach.
- Video encoding and decoding, SDL windows and textures, logging.
