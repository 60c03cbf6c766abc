# Verified model of liboizys

liboizys sends messages over a local stream socket: `asio_session` frames each message with a four byte
header, writes the frames from a queue, reads frames in two phases and hands the payloads to a callback.
This project models that session, pairs of sessions joined by byte channels, and the echo and chat servers
built on top, and proves what they promise.

- `Codec.dfy`: headers, frames, the one-shot stream decoder (`src/com_message.cpp`).
- `Session.dfy`: the session as a transition system. A socket operation first finishes (Pending to Done) and
  later its completion handler runs; a close may fall in between. User callbacks are an arbitrary oracle: for
  each invocation it yields a script of API calls on the session, guarded by try blocks or not, and throws.
- `SessionSafety.dfy`: the invariant of every step, re-entrant calls included.
- `SessionTheorems.dfy`: the session's promises over every run.
- `Callbacks.dfy`: which handler is called with what, and that all its calls are made, in order.
- `ChunkedReading.dfy`: the reader fed any stream in any chunks, against the one-shot decoder.
- `AsioSession.dfy`: the class with the fields and methods of the C++ object. `Abs()` is its state in the
  transition system; every method is proved to move `Abs()` as `Session.dfy` says, `Handle` ties each event of
  the object's life to `Session.Step`, and `Live` ties whole lives to `Session.Run`. Objects that share no buffer
  do not disturb each other.
- `Link.dfy`, `Progress.dfy`: two sessions and a channel each way, each with its own capacity. The environment
  moves any positive number of bytes, and may fail an operation or end a stream at any byte.
- `Replying.dfy`, `Echo.dfy`: servers that send back what they receive, and the echo server with its client.
- `ChatHandlers.dfy`, `Chat.dfy`, `ChatProgress.dfy`, `ChatRegistry.dfy`: the chat server with its clients: total
  order, progress, and what becomes of the registry.
- `ChatServer.dfy`: the class `chat_server` over session objects.

Runs are sequences of events; an event that cannot happen in a state changes nothing, so theorems over all
sequences cover all interleavings. The environment may do more than a real socket would (it may still take bytes
for a peer that is closed, or end a stream that has bytes left), so the safety theorems cover those runs too.
The theorems on what handlers are told (`Callbacks.dfy`) assume at most the oracle's answer at one invocation, and nothing
about its other answers.
The logs in a state (accepted, popped, wire, consumed, delivered, reports and so on) record what happened; nothing
else a session does depends on them.

Where the documentation and the code differ, the code is followed:

- The repository's README and `inc/oizys/session_i.hpp:69` say that handlers are removed on close. This holds
  exactly of handlers that were not installed late, and even then the slot is not free: a second `set_onclose` or
  `set_onmessage` still throws. A handler is late if it is installed while the session is closed, except an
  onmessage handler installed by the onclose callback of the close itself. `SessionTheorems.HandlersAfterClose` and
  `LateReader` give the condition, `LateHandlersStay`, `EarlyHandlerBlocks` and `ReaderSetDuringCloseIsRemoved` the
  runs that show it.
- The repository's README shows `send` returning nothing; it returns the queue length.
- `chat_server::remove` (`example/chat/chat_server.cpp:105-113`) tests `find` the wrong way round, so it does
  nothing for a registered id (`ChatServers.ChatServer.Remove`). Hence the registry never shrinks, and a closed
  session goes on accepting every message (`ChatRegistry.ClosedSessionsKeepAccepting`, with a concrete run in
  `ChatRegistry.ClosedSessionWitness`).

## Model

| member | source | states |
|---|---|---|
| Codec.HeaderBijection | src/com_message.cpp:18-48 | a header is accepted with length n exactly if 1 <= n <= 0xffffff and it is the header the constructor writes for n |
| Codec.MakeMessage | src/com_message.cpp:18-32 | the constructor throws exactly on an empty or oversized payload, and otherwise stores the payload with the header bytes 0 and the size shifted right by 16, 8 and 0; the legal sizes are 1 to 0xffffff |
| Codec.ParseHeader | src/com_message.cpp:34-48 | the shift/or loop accepts exactly the headers of some legal length, which are those with first byte 0 and the others not all 0, and yields that length |
| Codec.LengthFits | src/com_message.cpp:36-47 | the upper bound of parse_header never rejects: three bytes hold at most 0xffffff |
| Codec.ShiftOr | src/com_message.cpp:37-46 | or-ing a value below 2^k into a number shifted left by k adds it |
| Codec.DecodeUnique | src/asio_session.cpp:99-149 | a stream splits in only one way into valid frames and a rest that starts no whole frame, and Decode finds it |
| Codec.EncodeDecode | src/asio_session.cpp:99-149 | re-encoding what Decode returns gives the stream back, and no whole valid frame is left over |
| Codec.EncodePrefix | src/com_message.cpp:18-32 | encodings are prefixes of each other exactly if the message sequences are: frames are prefix-free |
| Codec.EncodeInjective | src/com_message.cpp:18-32 | different message sequences have different encodings |
| Codec.FramesPrefixFree | src/com_message.cpp:18-32 | no frame is a proper prefix of another |
| Codec.HeaderAtBoundary | src/com_message.cpp:34-48 | four bytes at a frame boundary of an encoded sequence always form an acceptable header |
| Session.RunScript | src/asio_session.cpp:33-97 | re-entrant callbacks terminate: the recursion is bounded by socket closed, onclose set and remaining script, and a callback never reopens the session or unsets onclose |
| SessionSafety.ScriptKeeps | src/asio_session.cpp:21-97 | whatever API calls and exceptions a callback makes, the writer, reader and close invariants hold afterwards, no byte or delivery is touched, the queue only grows, and outstanding operations are disturbed only by a close, which aborts the pending ones |
| SessionSafety.CloseKeeps | src/asio_session.cpp:67-97 | the close path entered with any error keeps the invariants, also around a re-entrant onclose, and records that error as the cause |
| SessionSafety.DeliverKeeps | src/asio_session.cpp:127-147 | when onmessage is called, the bytes read since the last delivery are exactly the frame of the payload handed over |
| SessionSafety.StepKeeps | src/asio_session.cpp:10-188 | every event keeps the session invariant: API call, arrival, departure, failure or completion |
| SessionSafety.ReachableInv | src/asio_session.cpp:10-188 | every reachable state satisfies the invariant, for sockets open or not at the start |
| SessionTheorems.NoLostWakeup | src/asio_session.cpp:21-31 | while open, a write is outstanding exactly if the queue is non-empty; a write always has a queued message; reads and writes never overlap |
| SessionTheorems.SendResult | src/asio_session.cpp:21-31 | send throws exactly on illegal sizes and then changes nothing; otherwise it accepts the message, starts a write exactly if the queue was empty, and the queue holds accepted minus popped |
| SessionTheorems.FramesAreAtomic | src/asio_session.cpp:151-188 | the wire carries the popped frames and then a prefix of the front frame, in every reachable state, also with re-entrant send and completions after close |
| SessionTheorems.SilentAfterClose | src/asio_session.cpp:73-149 | after the socket closed, no run delivers a message, moves a byte, changes the cause or reports the close again |
| SessionTheorems.CloseReportedOnce | src/asio_session.cpp:33-97 | an accepted onclose handler is called at most once, exactly once if the session is closed, with the cause if installed in time and the default code if late |
| SessionTheorems.CauseIsTheEvent | src/asio_session.cpp:67-188 | the cause is the error of the closing event: none for close, EBADMSG for a malformed header, the I/O error otherwise |
| SessionTheorems.CloseBeforeCompletion | src/asio_session.cpp:73-188 | a close aborts pending operations and keeps finished ones: a fully written message is still popped, a fully read one is no longer delivered; the results of finished operations stand |
| SessionTheorems.ClosedDrains | src/asio_session.cpp:99-188 | on a closed session two completions of each kind leave no read and no write outstanding |
| SessionTheorems.OnCloseSetOnce | src/asio_session.cpp:33-54 | set_onclose throws and changes nothing exactly if a handler was accepted before; otherwise it installs, and reports at once on a closed session |
| SessionTheorems.SetOnCloseAnywhere | src/asio_session.cpp:33-54 | the same for a call at any point, from inside callbacks too |
| SessionTheorems.ThrowIsReturn | src/asio_session.cpp:44-53 | an exception leaving a callback, its own or that of any API call that throws there (illegal send, second set_onclose or set_onmessage), is to the session as if the callback had returned there |
| SessionTheorems.SingleReader | src/asio_session.cpp:56-65 | set_onmessage succeeds at most once in a lifetime, then with a header read outstanding (failed already if closed), and reads never overlap |
| SessionTheorems.HandlersAfterClose | src/asio_session.cpp:33-97 | in a closed session a user onclose or onmessage handler is left exactly if it was installed late, and set_* throws exactly if a call succeeded before |
| SessionTheorems.LateReader | src/asio_session.cpp:56-97 | set_onmessage makes a late handler exactly if the session is closed and this is not its close running onclose; between events that means closed; if it throws it changes nothing |
| SessionTheorems.LateHandlersStay | src/asio_session.cpp:40-65 | a run after which a closed session holds both its user handlers |
| SessionTheorems.EarlyHandlerBlocks | src/asio_session.cpp:35-38 | a run after which onclose is a no-op and a further set_onclose throws |
| SessionTheorems.ReaderSetDuringCloseIsRemoved | src/asio_session.cpp:78-95 | a run in which onmessage is set from the close's own onclose callback and ends as a no-op |
| SessionTheorems.NestingBounded | src/asio_session.cpp:33-147 | user callbacks nest at most two deep and have all returned between events |
| SessionTheorems.ReaderRefinesDecoder | src/asio_session.cpp:99-149 | an open reader has delivered what the one-shot decoder finds in the consumed bytes and holds the same rest; a closed one delivered a prefix of it |
| SessionTheorems.BadMessageMeansMalformed | src/asio_session.cpp:110-115 | EBADMSG is the cause only if a malformed header follows the delivered frames, and nothing after it was consumed |
| SessionTheorems.Truncation | src/asio_session.cpp:99-149 | of an encoded sequence cut after k bytes exactly the messages that fit are delivered, then end of stream closes with its error and delivers nothing |
| Callbacks.CallsAreMadeInOrder | src/asio_session.cpp:44-53 | the calls of a callback are made one after the other, all of them: if nothing leaves its first part, the rest follows in the state that part leaves |
| Callbacks.OneCall | src/asio_session.cpp:137-140 | a callback that makes one call does to the session what that call does |
| Callbacks.CaughtThrowIsSkipped | src/asio_session.cpp:33-65 | a call that throws changes nothing, and if the callback catches the exception the rest of it is run |
| Callbacks.ReturnsOrLeaves | src/asio_session.cpp:137-145 | the rows above and `ThrowIsReturn` cover every callback: all its actions return, or those before the first that leaves |
| Callbacks.AllSendsAreAccepted | src/asio_session.cpp:21-31 | every message a callback sends is accepted, in order, and only the first one into an empty queue starts a write |
| Callbacks.ReaderIsGivenThePayload | src/asio_session.cpp:127-147 | the installed onmessage handler, and no other, is called with the payload that was read; what it sends is accepted; then the next header is read |
| Callbacks.ReaderGoesOn | src/asio_session.cpp:99-149 | after a good header the announced payload is read, after a payload and its callback the next header; on a socket closed meanwhile that read fails at once |
| Callbacks.WriterGoesOn | src/asio_session.cpp:151-188 | after a header its payload is written, after a payload the message is popped and the next header written; on a closed socket that write fails at once |
| Callbacks.ClosingReports | src/asio_session.cpp:73-97 | closing reports its error to the installed onclose handler once, whatever the handler does |
| Callbacks.HandlerIsToldTheError | src/asio_session.cpp:78-90 | the onclose handler is called with the error of the close, after the socket is closed |
| Callbacks.CloseIsToldToTheHandler | src/asio_session.cpp:67-188 | close, a failed read or write and a malformed header each close with their error and call the installed onclose handler with it |
| Callbacks.LateHandlerIsToldNoError | src/asio_session.cpp:40-53 | a handler set on a closed session is called at once with the default code, and stays |
| Callbacks.FailedWriteCloses | src/asio_session.cpp:159-187 | a failed write closes and reports with the error of that write, and its message is not popped |
| Callbacks.CloseInsideCallback | src/asio_session.cpp:67-97 | close from inside any callback closes; on a closed session it does nothing |
| Callbacks.ClosingWhileReading | src/asio_session.cpp:73-147 | an onmessage handler that closes has onclose run inside it, two deep, and the next read starts after both, on a closed socket |
| Callbacks.CallbacksAreCounted | src/asio_session.cpp:33-147 | every user callback is a delivery or a report, and is told apart by how many came before it |
| ChunkedReading.ChunkingIsIrrelevant | src/asio_session.cpp:99-149 | for every stream, every splitting into chunks and any callbacks the reader ends as the decoder says: open with the same messages, waiting in the header or payload phase for the same rest; closed with EBADMSG after the same messages and a malformed header; or closed by a callback after a prefix of them |
| ChunkedReading.CutStreamInChunks | src/asio_session.cpp:99-149 | an encoded sequence cut after k bytes and fed in any chunks delivers exactly the messages that fit, and end of stream then closes with its error |
| AsioSessions.AsioSession.Send | src/asio_session.cpp:21-31 | the object's state becomes that of the transition system's send; throws and returns the queue length accordingly |
| AsioSessions.AsioSession.SetOnClose | src/asio_session.cpp:33-54 | installs or throws, and on a closed socket runs the handler, as the transition system does |
| AsioSessions.AsioSession.SetOnMessage | src/asio_session.cpp:56-65 | installs and starts the reader, or throws, as the transition system does |
| AsioSessions.AsioSession.CloseIntern | src/asio_session.cpp:73-97 | closes the socket, reports and silences the handlers, as the transition system does, re-entrant callbacks included |
| AsioSessions.AsioSession.CompleteRead | src/asio_session.cpp:99-149 | the read completion handlers do what the transition system does and keep the invariant; the payload buffer is the old one or new |
| AsioSessions.AsioSession.CompleteWrite | src/asio_session.cpp:151-188 | the write completion handlers do what the transition system does, always on a non-empty queue, and keep the invariant |
| AsioSessions.AsioSession.Handle | src/asio_session.cpp:10-188 | an event of the object's life is a step of the transition system and keeps its invariant; no buffer of anyone else's is touched |
| AsioSessions.AsioSession.Live | src/asio_session.cpp:10-188 | any sequence of events an object goes through takes it where the transition system's run goes |
| AsioSessions.RunsHappen | src/asio_session.cpp:10-188 | every run of the transition system is one an object can go through, with the same end |
| AsioSessions.LiveBeside | src/asio_session.cpp:10-19 | a new session goes through any run without disturbing another session |
| AsioSessions.HandleBeside | src/asio_session.cpp:10-188 | an event at one session leaves a session that shares no buffer with it as it was |
| AsioSessions.TakeTurns | src/asio_session.cpp:10-188 | two sessions that share no buffer each go their own way |
| Link.ExactFifo | src/asio_session.cpp:21-31 | between two sessions, under every run, each side is handed a prefix of the messages the other accepted: none lost, duplicated, reordered, split or altered |
| Link.CapacitiesAreKept | src/asio_session.cpp:151-188 | in every run each channel holds no more than its own capacity |
| Link.StreamMayEnd | src/asio_session.cpp:99-149 | the stream may end at any byte: the reader's session closes with that error, and the other is not affected |
| Link.BytesAreConserved | src/asio_session.cpp:99-188 | the encoding of all accepted messages is delivered frames, partial frame, channel, unwritten rest, in this order, in every reachable state |
| Link.NoBadMessageBetweenPeers | src/asio_session.cpp:110-139 | a session facing a session never closes with EBADMSG, and every delivered payload may be sent again |
| Progress.FlowAdvances | src/asio_session.cpp:99-188 | every internal event uses up work, and only b's callback can stop the flow |
| Progress.FlowPossible | src/asio_session.cpp:99-188 | with a channel capacity of at least one byte, some internal event is possible while not everything accepted is delivered |
| Progress.WorkFalls | src/asio_session.cpp:99-188 | in any run that keeps both ends open no event adds work, and every byte or completion of the direction uses some up |
| Progress.EverythingArrives | src/asio_session.cpp:99-188 | in any run that keeps both ends open at most two internal events per byte and four per message accepted happen, and when none is possible any more everything accepted is delivered |
| Progress.FlowRunsFlow | src/asio_session.cpp:99-188 | internal events by themselves keep messages flowing, accept nothing new, and all count |
| Replying.ReplyDelivery | example/echo/echo_server.cpp:98-101 | the re-entrant send inside onmessage accepts the delivered payload, never throws and only starts a write if none was outstanding |
| Replying.ReplyStep | example/chat/chat_server.cpp:150-162 | a replying server accepts for sending exactly the delivered messages that pass its test |
| Echo.ClientGetsItsOwnMessages | example/echo/echo_server.cpp:98-101 | in every reachable state the echo client has been handed a prefix of what it sent |
| Echo.EchoNeverStuck | example/echo/echo_server.cpp:98-101 | with both ends live and any positive capacities of the two channels, some internal event is possible until every message is back |
| Echo.EveryMessageIsEchoed | example/echo/echo_server.cpp:98-101 | in any run that keeps both ends open, with any client code, internal events are bounded by what the client has sent by its end, and when none is left the client has been handed exactly that |
| Echo.InternalKeepsLive | example/echo/echo_server.cpp:98-101 | internal events keep the pair live unless the client's own callback closes the client |
| Echo.InternalRunsStayLive | example/echo/echo_server.cpp:98-101 | with a client that does not close, internal events by themselves keep the pair live for ever |
| Echo.EchoComesToRest | example/echo/echo_server.cpp:98-101 | left to itself with a client that only listens, the pair comes to rest after a number of events bounded by what was sent, and all of it is back |
| Echo.LiveFromTheStart | example/echo/echo_server.cpp:87-104 | two open sessions after the set_ calls of server and client are live: the premise of the rows above is met |
| Echo.SendKeepsLive | src/asio_session.cpp:21-31 | the client may send at any time and the pair stays live |
| Chat.ConnectionsAreFree | example/chat/chat_server.cpp:136-163 | any event of a registered connection other than a server-side call happens in the chat as it does on the connection alone, with the server's and that client's own code |
| Chat.ClientsSeeTheLog | example/chat/chat_server.cpp:98-133 | each session accepted exactly the log of valid messages since its add, and its client is handed a prefix of that |
| Chat.TotalOrder | example/chat/chat_server.cpp:126-133 | any two clients agree with the log, hence with each other, at every position both have been handed |
| Chat.SenderOrder | example/chat/chat_server.cpp:150-162 | the log's messages from one client are a prefix of the valid messages that client sent, in order |
| ChatProgress.BroadcastIsSendAll | example/chat/chat_server.cpp:126-162 | a broadcast leaves every other session as send_all does, and the sender as send_all inside its callback followed by the callback's return and the next read |
| ChatProgress.BroadcastsArrive | example/chat/chat_server.cpp:126-133 | in any run of the chat that keeps a connection open, events towards its client are bounded by the log since it joined, and when none is left the client has been handed all of it |
| ChatProgress.MessagesReachTheLog | example/chat/chat_server.cpp:150-162 | in the other direction events are bounded by what the client sent, and when none is left the log holds all its valid messages in order |
| ChatProgress.FlowingAfterJoin | example/chat/chat_server.cpp:136-163 | a client that has joined and set its handler has messages flowing both ways: the premise of the two rows above is met |
| ChatRegistry.RegistryNeverShrinks | example/chat/chat_server.cpp:98-113 | in any run every registered session stays registered, where it joined, and the log only grows |
| ChatRegistry.ClosedSessionsKeepAccepting | example/chat/chat_server.cpp:105-133 | a session that has closed stays registered and accepts every later message of the log, none of which it writes |
| ChatRegistry.ClosedSessionWitness | example/chat/chat_server.cpp:105-133 | a concrete run in which a closed session accepts a message broadcast after it closed |
| ChatServers.IdsAre32Bits | example/chat/chat_server.cpp:187 | ids are exactly the numbers 0 to 0xffffffff |
| ChatServers.NextAtTheEnd | example/chat/chat_server.cpp:173 | incrementing an id adds one, except that 0xffffffff is followed by 0 |
| ChatServers.FirstFreeIs | example/chat/chat_server.cpp:169-177 | in plain numbers: all non-zero ids between the counter and the one returned are taken, and all from the counter on if it wrapped |
| ChatServers.IdsCountUp | example/chat/chat_server.cpp:169-177 | with ids 1 to k in use and the counter at k, the next id is k + 1 |
| ChatServers.RoomByCounting | example/chat/chat_server.cpp:169-183 | create_id has a free id to find exactly if fewer than 2^32 - 1 non-zero ids are in use; otherwise its loop condition holds for every id |
| ChatServers.ChatServer.CreateId | example/chat/chat_server.cpp:169-177 | terminates despite wrap-around and returns the first free non-zero id at or after the counter; ids handed out in sequence are 1, 2, 3 and so on |
| ChatServers.ChatServer.Add | example/chat/chat_server.cpp:98-103 | registers the session under an unused non-zero id and replaces nothing |
| ChatServers.ChatServer.SendAll | example/chat/chat_server.cpp:126-133 | every registered session accepts the message, or all stay as they were and an exception leaves send_all |
| ChatServers.ChatServer.Remove | example/chat/chat_server.cpp:105-113 | for a registered id the inverted test leaves the registry as it was |
| ChatServers.ChatServer.Accept | example/chat/chat_server.cpp:136-163 | a new session with the server's own handler code gets a fresh id and both handlers with a read started; no other session changes |
| ChatServers.ChatServer.OnMessage | example/chat/chat_server.cpp:150-162 | called for a registered session inside its callback: a valid message goes to all sessions, its own included; an invalid one calls remove, and neither the registry nor any session changes |
| ChatServers.ChatServer.OnClose | example/chat/chat_server.cpp:145-148 | calls remove, and neither the registry nor any session changes |

## Left out

- Boost asio, file descriptors and the io_context: replaced by the events of `Session.Event`; one thread, no nested `run` inside a callback, and closing the socket does not throw.
- C++ object lifetime: destroying a session with operations outstanding, destroying a `std::function` while it runs, allocation failure. The destructor's `close()` is not a separate event.
- Empty handlers: `set_onclose` and `set_onmessage` are modelled with non-empty handlers only.
- `chat_server::remove` on an id that is not registered dereferences an end iterator. Its handlers only ever pass the id of a registered session, and registered sessions stay (`ChatRegistry.RegistryNeverShrinks`), so `Remove` requires a registered id.
- Cross-session re-entrancy in the heap: in `Chat.dfy` a broadcast from inside one session's callback is a step on values; `ChatProgress.BroadcastIsSendAll` says that it is what send_all does to the states inside the callback, and `ChatServers.ChatServer.SendAll` proves the loop over real objects, but no object's callback calls into another object.
- `chat_server::close` at shutdown, which closes every session, and `chat_server::get`, which nothing calls.
- Protobuf parsing of chat messages: an arbitrary test on byte strings.
- `example/notification`: the same registry as the chat server and a timer.
- The Python, Go, Rust and Zig clients, option parsing, signals, console output, version functions.
- Codec.ParseHeader: the bytes and sizes are natural numbers, with `BitOr` for the bitwise or; the 64 bit width of `size_t` is not modelled since all values stay below 2^24.
- Progress.EverythingArrives: that the environment keeps moving bytes (fairness) is an assumption, not modelled.
- Echo.EveryMessageIsEchoed: says nothing once the client has closed; a client whose onmessage keeps sending may never come to rest, and the bound is then in terms of all it has sent.
