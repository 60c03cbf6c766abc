/** The session of src/asio_session.cpp as a transition system.

    Its state is what the C++ object holds (socket open flag, handlers, write queue, the
    outstanding read and write) plus logs of what happened, which nothing reads back. Socket
    operations complete in two moments: the operation finishes (Pending to Done), and later
    its completion handler runs. A close may fall between the two. */
module Session {
  import opened Codec

  /** error_code: NoError converts to false, everything else to true. */
  datatype ErrorCode = NoError | BadMessage | Aborted | BadDescriptor | Io(code: int)

  /** std::function: Empty is unset, Noop the empty lambda installed on close. */
  datatype Handler = Empty | Noop | User(id: nat)

  /** One invocation of a user callback. */
  datatype Call = OnMessage(payload: Bytes) | OnClose(err: ErrorCode)

  datatype Op = Send(content: Bytes) | Close | SetOnClose(id: nat) | SetOnMessage(id: nat)

  /** What a user callback does: API calls on its own session, each with or without a try
      block around it, and exceptions. */
  datatype Action = Invoke(op: Op, caught: bool) | Throw

  /** User code: what handler id does when it is the n-th callback of the session. Results
      hold for every oracle, so callbacks may behave differently at each call. */
  type Oracle = (nat, nat, Call) -> seq<Action>

  datatype ReadPhase = InHeader | InPayload(length: nat)

  datatype ReadSlot =
    | ReadIdle
    | ReadPending(phase: ReadPhase, got: Bytes)
    | ReadDone(phase: ReadPhase, got: Bytes, err: ErrorCode)

  datatype WritePart = OfHeader | OfPayload

  datatype WriteSlot =
    | WriteIdle
    | WritePending(part: WritePart, done: nat)
    | WriteDone(part: WritePart, err: ErrorCode)

  /** Messages accepted by send and popped from the queue, all bytes handed to the socket, and
      how many of them belong to the front of the queue. */
  datatype OutLog = OutLog(accepted: seq<Bytes>, popped: seq<Bytes>, wire: Bytes, frontDone: nat)

  /** An accepted handler; late when the session was closed already. */
  datatype Installed = Installed(id: nat, late: bool)

  /** All bytes taken from the socket, those since the last delivery, the payloads passed to
      a user onmessage, the number of successful set_onmessage calls, and the last accepted
      onmessage handler. That handler is late if it came after the close and not from inside the
      onclose callback of the close itself. */
  datatype InLog = InLog(
    consumed: Bytes, partial: Bytes, delivered: seq<Bytes>, readers: nat, reader: Option<Installed>)

  datatype Report = Report(id: nat, err: ErrorCode)

  /** The accepted onclose handler, its invocations, the error of the event that closed the open
      socket, and whether the close path is running right now. */
  datatype CloseLog = CloseLog(
    installed: Option<Installed>, reports: seq<Report>, cause: Option<ErrorCode>, running: bool)

  /** Callbacks started so far, callbacks running now, and the deepest nesting seen. */
  datatype Nesting = Nesting(calls: nat, depth: nat, deepest: nat)

  /** overlap records a read (or write) started while another one was outstanding. */
  datatype State = State(
    open: bool,
    onmessage: Handler,
    onclose: Handler,
    queue: seq<Bytes>,
    rd: ReadSlot,
    wr: WriteSlot,
    output: OutLog,
    input: InLog,
    closing: CloseLog,
    nesting: Nesting,
    overlap: bool)

  /** A new session; the socket passed in may be open or not. */
  function Init(open: bool): State {
    State(open, Empty, Empty, [], ReadIdle, WriteIdle, OutLog([], [], [], 0), InLog([], [], [], 0, None),
          CloseLog(None, [], None, false), Nesting(0, 0, 0), false)
  }

  // ---------- starting operations ----------

  function Wanted(phase: ReadPhase): nat {
    match phase
    case InHeader => HEADER_SIZE
    case InPayload(n) => n
  }

  /** async_read. On a closed socket the operation is complete at once, with an error, but
      its handler does not run before the caller returns. */
  function StartRead(s: State, phase: ReadPhase): (r: State)
    ensures r.overlap <==> s.overlap || !s.rd.ReadIdle?
  {
    if s.rd != ReadIdle then s.(overlap := true)
    else if s.open then s.(rd := ReadPending(phase, []))
    else s.(rd := ReadDone(phase, [], BadDescriptor))
  }

  /** write_header and write_payload. */
  function StartWrite(s: State, part: WritePart): (r: State)
    ensures r.overlap <==> s.overlap || (s.queue != [] && !s.wr.WriteIdle?)
  {
    if s.queue == [] then s
    else if s.wr != WriteIdle then s.(overlap := true)
    else if s.open then s.(wr := WritePending(part, 0))
    else s.(wr := WriteDone(part, BadDescriptor))
  }

  // ---------- the API and the callbacks it can run ----------

  /** The state after a call, and whether the call threw. */
  datatype Outcome = Outcome(state: State, thrown: bool)

  function SendTo(s: State, content: Bytes): Outcome {
    if !ValidSize(|content|) then
      Outcome(s, true)
    else
      var queued := s.(queue := s.queue + [content],
                       output := s.output.(accepted := s.output.accepted + [content]));
      Outcome(if |queued.queue| == 1 then StartWrite(queued, OfHeader) else queued, false)
  }

  function AbortRead(rd: ReadSlot): ReadSlot {
    if rd.ReadPending? then ReadDone(rd.phase, rd.got, Aborted) else rd
  }

  function AbortWrite(wr: WriteSlot): WriteSlot {
    if wr.WritePending? then WriteDone(wr.part, Aborted) else wr
  }

  /** socket_.close(): outstanding operations complete with an error, completed ones keep
      their result. */
  function CutOff(s: State, err: ErrorCode): State {
    s.(open := false, rd := AbortRead(s.rd), wr := AbortWrite(s.wr),
       closing := s.closing.(cause := Some(err), running := true))
  }

  /** How often a callback can still run a callback: closing and installing onclose are one-way. */
  function Fuel(open: bool, onclose: Handler): nat {
    (if open then 1 else 0) + (if onclose.Empty? then 1 else 0)
  }

  function Max(a: nat, b: nat): nat {
    if a < b then b else a
  }

  /** One more callback is running. */
  function Deeper(n: Nesting): Nesting {
    Nesting(n.calls + 1, n.depth + 1, Max(n.deepest, n.depth + 1))
  }

  /** Bookkeeping at the start of user callback id. */
  function Enter(s: State, id: nat, call: Call): State {
    var t := s.(nesting := Deeper(s.nesting));
    match call
    case OnMessage(p) => t.(input := s.input.(partial := [], delivered := s.input.delivered + [p]))
    case OnClose(e) => t.(closing := s.closing.(reports := s.closing.reports + [Report(id, e)]))
  }

  function Leave(s: State): State {
    s.(nesting := s.nesting.(depth := if s.nesting.depth > 0 then s.nesting.depth - 1 else 0))
  }

  /** One-way changes every callback and API call respects. */
  predicate OneWay(s: State, r: State) {
    (r.open ==> s.open) && (r.onclose.Empty? ==> s.onclose.Empty?)
  }

  /** Calls a handler; exceptions are swallowed by every caller. */
  function Callback(o: Oracle, s: State, handler: Handler, call: Call): (r: State)
    ensures OneWay(s, r)
    decreases Fuel(s.open, s.onclose), 4, 0
  {
    match handler
    case Empty => s
    case Noop => s
    case User(id) => Leave(RunScript(o, Enter(s, id, call), o(id, s.nesting.calls, call)))
  }

  function RunScript(o: Oracle, s: State, script: seq<Action>): (r: State)
    ensures OneWay(s, r)
    decreases Fuel(s.open, s.onclose), 3, |script|
  {
    if script == [] || script[0].Throw? then s
    else
      var first := Perform(o, s, script[0].op);
      if first.thrown && !script[0].caught then first.state
      else RunScript(o, first.state, script[1..])
  }

  function Perform(o: Oracle, s: State, op: Op): (r: Outcome)
    ensures OneWay(s, r.state)
    decreases Fuel(s.open, s.onclose), 2, 0
  {
    match op
    case Send(content) => SendTo(s, content)
    case Close => Outcome(CloseIntern(o, s, NoError), false)
    case SetOnClose(id) =>
      if !s.onclose.Empty? then Outcome(s, true) else Outcome(InstallOnClose(o, s, id), false)
    case SetOnMessage(id) =>
      if !s.onmessage.Empty? then Outcome(s, true) else Outcome(InstallOnMessage(s, id), false)
  }

  function Register(s: State, id: nat): State {
    s.(onclose := User(id), closing := s.closing.(installed := Some(Installed(id, !s.open))))
  }

  function InstallOnClose(o: Oracle, s: State, id: nat): (r: State)
    requires s.onclose.Empty?
    ensures OneWay(s, r)
    decreases Fuel(s.open, s.onclose), 1, 0
  {
    var t := Register(s, id);
    if s.open then t else Callback(o, t, t.onclose, OnClose(NoError))
  }

  function InstallOnMessage(s: State, id: nat): State {
    var reader := Installed(id, !s.open && !s.closing.running);
    StartRead(s.(onmessage := User(id), input := s.input.(readers := s.input.readers + 1, reader := Some(reader))),
              InHeader)
  }

  /** The end of the close path. */
  function Silence(s: State): State {
    s.(onmessage := if s.onmessage.Empty? then Empty else Noop, closing := s.closing.(running := false))
  }

  /** The one close path: socket, then onclose, then the handlers become no-ops. */
  function CloseIntern(o: Oracle, s: State, err: ErrorCode): (r: State)
    ensures OneWay(s, r)
    decreases Fuel(s.open, s.onclose), 1, 0
  {
    if !s.open then s
    else
      var cut := CutOff(s, err);
      Silence(if cut.onclose.Empty? then cut
              else Callback(o, cut, cut.onclose, OnClose(err)).(onclose := Noop))
  }

  // ---------- completion handlers ----------

  /** The lambdas in read_header and read_payload. */
  function CompleteRead(o: Oracle, s: State): State
    requires s.rd.ReadDone? && (s.rd.err.NoError? ==> |s.rd.got| == Wanted(s.rd.phase))
  {
    var idle := s.(rd := ReadIdle);
    if !s.rd.err.NoError? then CloseIntern(o, idle, s.rd.err)
    else
      match s.rd.phase
      case InHeader =>
        if !GoodHeader(s.rd.got) then CloseIntern(o, idle, BadMessage)
        else StartRead(idle, InPayload(LengthIn(s.rd.got)))
      case InPayload(_) =>
        StartRead(Callback(o, idle, idle.onmessage, OnMessage(s.rd.got)), InHeader)
  }

  function Pop(s: State): State
    requires s.queue != []
  {
    s.(queue := s.queue[1..],
       output := s.output.(popped := s.output.popped + [s.queue[0]], frontDone := 0))
  }

  /** The lambdas in write_header and write_payload. */
  function CompleteWrite(o: Oracle, s: State): State
    requires s.wr.WriteDone? && s.queue != []
  {
    var idle := s.(wr := WriteIdle);
    if !s.wr.err.NoError? then CloseIntern(o, idle, s.wr.err)
    else
      match s.wr.part
      case OfHeader => StartWrite(idle, OfPayload)
      case OfPayload => StartWrite(Pop(idle), OfHeader)
  }

  // ---------- the environment ----------

  /** The buffer of the outstanding write. */
  function Buffer(s: State): Bytes
    requires s.wr.WritePending? && s.queue != []
  {
    if s.wr.part.OfHeader? then HeaderFor(|s.queue[0]|) else s.queue[0]
  }

  /** The bytes the next k bytes of the outstanding write consist of. */
  function Outgoing(s: State, k: nat): Bytes
    requires s.wr.WritePending? && s.queue != [] && s.wr.done + k <= |Buffer(s)|
  {
    Buffer(s)[s.wr.done..s.wr.done + k]
  }

  function Transmit(s: State, k: nat): State
    requires s.wr.WritePending? && s.queue != [] && s.wr.done + k <= |Buffer(s)|
  {
    var done := s.wr.done + k;
    s.(wr := if done == |Buffer(s)| then WriteDone(s.wr.part, NoError) else WritePending(s.wr.part, done),
       output := s.output.(wire := s.output.wire + Outgoing(s, k), frontDone := s.output.frontDone + k))
  }

  function Receive(s: State, chunk: Bytes): State
    requires s.rd.ReadPending?
  {
    var got := s.rd.got + chunk;
    s.(rd := if |got| == Wanted(s.rd.phase) then ReadDone(s.rd.phase, got, NoError) else ReadPending(s.rd.phase, got),
       input := s.input.(consumed := s.input.consumed + chunk, partial := s.input.partial + chunk))
  }

  datatype Event =
    | Api(op: Op)
    | Arrive(chunk: Bytes)
    | Depart(count: nat)
    | FailRead(readError: int)
    | FailWrite(writeError: int)
    | RunRead
    | RunWrite

  predicate Enabled(s: State, e: Event) {
    match e
    case Api(_) => true
    case Arrive(chunk) => s.rd.ReadPending? && chunk != [] && |s.rd.got| + |chunk| <= Wanted(s.rd.phase)
    case Depart(k) => s.wr.WritePending? && s.queue != [] && k > 0 && s.wr.done + k <= |Buffer(s)|
    case FailRead(_) => s.rd.ReadPending?
    case FailWrite(_) => s.wr.WritePending?
    case RunRead => s.rd.ReadDone? && (s.rd.err.NoError? ==> |s.rd.got| == Wanted(s.rd.phase))
    case RunWrite => s.wr.WriteDone? && s.queue != []
  }

  /** One event; events that cannot happen change nothing. */
  function Step(o: Oracle, s: State, e: Event): State {
    if !Enabled(s, e) then s
    else
      match e
      case Api(op) => Perform(o, s, op).state
      case Arrive(chunk) => Receive(s, chunk)
      case Depart(k) => Transmit(s, k)
      case FailRead(code) => s.(rd := ReadDone(s.rd.phase, s.rd.got, Io(code)))
      case FailWrite(code) => s.(wr := WriteDone(s.wr.part, Io(code)))
      case RunRead => CompleteRead(o, s)
      case RunWrite => CompleteWrite(o, s)
  }

  function Run(o: Oracle, s: State, es: seq<Event>): State
    decreases |es|
  {
    if es == [] then s else Run(o, Step(o, s, es[0]), es[1..])
  }
}
