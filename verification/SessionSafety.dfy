/** What every step of a session keeps, under any environment and any user callbacks. */
module SessionSafety {
  import opened Codec
  import opened Session

  // ---------- the writer ----------

  /** The front frame, or nothing. */
  function FrontFrame(queue: seq<Bytes>): Bytes {
    if queue == [] then [] else Frame(queue[0])
  }

  /** How far into the front frame the outstanding write is. */
  predicate WriteSlotInv(open: bool, queue: seq<Bytes>, wr: WriteSlot, frontDone: nat) {
    match wr
    case WriteIdle => open ==> queue == []
    case WritePending(OfHeader, done) => open && queue != [] && done < HEADER_SIZE && frontDone == done
    case WritePending(OfPayload, done) => open && queue != [] && done < |queue[0]| && frontDone == HEADER_SIZE + done
    case WriteDone(part, NoError) =>
      queue != [] && frontDone == HEADER_SIZE + (if part.OfHeader? then 0 else |queue[0]|)
    case WriteDone(_, err) => queue != [] && err != BadMessage
  }

  /** The bytes on the wire are the popped frames and then a prefix of the front frame. */
  predicate WireInv(queue: seq<Bytes>, output: OutLog) {
    && output.accepted == output.popped + queue
    && AllValid(output.accepted)
    && output.frontDone <= |FrontFrame(queue)|
    && output.wire == EncodeAll(output.popped) + FrontFrame(queue)[..output.frontDone]
  }

  predicate WriterInv(s: State) {
    WireInv(s.queue, s.output) && WriteSlotInv(s.open, s.queue, s.wr, s.output.frontDone)
  }

  // ---------- the reader ----------

  /** The bytes of a frame before and including what a phase has got. */
  function FramePart(phase: ReadPhase, got: Bytes): Bytes {
    match phase
    case InHeader => got
    case InPayload(n) => HeaderFor(n) + got
  }

  predicate ReadSlotInv(open: bool, onmessage: Handler, rd: ReadSlot, partial: Bytes) {
    match rd
    case ReadIdle => true
    case ReadPending(phase, got) =>
      open && onmessage.User? && |got| < Wanted(phase) && PhaseInv(phase) && partial == FramePart(phase, got)
    case ReadDone(phase, got, err) =>
      && !onmessage.Empty? && err != BadMessage
      && PhaseInv(phase)
      && (err.NoError? ==> |got| == Wanted(phase) && partial == FramePart(phase, got))
      && (open ==> partial == FramePart(phase, got) && (|got| < Wanted(phase) || err.NoError?))
  }

  predicate PhaseInv(phase: ReadPhase) {
    phase.InPayload? ==> ValidSize(phase.length)
  }

  predicate StreamInv(input: InLog) {
    AllValid(input.delivered) && input.consumed == EncodeAll(input.delivered) + input.partial
  }

  predicate ReaderInv(s: State) {
    && StreamInv(s.input)
    && ReadSlotInv(s.open, s.onmessage, s.rd, s.input.partial)
    && (s.onmessage.Empty? ==> s.rd.ReadIdle? && s.input.consumed == [] && s.input.delivered == [])
    && (s.open ==> !s.onmessage.Noop?)
    && s.input.readers == (if s.onmessage.Empty? then 0 else 1)
    && (s.onmessage.Empty? <==> s.input.reader.None?)
    && (s.open && s.input.reader.Some? ==> s.onmessage == User(s.input.reader.value.id))
    && ((s.open || s.closing.running) && s.input.reader.Some? ==> !s.input.reader.value.late)
  }

  // ---------- closing ----------

  /** The reports owed once the socket is closed. */
  function Owed(closing: CloseLog): seq<Report> {
    match closing.installed
    case None => []
    case Some(i) => [Report(i.id, if i.late || closing.cause.None? then NoError else closing.cause.value)]
  }

  predicate CloseInv(s: State) {
    var c := s.closing;
    && (s.onclose.Empty? <==> c.installed.None?)
    && (s.open ==> c.reports == [] && c.cause.None? && !c.running)
    && (s.open && c.installed.Some? ==> s.onclose == User(c.installed.value.id) && !c.installed.value.late)
    && (!s.open ==> c.reports == Owed(c))
    && (!s.open && c.installed.Some? && !c.installed.value.late ==> c.cause.Some?)
  }

  // ---------- all of it ----------

  /** Every callback that started is a delivery or a report. */
  predicate Counted(s: State) {
    s.nesting.calls == |s.input.delivered| + |s.closing.reports|
  }

  /** Holds at every point, also inside callbacks. */
  predicate Core(s: State) {
    WriterInv(s) && ReaderInv(s) && CloseInv(s) && Counted(s) && !s.overlap
  }

  /** An open session with a reader has a read outstanding. */
  predicate Listening(s: State) {
    s.open && !s.onmessage.Empty? ==> !s.rd.ReadIdle?
  }

  /** A closed session has no user callback left that a successful read could reach. */
  predicate Muted(s: State) {
    !s.open && s.onmessage.User? ==> s.rd.ReadIdle? || (s.rd.ReadDone? && !s.rd.err.NoError?)
  }

  /** What is left of an accepted handler in a closed session: late ones stay. */
  function Remaining(installed: Option<Installed>): Handler {
    match installed
    case None => Empty
    case Some(i) => if i.late then User(i.id) else Noop
  }

  /** Once the close path is through, only late handlers are left. */
  predicate Unhooked(s: State) {
    !s.open && !s.closing.running ==>
      s.onclose == Remaining(s.closing.installed) && s.onmessage == Remaining(s.input.reader)
  }

  /** The stream part of two input logs is the same. */
  predicate SameStream(a: InLog, b: InLog) {
    a.consumed == b.consumed && a.partial == b.partial && a.delivered == b.delivered
  }

  /** Holds between events. */
  predicate Inv(s: State) {
    && Core(s) && Listening(s) && Muted(s) && Unhooked(s)
    && !s.closing.running && s.nesting.depth == 0 && s.nesting.deepest <= 2
  }

  /** What user code running inside a callback can and cannot change. */
  predicate Grows(s: State, r: State) {
    && OneWay(s, r)
    && SameStream(s.input, r.input)
    && r.closing.running == s.closing.running
    && r.output.(accepted := s.output.accepted) == s.output
    && s.output.accepted <= r.output.accepted
    && s.queue <= r.queue
    && (!s.onmessage.Empty? ==> !r.onmessage.Empty? && (s.rd.ReadIdle? ==> r.rd.ReadIdle?))
    && (!s.rd.ReadIdle? ==> r.rd == if s.open && !r.open then AbortRead(s.rd) else s.rd)
    && (!s.wr.WriteIdle? ==> r.wr == if s.open && !r.open then AbortWrite(s.wr) else s.wr)
    && (r.open && s.wr.WriteIdle? ==> !r.wr.WriteDone?)
    && (s.onclose == r.onclose || s.onclose.Empty? || s.open)
    && (!s.open ==> r.closing.cause == s.closing.cause)
    && (!s.open && !s.onclose.Empty? ==> r.closing == s.closing)
    && (Listening(s) ==> Listening(r))
    && (Muted(s) ==> Muted(r))
    && (Unhooked(s) ==> Unhooked(r))
  }

  /** If user code closed the session, the cause is the default error code. */
  predicate ClosedByCall(s: State, r: State) {
    s.open && !r.open ==> r.closing.cause == Some(NoError)
  }

  lemma GrowsTransitive(s: State, t: State, r: State)
    requires Grows(s, t) && Grows(t, r)
    ensures Grows(s, r)
    ensures ClosedByCall(s, t) && ClosedByCall(t, r) ==> ClosedByCall(s, r)
  {
  }

  // ---------- the writer's steps ----------

  lemma SendKeeps(s: State, content: Bytes)
    requires Core(s)
    ensures Core(SendTo(s, content).state) && Grows(s, SendTo(s, content).state)
  {
    if ValidSize(|content|) {
      var r := SendTo(s, content).state;
      assert r.output.accepted == s.output.popped + r.queue;
      assert s.queue == [] ==> FrontFrame(s.queue)[..0] == FrontFrame(r.queue)[..0];
    }
  }

  lemma PopKeepsWire(s: State)
    requires WriterInv(s) && s.queue != [] && s.output.frontDone == |FrontFrame(s.queue)|
    ensures WireInv(Pop(s).queue, Pop(s).output)
  {
    var r := Pop(s);
    assert s.queue == [s.queue[0]] + r.queue;
    assert r.output.accepted == r.output.popped + r.queue;
    EncodeSnoc(s.output.popped, s.queue[0]);
    assert FrontFrame(s.queue)[..s.output.frontDone] == Frame(s.queue[0]);
    assert FrontFrame(r.queue)[..0] == [];
  }

  lemma FrontIsValid(s: State)
    requires WireInv(s.queue, s.output) && s.queue != []
    ensures ValidSize(|s.queue[0]|)
  {
    assert s.queue[0] == s.output.accepted[|s.output.popped|];
  }

  lemma TakeMore(prefix: Bytes, front: Bytes, d: nat, k: nat)
    requires d + k <= |front|
    ensures prefix + front[..d] + front[d..d + k] == prefix + front[..d + k]
  {
  }

  lemma OutgoingIsNext(s: State, k: nat)
    requires WriterInv(s) && Enabled(s, Depart(k))
    ensures var d := s.output.frontDone;
            d + k <= |FrontFrame(s.queue)| && Outgoing(s, k) == FrontFrame(s.queue)[d..d + k]
  {
  }

  lemma TransmitKeeps(s: State, k: nat)
    requires WriterInv(s) && Enabled(s, Depart(k))
    ensures WriterInv(Transmit(s, k))
  {
    OutgoingIsNext(s, k);
    TakeMore(EncodeAll(s.output.popped), FrontFrame(s.queue), s.output.frontDone, k);
  }

  lemma CompleteWriteKeeps(o: Oracle, s: State)
    requires Core(s) && Enabled(s, RunWrite) && s.wr.err.NoError?
    ensures WriterInv(CompleteWrite(o, s)) && !CompleteWrite(o, s).overlap
  {
    FrontIsValid(s);
    if s.wr.part.OfPayload? {
      PopKeepsWire(s);
    }
  }

  // ---------- closing and callbacks ----------

  lemma CutOffKeeps(s: State, err: ErrorCode)
    requires s.open
    requires WireInv(s.queue, s.output) && (s.queue == [] ==> s.wr.WriteIdle?)
    requires WriteSlotInv(s.open, s.queue, s.wr, s.output.frontDone) || s.wr.WriteIdle?
    requires ReaderInv(s)
    ensures WriterInv(CutOff(s, err)) && ReaderInv(CutOff(s, err))
  {
  }

  /** The state in which the close path may be entered: a completed operation may have been
      taken out of its slot already. */
  predicate Closable(s: State) {
    && WireInv(s.queue, s.output) && (s.queue == [] ==> s.wr.WriteIdle?)
    && (WriteSlotInv(s.open, s.queue, s.wr, s.output.frontDone) || s.wr.WriteIdle?)
    && ReaderInv(s) && CloseInv(s) && Counted(s) && !s.overlap
  }

  /** Entering onclose settles the report that closing the socket owes. */
  lemma ReportKeeps(s: State, err: ErrorCode)
    requires Closable(s) && s.open && !s.onclose.Empty?
    ensures Core(Enter(CutOff(s, err), s.onclose.id, OnClose(err)))
  {
    CutOffKeeps(s, err);
  }

  lemma UnreportedClose(s: State, err: ErrorCode)
    requires Closable(s) && s.open && s.onclose.Empty?
    ensures Core(Silence(CutOff(s, err))) && Grows(s, Silence(CutOff(s, err)))
  {
    CutOffKeeps(s, err);
  }

  /** The rest of the close path, after onclose has returned in state t. */
  lemma ReportedClose(s: State, err: ErrorCode, t: State)
    requires Closable(s) && s.open && s.onclose.User?
    requires Core(t) && Grows(Enter(CutOff(s, err), s.onclose.id, OnClose(err)), t)
    ensures Core(Silence(t.(onclose := Noop))) && Grows(s, Silence(t.(onclose := Noop)))
    ensures !t.open && t.closing.cause == Some(err)
  {
  }

  lemma CloseKeeps(o: Oracle, s: State, err: ErrorCode)
    requires Closable(s)
    ensures Core(CloseIntern(o, s, err))
    ensures Grows(s, CloseIntern(o, s, err))
    ensures s.open ==> !CloseIntern(o, s, err).open && CloseIntern(o, s, err).closing.cause == Some(err)
    decreases Fuel(s.open, s.onclose), 1, 0
  {
    if s.open {
      var cut := CutOff(s, err);
      if s.onclose.Empty? {
        UnreportedClose(s, err);
      } else {
        ReportKeeps(s, err);
        CallbackKeeps(o, cut, s.onclose.id, OnClose(err));
        ReportedClose(s, err, Callback(o, cut, s.onclose, OnClose(err)));
      }
    }
  }

  lemma CallbackKeeps(o: Oracle, s: State, id: nat, call: Call)
    requires Core(Enter(s, id, call))
    ensures Core(Callback(o, s, User(id), call))
    ensures Grows(Enter(s, id, call), Callback(o, s, User(id), call))
    ensures ClosedByCall(s, Callback(o, s, User(id), call))
    decreases Fuel(s.open, s.onclose), 4, 0
  {
    ScriptKeeps(o, Enter(s, id, call), o(id, s.nesting.calls, call));
  }

  lemma {:induction false} ScriptKeeps(o: Oracle, s: State, script: seq<Action>)
    requires Core(s)
    ensures Core(RunScript(o, s, script)) && Grows(s, RunScript(o, s, script))
    ensures ClosedByCall(s, RunScript(o, s, script))
    decreases Fuel(s.open, s.onclose), 3, |script|
  {
    if script == [] || script[0].Throw? {
      assert RunScript(o, s, script) == s;
    } else {
      var first := Perform(o, s, script[0].op);
      PerformKeeps(o, s, script[0].op);
      if first.thrown && !script[0].caught {
        assert RunScript(o, s, script) == first.state;
      } else {
        var r := RunScript(o, first.state, script[1..]);
        ScriptKeeps(o, first.state, script[1..]);
        GrowsTransitive(s, first.state, r);
        assert RunScript(o, s, script) == r;
      }
    }
  }

  lemma PerformKeeps(o: Oracle, s: State, op: Op)
    requires Core(s)
    ensures Core(Perform(o, s, op).state) && Grows(s, Perform(o, s, op).state)
    ensures ClosedByCall(s, Perform(o, s, op).state)
    decreases Fuel(s.open, s.onclose), 2, 0
  {
    match op
    case Send(content) => SendKeeps(s, content);
    case Close => CloseKeeps(o, s, NoError);
    case SetOnClose(id) =>
      if s.onclose.Empty? {
        RegisterKeeps(s, id);
        if !s.open {
          CallbackKeeps(o, Register(s, id), id, OnClose(NoError));
        }
      }
    case SetOnMessage(id) =>
      if s.onmessage.Empty? {
        InstallOnMessageKeeps(s, id);
      }
  }

  /** A new onclose handler: nothing is owed on an open session; a closed one reports at once. */
  lemma RegisterKeeps(s: State, id: nat)
    requires Core(s) && s.onclose.Empty?
    ensures var r := if s.open then Register(s, id) else Enter(Register(s, id), id, OnClose(NoError));
      Core(r) && Grows(s, r)
  {
  }

  lemma InstallOnMessageKeeps(s: State, id: nat)
    requires Core(s) && s.onmessage.Empty?
    ensures Core(InstallOnMessage(s, id)) && Grows(s, InstallOnMessage(s, id))
  {
  }

  // ---------- the reader's steps ----------

  lemma FramePartGrows(phase: ReadPhase, got: Bytes, chunk: Bytes)
    ensures FramePart(phase, got) + chunk == FramePart(phase, got + chunk)
  {
    match phase
    case InHeader =>
    case InPayload(n) => Regroup(HeaderFor(n), got, chunk);
  }

  lemma ReceiveKeeps(s: State, chunk: Bytes)
    requires ReaderInv(s) && Enabled(s, Arrive(chunk))
    ensures ReaderInv(Receive(s, chunk))
  {
    FramePartGrows(s.rd.phase, s.rd.got, chunk);
    Regroup(EncodeAll(s.input.delivered), s.input.partial, chunk);
  }

  lemma HeaderAccepted(s: State)
    requires Core(s) && Enabled(s, RunRead) && s.rd.err.NoError? && s.rd.phase.InHeader? && GoodHeader(s.rd.got)
    ensures HeaderFor(LengthIn(s.rd.got)) + [] == s.input.partial
  {
    HeaderBijection(s.rd.got, LengthIn(s.rd.got));
  }

  /** Delivering completes a frame: the bytes since the last delivery are exactly that frame. */
  lemma DeliverKeeps(s: State, id: nat)
    requires Core(s) && Enabled(s, RunRead) && s.rd.err.NoError? && s.rd.phase.InPayload? && s.onmessage == User(id)
    ensures Core(Enter(s.(rd := ReadIdle), id, OnMessage(s.rd.got)))
    ensures s.input.partial == Frame(s.rd.got)
  {
    EncodeSnoc(s.input.delivered, s.rd.got);
    assert EncodeAll(s.input.delivered) + Frame(s.rd.got) == EncodeAll(s.input.delivered + [s.rd.got]) + [];
  }

  lemma CompleteReadKeeps(o: Oracle, s: State)
    requires Inv(s) && Enabled(s, RunRead)
    ensures var r := CompleteRead(o, s);
            Core(r) && Listening(r) && Muted(r) && Unhooked(r) && !r.closing.running
  {
    var idle := s.(rd := ReadIdle);
    if !s.rd.err.NoError? {
      CloseKeeps(o, idle, s.rd.err);
    } else if s.rd.phase.InPayload? {
      CompletePayloadKeeps(o, s);
    } else if GoodHeader(s.rd.got) {
      HeaderAccepted(s);
    } else {
      CloseKeeps(o, idle, BadMessage);
    }
  }

  lemma CompletePayloadKeeps(o: Oracle, s: State)
    requires Inv(s) && Enabled(s, RunRead) && s.rd.err.NoError? && s.rd.phase.InPayload?
    ensures var r := CompleteRead(o, s);
            Core(r) && Listening(r) && Muted(r) && Unhooked(r) && !r.closing.running
  {
    if s.onmessage.User? {
      DeliverKeeps(s, s.onmessage.id);
      CallbackKeeps(o, s.(rd := ReadIdle), s.onmessage.id, OnMessage(s.rd.got));
    }
  }

  /** A read completion moves no byte, and does nothing to a closed session but free its slot. */
  lemma CompleteReadFrame(o: Oracle, s: State)
    requires Inv(s) && Enabled(s, RunRead)
    ensures var r := CompleteRead(o, s);
      && r.output.(accepted := s.output.accepted) == s.output
      && s.output.accepted <= r.output.accepted
      && r.input.consumed == s.input.consumed
      && (!s.open ==> !r.open && r.input == s.input && r.closing == s.closing)
  {
    var idle := s.(rd := ReadIdle);
    if !s.rd.err.NoError? {
      CloseKeeps(o, idle, s.rd.err);
    } else if s.rd.phase.InHeader? {
      CloseKeeps(o, idle, BadMessage);
    } else if s.onmessage.User? {
      DeliverKeeps(s, s.onmessage.id);
      CallbackKeeps(o, idle, s.onmessage.id, OnMessage(s.rd.got));
    }
  }

  lemma CompleteWriteFrame(o: Oracle, s: State)
    requires Inv(s) && Enabled(s, RunWrite)
    ensures var r := CompleteWrite(o, s);
      && r.output.wire == s.output.wire
      && SameStream(s.input, r.input)
      && (!s.open ==> !r.open && r.input == s.input && r.closing == s.closing)
  {
    if !s.wr.err.NoError? {
      FailedWriteClosable(s);
      CloseKeeps(o, s.(wr := WriteIdle), s.wr.err);
    }
  }

  // ---------- nesting ----------

  /** Balanced, and no deeper than the remaining fuel allows. */
  predicate NestsWithin(s: State, r: State) {
    && r.nesting.depth == s.nesting.depth
    && s.nesting.deepest <= r.nesting.deepest
    && r.nesting.deepest <= Max(s.nesting.deepest, s.nesting.depth + (if Fuel(s.open, s.onclose) > 0 then 1 else 0))
  }

  lemma CallbackNests(o: Oracle, s: State, id: nat, call: Call)
    ensures var r := Callback(o, s, User(id), call);
            && r.nesting.depth == s.nesting.depth
            && Max(s.nesting.deepest, s.nesting.depth + 1) <= r.nesting.deepest
            && r.nesting.deepest
               <= Max(s.nesting.deepest, s.nesting.depth + (if Fuel(s.open, s.onclose) > 0 then 2 else 1))
    decreases Fuel(s.open, s.onclose), 4, 0
  {
    ScriptNests(o, Enter(s, id, call), o(id, s.nesting.calls, call));
  }

  lemma {:induction false} ScriptNests(o: Oracle, s: State, script: seq<Action>)
    ensures NestsWithin(s, RunScript(o, s, script))
    decreases Fuel(s.open, s.onclose), 3, |script|
  {
    if script != [] && script[0].Invoke? {
      PerformNests(o, s, script[0].op);
      var first := Perform(o, s, script[0].op);
      if !first.thrown || script[0].caught {
        ScriptNests(o, first.state, script[1..]);
      }
    }
  }

  lemma PerformNests(o: Oracle, s: State, op: Op)
    ensures NestsWithin(s, Perform(o, s, op).state)
    decreases Fuel(s.open, s.onclose), 2, 0
  {
    match op
    case Send(_) =>
    case Close => CloseNests(o, s, NoError);
    case SetOnClose(id) =>
      if s.onclose.Empty? && !s.open {
        CallbackNests(o, Register(s, id), id, OnClose(NoError));
      }
    case SetOnMessage(_) =>
  }

  lemma CloseNests(o: Oracle, s: State, err: ErrorCode)
    ensures NestsWithin(s, CloseIntern(o, s, err))
    decreases Fuel(s.open, s.onclose), 1, 0
  {
    if s.open && s.onclose.User? {
      CallbackNests(o, CutOff(s, err), s.onclose.id, OnClose(err));
    }
  }

  // ---------- every step, every run ----------

  lemma StepNests(o: Oracle, s: State, e: Event)
    requires s.nesting.depth == 0 && s.nesting.deepest <= 2
    ensures Step(o, s, e).nesting.depth == 0 && Step(o, s, e).nesting.deepest <= 2
  {
    match e
    case Api(op) => PerformNests(o, s, op);
    case RunRead =>
      if Enabled(s, e) {
        var idle := s.(rd := ReadIdle);
        CloseNests(o, idle, s.rd.err);
        CloseNests(o, idle, BadMessage);
        if s.onmessage.User? {
          CallbackNests(o, idle, s.onmessage.id, OnMessage(s.rd.got));
        }
      }
    case RunWrite =>
      if Enabled(s, e) {
        CloseNests(o, s.(wr := WriteIdle), s.wr.err);
      }
    case _ =>
  }

  lemma FailedWriteClosable(s: State)
    requires Inv(s) && s.wr.WriteDone?
    ensures Closable(s.(wr := WriteIdle))
  {
  }

  /** A successful write completion touches the writer only. */
  lemma CompleteWriteLeaves(o: Oracle, s: State)
    requires Enabled(s, RunWrite) && s.wr.err.NoError?
    ensures var r := CompleteWrite(o, s);
      r == s.(queue := r.queue, output := r.output, wr := r.wr, overlap := r.overlap)
  {
  }

  lemma RunWriteKeeps(o: Oracle, s: State)
    requires Inv(s) && Enabled(s, RunWrite)
    ensures var r := CompleteWrite(o, s);
      Core(r) && Listening(r) && Muted(r) && Unhooked(r) && !r.closing.running
  {
    if s.wr.err.NoError? {
      CompleteWriteKeeps(o, s);
      CompleteWriteLeaves(o, s);
    } else {
      FailedWriteClosable(s);
      CloseKeeps(o, s.(wr := WriteIdle), s.wr.err);
    }
  }

  lemma {:induction false} StepKeeps(o: Oracle, s: State, e: Event)
    requires Inv(s)
    ensures Inv(Step(o, s, e))
  {
    StepNests(o, s, e);
    if Enabled(s, e) {
      match e
      case Api(op) => PerformKeeps(o, s, op);
      case Arrive(chunk) => ReceiveKeeps(s, chunk);
      case Depart(k) => TransmitKeeps(s, k);
      case FailRead(_) =>
      case FailWrite(_) =>
      case RunRead => CompleteReadKeeps(o, s);
      case RunWrite => RunWriteKeeps(o, s);
    }
  }

  lemma {:induction false} RunKeeps(o: Oracle, s: State, es: seq<Event>)
    requires Inv(s)
    ensures Inv(Run(o, s, es))
    decreases |es|
  {
    if es != [] {
      StepKeeps(o, s, es[0]);
      RunKeeps(o, Step(o, s, es[0]), es[1..]);
    }
  }

  /** Every state a session can reach satisfies Inv. */
  lemma ReachableInv(o: Oracle, open: bool, es: seq<Event>)
    ensures Inv(Run(o, Init(open), es))
  {
    RunKeeps(o, Init(open), es);
  }
}
