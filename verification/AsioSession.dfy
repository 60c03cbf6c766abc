/** The class asio_session, with the fields of the C++ object, proved against the transition
    system of module Session: every method takes Abs() where that system says. */
module AsioSessions {
  import opened Codec
  import S = Session
  import Safety = SessionSafety

  /** The outstanding read; the bytes it has got are in the buffer it fills. */
  datatype ReadOp =
    | NoRead
    | Reading(phase: S.ReadPhase, done: nat)
    | ReadFinished(phase: S.ReadPhase, done: nat, err: S.ErrorCode)

  function Payloads(queue: seq<ComMessage>): (ps: seq<Bytes>)
    ensures |ps| == |queue| && forall i :: 0 <= i < |ps| ==> ps[i] == queue[i].payload
  {
    seq(|queue|, i requires 0 <= i < |queue| => queue[i].payload)
  }

  class AsioSession {
    // user code, and how many of its callbacks have started
    const world: S.Oracle
    var calls: nat

    // socket_ and its outstanding operations
    var open: bool
    var reading: ReadOp
    var writing: S.WriteSlot

    // message_to_read, write_queue and the handlers
    const header: array<byte>
    var payload: array<byte>
    var queue: seq<ComMessage>
    var onmessage: S.Handler
    var onclose: S.Handler

    // what happened
    ghost var output: S.OutLog
    ghost var input: S.InLog
    ghost var closing: S.CloseLog
    ghost var depth: nat
    ghost var deepest: nat
    ghost var overlap: bool

    /** A phase's buffer has the size the operation was started with. */
    ghost predicate Fits(phase: S.ReadPhase, done: nat)
      reads `payload
    {
      done <= S.Wanted(phase) && (phase.InPayload? ==> payload.Length == phase.length)
    }

    ghost predicate Valid()
      reads `payload, `queue, `reading
    {
      && header.Length == HEADER_SIZE && header != payload
      && (forall i :: 0 <= i < |queue| ==> queue[i].Valid())
      && (reading.NoRead? || Fits(reading.phase, reading.done))
    }

    ghost function Got(phase: S.ReadPhase, done: nat): Bytes
      requires header.Length == HEADER_SIZE && Fits(phase, done)
      reads `payload, header, payload
    {
      if phase.InHeader? then header[..done] else payload[..done]
    }

    ghost function ReadSlot(): S.ReadSlot
      requires Valid()
      reads `payload, `queue, `reading, header, payload
    {
      match reading
      case NoRead => S.ReadIdle
      case Reading(phase, done) => S.ReadPending(phase, Got(phase, done))
      case ReadFinished(phase, done, err) => S.ReadDone(phase, Got(phase, done), err)
    }

    ghost function Abs(): S.State
      requires Valid()
      reads this, header, payload
    {
      S.State(open, onmessage, onclose, Payloads(queue), ReadSlot(), writing, output, input, closing,
              S.Nesting(calls, depth, deepest), overlap)
    }

    constructor (world: S.Oracle, open: bool)
      ensures Valid() && Abs() == S.Init(open) && this.world == world && fresh(header) && fresh(payload)
    {
      this.world := world;
      calls := 0;
      this.open := open;
      reading, writing := NoRead, S.WriteIdle;
      header := new byte[HEADER_SIZE](_ => 0);
      payload := new byte[0];
      queue := [];
      onmessage, onclose := S.Empty, S.Empty;
      output, input := S.OutLog([], [], [], 0), S.InLog([], [], [], 0, None);
      closing := S.CloseLog(None, [], None, false);
      depth, deepest, overlap := 0, 0, false;
    }

    // ---------- starting operations ----------

    method ReadHeader()
      requires Valid()
      modifies this
      ensures payload == old(payload) || fresh(payload)
      ensures Valid() && Abs() == S.StartRead(old(Abs()), S.InHeader)
    {
      StartRead(S.InHeader);
    }

    /** read_payload: message_to_read.payload is resized first. */
    method ReadPayload(length: nat)
      requires Valid() && reading.NoRead?
      modifies this
      ensures payload == old(payload) || fresh(payload)
      ensures Valid() && Abs() == S.StartRead(old(Abs()), S.InPayload(length))
    {
      payload := new byte[length](_ => 0);
      StartRead(S.InPayload(length));
    }

    method StartRead(phase: S.ReadPhase)
      requires Valid() && (phase.InPayload? ==> payload.Length == phase.length)
      modifies this
      ensures payload == old(payload) || fresh(payload)
      ensures Valid() && Abs() == S.StartRead(old(Abs()), phase)
    {
      if reading != NoRead {
        overlap := true;
      } else if open {
        reading := Reading(phase, 0);
      } else {
        reading := ReadFinished(phase, 0, S.BadDescriptor);
      }
    }

    method WriteHeader()
      requires Valid()
      modifies `writing, `overlap
      ensures Valid() && Abs() == S.StartWrite(old(Abs()), S.OfHeader)
    {
      StartWrite(S.OfHeader);
    }

    method WritePayload()
      requires Valid()
      modifies `writing, `overlap
      ensures Valid() && Abs() == S.StartWrite(old(Abs()), S.OfPayload)
    {
      StartWrite(S.OfPayload);
    }

    method StartWrite(part: S.WritePart)
      requires Valid()
      modifies `writing, `overlap
      ensures Valid() && Abs() == S.StartWrite(old(Abs()), part)
    {
      if queue == [] {
        return;
      }
      if writing != S.WriteIdle {
        overlap := true;
      } else if open {
        writing := S.WritePending(part, 0);
      } else {
        writing := S.WriteDone(part, S.BadDescriptor);
      }
    }

    // ---------- the API ----------

    /** send; thrown stands for the exception of the com_message constructor. */
    method Send(message: Bytes) returns (thrown: bool, count: nat)
      requires Valid()
      modifies `queue, `output, `writing, `overlap
      ensures Valid() && S.Outcome(Abs(), thrown) == S.SendTo(old(Abs()), message)
      ensures !thrown ==> count == |queue| == old(|queue|) + 1
    {
      var framed := MakeMessage(message);
      if framed.None? {
        return true, 0;
      }
      queue := queue + [framed.value];
      output := output.(accepted := output.accepted + [message]);
      assert Payloads(queue) == old(Payloads(queue)) + [message];
      count := |queue|;
      if count == 1 {
        WriteHeader();
      }
      thrown := false;
    }

    method SetOnClose(id: nat) returns (thrown: bool)
      requires Valid()
      modifies this
      ensures payload == old(payload) || fresh(payload)
      ensures Valid() && S.Outcome(Abs(), thrown) == S.Perform(world, old(Abs()), S.SetOnClose(id))
      decreases S.Fuel(open, onclose), 1, 0
    {
      if onclose != S.Empty {
        return true;
      }
      onclose := S.User(id);
      closing := closing.(installed := Some(S.Installed(id, !open)));
      assert Abs() == S.Register(old(Abs()), id);
      if !open {
        Callback(onclose, S.OnClose(S.NoError));
      }
      thrown := false;
    }

    method SetOnMessage(id: nat) returns (thrown: bool)
      requires Valid()
      modifies this
      ensures payload == old(payload) || fresh(payload)
      ensures Valid() && S.Outcome(Abs(), thrown) == S.Perform(world, old(Abs()), S.SetOnMessage(id))
    {
      if onmessage != S.Empty {
        return true;
      }
      onmessage := S.User(id);
      input := input.(readers := input.readers + 1, reader := Some(S.Installed(id, !open && !closing.running)));
      ReadHeader();
      thrown := false;
    }

    method Close()
      requires Valid()
      modifies this
      ensures payload == old(payload) || fresh(payload)
      ensures Valid() && Abs() == S.CloseIntern(world, old(Abs()), S.NoError)
      decreases S.Fuel(open, onclose), 2, 0
    {
      CloseIntern(S.NoError);
    }

    method CloseIntern(err: S.ErrorCode)
      requires Valid()
      modifies this
      ensures payload == old(payload) || fresh(payload)
      ensures Valid() && Abs() == S.CloseIntern(world, old(Abs()), err)
      decreases S.Fuel(open, onclose), 1, 0
    {
      if open {
        CloseSocket(err);
        if onclose != S.Empty {
          Report(err);
        }
        Silence();
      }
    }

    /** The onmessage block of close_intern. */
    method Silence()
      requires Valid()
      modifies `onmessage, `closing
      ensures Valid() && Abs() == S.Silence(old(Abs()))
    {
      if onmessage != S.Empty {
        onmessage := S.Noop;
      }
      closing := closing.(running := false);
    }

    /** The onclose block of close_intern. */
    method Report(err: S.ErrorCode)
      requires Valid() && onclose != S.Empty && !open
      modifies this
      ensures payload == old(payload) || fresh(payload)
      ensures Valid()
      ensures Abs() == S.Callback(world, old(Abs()), old(onclose), S.OnClose(err)).(onclose := S.Noop)
      decreases S.Fuel(open, onclose), 5, 0
    {
      Callback(onclose, S.OnClose(err));
      onclose := S.Noop;
    }

    /** socket_.close() */
    method CloseSocket(err: S.ErrorCode)
      requires Valid()
      modifies `open, `reading, `writing, `closing
      ensures Valid() && Abs() == S.CutOff(old(Abs()), err)
    {
      AbortRead();
      AbortWrite();
      open := false;
      closing := closing.(cause := Some(err), running := true);
    }

    /** A pending operation of a socket that closes is complete, with an error. */
    method AbortRead()
      requires Valid()
      modifies `reading
      ensures Valid() && Abs() == old(Abs()).(rd := S.AbortRead(old(Abs()).rd))
    {
      if reading.Reading? {
        reading := ReadFinished(reading.phase, reading.done, S.Aborted);
      }
    }

    method AbortWrite()
      requires Valid()
      modifies `writing
      ensures Valid() && Abs() == old(Abs()).(wr := S.AbortWrite(old(Abs()).wr))
    {
      if writing.WritePending? {
        writing := S.WriteDone(writing.part, S.Aborted);
      }
    }

    // ---------- running user code ----------

    /** Calls a std::function; its exceptions are swallowed by the caller's catch (...). */
    method Callback(handler: S.Handler, call: S.Call)
      requires Valid()
      modifies this
      ensures payload == old(payload) || fresh(payload)
      ensures Valid() && Abs() == S.Callback(world, old(Abs()), handler, call)
      decreases S.Fuel(open, onclose), 4, 0
    {
      if handler.User? {
        var script := world(handler.id, calls, call);
        EnterCallback(handler.id, call);
        RunScript(script);
        depth := if depth > 0 then depth - 1 else 0;
      }
    }

    method EnterCallback(id: nat, call: S.Call)
      requires Valid()
      modifies `calls, `deepest, `depth, `input, `closing
      ensures Valid() && Abs() == S.Enter(old(Abs()), id, call)
    {
      CountCallback();
      match call
      case OnMessage(p) => input := input.(partial := [], delivered := input.delivered + [p]);
      case OnClose(e) => closing := closing.(reports := closing.reports + [S.Report(id, e)]);
    }

    method CountCallback()
      requires Valid()
      modifies `calls, `deepest, `depth
      ensures Valid() && Abs() == old(Abs()).(nesting := S.Deeper(old(Abs()).nesting))
    {
      calls := calls + 1;
      deepest := S.Max(deepest, depth + 1);
      depth := depth + 1;
    }

    /** The body of a callback, which may re-enter the session. */
    method RunScript(script: seq<S.Action>)
      requires Valid()
      modifies this
      ensures payload == old(payload) || fresh(payload)
      ensures Valid() && Abs() == S.RunScript(world, old(Abs()), script)
      decreases S.Fuel(open, onclose), 3, |script|
    {
      if script == [] || script[0].Throw? {
        return;
      }
      var thrown := Perform(script[0].op);
      if thrown && !script[0].caught {
        return;
      }
      RunScript(script[1..]);
    }

    method Perform(op: S.Op) returns (thrown: bool)
      requires Valid()
      modifies this
      ensures payload == old(payload) || fresh(payload)
      ensures Valid() && S.Outcome(Abs(), thrown) == S.Perform(world, old(Abs()), op)
      decreases S.Fuel(open, onclose), 2, 1
    {
      thrown := false;
      match op
      case Send(content) =>
        var count;
        thrown, count := Send(content);
      case Close => Close();
      case SetOnClose(id) => thrown := SetOnClose(id);
      case SetOnMessage(id) => thrown := SetOnMessage(id);
    }

    // ---------- completion handlers ----------

    /** The lambdas in read_header and read_payload. */
    method CompleteRead()
      requires Valid() && Safety.Inv(Abs()) && reading.ReadFinished?
      modifies this
      ensures payload == old(payload) || fresh(payload)
      ensures Valid() && Safety.Inv(Abs())
      ensures S.Enabled(old(Abs()), S.RunRead) && Abs() == S.CompleteRead(world, old(Abs()))
    {
      ghost var before := Abs();
      Safety.StepKeeps(world, before, S.RunRead);
      var op := TakeRead();
      if op.err != S.NoError {
        CloseIntern(op.err);
      } else if op.phase.InHeader? {
        assert before.rd.got == header[..];
        var ok, length := ParseHeader(header);
        if ok {
          ReadPayload(length);
        } else {
          CloseIntern(S.BadMessage);
        }
      } else {
        assert before.rd.got == payload[..];
        if onmessage != S.Empty {
          Callback(onmessage, S.OnMessage(payload[..]));
        }
        ReadHeader();
      }
    }

    /** The lambdas in write_header and write_payload. */
    method CompleteWrite()
      requires Valid() && Safety.Inv(Abs()) && writing.WriteDone?
      modifies this
      ensures payload == old(payload) || fresh(payload)
      ensures Valid() && Safety.Inv(Abs())
      ensures S.Enabled(old(Abs()), S.RunWrite) && Abs() == S.CompleteWrite(world, old(Abs()))
    {
      ghost var before := Abs();
      Safety.StepKeeps(world, before, S.RunWrite);
      var op := TakeWrite();
      if op.err != S.NoError {
        CloseIntern(op.err);
      } else if op.part.OfHeader? {
        WritePayload();
      } else {
        PopFront();
        WriteHeader();
      }
    }

    /** A completion handler has been called: its operation is no longer outstanding. */
    method TakeRead() returns (op: ReadOp)
      requires Valid()
      modifies `reading
      ensures Valid() && op == old(reading) && reading.NoRead? && Abs() == old(Abs()).(rd := S.ReadIdle)
    {
      op := reading;
      reading := NoRead;
    }

    method TakeWrite() returns (op: S.WriteSlot)
      requires Valid()
      modifies `writing
      ensures Valid() && op == old(writing) && Abs() == old(Abs()).(wr := S.WriteIdle)
    {
      op := writing;
      writing := S.WriteIdle;
    }

    method PopFront()
      requires Valid() && queue != []
      modifies `queue, `output
      ensures Valid() && Abs() == S.Pop(old(Abs()))
    {
      output := output.(popped := output.popped + [queue[0].payload], frontDone := 0);
      queue := queue[1..];
      assert Payloads(queue) == old(Payloads(queue))[1..];
    }

    // ---------- the socket ----------

    /** Bytes arrive in the buffer of the outstanding read. */
    method Arrive(chunk: Bytes)
      requires Valid() && S.Enabled(Abs(), S.Arrive(chunk))
      modifies this, header, payload
      ensures payload == old(payload) || fresh(payload)
      ensures Valid() && Abs() == S.Receive(old(Abs()), chunk)
    {
      var buffer := if reading.phase.InHeader? then header else payload;
      var from := reading.done;
      forall i | 0 <= i < |chunk| {
        buffer[from + i] := chunk[i];
      }
      var done := from + |chunk|;
      assert buffer[..done] == old(buffer[..from]) + chunk;
      reading := if done == S.Wanted(reading.phase) then ReadFinished(reading.phase, done, S.NoError)
                 else Reading(reading.phase, done);
      input := input.(consumed := input.consumed + chunk, partial := input.partial + chunk);
    }

    /** The socket takes count bytes of the outstanding write: from the header or the payload of
        the message at the front of the queue. */
    method Depart(count: nat) returns (bytes: Bytes)
      requires Valid() && S.Enabled(Abs(), S.Depart(count))
      modifies `writing, `output
      ensures Valid() && Abs() == S.Transmit(old(Abs()), count)
      ensures bytes == S.Outgoing(old(Abs()), count)
    {
      var front := queue[0];
      var buffer := if writing.part.OfHeader? then front.header else front.payload;
      var done := writing.done + count;
      bytes := buffer[writing.done..done];
      writing := if done == |buffer| then S.WriteDone(writing.part, S.NoError)
                 else S.WritePending(writing.part, done);
      output := output.(wire := output.wire + bytes, frontDone := output.frontDone + count);
    }

    method FailRead(code: int)
      requires Valid() && S.Enabled(Abs(), S.FailRead(code))
      modifies `reading
      ensures Valid() && Abs() == S.Step(world, old(Abs()), S.FailRead(code))
    {
      reading := ReadFinished(reading.phase, reading.done, S.Io(code));
    }

    method FailWrite(code: int)
      requires Valid() && S.Enabled(Abs(), S.FailWrite(code))
      modifies `writing
      ensures Valid() && Abs() == S.Step(world, old(Abs()), S.FailWrite(code))
    {
      writing := S.WriteDone(writing.part, S.Io(code));
    }

    /** An event of the socket: bytes or a failure. */
    method HandleSocket(e: S.Event)
      requires Valid() && S.Enabled(Abs(), e) && !e.Api? && !e.RunRead? && !e.RunWrite?
      modifies this, header, payload
      ensures payload == old(payload) || fresh(payload)
      ensures Valid() && Abs() == S.Step(world, old(Abs()), e)
    {
      match e
      case Arrive(chunk) => Arrive(chunk);
      case Depart(count) =>
        var bytes := Depart(count);
      case FailRead(code) => FailRead(code);
      case FailWrite(code) => FailWrite(code);
    }

    /** One event of the session's life: the object follows the transition system. */
    method Handle(e: S.Event)
      requires Valid() && Safety.Inv(Abs()) && S.Enabled(Abs(), e)
      modifies this, header, payload
      ensures payload == old(payload) || fresh(payload)
      ensures Valid() && Abs() == S.Step(world, old(Abs()), e) && Safety.Inv(Abs())
    {
      Safety.StepKeeps(world, Abs(), e);
      match e
      case Api(op) =>
        var thrown := Perform(op);
      case RunRead => CompleteRead();
      case RunWrite => CompleteWrite();
      case _ => HandleSocket(e);
    }

    /** A whole run: the object ends where the transition system does, for any events each of which
        can happen when its turn comes. */
    method Live(es: seq<S.Event>)
      requires Valid() && Safety.Inv(Abs()) && Happens(world, Abs(), es)
      modifies this, header, payload
      ensures payload == old(payload) || fresh(payload)
      ensures Valid() && Abs() == S.Run(world, old(Abs()), es) && Safety.Inv(Abs())
      decreases |es|
    {
      if es != [] {
        Handle(es[0]);
        Live(es[1..]);
      }
    }
  }

  /** Every event of a run can happen when its turn comes. */
  predicate Happens(o: S.Oracle, s: S.State, es: seq<S.Event>)
    decreases |es|
  {
    es == [] || (S.Enabled(s, es[0]) && Happens(o, S.Step(o, s, es[0]), es[1..]))
  }

  /** A run without the events that cannot happen. */
  function Happening(o: S.Oracle, s: S.State, es: seq<S.Event>): seq<S.Event>
    decreases |es|
  {
    if es == [] then []
    else (if S.Enabled(s, es[0]) then [es[0]] else []) + Happening(o, S.Step(o, s, es[0]), es[1..])
  }

  /** Every run of the transition system is a run an object can go through, so what is proved of all
      runs from a new session holds of the object of class AsioSession. */
  lemma {:induction false} RunsHappen(o: S.Oracle, s: S.State, es: seq<S.Event>)
    ensures Happens(o, s, Happening(o, s, es))
    ensures S.Run(o, s, Happening(o, s, es)) == S.Run(o, s, es)
    decreases |es|
  {
    if es != [] {
      RunsHappen(o, S.Step(o, s, es[0]), es[1..]);
      var rest := Happening(o, S.Step(o, s, es[0]), es[1..]);
      if S.Enabled(s, es[0]) {
        assert Happening(o, s, es)[1..] == rest;
      } else {
        assert Happening(o, s, es) == rest;
      }
    }
  }

  /** Objects that share no buffer. */
  ghost predicate Apart(s: AsioSession, t: AsioSession)
    reads s, t
  {
    && s != t
    && s.header != t.header && s.header != t.payload
    && s.payload != t.header && s.payload != t.payload
  }

  /** A new session goes through any run; another session is neither disturbed nor shares a buffer
      with it afterwards. */
  method LiveBeside(world: S.Oracle, open: bool, es: seq<S.Event>, other: AsioSession) returns (s: AsioSession)
    requires other.Valid() && Happens(world, S.Init(open), es)
    ensures fresh(s) && s.Valid() && s.Abs() == S.Run(world, S.Init(open), es)
    ensures Apart(s, other) && other.Valid() && other.Abs() == old(other.Abs())
  {
    s := new AsioSession(world, open);
    Safety.ReachableInv(world, open, []);
    s.Live(es);
  }

  /** An event at one session does not disturb another one that shares no buffer with it. */
  method HandleBeside(s: AsioSession, e: S.Event, other: AsioSession)
    requires s.Valid() && Safety.Inv(s.Abs()) && S.Enabled(s.Abs(), e)
    requires other.Valid() && Apart(s, other)
    modifies s, s.header, s.payload
    ensures s.Valid() && s.Abs() == S.Step(s.world, old(s.Abs()), e) && Safety.Inv(s.Abs())
    ensures other.Valid() && other.Abs() == old(other.Abs()) && Apart(s, other)
    ensures s.payload == old(s.payload) || fresh(s.payload)
  {
    s.Handle(e);
  }

  /** Two sessions that share no buffer take turns: each goes its own way. */
  method TakeTurns(s: AsioSession, t: AsioSession, d: S.Event, e: S.Event)
    requires s.Valid() && t.Valid() && Apart(s, t) && Safety.Inv(s.Abs()) && Safety.Inv(t.Abs())
    requires S.Enabled(s.Abs(), d) && S.Enabled(t.Abs(), e)
    modifies s, s.header, s.payload, t, t.header, t.payload
    ensures s.Valid() && t.Valid() && Apart(s, t)
    ensures s.Abs() == S.Step(s.world, old(s.Abs()), d)
    ensures t.Abs() == S.Step(t.world, old(t.Abs()), e)
  {
    HandleBeside(s, d, t);
    HandleBeside(t, e, s);
  }
}
