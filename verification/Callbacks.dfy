/** What user callbacks are told and what becomes of their calls: which handler runs with which
    argument, that all its calls are made, in order, and what they do from inside a callback. */
module Callbacks {
  import opened Codec
  import opened Session
  import opened SessionSafety
  import opened SessionTheorems

  // ---------- the body of a callback ----------

  /** Every action of a script returns to it: nothing leaves the callback early. */
  predicate Returns(o: Oracle, s: State, script: seq<Action>)
    decreases |script|
  {
    script == [] || (!Leaves(o, s, script[0]) && Returns(o, Perform(o, s, script[0].op).state, script[1..]))
  }

  /** Calls are made one after the other: what comes first has its full effect before the rest. */
  lemma {:induction false} CallsAreMadeInOrder(o: Oracle, s: State, first: seq<Action>, rest: seq<Action>)
    requires Returns(o, s, first)
    ensures RunScript(o, s, first + rest) == RunScript(o, RunScript(o, s, first), rest)
    decreases |first|
  {
    if first == [] {
      assert first + rest == rest;
    } else {
      assert (first + rest)[1..] == first[1..] + rest;
      CallsAreMadeInOrder(o, Perform(o, s, first[0].op).state, first[1..], rest);
    }
  }

  /** A callback that makes one call does what that call does, also if it throws. */
  lemma {:induction false} OneCall(o: Oracle, s: State, op: Op, caught: bool)
    ensures RunScript(o, s, [Invoke(op, caught)]) == Perform(o, s, op).state
  {
    assert RunScript(o, Perform(o, s, op).state, []) == Perform(o, s, op).state;
  }

  /** A call that throws changes nothing; if the exception is caught the callback goes on as if the
      call had not been made. */
  lemma {:induction false} CaughtThrowIsSkipped(o: Oracle, s: State, op: Op, rest: seq<Action>)
    requires Perform(o, s, op).thrown
    ensures Perform(o, s, op).state == s
    ensures RunScript(o, s, [Invoke(op, true)] + rest) == RunScript(o, s, rest)
  {
    assert ([Invoke(op, true)] + rest)[1..] == rest;
  }

  /** Together with ThrowIsReturn this says what any callback does: all its actions return, or those
      up to the first one that leaves. */
  lemma {:induction false} ReturnsOrLeaves(o: Oracle, s: State, script: seq<Action>) returns (k: nat)
    ensures k <= |script| && Returns(o, s, script[..k])
    ensures k < |script| ==> Leaves(o, RunScript(o, s, script[..k]), script[k])
    decreases |script|
  {
    if script == [] || Leaves(o, s, script[0]) {
      k := 0;
      assert RunScript(o, s, script[..0]) == s;
    } else {
      var j := ReturnsOrLeaves(o, Perform(o, s, script[0].op).state, script[1..]);
      k := j + 1;
      assert script[..k][1..] == script[1..][..j];
    }
  }

  // ---------- sending from a callback ----------

  /** A callback that sends the messages ms. */
  function Sends(ms: seq<Bytes>): seq<Action> {
    seq(|ms|, i requires 0 <= i < |ms| => Invoke(Send(ms[i]), false))
  }

  /** The session once ms are accepted, in order: the first of them starts a write if nothing was
      queued before. */
  function Accepting(s: State, ms: seq<Bytes>): State {
    s.(queue := s.queue + ms,
       output := s.output.(accepted := s.output.accepted + ms),
       wr := if s.queue != [] || ms == [] then s.wr
             else if s.open then WritePending(OfHeader, 0)
             else WriteDone(OfHeader, BadDescriptor))
  }

  lemma AcceptingMore(s: State, m: Bytes, ms: seq<Bytes>)
    requires s.queue == [] ==> s.wr.WriteIdle?
    ensures Accepting(Accepting(s, [m]), ms) == Accepting(s, [m] + ms)
  {
    assert s.queue + [m] + ms == s.queue + ([m] + ms);
    assert s.output.accepted + [m] + ms == s.output.accepted + ([m] + ms);
  }

  lemma AcceptingNone(s: State)
    ensures Accepting(s, []) == s
  {
  }

  /** Every message a callback sends is accepted, in order. */
  lemma {:induction false} AllSendsAreAccepted(o: Oracle, s: State, ms: seq<Bytes>)
    requires AllValid(ms) && (s.queue == [] ==> s.wr.WriteIdle?)
    ensures RunScript(o, s, Sends(ms)) == Accepting(s, ms)
    decreases |ms|
  {
    if ms == [] {
      AcceptingNone(s);
    } else {
      var t := Accepting(s, [ms[0]]);
      assert Perform(o, s, Send(ms[0])) == Outcome(t, false);
      assert Sends(ms)[1..] == Sends(ms[1..]);
      AllSendsAreAccepted(o, t, ms[1..]);
      AcceptingMore(s, ms[0], ms[1..]);
      assert [ms[0]] + ms[1..] == ms;
    }
  }

  // ---------- onmessage ----------

  /** Payload p was read completely, and its completion handler is due. */
  predicate PayloadRead(s: State, p: Bytes) {
    s.rd.ReadDone? && s.rd.phase.InPayload? && s.rd.err.NoError? && s.rd.got == p
  }

  /** The installed onmessage handler is called with the payload, whatever other handlers or other
      calls would do: what it sends is accepted. Then the session reads on. */
  lemma {:induction false} ReaderIsGivenThePayload(o: Oracle, s: State, id: nat, p: Bytes, ms: seq<Bytes>)
    requires Inv(s) && s.onmessage == User(id) && PayloadRead(s, p)
    requires AllValid(ms) && o(id, s.nesting.calls, OnMessage(p)) == Sends(ms)
    ensures var r := Step(o, s, RunRead);
      && r.output.accepted == s.output.accepted + ms && r.queue == s.queue + ms
      && r.input.delivered == s.input.delivered + [p]
      && r.open && r.rd == ReadPending(InHeader, [])
  {
    AllSendsAreAccepted(o, Enter(s.(rd := ReadIdle), id, OnMessage(p)), ms);
  }

  /** Whatever the handler does, the next read starts after it has returned; and a good header is
      followed by the read of the payload it announces. */
  lemma {:induction false} ReaderGoesOn(o: Oracle, s: State)
    requires Inv(s) && s.rd.ReadDone? && s.rd.err.NoError?
    requires s.rd.phase.InHeader? ==> GoodHeader(s.rd.got)
    ensures var r := Step(o, s, RunRead);
            var next := if s.rd.phase.InHeader? then InPayload(LengthIn(s.rd.got)) else InHeader;
      r.rd == if r.open then ReadPending(next, []) else ReadDone(next, [], BadDescriptor)
  {
    if s.rd.phase.InPayload? && s.onmessage.User? {
      DeliverKeeps(s, s.onmessage.id);
      CallbackKeeps(o, s.(rd := ReadIdle), s.onmessage.id, OnMessage(s.rd.got));
    }
  }

  /** The same for the writer: header, payload, next message. */
  lemma {:induction false} WriterGoesOn(o: Oracle, s: State)
    requires Inv(s) && s.wr.WriteDone? && s.wr.err.NoError?
    ensures var r := Step(o, s, RunWrite);
            var next := if s.wr.part.OfHeader? then OfPayload else OfHeader;
      && r.queue == (if s.wr.part.OfHeader? then s.queue else s.queue[1..])
      && r.wr == if r.queue == [] then WriteIdle
                 else if s.open then WritePending(next, 0)
                 else WriteDone(next, BadDescriptor)
  {
  }

  // ---------- onclose ----------

  /** Closing reports to the installed handler, whatever that does: once, and with the error the
      session closed with. */
  lemma {:induction false} ClosingReports(o: Oracle, s: State, err: ErrorCode, id: nat)
    requires Closable(s) && s.open && s.onclose == User(id)
    ensures var r := CloseIntern(o, s, err);
      r.onclose == Noop && r.closing == CloseLog(s.closing.installed, [Report(id, err)], Some(err), false)
  {
    ReportKeeps(s, err);
    CallbackKeeps(o, CutOff(s, err), id, OnClose(err));
  }

  /** The handler is told that error, after the socket is closed: what it sends in answer is accepted,
      and is not written any more. */
  lemma {:induction false} HandlerIsToldTheError(o: Oracle, s: State, err: ErrorCode, id: nat, ms: seq<Bytes>)
    requires Closable(s) && s.open && s.onclose == User(id)
    requires AllValid(ms) && o(id, s.nesting.calls, OnClose(err)) == Sends(ms)
    ensures var r := CloseIntern(o, s, err);
      && r.output.accepted == s.output.accepted + ms && r.queue == s.queue + ms
      && r.wr == if s.queue == [] && ms != [] then WriteDone(OfHeader, BadDescriptor) else AbortWrite(s.wr)
  {
    AllSendsAreAccepted(o, Enter(CutOff(s, err), id, OnClose(err)), ms);
  }

  /** Event e closes an open session with error err, other than from inside an onmessage callback:
      close, a failed operation, a malformed header. */
  predicate ClosesWith(s: State, e: Event, err: ErrorCode) {
    match e
    case Api(op) => op.Close? && err == NoError
    case RunRead =>
      && s.rd.ReadDone?
      && (if s.rd.err != NoError then err == s.rd.err
          else
            && err == BadMessage
            && s.rd.phase.InHeader? && |s.rd.got| == HEADER_SIZE && !GoodHeader(s.rd.got))
    case RunWrite => s.wr.WriteDone? && err == s.wr.err != NoError
    case _ => false
  }

  lemma {:induction false} ClosingStep(o: Oracle, s: State, e: Event, err: ErrorCode) returns (t: State)
    requires Inv(s) && s.open && ClosesWith(s, e, err)
    ensures Step(o, s, e) == CloseIntern(o, t, err)
    ensures Closable(t)
    ensures t == if e.RunRead? then s.(rd := ReadIdle) else if e.RunWrite? then s.(wr := WriteIdle) else s
  {
    t := if e.RunRead? then s.(rd := ReadIdle) else if e.RunWrite? then s.(wr := WriteIdle) else s;
  }

  /** Every such event closes the session with its error and reports that error to the installed
      onclose handler; and it is that error the handler is told, whatever other handlers or other
      calls would do. */
  lemma {:induction false} CloseIsToldToTheHandler(
      o: Oracle, s: State, e: Event, err: ErrorCode, id: nat, ms: seq<Bytes>)
    requires Inv(s) && s.open && s.onclose == User(id) && ClosesWith(s, e, err)
    requires AllValid(ms) && o(id, s.nesting.calls, OnClose(err)) == Sends(ms)
    ensures var r := Step(o, s, e);
      && !r.open && r.closing.cause == Some(err) && r.closing.reports == [Report(id, err)]
      && r.output.accepted == s.output.accepted + ms && r.queue == s.queue + ms
  {
    var t := ClosingStep(o, s, e, err);
    CloseKeeps(o, t, err);
    ClosingReports(o, t, err, id);
    HandlerIsToldTheError(o, t, err, id, ms);
  }

  /** A handler set on a closed session is called at once and is told the default code. */
  lemma {:induction false} LateHandlerIsToldNoError(o: Oracle, s: State, id: nat, ms: seq<Bytes>)
    requires Inv(s) && !s.open && s.onclose.Empty?
    requires AllValid(ms) && o(id, s.nesting.calls, OnClose(NoError)) == Sends(ms)
    ensures var r := Step(o, s, Api(SetOnClose(id)));
      && r.onclose == User(id) && r.closing.reports == [Report(id, NoError)]
      && r.output.accepted == s.output.accepted + ms && r.queue == s.queue + ms
  {
    var inside := Enter(Register(s, id), id, OnClose(NoError));
    AllSendsAreAccepted(o, inside, ms);
    assert Callback(o, Register(s, id), User(id), OnClose(NoError)) == Leave(Accepting(inside, ms));
    assert Step(o, s, Api(SetOnClose(id))) == InstallOnClose(o, s, id);
  }

  /** A failed write closes the session with its error; the message is not popped. */
  lemma {:induction false} FailedWriteCloses(o: Oracle, s: State, code: int)
    requires Inv(s) && s.wr.WritePending?
    ensures var r := Run(o, s, [FailWrite(code), RunWrite]);
      && !r.open && r.closing.cause == Some(Io(code))
      && r.output.popped == s.output.popped
      && (s.onclose.User? ==> r.closing.reports == [Report(s.onclose.id, Io(code))])
  {
    var failed := s.(wr := WriteDone(s.wr.part, Io(code)));
    var t := s.(wr := WriteIdle);
    assert Step(o, s, FailWrite(code)) == failed;
    assert Step(o, failed, RunWrite) == CloseIntern(o, t, Io(code));
    RunTwo(o, s, FailWrite(code), RunWrite);
    FailureCloses(o, t, Io(code));
  }

  lemma {:induction false} FailureCloses(o: Oracle, s: State, err: ErrorCode)
    requires Closable(s) && s.open
    ensures var r := CloseIntern(o, s, err);
      && !r.open && r.closing.cause == Some(err)
      && r.output.popped == s.output.popped
      && (s.onclose.User? ==> r.closing.reports == [Report(s.onclose.id, err)])
  {
    CloseKeeps(o, s, err);
    if s.onclose.User? {
      ClosingReports(o, s, err, s.onclose.id);
    }
  }

  // ---------- closing from inside a callback ----------

  /** close inside any callback closes; on a closed session it does nothing. */
  lemma {:induction false} CloseInsideCallback(o: Oracle, s: State, caught: bool)
    requires Core(s)
    ensures var r := RunScript(o, s, [Invoke(Close, caught)]);
      if s.open then !r.open && r.closing.cause == Some(NoError) else r == s
  {
    OneCall(o, s, Close, caught);
    CloseKeeps(o, s, NoError);
  }

  /** An onmessage handler that closes the session: onclose runs inside it, so callbacks do nest two
      deep, and the next read starts after both, on a closed socket. */
  lemma {:induction false} ClosingWhileReading(o: Oracle, s: State, id: nat, p: Bytes)
    requires Inv(s) && s.onmessage == User(id) && s.onclose.User? && PayloadRead(s, p)
    requires o(id, s.nesting.calls, OnMessage(p)) == [Invoke(Close, false)]
    ensures var r := Step(o, s, RunRead);
      && !r.open && r.closing.cause == Some(NoError)
      && r.closing.reports == [Report(s.onclose.id, NoError)]
      && r.rd == ReadDone(InHeader, [], BadDescriptor)
      && r.nesting.deepest == 2
  {
    var inside := Enter(s.(rd := ReadIdle), id, OnMessage(p));
    DeliverKeeps(s, id);
    OneCall(o, inside, Close, false);
    CloseKeeps(o, inside, NoError);
    ClosingReports(o, inside, NoError, s.onclose.id);
    DeepestInside(o, inside);
    ReaderGoesOn(o, s);
    StepNests(o, s, RunRead);
  }

  lemma DeepestInside(o: Oracle, s: State)
    requires s.open && s.onclose.User? && s.nesting.depth == 1
    ensures CloseIntern(o, s, NoError).nesting.deepest >= 2
  {
    CallbackNests(o, CutOff(s, NoError), s.onclose.id, OnClose(NoError));
  }

  /** The number a callback is given to tell its calls apart: how many callbacks the session has
      started before, deliveries and reports. */
  lemma {:induction false} CallbacksAreCounted(o: Oracle, open: bool, es: seq<Event>)
    ensures var s := Run(o, Init(open), es);
      s.nesting.calls == |s.input.delivered| + |s.closing.reports|
  {
    ReachableInv(o, open, es);
  }
}
