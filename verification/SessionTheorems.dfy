/** The promises of a session, each over every run from a new session: any order of API calls,
    arrivals, departures, failures and completions, and any user callbacks. */
module SessionTheorems {
  import opened Codec
  import opened Session
  import opened SessionSafety

  // ---------- writing ----------

  /** A write is outstanding only for a queued message, and while open always for one, so no
      accepted message is forgotten; write_payload never finds its queue empty. */
  lemma NoLostWakeup(o: Oracle, open: bool, es: seq<Event>)
    ensures var s := Run(o, Init(open), es);
      && (s.open ==> (s.wr.WriteIdle? <==> s.queue == []))
      && (s.queue == [] ==> s.wr.WriteIdle?)
      && s.output.accepted == s.output.popped + s.queue
      && !s.overlap
  {
    ReachableInv(o, open, es);
  }

  /** send throws exactly on an illegal size, and then changes nothing; otherwise it accepts the
      message and the queue holds what is accepted and not popped. */
  lemma SendResult(o: Oracle, open: bool, es: seq<Event>, content: Bytes)
    ensures var s := Run(o, Init(open), es);
            var r := Perform(o, s, Send(content));
      && (r.thrown <==> !(1 <= |content| <= 0xff_ffff))
      && (r.thrown ==> r.state == s)
      && (!r.thrown ==>
           && r.state.output == s.output.(accepted := s.output.accepted + [content])
           && r.state.input == s.input && r.state.closing == s.closing && r.state.open == s.open
           && (s.queue != [] ==> r.state.wr == s.wr)
           && (s.queue == [] ==>
                r.state.wr == if s.open then WritePending(OfHeader, 0) else WriteDone(OfHeader, BadDescriptor))
           && |r.state.queue| == |r.state.output.accepted| - |r.state.output.popped|)
  {
    ReachableInv(o, open, es);
  }

  function Unwritten(s: State): Bytes
    requires s.output.frontDone <= |FrontFrame(s.queue)|
  {
    FrontFrame(s.queue)[s.output.frontDone..] + EncodeAll(if s.queue == [] then [] else s.queue[1..])
  }

  lemma FrontAndRest(s: State)
    requires s.output.frontDone <= |FrontFrame(s.queue)|
    ensures EncodeAll(s.queue) == FrontFrame(s.queue)[..s.output.frontDone] + Unwritten(s)
  {
    TakeDrop(FrontFrame(s.queue), s.output.frontDone, EncodeAll(if s.queue == [] then [] else s.queue[1..]));
  }

  lemma TakeDrop(a: Bytes, d: nat, b: Bytes)
    requires d <= |a|
    ensures a + b == a[..d] + (a[d..] + b)
  {
  }

  /** What was accepted is what is on the wire and then the rest of the queue. */
  lemma {:induction false} WireIsPrefix(s: State)
    requires WireInv(s.queue, s.output)
    ensures EncodeAll(s.output.accepted) == s.output.wire + Unwritten(s)
    ensures s.output.wire <= EncodeAll(s.output.accepted)
  {
    EncodeAppend(s.output.popped, s.queue);
    FrontAndRest(s);
    Regroup(EncodeAll(s.output.popped), FrontFrame(s.queue)[..s.output.frontDone], Unwritten(s));
  }

  /** Frames leave whole and in order: the wire carries the popped messages and then part of
      the front message, never anything else. */
  lemma FramesAreAtomic(o: Oracle, open: bool, es: seq<Event>)
    ensures var s := Run(o, Init(open), es);
      && s.output.frontDone <= |FrontFrame(s.queue)|
      && s.output.wire == EncodeAll(s.output.popped) + FrontFrame(s.queue)[..s.output.frontDone]
      && Decode(s.output.wire).messages <= s.output.accepted
  {
    ReachableInv(o, open, es);
    var s := Run(o, Init(open), es);
    WireIsPrefix(s);
    EncodeDecode(s.output.wire);
    EncodePrefix(Decode(s.output.wire).messages, s.output.accepted);
  }

  // ---------- closing ----------

  lemma ClosedStep(o: Oracle, s: State, e: Event)
    requires Inv(s) && !s.open
    ensures var r := Step(o, s, e);
      && !r.open && r.output.wire == s.output.wire
      && SameStream(s.input, r.input)
      && r.closing.cause == s.closing.cause
      && (s.closing.reports != [] ==> r.closing == s.closing)
  {
    if Enabled(s, e) {
      match e
      case Api(op) => PerformKeeps(o, s, op);
      case RunRead => CompleteReadFrame(o, s);
      case RunWrite => CompleteWriteFrame(o, s);
      case _ =>
    }
  }

  /** After the socket closed, no message is delivered, no byte moves and the cause stays; once
      reported, the close is never reported again. */
  lemma {:induction false} SilentAfterClose(o: Oracle, s: State, es: seq<Event>)
    requires Inv(s) && !s.open
    ensures var r := Run(o, s, es);
      && !r.open && r.output.wire == s.output.wire
      && r.input.consumed == s.input.consumed && r.input.delivered == s.input.delivered
      && r.closing.cause == s.closing.cause
      && (s.closing.reports != [] ==> r.closing == s.closing)
    decreases |es|
  {
    if es != [] {
      StepKeeps(o, s, es[0]);
      ClosedStep(o, s, es[0]);
      SilentAfterClose(o, Step(o, s, es[0]), es[1..]);
    }
  }

  /** An accepted onclose handler runs at most once, and exactly once if the session is closed;
      installed in time it gets the cause of the close, installed late the default code. */
  lemma CloseReportedOnce(o: Oracle, open: bool, es: seq<Event>)
    ensures var c := Run(o, Init(open), es).closing;
      && |c.reports| <= 1
      && (c.reports != [] <==> c.installed.Some? && !Run(o, Init(open), es).open)
      && (c.reports != [] ==> c.reports[0].id == c.installed.value.id)
      && (c.reports != [] && c.installed.value.late ==> c.reports[0].err == NoError)
      && (c.reports != [] && !c.installed.value.late ==> c.cause == Some(c.reports[0].err))
  {
    ReachableInv(o, open, es);
  }

  /** close() aborts pending operations and leaves completed ones and the front of the queue alone. */
  lemma CloseAborts(o: Oracle, s: State)
    requires Inv(s) && s.open
    ensures var c := Step(o, s, Api(Close));
      && Inv(c) && !c.open
      && (!s.rd.ReadIdle? ==> c.rd == AbortRead(s.rd))
      && (!s.wr.WriteIdle? ==> c.wr == AbortWrite(s.wr))
      && s.queue <= c.queue && c.output.popped == s.output.popped && c.input.delivered == s.input.delivered
  {
    StepKeeps(o, s, Api(Close));
    CloseKeeps(o, s, NoError);
    assert Perform(o, s, Close).state == CloseIntern(o, s, NoError);
  }

  /** A close between the end of an operation and its completion handler: the operation's result
      stands, so a fully written message is still popped, but a fully read one is not delivered. */
  lemma CloseBeforeCompletion(o: Oracle, s: State)
    requires Inv(s) && s.open
    ensures var c := Step(o, s, Api(Close));
      && (s.wr == WriteDone(OfPayload, NoError) ==>
            Step(o, c, RunWrite).output.popped == s.output.popped + [s.queue[0]])
      && (s.rd.ReadDone? && s.rd.phase.InPayload? && s.rd.err.NoError? ==>
            Step(o, c, RunRead).input.delivered == s.input.delivered)
      && (s.rd.ReadPending? ==> c.rd == ReadDone(s.rd.phase, s.rd.got, Aborted))
      && (s.wr.WritePending? ==> c.wr == WriteDone(s.wr.part, Aborted))
      && (s.rd.ReadDone? ==> c.rd == s.rd)
      && (s.wr.WriteDone? ==> c.wr == s.wr)
  {
    CloseAborts(o, s);
    ClosedStep(o, Step(o, s, Api(Close)), RunRead);
  }

  lemma ClosedReadDrains(o: Oracle, s: State)
    requires Inv(s) && !s.open
    ensures Step(o, Step(o, s, RunRead), RunRead).rd.ReadIdle?
  {
    var t := Step(o, s, RunRead);
    StepKeeps(o, s, RunRead);
    assert s.rd.ReadIdle? || t.rd.ReadIdle? || (t.rd.ReadDone? && !t.rd.err.NoError?);
  }

  lemma ClosedWriteDrains(o: Oracle, s: State)
    requires Inv(s) && !s.open
    ensures Step(o, Step(o, s, RunWrite), RunWrite).wr.WriteIdle?
  {
    StepKeeps(o, s, RunWrite);
  }

  /** Nothing stays outstanding on a closed session: two completions of each kind end its loops. */
  lemma ClosedDrains(o: Oracle, s: State)
    requires Inv(s) && !s.open
    ensures Run(o, s, [RunRead, RunRead]).rd.ReadIdle?
    ensures Run(o, s, [RunWrite, RunWrite]).wr.WriteIdle?
  {
    ClosedReadDrains(o, s);
    ClosedWriteDrains(o, s);
    RunTwo(o, s, RunRead, RunRead);
    RunTwo(o, s, RunWrite, RunWrite);
  }

  /** The cause is the error of the event that closed the session. */
  lemma CauseIsTheEvent(o: Oracle, s: State, e: Event)
    requires Inv(s) && s.open && !Step(o, s, e).open
    ensures Step(o, s, e).closing.cause == Some(
      match e
      case RunRead =>
        if !s.rd.err.NoError? then s.rd.err
        else if s.rd.phase.InHeader? then BadMessage
        else NoError
      case RunWrite => s.wr.err
      case _ => NoError)
  {
    match e
    case Api(op) => PerformKeeps(o, s, op);
    case RunRead => ReadCause(o, s);
    case RunWrite =>
      if !s.wr.err.NoError? {
        FailedWriteClosable(s);
        CloseKeeps(o, s.(wr := WriteIdle), s.wr.err);
      }
    case _ =>
  }

  lemma ReadCause(o: Oracle, s: State)
    requires Inv(s) && s.open && Enabled(s, RunRead) && !CompleteRead(o, s).open
    ensures CompleteRead(o, s).closing.cause == Some(
      if !s.rd.err.NoError? then s.rd.err else if s.rd.phase.InHeader? then BadMessage else NoError)
  {
    var idle := s.(rd := ReadIdle);
    if !s.rd.err.NoError? {
      CloseKeeps(o, idle, s.rd.err);
    } else if s.rd.phase.InHeader? {
      CloseKeeps(o, idle, BadMessage);
    } else {
      DeliverKeeps(s, s.onmessage.id);
      CallbackKeeps(o, idle, s.onmessage.id, OnMessage(s.rd.got));
    }
  }

  // ---------- handlers ----------

  /** set_onclose at any point of a session's life, callbacks included: it throws exactly if a handler
      was accepted before, open or closed; and then it changes nothing. */
  lemma SetOnCloseAnywhere(o: Oracle, s: State, id: nat)
    requires Core(s)
    ensures var r := Perform(o, s, SetOnClose(id));
      && (r.thrown <==> s.closing.installed.Some?)
      && (r.thrown ==> r.state == s)
      && (!r.thrown ==> r.state.closing.installed == Some(Installed(id, !s.open)))
      && (!r.thrown ==> r.state.closing.reports == if s.open then [] else [Report(id, NoError)])
  {
    if s.onclose.Empty? && !s.open {
      CallbackKeeps(o, Register(s, id), id, OnClose(NoError));
    }
  }

  /** The same in every reachable state. */
  lemma OnCloseSetOnce(o: Oracle, open: bool, es: seq<Event>, id: nat)
    ensures var s := Run(o, Init(open), es);
            var r := Perform(o, s, SetOnClose(id));
      && (r.thrown <==> s.closing.installed.Some?)
      && (r.thrown ==> r.state == s)
      && (!r.thrown ==> r.state.closing.installed == Some(Installed(id, !s.open)))
      && (!r.thrown ==> r.state.closing.reports == if s.open then [] else [Report(id, NoError)])
  {
    ReachableInv(o, open, es);
    SetOnCloseAnywhere(o, Run(o, Init(open), es), id);
  }

  /** An action ends its callback: an exception, or an API call that throws outside a try block. */
  predicate Leaves(o: Oracle, s: State, action: Action) {
    action.Throw? || (!action.caught && Perform(o, s, action.op).thrown)
  }

  /** An exception that leaves a callback, its own or that of any API call that throws there, is to
      the session as if the callback had returned at that point: what it did so far stands, the rest
      of it does not happen, nothing else changes. */
  lemma {:induction false} ThrowIsReturn(o: Oracle, s: State, before: seq<Action>, throw: Action, rest: seq<Action>)
    requires Leaves(o, RunScript(o, s, before), throw)
    ensures RunScript(o, s, before + [throw] + rest) == RunScript(o, s, before)
    decreases |before|
  {
    var script := before + [throw] + rest;
    if before == [] {
      assert script[0] == throw;
    } else if before[0].Invoke? {
      assert script[1..] == before[1..] + [throw] + rest;
      var first := Perform(o, s, before[0].op);
      if !first.thrown || before[0].caught {
        ThrowIsReturn(o, first.state, before[1..], throw, rest);
      }
    }
  }

  /** set_onmessage succeeds at most once, closing included; reads never overlap. */
  lemma SingleReader(o: Oracle, open: bool, es: seq<Event>, id: nat)
    ensures var s := Run(o, Init(open), es);
      && s.input.readers <= 1 && !s.overlap
      && (Perform(o, s, SetOnMessage(id)).thrown <==> s.input.readers == 1)
      && (s.input.readers == 0 ==>
           && s.input.consumed == []
           && Perform(o, s, SetOnMessage(id)).state.rd
              == if s.open then ReadPending(InHeader, []) else ReadDone(InHeader, [], BadDescriptor))
  {
    ReachableInv(o, open, es);
  }

  /** The documentation says that closing removes all handlers. This holds of a handler exactly if it
      was not installed late: a late onclose is called at once and stays, and so does a late
      onmessage, which is never called. No slot is free again: a further set_ call throws. */
  lemma HandlersAfterClose(o: Oracle, open: bool, es: seq<Event>, id: nat)
    requires !Run(o, Init(open), es).open
    ensures var s := Run(o, Init(open), es);
      && (s.onclose.User? <==> s.closing.installed.Some? && s.closing.installed.value.late)
      && (s.onmessage.User? <==> s.input.reader.Some? && s.input.reader.value.late)
      && (s.onclose.User? ==> s.onclose.id == s.closing.installed.value.id)
      && (s.onmessage.User? ==> s.onmessage.id == s.input.reader.value.id)
      && (Perform(o, s, SetOnClose(id)).thrown <==> s.closing.installed.Some?)
      && (Perform(o, s, SetOnMessage(id)).thrown <==> s.input.reader.Some?)
  {
    ReachableInv(o, open, es);
  }

  /** When set_onmessage makes a handler late, for a call at any point of a session's life, callbacks
      included: the session is closed, and this is not its close reporting itself. Between events
      the close path never runs, so there late simply means closed. If it throws it changes nothing. */
  lemma LateReader(o: Oracle, s: State, id: nat)
    requires Core(s)
    ensures var r := Perform(o, s, SetOnMessage(id));
      && (r.thrown <==> s.input.reader.Some?)
      && (r.thrown ==> r.state == s)
      && (!r.thrown ==> r.state.input.reader == Some(Installed(id, !s.open && !s.closing.running)))
    ensures Inv(s) ==> !s.closing.running
    ensures s.open && s.onclose.User? ==>
      Enter(CutOff(s, NoError), s.onclose.id, OnClose(NoError)).closing.running
  {
  }

  /** Counterexamples to the documentation: handlers that a closed session keeps. */
  lemma LateHandlersStay(o: Oracle)
    requires forall id, n, err :: o(id, n, OnClose(err)) == []
    ensures var s := Run(o, Init(false), [Api(SetOnClose(7)), Api(SetOnMessage(9))]);
      !s.open && s.onclose == User(7) && s.onmessage == User(9)
  {
    var t := Enter(Register(Init(false), 7), 7, OnClose(NoError));
    assert RunScript(o, t, []) == t;
    assert InstallOnClose(o, Init(false), 7) == Leave(t);
    assert Step(o, Init(false), Api(SetOnClose(7))) == Leave(t);
    RunTwo(o, Init(false), Api(SetOnClose(7)), Api(SetOnMessage(9)));
  }

  /** A handler installed in time is removed, but its slot is not free: setting it again throws. */
  lemma EarlyHandlerBlocks(o: Oracle)
    requires forall id, n, err :: o(id, n, OnClose(err)) == []
    ensures var s := Run(o, Init(true), [Api(SetOnClose(7)), Api(Close)]);
      !s.open && s.onclose == Noop && Perform(o, s, SetOnClose(8)) == Outcome(s, true)
  {
    var t := Register(Init(true), 7);
    var inside := Enter(CutOff(t, NoError), 7, OnClose(NoError));
    assert RunScript(o, inside, []) == inside;
    assert Callback(o, CutOff(t, NoError), User(7), OnClose(NoError)) == Leave(inside);
    assert InstallOnClose(o, Init(true), 7) == t;
    assert Step(o, t, Api(Close)) == CloseIntern(o, t, NoError);
    RunTwo(o, Init(true), Api(SetOnClose(7)), Api(Close));
  }

  /** Closed is not late: set_onmessage from inside the close's own onclose callback is undone when
      the close path goes on. */
  lemma ReaderSetDuringCloseIsRemoved(o: Oracle)
    requires forall n, err :: o(7, n, OnClose(err)) == [Invoke(SetOnMessage(9), false)]
    ensures var s := Run(o, Init(true), [Api(SetOnClose(7)), Api(Close)]);
      !s.open && s.onmessage == Noop && s.input.reader == Some(Installed(9, false))
  {
    var t := Register(Init(true), 7);
    var inside := Enter(CutOff(t, NoError), 7, OnClose(NoError));
    var script := [Invoke(SetOnMessage(9), false)];
    var after := InstallOnMessage(inside, 9);
    assert script[1..] == [] && RunScript(o, after, []) == after;
    assert Perform(o, inside, SetOnMessage(9)) == Outcome(after, false);
    assert RunScript(o, inside, script) == after;
    assert Callback(o, CutOff(t, NoError), User(7), OnClose(NoError)) == Leave(after);
    assert InstallOnClose(o, Init(true), 7) == t;
    assert Step(o, t, Api(Close)) == CloseIntern(o, t, NoError);
    RunTwo(o, Init(true), Api(SetOnClose(7)), Api(Close));
  }

  /** Callbacks nest at most two deep, and all have returned between events. */
  lemma NestingBounded(o: Oracle, open: bool, es: seq<Event>)
    ensures var n := Run(o, Init(open), es).nesting;
      n.depth == 0 && n.deepest <= 2
  {
    ReachableInv(o, open, es);
  }

  // ---------- reading ----------

  /** A payload that was read completely and whose handler has not run yet. */
  function Ready(s: State): seq<Bytes> {
    if s.rd.ReadDone? && s.rd.phase.InPayload? && s.rd.err.NoError? then [s.rd.got] else []
  }

  /** The bytes of the frame being read. */
  function Tail(s: State): Bytes {
    if Ready(s) == [] then s.input.partial else []
  }

  lemma PartialIsStuck(s: State)
    requires ReaderInv(s) && Listening(s) && s.open && s.onmessage.User? && Ready(s) == []
    ensures Stuck(s.input.partial)
  {
    var p := s.input.partial;
    if s.rd.phase.InPayload? {
      var n := s.rd.phase.length;
      HeaderBijection(HeaderFor(n), n);
      assert p[..HEADER_SIZE] == HeaderFor(n);
    } else if |p| == HEADER_SIZE {
      assert p[..HEADER_SIZE] == p;
    }
  }

  lemma ReadyCompletesFrame(s: State)
    requires ReaderInv(s) && s.open && Ready(s) != []
    ensures AllValid(s.input.delivered + Ready(s))
    ensures s.input.consumed == EncodeAll(s.input.delivered + Ready(s)) + []
  {
    EncodeSnoc(s.input.delivered, s.rd.got);
  }

  lemma ReaderRefinesDecoderAt(s: State)
    requires Core(s) && Listening(s) && s.open && s.onmessage.User?
    ensures Decode(s.input.consumed) == Parsed(s.input.delivered + Ready(s), Tail(s))
  {
    if Ready(s) == [] {
      PartialIsStuck(s);
      DecodeUnique(s.input.delivered, s.input.partial);
      assert s.input.delivered + [] == s.input.delivered;
    } else {
      ReadyCompletesFrame(s);
      DecodeUnique(s.input.delivered + Ready(s), []);
    }
  }

  /** The two-phase reader refines the one-shot decoder: however the consumed bytes were cut
      into chunks, an open reader has delivered what Decode finds in them (short of a payload
      whose handler is still to run) and is left with the same rest. Once closed, what was
      delivered is still a prefix of what Decode finds, so nothing after a malformed header. */
  lemma ReaderRefinesDecoder(o: Oracle, open: bool, es: seq<Event>)
    ensures var s := Run(o, Init(open), es);
      && (s.open && s.onmessage.User? ==> Decode(s.input.consumed) == Parsed(s.input.delivered + Ready(s), Tail(s)))
      && s.input.delivered <= Decode(s.input.consumed).messages
      && AllValid(s.input.delivered)
  {
    ReachableInv(o, open, es);
    var s := Run(o, Init(open), es);
    if s.open && s.onmessage.User? {
      ReaderRefinesDecoderAt(s);
    }
    DecodeEncode(s.input.delivered, s.input.partial);
  }

  /** The session closed over a malformed header, and that header is all it has read since. */
  predicate Rejecting(s: State) {
    |s.input.partial| == HEADER_SIZE && !GoodHeader(s.input.partial)
  }

  predicate BadMessageIsBad(s: State) {
    s.closing.cause == Some(BadMessage) ==> Rejecting(s)
  }

  lemma BadMessageStep(o: Oracle, s: State, e: Event)
    requires Inv(s) && BadMessageIsBad(s)
    ensures BadMessageIsBad(Step(o, s, e))
  {
    var r := Step(o, s, e);
    StepKeeps(o, s, e);
    if !s.open {
      ClosedStep(o, s, e);
    } else if !r.open {
      CauseIsTheEvent(o, s, e);
      if r.closing.cause == Some(BadMessage) {
        CloseKeeps(o, s.(rd := ReadIdle), BadMessage);
      }
    }
  }

  lemma {:induction false} BadMessageRun(o: Oracle, s: State, es: seq<Event>)
    requires Inv(s) && BadMessageIsBad(s)
    ensures BadMessageIsBad(Run(o, s, es))
    decreases |es|
  {
    if es != [] {
      StepKeeps(o, s, es[0]);
      BadMessageStep(o, s, es[0]);
      BadMessageRun(o, Step(o, s, es[0]), es[1..]);
    }
  }

  /** EBADMSG is reported only for a malformed header, right after the delivered frames. */
  lemma BadMessageMeansMalformed(o: Oracle, open: bool, es: seq<Event>)
    ensures var s := Run(o, Init(open), es);
      s.closing.cause == Some(BadMessage) ==>
        && |s.input.partial| == HEADER_SIZE && !GoodHeader(s.input.partial)
        && Decode(s.input.consumed) == Parsed(s.input.delivered, s.input.partial)
  {
    ReachableInv(o, open, es);
    BadMessageRun(o, Init(open), es);
    var s := Run(o, Init(open), es);
    if s.closing.cause == Some(BadMessage) {
      assert s.input.partial[..HEADER_SIZE] == s.input.partial;
      DecodeUnique(s.input.delivered, s.input.partial);
    }
  }

  /** The number of whole messages of ms in the first k bytes of their encoding is j. */
  predicate WholeIn(ms: seq<Bytes>, k: nat, j: nat) {
    && j <= |ms|
    && |EncodeAll(ms[..j])| <= k
    && (j < |ms| ==> k < |EncodeAll(ms[..j + 1])|)
  }

  lemma {:induction false} TruncatedStream(ms: seq<Bytes>, k: nat, done: seq<Bytes>, rest: Bytes)
    requires AllValid(ms) && AllValid(done) && k <= |EncodeAll(ms)|
    requires EncodeAll(ms)[..k] == EncodeAll(done) + rest && Stuck(rest)
    ensures WholeIn(ms, k, |done|) && done == ms[..|done|]
  {
    DoneIsPrefix(ms, k, done, rest);
    if |done| < |ms| {
      RestIsShort(ms, k, done, rest);
    }
    FitsExactly(ms, |done|, |rest|);
  }

  lemma {:induction false} FitsExactly(ms: seq<Bytes>, j: nat, extra: nat)
    requires j <= |ms| && (j < |ms| ==> extra < |Frame(ms[j])|)
    ensures WholeIn(ms, |EncodeAll(ms[..j])| + extra, j)
  {
    if j < |ms| {
      EncodeNext(ms, j);
    }
  }

  lemma {:induction false} RestIsShort(ms: seq<Bytes>, k: nat, done: seq<Bytes>, rest: Bytes)
    requires AllValid(ms) && k <= |EncodeAll(ms)| && |done| < |ms| && done == ms[..|done|]
    requires EncodeAll(ms)[..k] == EncodeAll(done) + rest && Stuck(rest)
    ensures |rest| < |Frame(ms[|done|])|
  {
    var more := ms[|done|..];
    EncodeSplit(ms, |done|);
    PrefixOfRest(EncodeAll(done), EncodeAll(more), rest, k);
    StuckIsShort(more, rest);
  }

  lemma {:induction false} DoneIsPrefix(ms: seq<Bytes>, k: nat, done: seq<Bytes>, rest: Bytes)
    requires AllValid(ms) && AllValid(done) && k <= |EncodeAll(ms)|
    requires EncodeAll(ms)[..k] == EncodeAll(done) + rest
    ensures |done| <= |ms| && done == ms[..|done|] && k == |EncodeAll(done)| + |rest|
  {
    TakeOfTake(EncodeAll(ms), k, EncodeAll(done), rest);
    EncodePrefixTake(done, ms);
  }

  lemma TakeOfTake(all: Bytes, k: nat, a: Bytes, rest: Bytes)
    requires k <= |all| && all[..k] == a + rest
    ensures a <= all && k == |a| + |rest|
  {
    assert a == (a + rest)[..|a|] == all[..|a|];
  }

  lemma PrefixOfRest(a: Bytes, b: Bytes, rest: Bytes, k: nat)
    requires k <= |a + b| && (a + b)[..k] == a + rest
    ensures rest <= b
  {
    assert rest == (a + rest)[|a|..] == (a + b)[|a|..k];
  }

  lemma {:induction false} StuckIsShort(more: seq<Bytes>, rest: Bytes)
    requires AllValid(more) && more != [] && Stuck(rest) && rest <= EncodeAll(more)
    ensures |rest| < |Frame(more[0])|
  {
    if |rest| >= |Frame(more[0])| {
      FrameIsNotStuck(more[0], rest);
    }
  }

  lemma FrameIsNotStuck(m: Bytes, b: Bytes)
    requires ValidSize(|m|) && Frame(m) <= b
    ensures !Stuck(b)
  {
    assert b[..HEADER_SIZE] == HeaderFor(|m|);
    HeaderBijection(HeaderFor(|m|), |m|);
  }

  /** Truncation: a reader that waits after the first k bytes of an encoded sequence has delivered
      exactly the messages that fit in k bytes; end of stream then closes the session with that
      error and delivers nothing more. */
  lemma {:induction false} Truncation(o: Oracle, open: bool, es: seq<Event>, ms: seq<Bytes>, k: nat, code: int)
    requires AllValid(ms) && k <= |EncodeAll(ms)|
    requires var s := Run(o, Init(open), es);
      s.rd.ReadPending? && s.input.consumed == EncodeAll(ms)[..k]
    ensures var s := Run(o, Init(open), es);
            var r := Run(o, s, [FailRead(code), RunRead]);
      && WholeIn(ms, k, |s.input.delivered|) && s.input.delivered == ms[..|s.input.delivered|]
      && r.input.delivered == s.input.delivered
      && !r.open && r.closing.cause == Some(Io(code))
  {
    ReachableInv(o, open, es);
    var s := Run(o, Init(open), es);
    PartialIsStuck(s);
    TruncatedStream(ms, k, s.input.delivered, s.input.partial);
    EndOfStream(o, s, code);
  }

  lemma {:induction false} EndOfStream(o: Oracle, s: State, code: int)
    requires Inv(s) && s.rd.ReadPending?
    ensures var r := Run(o, s, [FailRead(code), RunRead]);
      r.input.delivered == s.input.delivered && !r.open && r.closing.cause == Some(Io(code))
  {
    CloseKeeps(o, s.(rd := ReadIdle), Io(code));
    RunTwo(o, s, FailRead(code), RunRead);
  }

  lemma {:induction false} RunTwo(o: Oracle, s: State, d: Event, e: Event)
    ensures Run(o, s, [d, e]) == Step(o, Step(o, s, d), e)
  {
    assert [d, e][1..] == [e];
    assert Run(o, Step(o, s, d), [e]) == Step(o, Step(o, s, d), e);
  }
}
