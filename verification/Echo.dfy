/** The echo server (example/echo/echo_server.cpp) at side b, a client at side a. */
module Echo {
  import opened Codec
  import opened Session
  import opened SessionSafety
  import opened SessionTheorems
  import opened Link
  import opened Progress
  import opened Replying
  import opened ChunkedReading

  /** The server's handlers: send back what arrives, from inside onmessage; on close only print. */
  ghost predicate Echoes(o: Oracle) {
    Replies(o, p => true)
  }

  /** The server sends only from its onmessage handler. */
  predicate EchoEvent(e: NetEvent) {
    !(e.AtB? && e.event.Api? && e.event.op.Send?)
  }

  /** What the server has accepted for sending is what it was handed. */
  predicate Echoed(s: State) {
    s.output.accepted == s.input.delivered
  }

  lemma EchoStep(o: Oracle, s: State, e: Event)
    requires Echoes(o) && Inv(s) && Echoed(s) && !(e.Api? && e.op.Send?)
    ensures Echoed(Step(o, s, e))
  {
    var always: Bytes -> bool := p => true;
    ReplyStep(o, always, s, e);
    if HandedOver(s, e) != [] {
      PassingSnoc(always, [], s.rd.got);
    }
  }

  predicate EchoInv(n: Net) {
    LinkInv(n) && Echoed(n.b)
  }

  lemma {:induction false} EchoRun(w: World, n: Net, es: seq<NetEvent>)
    requires Echoes(w.b) && EchoInv(n) && forall i :: 0 <= i < |es| ==> EchoEvent(es[i])
    ensures EchoInv(NetRun(w, n, es))
    decreases |es|
  {
    if es != [] {
      assert EchoEvent(es[0]);
      NetStepKeeps(w, n, es[0]);
      if es[0].AtB? {
        EchoStep(w.b, n.b, es[0].event);
      }
      EchoRun(w, NetStep(w, n, es[0]), es[1..]);
    }
  }

  /** In every reachable state, whatever fails or closes, the client has been handed a prefix of
      what it sent, in order. */
  lemma {:induction false} ClientGetsItsOwnMessages(w: World, openA: bool, openB: bool, es: seq<NetEvent>)
    requires Echoes(w.b) && forall i :: 0 <= i < |es| ==> EchoEvent(es[i])
    ensures var n := NetRun(w, InitNet(openA, openB), es);
      && n.a.input.delivered <= n.b.input.delivered <= n.a.output.accepted
      && n.b.output.accepted == n.b.input.delivered
  {
    EchoRun(w, InitNet(openA, openB), es);
    var n := NetRun(w, InitNet(openA, openB), es);
    DeliveredIsPrefix(n);
    DeliveredIsPrefix(FlipNet(n));
  }

  // ---------- no deadlock ----------

  /** Both ends open and reading, nothing failed. */
  predicate Live(n: Net) {
    EchoInv(n) && Flowing(n) && Flowing(FlipNet(n))
  }

  /** Everything except API calls and failures. */
  predicate Internal(e: NetEvent) {
    IsFlow(e) || IsFlow(FlipEvent(e))
  }

  /** Work left until the messages in total are at the server and back. */
  function EchoWork(total: seq<Bytes>, n: Net): int {
    Work(total, n.a, n.b) + Work(total, n.b, n.a)
  }

  /** The internal events that happen in a run. */
  function InternalCount(w: World, n: Net, es: seq<NetEvent>): nat
    decreases |es|
  {
    if es == [] then 0
    else (if Internal(es[0]) && Possible(w, n, es[0]) then 1 else 0) + InternalCount(w, NetStep(w, n, es[0]), es[1..])
  }

  lemma EchoWorkFalls(w: World, n: Net, e: NetEvent, total: seq<Bytes>)
    requires LinkInv(n) && BothOpen(n) && BothOpen(NetStep(w, n, e))
    ensures EchoWork(total, NetStep(w, n, e)) + (if Internal(e) && Possible(w, n, e) then 1 else 0)
         <= EchoWork(total, n)
  {
    WorkFalls(w, n, e, total);
    FlippedStep(w, n, e);
    WorkFalls(FlipWorld(w), FlipNet(n), FlipEvent(e), total);
  }

  lemma {:induction false} InternalCountBounded(w: World, n: Net, es: seq<NetEvent>, total: seq<Bytes>)
    requires LinkInv(n) && OpenThroughout(w, n, es)
    ensures BothOpen(NetRun(w, n, es))
    ensures InternalCount(w, n, es) + EchoWork(total, NetRun(w, n, es)) <= EchoWork(total, n)
    decreases |es|
  {
    if es != [] {
      EchoWorkFalls(w, n, es[0], total);
      NetStepKeeps(w, n, es[0]);
      InternalCountBounded(w, NetStep(w, n, es[0]), es[1..], total);
    }
  }

  /** An internal event that is possible while some message is not back yet. */
  function NextInternal(n: Net): NetEvent {
    if n.b.input.delivered != n.a.output.accepted then NextFlow(n) else FlipEvent(NextFlow(FlipNet(n)))
  }

  /** No deadlock, although the server sends from inside its own onmessage: with any positive
      capacities of the two channels, some internal event is possible until every message is
      echoed. */
  lemma {:induction false} EchoNeverStuck(w: World, n: Net)
    requires Live(n) && w.capacityAB >= 1 && w.capacityBA >= 1 && n.a.input.delivered != n.a.output.accepted
    ensures Internal(NextInternal(n)) && Possible(w, n, NextInternal(n))
  {
    if n.b.input.delivered != n.a.output.accepted {
      FlowPossible(w, n);
    } else {
      FlowPossible(FlipWorld(w), FlipNet(n));
    }
  }

  lemma EchoWorkNatural(n: Net)
    requires EchoInv(n) && BothOpen(n)
    ensures EchoWork(n.a.output.accepted, n) >= 0
  {
    DeliveredIsPrefix(n);
    WorkIsNatural(n, n.a.output.accepted);
    WorkIsNatural(FlipNet(n), n.a.output.accepted);
  }

  /** In any run that keeps both ends open, with any client code (its onmessage may send) and any
      client calls: there are at most four internal events per byte and eight per message the client
      has sent by the end; and if it ends live with no internal event possible, the client has been
      handed exactly what it sent. */
  lemma {:induction false} EveryMessageIsEchoed(w: World, n: Net, es: seq<NetEvent>)
    requires EchoInv(n) && Echoes(w.b) && OpenThroughout(w, n, es)
    requires forall i :: 0 <= i < |es| ==> EchoEvent(es[i])
    requires w.capacityAB >= 1 && w.capacityBA >= 1
    ensures var m := NetRun(w, n, es);
            var sent := m.a.output.accepted;
      && InternalCount(w, n, es) <= 4 * |EncodeAll(sent)| + 8 * |sent|
      && (Live(m) && (forall e :: Internal(e) ==> !Possible(w, m, e)) ==> m.a.input.delivered == sent)
  {
    var m := NetRun(w, n, es);
    EchoRun(w, n, es);
    InternalCountBounded(w, n, es, m.a.output.accepted);
    EchoWorkNatural(m);
    if Live(m) && m.a.input.delivered != m.a.output.accepted {
      EchoNeverStuck(w, m);
    }
  }

  // ---------- staying live ----------

  /** A good read completion keeps a session flowing in both roles, unless its callback closes it. */
  lemma ReadStaysHealthy(o: Oracle, s: State)
    requires Inv(s) && s.open && Enabled(s, RunRead) && !ReadFailed(s) && !WriteFailed(s)
    requires s.rd.phase.InHeader? ==> GoodHeader(s.rd.got)
    requires Step(o, s, RunRead).open
    ensures var r := Step(o, s, RunRead);
      r.onmessage.User? && !ReadFailed(r) && !WriteFailed(r)
  {
    ReadCompletionAdvances(o, s);
  }

  lemma LiveReadAtA(w: World, n: Net)
    requires Live(n) && Possible(w, n, AtA(RunRead)) && NetStep(w, n, AtA(RunRead)).a.open
    ensures Live(NetStep(w, n, AtA(RunRead)))
  {
    NetStepKeeps(w, n, AtA(RunRead));
    FlowHeaderOrPayload(FlipNet(n));
    ReadStaysHealthy(w.a, n.a);
  }

  lemma LiveReadAtB(w: World, n: Net)
    requires Live(n) && Echoes(w.b) && Possible(w, n, AtB(RunRead)) && NetStep(w, n, AtB(RunRead)).b.open
    ensures Live(NetStep(w, n, AtB(RunRead)))
  {
    NetStepKeeps(w, n, AtB(RunRead));
    FlowHeaderOrPayload(n);
    ReadStaysHealthy(w.b, n.b);
    EchoStep(w.b, n.b, RunRead);
  }

  lemma FlowHeaderOrPayload(n: Net)
    requires Flowing(n) && n.b.rd.ReadDone?
    ensures n.b.rd.phase.InHeader? ==> GoodHeader(n.b.rd.got)
  {
    if n.b.rd.phase.InHeader? {
      FlowHeader(n);
    }
  }

  /** Bytes and write completions of one direction leave the other direction alone. */
  lemma FlowLeavesOther(w: World, n: Net, e: NetEvent)
    requires Flowing(n) && Flowing(FlipNet(n)) && IsFlow(e) && Possible(w, n, e) && !e.event.RunRead?
    ensures var m := NetStep(w, n, e);
      && Flowing(m) && Flowing(FlipNet(m))
      && m.a.output.accepted == n.a.output.accepted && m.b.output.accepted == n.b.output.accepted
      && m.b.input.delivered == n.b.input.delivered && m.a.input.delivered == n.a.input.delivered
  {
    FlowAdvances(w, n, e, []);
    match e.event
    case Depart(k) => DepartAdvances(w.a, n.a, k);
    case RunWrite => WriteCompletionAdvances(w.a, n.a);
    case Arrive(chunk) => ArriveAdvances(w.b, n.b, chunk);
  }

  /** The server never leaves the live states of its own accord: its read completion keeps it open. */
  lemma ServerStaysOpen(w: World, n: Net)
    requires Live(n) && Echoes(w.b) && Possible(w, n, AtB(RunRead))
    ensures NetStep(w, n, AtB(RunRead)).b.open
  {
    FlowHeaderOrPayload(n);
    if n.b.rd.phase.InPayload? {
      ReplyDelivery(w.b, p => true, n.b);
    }
  }

  /** Internal events keep the pair live, unless the client's callback closes the client. */
  lemma InternalKeepsLive(w: World, n: Net, e: NetEvent)
    requires Live(n) && Echoes(w.b) && Internal(e) && Possible(w, n, e)
    ensures var m := NetStep(w, n, e);
      && (m.a.open ==> Live(m))
      && (e != AtA(RunRead) ==> m.a.open && m.a.output.accepted == n.a.output.accepted)
  {
    if e == AtB(RunRead) {
      ServerStaysOpen(w, n);
      LiveReadAtB(w, n);
    } else if e == AtA(RunRead) {
      if NetStep(w, n, e).a.open {
        LiveReadAtA(w, n);
      }
    } else if IsFlow(e) {
      FlowLeavesOther(w, n, e);
    } else {
      FlowLeavesOther(FlipWorld(w), FlipNet(n), FlipEvent(e));
    }
  }

  predicate InternalRun(w: World, n: Net, es: seq<NetEvent>)
    decreases |es|
  {
    es == [] || (Internal(es[0]) && Possible(w, n, es[0]) && InternalRun(w, NetStep(w, n, es[0]), es[1..]))
  }

  /** A client whose onmessage never closes stays open. */
  lemma CalmClientStaysOpen(w: World, n: Net)
    requires Live(n) && Calm(w.a) && Possible(w, n, AtA(RunRead))
    ensures NetStep(w, n, AtA(RunRead)).a.open
  {
    FlowHeaderOrPayload(FlipNet(n));
    CalmReadOpen(w.a, n.a);
  }

  lemma CalmReadOpen(o: Oracle, s: State)
    requires Calm(o) && Inv(s) && s.open && Enabled(s, RunRead) && s.rd.err.NoError?
    requires s.rd.phase.InHeader? ==> GoodHeader(s.rd.got)
    ensures CompleteRead(o, s).open
  {
    if s.rd.phase.InPayload? {
      var p := s.rd.got;
      var inside := Enter(s.(rd := ReadIdle), s.onmessage.id, OnMessage(p));
      CalmScript(o, inside, o(s.onmessage.id, s.nesting.calls, OnMessage(p)));
    }
  }

  /** With a calm client, internal events by themselves keep the pair live for ever, so each of them
      counts against the bound of EveryMessageIsEchoed. */
  lemma {:induction false} InternalRunsStayLive(w: World, n: Net, es: seq<NetEvent>)
    requires Live(n) && Echoes(w.b) && Calm(w.a) && InternalRun(w, n, es)
    ensures Live(NetRun(w, n, es)) && OpenThroughout(w, n, es) && InternalCount(w, n, es) == |es|
    decreases |es|
  {
    if es != [] {
      InternalKeepsLive(w, n, es[0]);
      if es[0] == AtA(RunRead) {
        CalmClientStaysOpen(w, n);
      }
      InternalRunsStayLive(w, NetStep(w, n, es[0]), es[1..]);
    }
  }

  lemma {:induction false} InternalRunsMakeNoCalls(w: World, n: Net, es: seq<NetEvent>)
    requires InternalRun(w, n, es)
    ensures forall i :: 0 <= i < |es| ==> EchoEvent(es[i])
    decreases |es|
  {
    if es != [] {
      InternalRunsMakeNoCalls(w, NetStep(w, n, es[0]), es[1..]);
      assert es == [es[0]] + es[1..];
    }
  }

  /** The client's onmessage neither sends nor closes. */
  ghost predicate Listens(o: Oracle) {
    forall id, n, p :: Passive(o(id, n, OnMessage(p)))
  }

  predicate Passive(script: seq<Action>) {
    forall i :: 0 <= i < |script| ==> script[i].Invoke? ==> script[i].op.SetOnClose? || script[i].op.SetOnMessage?
  }

  lemma PassiveCall(o: Oracle, s: State, op: Op)
    requires s.open && (op.SetOnClose? || op.SetOnMessage?)
    ensures Perform(o, s, op).state.open && Perform(o, s, op).state.output == s.output
  {
    if op.SetOnClose? && s.onclose.Empty? {
      assert InstallOnClose(o, s, op.id) == Register(s, op.id);
    }
  }

  lemma {:induction false} PassiveScript(o: Oracle, s: State, script: seq<Action>)
    requires s.open && Passive(script)
    ensures RunScript(o, s, script).output == s.output
    decreases |script|
  {
    if script != [] && script[0].Invoke? {
      PassiveCall(o, s, script[0].op);
      PassiveScript(o, Perform(o, s, script[0].op).state, script[1..]);
    }
  }

  lemma PassiveRead(o: Oracle, s: State)
    requires Listens(o) && Inv(s) && s.open && Enabled(s, RunRead) && s.rd.err.NoError?
    requires s.rd.phase.InHeader? ==> GoodHeader(s.rd.got)
    ensures CompleteRead(o, s).output == s.output
  {
    if s.rd.phase.InPayload? {
      var p := s.rd.got;
      assert Passive(o(s.onmessage.id, s.nesting.calls, OnMessage(p)));
      var inside := Enter(s.(rd := ReadIdle), s.onmessage.id, OnMessage(p));
      PassiveScript(o, inside, o(s.onmessage.id, s.nesting.calls, OnMessage(p)));
    }
  }

  lemma ListensIsCalm(o: Oracle)
    requires Listens(o)
    ensures Calm(o)
  {
    forall id, n, p
      ensures StaysOpen(o(id, n, OnMessage(p)))
    {
      assert Passive(o(id, n, OnMessage(p)));
    }
  }

  lemma {:induction false} ListeningSendsNothing(w: World, n: Net, es: seq<NetEvent>)
    requires Live(n) && Echoes(w.b) && Calm(w.a) && Listens(w.a) && InternalRun(w, n, es)
    ensures NetRun(w, n, es).a.output.accepted == n.a.output.accepted
    decreases |es|
  {
    if es != [] {
      InternalKeepsLive(w, n, es[0]);
      if es[0] == AtA(RunRead) {
        FlowHeaderOrPayload(FlipNet(n));
        PassiveRead(w.a, n.a);
        CalmClientStaysOpen(w, n);
      }
      ListeningSendsNothing(w, NetStep(w, n, es[0]), es[1..]);
    }
  }

  /** Left to itself with a client that only listens, a live pair comes to rest after a number of
      internal events bounded by what the client has sent already, and then all of it is back. */
  lemma {:induction false} EchoComesToRest(w: World, n: Net, es: seq<NetEvent>)
    requires Live(n) && Echoes(w.b) && Listens(w.a) && InternalRun(w, n, es)
    requires w.capacityAB >= 1 && w.capacityBA >= 1
    ensures var sent := n.a.output.accepted;
      && |es| <= 4 * |EncodeAll(sent)| + 8 * |sent|
      && ((forall e :: Internal(e) ==> !Possible(w, NetRun(w, n, es), e)) ==>
            NetRun(w, n, es).a.input.delivered == sent)
  {
    ListensIsCalm(w.a);
    InternalRunsStayLive(w, n, es);
    InternalRunsMakeNoCalls(w, n, es);
    ListeningSendsNothing(w, n, es);
    EveryMessageIsEchoed(w, n, es);
  }

  /** The set_ calls of do_accept at the server, and then the client's. */
  const SETUP := [AtB(Api(SetOnClose(0))), AtB(Api(SetOnMessage(1))), AtA(Api(SetOnMessage(0)))]

  /** The server and the client as SETUP leaves them. */
  function Ready(): Net {
    Net(InstallOnMessage(Init(true), 0), InstallOnMessage(Register(Init(true), 0), 1), [], [])
  }

  lemma {:induction false} SetupRun(w: World)
    ensures NetRun(w, InitNet(true, true), SETUP) == Ready()
  {
    var n0 := InitNet(true, true);
    var n1 := n0.(b := Register(n0.b, 0));
    var n2 := n1.(b := Ready().b);
    assert NetStep(w, n0, SETUP[0]) == n1;
    assert NetStep(w, n1, SETUP[1]) == n2;
    assert NetStep(w, n2, SETUP[2]) == Ready();
    assert SETUP[1..] == [SETUP[1], SETUP[2]] && SETUP[1..][1..] == [SETUP[2]];
    assert NetRun(w, n2, [SETUP[2]]) == NetStep(w, n2, SETUP[2]);
  }

  lemma ReadyIsLive()
    ensures Live(Ready())
  {
  }

  /** Fresh open sessions with their handlers set are live. */
  lemma {:induction false} LiveFromTheStart(w: World)
    ensures Live(NetRun(w, InitNet(true, true), SETUP))
  {
    SetupRun(w);
    ReadyIsLive();
  }

  /** The client may send at any time: the network stays live. */
  lemma {:induction false} SendKeepsLive(w: World, n: Net, m: Bytes)
    requires Live(n) && Echoes(w.b)
    ensures var r := NetStep(w, n, AtA(Api(Send(m))));
      && Live(r)
      && r.a.output.accepted == n.a.output.accepted + (if ValidSize(|m|) then [m] else [])
  {
    NetStepKeeps(w, n, AtA(Api(Send(m))));
    SendStaysHealthy(n.a, m);
    assert NetStep(w, n, AtA(Api(Send(m)))) == n.(a := SendTo(n.a, m).state);
  }

  lemma SendStaysHealthy(s: State, m: Bytes)
    requires s.open && !WriteFailed(s)
    ensures var r := SendTo(s, m).state;
      && r.open && !WriteFailed(r) && r.onmessage == s.onmessage && r.rd == s.rd && r.input == s.input
      && r.output.accepted == s.output.accepted + (if ValidSize(|m|) then [m] else [])
  {
  }
}
