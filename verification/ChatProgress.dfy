/** The chat makes progress: along every working connection, in both directions, while anything else
    goes on at the others. */
module ChatProgress {
  import opened Codec
  import opened Session
  import opened SessionSafety
  import opened Link
  import opened Progress
  import opened Replying
  import opened ChatHandlers
  import opened Chat

  // ---------- a broadcast is send_all ----------

  /** Payload p is about to be handed to the onmessage handler of this session. */
  predicate Delivers(s: State, p: Bytes) {
    HandedOver(s, RunRead) == [p]
  }

  /** A session inside the onmessage callback that gets p. */
  function Inside(s: State, p: Bytes): State
    requires s.onmessage.User?
  {
    Enter(s.(rd := ReadIdle), s.onmessage.id, OnMessage(p))
  }

  /** The states of the registered sessions inside the onmessage callback of session id. */
  function InsideCallback(conns: map<nat, Conn>, id: nat, p: Bytes): map<nat, State>
    requires id in conns && conns[id].net.a.onmessage.User?
  {
    map i | i in conns :: if i == id then Inside(conns[i].net.a, p) else conns[i].net.a
  }

  /** When a valid message is delivered at session id, every other session ends in the state send_all
      leaves it in, and session id goes on from there: its callback returns and it reads on. */
  lemma {:induction false} BroadcastIsSendAll(w: ChatWorld, c: Chat, id: nat, p: Bytes, r: Chat)
    requires id in c.conns && Delivers(c.conns[id].net.a, p) && w.isMessage(p)
    requires r == ChatStep(w, c, Traffic(id, AtA(RunRead)))
    ensures r.conns.Keys == c.conns.Keys && r.log == c.log + [Entry(id, p)]
    ensures var sent := Sent(InsideCallback(c.conns, id, p), p);
      && (forall i :: i in c.conns && i != id ==> r.conns[i].net.a == sent[i])
      && r.conns[id].net.a == StartRead(Leave(sent[id]), InHeader)
  {
    PassingSnoc(w.isMessage, [], p);
    assert Entries(id, [p]) == [Entry(id, p)];
    SenderSends(w.isMessage, c.conns[id].net.a, p);
  }

  lemma SenderSends(test: Bytes -> bool, s: State, p: Bytes)
    requires Delivers(s, p) && test(p)
    ensures CompleteRead(ServerCode(test), s) == StartRead(Leave(SendTo(Inside(s, p), p).state), InHeader)
  {
    SendScript(ServerCode(test), Inside(s, p), p);
  }

  // ---------- progress ----------

  /** Both ends of connection i are open. */
  predicate ConnOpen(c: Chat, i: nat) {
    i in c.conns && BothOpen(c.conns[i].net)
  }

  predicate ConnOpenThroughout(w: ChatWorld, c: Chat, es: seq<ChatEvent>, i: nat)
    decreases |es|
  {
    ConnOpen(c, i) && (es == [] || ConnOpenThroughout(w, ChatStep(w, c, es[0]), es[1..], i))
  }

  /** A connection seen from the side that writes: the server's, or the client's. */
  function Towards(toClient: bool, n: Net): Net {
    if toClient then n else FlipNet(n)
  }

  predicate FlowsAt(w: ChatWorld, c: Chat, e: ChatEvent, i: nat, toClient: bool) {
    && Allowed(c, e) && e.Traffic? && e.conn == i
    && IsFlow(if toClient then e.event else FlipEvent(e.event))
    && Possible(WorldOf(w, i), c.conns[i].net, e.event)
  }

  /** The flow events of one direction of connection i that happen in a run of the chat. */
  function FlowCountAt(w: ChatWorld, c: Chat, es: seq<ChatEvent>, i: nat, toClient: bool): nat
    decreases |es|
  {
    if es == [] then 0
    else
      (if FlowsAt(w, c, es[0], i, toClient) then 1 else 0)
      + FlowCountAt(w, ChatStep(w, c, es[0]), es[1..], i, toClient)
  }

  function WorkAt(c: Chat, i: nat, toClient: bool, total: seq<Bytes>): int
    requires i in c.conns
  {
    var n := Towards(toClient, c.conns[i].net);
    Work(total, n.a, n.b)
  }

  lemma SendLosesNothing(s: State, p: Bytes)
    requires Inv(s) && s.open
    ensures var r := SendTo(s, p).state;
      WriterDone(r) >= WriterDone(s) && ReaderDone(r) >= ReaderDone(s)
  {
    SendKeeps(s, p);
    CallsLoseNothing(s, SendTo(s, p).state);
  }

  lemma OwnTrafficUsesWork(w: ChatWorld, n: Net, e: NetEvent, i: nat, toClient: bool, total: seq<Bytes>)
    requires LinkInv(n) && BothOpen(n) && BothOpen(NetStep(WorldOf(w, i), n, e))
    ensures var b, a := Towards(toClient, n), Towards(toClient, NetStep(WorldOf(w, i), n, e));
      Work(total, a.a, a.b)
      + (if IsFlow(if toClient then e else FlipEvent(e)) && Possible(WorldOf(w, i), n, e) then 1 else 0)
      <= Work(total, b.a, b.b)
  {
    if toClient {
      WorkFalls(WorldOf(w, i), n, e, total);
    } else {
      FlippedStep(WorldOf(w, i), n, e);
      WorkFalls(FlipWorld(WorldOf(w, i)), FlipNet(n), FlipEvent(e), total);
    }
  }

  lemma OtherTrafficAddsNone(c: Conn, ms: seq<Bytes>, toClient: bool, total: seq<Bytes>)
    requires LinkInv(c.net) && c.net.a.open
    ensures var b, a := Towards(toClient, c.net), Towards(toClient, SendInto(c, ms).net);
      Work(total, a.a, a.b) <= Work(total, b.a, b.b)
  {
    if ms != [] {
      SendLosesNothing(c.net.a, ms[0]);
    }
  }

  lemma ChatWorkFalls(w: ChatWorld, c: Chat, e: ChatEvent, i: nat, toClient: bool, total: seq<Bytes>)
    requires ChatInv(w, c) && ConnOpen(c, i) && ConnOpen(ChatStep(w, c, e), i)
    ensures WorkAt(ChatStep(w, c, e), i, toClient, total) + (if FlowsAt(w, c, e, i, toClient) then 1 else 0)
         <= WorkAt(c, i, toClient, total)
  {
    ConnAfter(w, c, e, i);
    if Allowed(c, e) && e.Traffic? {
      if e.conn == i {
        OwnTrafficUsesWork(w, c.conns[i].net, e.event, i, toClient, total);
      } else {
        OtherTrafficAddsNone(c.conns[i], Broadcast(w, c.conns[e.conn].net, e.event), toClient, total);
      }
    }
  }

  lemma {:induction false} FlowCountAtBounded(
      w: ChatWorld, c: Chat, es: seq<ChatEvent>, i: nat, toClient: bool, total: seq<Bytes>)
    requires ChatInv(w, c) && ConnOpenThroughout(w, c, es, i)
    ensures ConnOpen(ChatRun(w, c, es), i) && ChatInv(w, ChatRun(w, c, es))
    ensures FlowCountAt(w, c, es, i, toClient) + WorkAt(ChatRun(w, c, es), i, toClient, total)
         <= WorkAt(c, i, toClient, total)
    decreases |es|
  {
    if es != [] {
      ChatWorkFalls(w, c, es[0], i, toClient, total);
      ChatStepKeeps(w, c, es[0]);
      FlowCountAtBounded(w, ChatStep(w, c, es[0]), es[1..], i, toClient, total);
    }
  }

  /** The bound of either direction, in terms of what its writer has accepted by the end. */
  lemma {:induction false} DirectionBounded(w: ChatWorld, c: Chat, es: seq<ChatEvent>, i: nat, toClient: bool)
    requires ChatInv(w, c) && ConnOpenThroughout(w, c, es, i)
    ensures ConnOpen(ChatRun(w, c, es), i)
    ensures var sent := Towards(toClient, ChatRun(w, c, es).conns[i].net).a.output.accepted;
      FlowCountAt(w, c, es, i, toClient) <= 2 * |EncodeAll(sent)| + 4 * |sent|
  {
    FlowCountAtBounded(w, c, es, i, toClient, []);  // the connection is open at the end
    var n := ChatRun(w, c, es).conns[i].net;
    var sent := Towards(toClient, n).a.output.accepted;
    FlowCountAtBounded(w, c, es, i, toClient, sent);
    WorkNaturalTowards(n, toClient, sent);
  }

  lemma WorkNaturalTowards(n: Net, toClient: bool, sent: seq<Bytes>)
    requires LinkInv(n) && BothOpen(n) && sent == Towards(toClient, n).a.output.accepted
    ensures var m := Towards(toClient, n);
      Work(sent, m.a, m.b) >= 0
  {
    WorkIsNatural(Towards(toClient, n), sent);
  }

  /** Broadcasts arrive: after any run es0, in any further run es that keeps connection i open,
      whatever the other connections do, at most two events per byte and four per message of the log
      since it joined move bytes to client i; and when none is possible any more, the client has been
      handed all of the log since it joined. */
  lemma {:induction false} BroadcastsArrive(w: ChatWorld, es0: seq<ChatEvent>, es: seq<ChatEvent>, i: nat)
    requires w.toClient >= 1 && ConnOpenThroughout(w, ChatRun(w, EMPTY, es0), es, i)
    ensures var c := ChatRun(w, EMPTY, es0);
            var r := ChatRun(w, c, es);
      && i in r.conns && r.conns[i].joined <= |r.log|
      && (var owed := Messages(r.log)[r.conns[i].joined..];
          && FlowCountAt(w, c, es, i, true) <= 2 * |EncodeAll(owed)| + 4 * |owed|
          && (Flowing(r.conns[i].net) && (forall e :: IsFlow(e) ==> !Possible(WorldOf(w, i), r.conns[i].net, e)) ==>
                r.conns[i].net.b.input.delivered == owed))
  {
    ChatRunKeeps(w, EMPTY, es0);
    var c := ChatRun(w, EMPTY, es0);
    ChatRunKeeps(w, c, es);
    DirectionBounded(w, c, es, i, true);
    AtRest(WorldOf(w, i), ChatRun(w, c, es).conns[i].net);
  }

  lemma {:induction false} AtRest(w: World, n: Net)
    requires LinkInv(n) && w.capacityAB >= 1
    ensures Flowing(n) && (forall e :: IsFlow(e) ==> !Possible(w, n, e)) ==> n.b.input.delivered == n.a.output.accepted
  {
    if Flowing(n) && n.b.input.delivered != n.a.output.accepted {
      FlowPossible(w, n);
    }
  }

  /** Messages reach the log: in the other direction, at most two events per byte and four per message
      that client i has sent move its bytes to the server; and when none is possible any more, the log
      holds all of its valid messages, in the order sent. */
  lemma {:induction false} MessagesReachTheLog(w: ChatWorld, es0: seq<ChatEvent>, es: seq<ChatEvent>, i: nat)
    requires w.toServer >= 1 && ConnOpenThroughout(w, ChatRun(w, EMPTY, es0), es, i)
    ensures var c := ChatRun(w, EMPTY, es0);
            var r := ChatRun(w, c, es);
      && i in r.conns
      && (var n, sent := FlipNet(r.conns[i].net), r.conns[i].net.b.output.accepted;
          && FlowCountAt(w, c, es, i, false) <= 2 * |EncodeAll(sent)| + 4 * |sent|
          && (Flowing(n) && (forall e :: IsFlow(e) ==> !Possible(FlipWorld(WorldOf(w, i)), n, e)) ==>
                SentBy(r.log, i) == Passing(w.isMessage, sent)))
  {
    ChatRunKeeps(w, EMPTY, es0);
    var c := ChatRun(w, EMPTY, es0);
    ChatRunKeeps(w, c, es);
    DirectionBounded(w, c, es, i, false);
    AtRest(FlipWorld(WorldOf(w, i)), FlipNet(ChatRun(w, c, es).conns[i].net));
  }

  /** The premise is met: once a client has joined and set its onmessage handler, messages flow in
      both directions of its connection. */
  lemma {:induction false} FlowingAfterJoin(w: ChatWorld, es: seq<ChatEvent>, i: nat)
    requires i !in ChatRun(w, EMPTY, es).conns
    ensures var c := ChatRun(w, EMPTY, es);
            var r := ChatStep(w, ChatStep(w, c, Join(i, true)), Traffic(i, AtB(Api(SetOnMessage(0)))));
      i in r.conns && Flowing(r.conns[i].net) && Flowing(FlipNet(r.conns[i].net))
  {
    var c := ChatRun(w, EMPTY, es);
    ChatRunKeeps(w, EMPTY, es);
    JoinedFlows(w, ChatStep(w, c, Join(i, true)), i, |c.log|);
  }

  lemma {:induction false} JoinedFlows(w: ChatWorld, c: Chat, i: nat, joined: nat)
    requires i in c.conns && c.conns[i] == NewConn(w, i, true, joined)
    ensures var r := ChatStep(w, c, Traffic(i, AtB(Api(SetOnMessage(0)))));
      i in r.conns && Flowing(r.conns[i].net) && Flowing(FlipNet(r.conns[i].net))
  {
    NewConnIs(w, i, true, joined);
    ConnAfter(w, c, Traffic(i, AtB(Api(SetOnMessage(0)))), i);
    ClientListens(WorldOf(w, i));
  }

  lemma ClientListens(w: World)
    ensures var n := NetStep(w, Net(Accepted(), Init(true), [], []), AtB(Api(SetOnMessage(0))));
      Flowing(n) && Flowing(FlipNet(n))
  {
    AcceptedInv();
    assert NetStep(w, Net(Accepted(), Init(true), [], []), AtB(Api(SetOnMessage(0)))).b
        == InstallOnMessage(Init(true), 0);
  }
}
