/** What becomes of the chat server's registry: nothing is ever removed from it, because remove does
    nothing to a registered id. */
module ChatRegistry {
  import opened Codec
  import opened Session
  import opened SessionSafety
  import opened SessionTheorems
  import opened Link
  import opened Replying
  import opened ChatHandlers
  import opened Chat

  /** Registered sessions stay, with the log position they joined at, and the log only grows. */
  predicate Extends(c: Chat, r: Chat) {
    && c.log <= r.log
    && c.conns.Keys <= r.conns.Keys
    && forall i :: i in c.conns ==> i in r.conns && r.conns[i].joined == c.conns[i].joined
  }

  lemma StepExtends(w: ChatWorld, c: Chat, e: ChatEvent)
    ensures Extends(c, ChatStep(w, c, e))
  {
  }

  /** The registry never shrinks, in any run: not when a connection closes, not when an invalid
      message arrives. */
  lemma {:induction false} RegistryNeverShrinks(w: ChatWorld, c: Chat, es: seq<ChatEvent>)
    ensures Extends(c, ChatRun(w, c, es))
    decreases |es|
  {
    if es != [] {
      var t := ChatStep(w, c, es[0]);
      StepExtends(w, c, es[0]);
      RegistryNeverShrinks(w, t, es[1..]);
      ExtendsTransitive(c, t, ChatRun(w, t, es[1..]));
    }
  }

  lemma ExtendsTransitive(c: Chat, t: Chat, r: Chat)
    requires Extends(c, t) && Extends(t, r)
    ensures Extends(c, r)
  {
  }

  // ---------- closed sessions ----------

  /** The server's session of a connection is closed, and what it has written is fixed. */
  predicate ClosedAt(c: Chat, i: nat, wire: Bytes) {
    i in c.conns && !c.conns[i].net.a.open && c.conns[i].net.a.output.wire == wire
  }

  lemma ClosedNetStep(w: World, n: Net, e: NetEvent)
    requires LinkInv(n) && !n.a.open
    ensures var m := NetStep(w, n, e);
      !m.a.open && m.a.output.wire == n.a.output.wire
  {
    if e.AtA? && Possible(w, n, e) {
      ClosedStep(w.a, n.a, e.event);
    }
  }

  lemma ClosedChatStep(w: ChatWorld, c: Chat, e: ChatEvent, i: nat, wire: Bytes)
    requires ChatInv(w, c) && ClosedAt(c, i, wire)
    ensures ClosedAt(ChatStep(w, c, e), i, wire)
  {
    ConnAfter(w, c, e, i);
    if Allowed(c, e) && e.Traffic? {
      if e.conn == i {
        ClosedNetStep(WorldOf(w, i), c.conns[i].net, e.event);
      } else {
        SendIntoClosed(c.conns[i], Broadcast(w, c.conns[e.conn].net, e.event));
      }
    }
  }

  lemma SendIntoClosed(c: Conn, ms: seq<Bytes>)
    ensures var r := SendInto(c, ms);
      r.net.a.open == c.net.a.open && r.net.a.output.wire == c.net.a.output.wire
  {
  }

  /** A consequence of remove doing nothing: a session that has closed stays registered for ever, and
      goes on accepting every later message of the log, none of which it ever writes. */
  lemma {:induction false} ClosedSessionsKeepAccepting(w: ChatWorld, c: Chat, es: seq<ChatEvent>, i: nat)
    requires ChatInv(w, c) && i in c.conns && !c.conns[i].net.a.open
    ensures var r := ChatRun(w, c, es);
      && ClosedAt(r, i, c.conns[i].net.a.output.wire)
      && r.conns[i].joined == c.conns[i].joined <= |r.log|
      && r.conns[i].net.a.output.accepted == Messages(r.log)[c.conns[i].joined..]
    decreases |es|
  {
    if es != [] {
      ClosedChatStep(w, c, es[0], i, c.conns[i].net.a.output.wire);
      ChatStepKeeps(w, c, es[0]);
      StepExtends(w, c, es[0]);
      ClosedSessionsKeepAccepting(w, ChatStep(w, c, es[0]), es[1..], i);
    }
  }

  // ---------- a witness ----------

  const HI: Bytes := [72, 105]

  const HI_HEADER: Bytes := [0, 0, 0, 2]

  /** A client sends "Hi" and the server reads it, up to the point where onmessage is due. */
  const HELLO := [
    AtB(Api(Send(HI))), AtB(Depart(4)), AtB(RunWrite), AtA(Arrive(HI_HEADER)), AtA(RunRead), AtB(Depart(2)),
    AtA(Arrive(HI))
  ]

  /** Two clients join, and the first connection closes. */
  const CLOSED := [Join(1, true), Join(2, true), Traffic(1, AtA(Api(Close)))]

  /** A client says Hi, and the server's onmessage runs. */
  function SaysHi(id: nat): seq<ChatEvent> {
    OnConn(id, HELLO) + [Traffic(id, AtA(RunRead))]
  }

  function OnConn(id: nat, es: seq<NetEvent>): seq<ChatEvent> {
    seq(|es|, i requires 0 <= i < |es| => Traffic(id, es[i]))
  }

  /** The client's session while it sends Hi: done bytes of the frame are written. */
  function Sending(wr: WriteSlot, wire: Bytes): State {
    Init(true).(queue := [HI], wr := wr, output := OutLog([HI], [], wire, |wire|))
  }

  /** The server's session while it reads Hi. */
  function Receiving(rd: ReadSlot, got: Bytes): State {
    var s := Accepted();
    s.(rd := rd, input := s.input.(consumed := got, partial := got))
  }

  lemma HeaderOfHi()
    ensures HeaderFor(2) == HI_HEADER && GoodHeader(HI_HEADER) && LengthIn(HI_HEADER) == 2
  {
    HeaderBijection(HeaderFor(2), 2);
  }

  lemma HiSent(w: World, n: Net)
    requires n == Net(Accepted(), Init(true), [], []) && w.capacityBA >= 4
    ensures var m := Net(Accepted(), Sending(WritePending(OfPayload, 0), HI_HEADER), [], HI_HEADER);
      NetStep(w, NetStep(w, NetStep(w, n, HELLO[0]), HELLO[1]), HELLO[2]) == m
  {
    HeaderOfHi();
    var n1 := n.(b := Sending(WritePending(OfHeader, 0), []));
    var n2 := Net(n.a, Sending(WriteDone(OfHeader, NoError), HI_HEADER), [], HI_HEADER);
    assert Perform(w.b, n.b, Send(HI)).state == SendTo(n.b, HI).state;
    assert NetStep(w, n, HELLO[0]) == n1;
    assert NetStep(w, n1, HELLO[1]) == n2;
  }

  lemma HeaderArrives(w: World, b: State)
    requires b == Sending(WritePending(OfPayload, 0), HI_HEADER)
    ensures NetStep(w, Net(Accepted(), b, [], HI_HEADER), HELLO[3])
         == Net(Receiving(ReadDone(InHeader, HI_HEADER, NoError), HI_HEADER), b, [], [])
  {
    assert [] + HI_HEADER == HI_HEADER;
    assert HI_HEADER[|HI_HEADER|..] == [];
  }

  lemma HeaderRead(w: World, b: State)
    ensures NetStep(w, Net(Receiving(ReadDone(InHeader, HI_HEADER, NoError), HI_HEADER), b, [], []), HELLO[4])
         == Net(Receiving(ReadPending(InPayload(2), []), HI_HEADER), b, [], [])
  {
    HeaderOfHi();
  }

  lemma PayloadWritten(w: World, a: State)
    requires w.capacityBA >= 4
    ensures NetStep(w, Net(a, Sending(WritePending(OfPayload, 0), HI_HEADER), [], []), HELLO[5])
         == Net(a, Sending(WriteDone(OfPayload, NoError), HI_HEADER + HI), [], HI)
  {
    assert HI[0..2] == HI && [] + HI == HI;
  }

  lemma PayloadArrives(w: World, b: State)
    ensures NetStep(w, Net(Receiving(ReadPending(InPayload(2), []), HI_HEADER), b, [], HI), HELLO[6]).a
         == Receiving(ReadDone(InPayload(2), HI, NoError), HI_HEADER + HI)
  {
    assert [] + HI == HI;
  }

  /** After the seven events the payload is read and its completion is due. */
  lemma HiArrives(w: World)
    requires w.capacityBA >= 4
    ensures NetRun(w, Net(Accepted(), Init(true), [], []), HELLO).a
         == Receiving(ReadDone(InPayload(2), HI, NoError), HI_HEADER + HI)
    ensures NetRun(w, Net(Accepted(), Init(true), [], []), HELLO[..4]).a.rd == ReadDone(InHeader, HI_HEADER, NoError)
  {
    var b := Sending(WritePending(OfPayload, 0), HI_HEADER);
    var n := Net(Accepted(), Init(true), [], []);
    HiSent(w, n);
    HeaderArrives(w, b);
    HeaderRead(w, b);
    PayloadWritten(w, Receiving(ReadPending(InPayload(2), []), HI_HEADER));
    PayloadArrives(w, Sending(WriteDone(OfPayload, NoError), HI_HEADER + HI));
    forall k | 0 <= k < |HELLO| {
      NetRunSnoc(w, n, HELLO, k);
    }
    assert HELLO[..0] == [] && HELLO[..7] == HELLO;
  }

  lemma {:induction false} NetRunSnoc(w: World, n: Net, es: seq<NetEvent>, k: nat)
    requires k < |es|
    ensures NetRun(w, n, es[..k + 1]) == NetStep(w, NetRun(w, n, es[..k]), es[k])
    decreases k
  {
    var m := NetStep(w, n, es[0]);
    assert es[..k + 1][1..] == es[1..][..k];
    if k > 0 {
      assert es[..k][1..] == es[1..][..k - 1];
      NetRunSnoc(w, m, es[1..], k - 1);
    }
  }

  // ---------- the witness in the chat ----------

  /** Events of one connection that broadcast nothing move that connection only. */
  lemma {:induction false} QuietTraffic(w: ChatWorld, c: Chat, id: nat, es: seq<NetEvent>)
    requires id in c.conns
    requires forall k :: 0 <= k < |es| ==> es[k].AtA? ==> !es[k].event.Api?
    requires forall k :: 0 <= k < |es| ==> Broadcast(w, NetRun(WorldOf(w, id), c.conns[id].net, es[..k]), es[k]) == []
    ensures ChatRun(w, c, OnConn(id, es))
         == c.(conns := c.conns[id := c.conns[id].(net := NetRun(WorldOf(w, id), c.conns[id].net, es))])
    decreases |es|
  {
    var conn, lw := c.conns[id], WorldOf(w, id);
    if es == [] {
      assert OnConn(id, es) == [];
      assert c.conns == c.conns[id := conn];
    } else {
      var stepped := conn.(net := NetStep(lw, conn.net, es[0]));
      var t := c.(conns := c.conns[id := stepped]);
      assert es[..0] == [];
      QuietStep(w, c, id, es[0], t);
      assert OnConn(id, es)[1..] == OnConn(id, es[1..]);
      forall k | 0 <= k < |es[1..]|
        ensures Broadcast(w, NetRun(lw, stepped.net, es[1..][..k]), es[1..][k]) == []
      {
        assert es[..k + 1][1..] == es[1..][..k];
        assert NetRun(lw, conn.net, es[..k + 1]) == NetRun(lw, stepped.net, es[1..][..k]);
      }
      QuietTraffic(w, t, id, es[1..]);
    }
  }

  lemma QuietStep(w: ChatWorld, c: Chat, id: nat, e: NetEvent, t: Chat)
    requires id in c.conns && Broadcast(w, c.conns[id].net, e) == [] && (e.AtA? ==> !e.event.Api?)
    requires t == c.(conns := c.conns[id := c.conns[id].(net := NetStep(WorldOf(w, id), c.conns[id].net, e))])
    ensures ChatStep(w, c, Traffic(id, e)) == t
  {
    assert c.log + Entries(id, []) == c.log;
    assert ChatStep(w, c, Traffic(id, e)).conns == t.conns;
  }

  lemma HelloIsQuiet(w: ChatWorld, id: nat, k: nat)
    requires k < |HELLO| && w.toServer >= 4
    ensures Broadcast(w, NetRun(WorldOf(w, id), Net(Accepted(), Init(true), [], []), HELLO[..k]), HELLO[k]) == []
  {
    HiArrives(WorldOf(w, id));
  }

  lemma {:induction false} ChatRunAppend(w: ChatWorld, c: Chat, a: seq<ChatEvent>, b: seq<ChatEvent>)
    ensures ChatRun(w, c, a + b) == ChatRun(w, ChatRun(w, c, a), b)
    decreases |a|
  {
    if a == [] {
      assert a + b == b;
    } else {
      assert (a + b)[1..] == a[1..] + b;
      ChatRunAppend(w, ChatStep(w, c, a[0]), a[1..], b);
    }
  }

  lemma {:induction false} ChatRunOne(w: ChatWorld, c: Chat, e: ChatEvent)
    ensures ChatRun(w, c, [e]) == ChatStep(w, c, e)
  {
    assert ChatRun(w, ChatStep(w, c, e), []) == ChatStep(w, c, e);
  }

  lemma {:induction false} HelloRuns(w: ChatWorld, c: Chat, id: nat)
    requires id in c.conns && c.conns[id].net == Net(Accepted(), Init(true), [], []) && w.toServer >= 4
    ensures var t := ChatRun(w, c, OnConn(id, HELLO));
      && t.log == c.log && id in t.conns
      && t.conns[id].net.a == Receiving(ReadDone(InPayload(2), HI, NoError), HI_HEADER + HI)
  {
    var lw, n := WorldOf(w, id), c.conns[id].net;
    forall k | 0 <= k < |HELLO|
      ensures Broadcast(w, NetRun(lw, n, HELLO[..k]), HELLO[k]) == []
    {
      HelloIsQuiet(w, id, k);
    }
    QuietTraffic(w, c, id, HELLO);
    HiArrives(lw);
  }

  lemma {:induction false} HiDelivered(w: ChatWorld, t: Chat, id: nat)
    requires id in t.conns && w.isMessage(HI)
    requires t.conns[id].net.a == Receiving(ReadDone(InPayload(2), HI, NoError), HI_HEADER + HI)
    ensures ChatStep(w, t, Traffic(id, AtA(RunRead))).log == t.log + [Entry(id, HI)]
  {
    assert HandedOver(t.conns[id].net.a, RunRead) == [HI];
    PassingSnoc(w.isMessage, [], HI);
    assert Broadcast(w, t.conns[id].net, AtA(RunRead)) == [HI];
    assert Entries(id, [HI]) == [Entry(id, HI)];
  }

  /** Hi on a fresh connection: the log grows by it. */
  lemma {:induction false} HiIsBroadcast(w: ChatWorld, c: Chat, id: nat)
    requires id in c.conns && c.conns[id].net == Net(Accepted(), Init(true), [], [])
    requires w.isMessage(HI) && w.toServer >= 4
    ensures ChatRun(w, c, SaysHi(id)).log == c.log + [Entry(id, HI)]
  {
    var t := ChatRun(w, c, OnConn(id, HELLO));
    HelloRuns(w, c, id);
    HiDelivered(w, t, id);
    ChatRunAppend(w, c, OnConn(id, HELLO), [Traffic(id, AtA(RunRead))]);
    ChatRunOne(w, t, Traffic(id, AtA(RunRead)));
  }

  /** Two clients have joined and the first connection is closed. */
  lemma {:induction false} ClosedFirst(w: ChatWorld)
    ensures var c := ChatRun(w, EMPTY, CLOSED);
      && ChatInv(w, c) && c.log == []
      && ClosedAt(c, 1, []) && c.conns[1].joined == 0
      && 2 in c.conns && c.conns[2] == Conn(Net(Accepted(), Init(true), [], []), 0)
  {
    var es := CLOSED;
    NewConnIs(w, 1, true, 0);
    NewConnIs(w, 2, true, 0);
    var conn := Conn(Net(Accepted(), Init(true), [], []), 0);
    var c1 := Chat(map[1 := conn], []);
    var c2 := Chat(map[1 := conn, 2 := conn], []);
    assert ChatStep(w, EMPTY, es[0]) == c1;
    assert ChatStep(w, c1, es[1]) == c2;
    CloseFirst(w, c2);
    ChatRunKeeps(w, EMPTY, es);
    assert es[1..][1..] == [es[2]];
    ChatRunOne(w, c2, es[2]);
    assert ChatRun(w, EMPTY, es) == ChatRun(w, c2, es[1..][1..]);
  }

  lemma AcceptedCloses(o: Oracle)
    ensures var s := Step(o, Accepted(), Api(Close));
      !s.open && s.output.wire == []
  {
    AcceptedInv();
    CloseAborts(o, Accepted());
    BytesMoveByIO(o, Accepted(), Api(Close));
  }

  lemma CloseFirst(w: ChatWorld, c: Chat)
    requires 1 in c.conns && 2 in c.conns && c.conns[1] == Conn(Net(Accepted(), Init(true), [], []), 0)
    ensures var r := ChatStep(w, c, Traffic(1, AtA(Api(Close))));
      ClosedAt(r, 1, []) && r.log == c.log && r.conns[1].joined == 0 && r.conns[2] == c.conns[2]
  {
    AcceptedCloses(ServerCode(w.isMessage));
    ConnAfter(w, c, Traffic(1, AtA(Api(Close))), 1);
    ConnAfter(w, c, Traffic(1, AtA(Api(Close))), 2);
    assert c.log + Entries(1, []) == c.log;
  }

  lemma OneMessage(sender: nat, m: Bytes)
    ensures Messages([] + [Entry(sender, m)])[0..] == [m]
  {
  }

  lemma {:induction false} AcceptsNext(w: ChatWorld, c: Chat, es: seq<ChatEvent>, sender: nat, m: Bytes)
    requires ChatInv(w, c) && ClosedAt(c, 1, []) && c.conns[1].joined == 0
    requires ChatRun(w, c, es).log == [] + [Entry(sender, m)]
    ensures var r := ChatRun(w, c, es);
      ClosedAt(r, 1, []) && r.conns[1].net.a.output.accepted == [m]
  {
    ClosedSessionsKeepAccepting(w, c, es, 1);
    OneMessage(sender, m);
  }

  /** A concrete run: the closed session 1 is still registered, and it has accepted a message that was
      broadcast after it closed and that it will never write. */
  lemma {:induction false} ClosedSessionWitness(w: ChatWorld)
    requires w.isMessage(HI) && w.toServer >= 4
    ensures var c := ChatRun(w, EMPTY, CLOSED + SaysHi(2));
      && ClosedAt(c, 1, [])
      && c.conns[1].net.a.output.accepted == [HI]
  {
    ClosedFirst(w);
    Continue(w, CLOSED, SaysHi(2));
  }

  lemma {:induction false} Continue(w: ChatWorld, before: seq<ChatEvent>, after: seq<ChatEvent>)
    requires w.isMessage(HI) && w.toServer >= 4 && after == SaysHi(2)
    requires var c := ChatRun(w, EMPTY, before);
      && ChatInv(w, c) && ClosedAt(c, 1, []) && c.conns[1].joined == 0 && c.log == []
      && 2 in c.conns && c.conns[2].net == Net(Accepted(), Init(true), [], [])
    ensures var r := ChatRun(w, EMPTY, before + after);
      ClosedAt(r, 1, []) && r.conns[1].net.a.output.accepted == [HI]
  {
    var c := ChatRun(w, EMPTY, before);
    ChatRunAppend(w, EMPTY, before, after);
    HiIsBroadcast(w, c, 2);
    AcceptsNext(w, c, after, 2, HI);
  }
}
