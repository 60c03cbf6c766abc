/** The chat server (example/chat/chat_server.cpp) with its clients: one network connection per
    registered session, the server's session at side a. */
module Chat {
  import opened Codec
  import opened Session
  import opened SessionSafety
  import opened Link
  import opened Replying
  import opened ChatHandlers

  /** joined is the length of the log when the session was added. */
  datatype Conn = Conn(net: Net, joined: nat)

  datatype Entry = Entry(sender: nat, payload: Bytes)

  /** The registry with its connections, and every message broadcast so far in order. */
  datatype Chat = Chat(conns: map<nat, Conn>, log: seq<Entry>)

  /** Which byte strings parse as a chat message, the code of each client, and the capacities of
      the channels to and from the clients. */
  datatype ChatWorld = ChatWorld(isMessage: Bytes -> bool, client: nat -> Oracle, toClient: nat, toServer: nat)

  function WorldOf(w: ChatWorld, id: nat): World {
    World(ServerCode(w.isMessage), w.client(id), w.toClient, w.toServer)
  }

  datatype ChatEvent =
    | Join(id: nat, clientOpen: bool)
    | Traffic(conn: nat, event: NetEvent)

  /** New ids are unused. The server program itself calls nothing but close on its sessions. */
  predicate Allowed(c: Chat, e: ChatEvent) {
    match e
    case Join(id, _) => id !in c.conns
    case Traffic(id, event) => id in c.conns && (event.AtA? && event.event.Api? ==> event.event.op.Close?)
  }

  /** The two set_ calls of do_accept. */
  const SETUP := [AtA(Api(SetOnClose(0))), AtA(Api(SetOnMessage(1)))]

  function NewConn(w: ChatWorld, id: nat, clientOpen: bool, joined: nat): Conn {
    Conn(NetRun(WorldOf(w, id), InitNet(true, clientOpen), SETUP), joined)
  }

  /** The valid message an event makes the server broadcast, if any. */
  function Broadcast(w: ChatWorld, n: Net, e: NetEvent): seq<Bytes> {
    if e.AtA? then Passing(w.isMessage, HandedOver(n.a, e.event)) else []
  }

  /** send on one session of the registry. */
  function SendInto(c: Conn, ms: seq<Bytes>): Conn {
    if ms == [] then c else c.(net := c.net.(a := SendTo(c.net.a, ms[0]).state))
  }

  /** One connection took a step, and every other session is sent its message. */
  function Spread(conns: map<nat, Conn>, id: nat, stepped: Conn, ms: seq<Bytes>): (r: map<nat, Conn>)
    ensures r.Keys == conns.Keys
  {
    map i | i in conns :: if i == id then stepped else SendInto(conns[i], ms)
  }

  function Entries(sender: nat, ms: seq<Bytes>): seq<Entry> {
    seq(|ms|, i requires 0 <= i < |ms| => Entry(sender, ms[i]))
  }

  function ChatStep(w: ChatWorld, c: Chat, e: ChatEvent): Chat {
    if !Allowed(c, e) then c
    else
      match e
      case Join(id, clientOpen) => c.(conns := c.conns[id := NewConn(w, id, clientOpen, |c.log|)])
      case Traffic(id, event) =>
        var conn := c.conns[id];
        var ms := Broadcast(w, conn.net, event);
        Chat(Spread(c.conns, id, conn.(net := NetStep(WorldOf(w, id), conn.net, event)), ms), c.log + Entries(id, ms))
  }

  function ChatRun(w: ChatWorld, c: Chat, es: seq<ChatEvent>): Chat
    decreases |es|
  {
    if es == [] then c else ChatRun(w, ChatStep(w, c, es[0]), es[1..])
  }

  const EMPTY := Chat(map[], [])

  /** The server's session as do_accept leaves it. */
  function Accepted(): State {
    InstallOnMessage(Register(Init(true), 0), 1)
  }

  lemma {:induction false} NewConnIs(w: ChatWorld, id: nat, clientOpen: bool, joined: nat)
    ensures NewConn(w, id, clientOpen, joined) == Conn(Net(Accepted(), Init(clientOpen), [], []), joined)
  {
    var lw, n0 := WorldOf(w, id), InitNet(true, clientOpen);
    var n1 := n0.(a := Register(Init(true), 0));
    assert NetStep(lw, n0, SETUP[0]) == n1;
    assert NetStep(lw, n1, SETUP[1]) == n1.(a := Accepted());
    assert SETUP[1..] == [SETUP[1]];
    assert NetRun(lw, n1, [SETUP[1]]) == NetStep(lw, n1, SETUP[1]);
  }

  lemma AcceptedInv()
    ensures Inv(Accepted()) && Accepted().open && Accepted().output == Init(true).output
    ensures Accepted().input.delivered == [] && Accepted().input.consumed == []
  {
  }

  /** What an event of the chat does to one connection. */
  lemma ConnAfter(w: ChatWorld, c: Chat, e: ChatEvent, i: nat)
    requires i in c.conns
    ensures i in ChatStep(w, c, e).conns
    ensures ChatStep(w, c, e).conns[i] ==
      if !Allowed(c, e) || e.Join? then c.conns[i]
      else if e.conn == i then c.conns[i].(net := NetStep(WorldOf(w, i), c.conns[i].net, e.event))
      else SendInto(c.conns[i], Broadcast(w, c.conns[e.conn].net, e.event))
  {
  }

  /** Clients and their sockets are free: any event of a client's session, and any of the server's
      session for it but an API call other than close, moves the connection as it does by itself. */
  lemma ConnectionsAreFree(w: ChatWorld, c: Chat, i: nat, e: NetEvent)
    requires i in c.conns && (e.AtA? && e.event.Api? ==> e.event.op.Close?)
    ensures var r := ChatStep(w, c, Traffic(i, e));
      r.conns[i] == Conn(NetStep(World(ServerCode(w.isMessage), w.client(i), w.toClient, w.toServer), c.conns[i].net, e),
                         c.conns[i].joined)
  {
    ConnAfter(w, c, Traffic(i, e), i);
  }

  // ---------- views of the log ----------

  function Messages(log: seq<Entry>): seq<Bytes> {
    seq(|log|, i requires 0 <= i < |log| => log[i].payload)
  }

  function SentBy(log: seq<Entry>, id: nat): seq<Bytes> {
    if log == [] then []
    else SentBy(log[..|log| - 1], id) + (if log[|log| - 1].sender == id then [log[|log| - 1].payload] else [])
  }

  // ---------- invariant ----------

  /** A session has accepted exactly the log since it joined, and what it delivered that is valid
      is what the log holds from it. */
  predicate ConnInv(w: ChatWorld, log: seq<Entry>, id: nat, c: Conn) {
    && LinkInv(c.net)
    && c.joined <= |log|
    && c.net.a.output.accepted == Messages(log)[c.joined..]
    && SentBy(log, id) == Passing(w.isMessage, c.net.a.input.delivered)
  }

  ghost predicate ChatInv(w: ChatWorld, c: Chat) {
    && (forall i :: i in c.conns ==> ConnInv(w, c.log, i, c.conns[i]))
    && SendersIn(c.conns.Keys, c.log)
  }

  predicate SendersIn(ids: set<nat>, log: seq<Entry>) {
    forall k :: 0 <= k < |log| ==> log[k].sender in ids
  }

  lemma {:induction false} NothingSentBy(log: seq<Entry>, id: nat)
    requires forall k :: 0 <= k < |log| ==> log[k].sender != id
    ensures SentBy(log, id) == []
    decreases |log|
  {
    if log != [] {
      NothingSentBy(log[..|log| - 1], id);
    }
  }

  lemma NothingMoved(open: bool)
    ensures LinkInv(Net(Accepted(), Init(open), [], []))
  {
    AcceptedInv();
  }

  lemma {:induction false} FreshConnInv(w: ChatWorld, log: seq<Entry>, id: nat, conn: Conn, open: bool)
    requires conn == Conn(Net(Accepted(), Init(open), [], []), |log|)
    requires forall k :: 0 <= k < |log| ==> log[k].sender != id
    ensures ConnInv(w, log, id, conn)
  {
    NothingMoved(open);
    AcceptedInv();
    NothingSentBy(log, id);
    assert Messages(log)[|log|..] == [];
  }

  lemma {:induction false} NewConnInv(w: ChatWorld, c: Chat, id: nat, clientOpen: bool)
    requires SendersIn(c.conns.Keys, c.log) && id !in c.conns
    ensures ConnInv(w, c.log, id, NewConn(w, id, clientOpen, |c.log|))
  {
    NewConnIs(w, id, clientOpen, |c.log|);
    FreshConnInv(w, c.log, id, NewConn(w, id, clientOpen, |c.log|), clientOpen);
  }

  lemma {:induction false} PassingHandedOver(test: Bytes -> bool, delivered: seq<Bytes>, s: State, e: Event)
    ensures Passing(test, delivered + HandedOver(s, e)) == Passing(test, delivered) + Passing(test, HandedOver(s, e))
  {
    if HandedOver(s, e) == [] {
      assert delivered + [] == delivered;
    } else {
      PassingSnoc(test, delivered, s.rd.got);
      PassingSnoc(test, [], s.rd.got);
    }
  }

  /** A broadcast is at most one message, and one that any session can send. */
  lemma {:induction false} BroadcastIsValid(test: Bytes -> bool, s: State, e: Event)
    requires Inv(s)
    ensures AllValid(Passing(test, HandedOver(s, e))) && |Passing(test, HandedOver(s, e))| <= 1
  {
    if HandedOver(s, e) != [] {
      PassingSnoc(test, [], s.rd.got);
    }
  }

  lemma {:induction false} ServerStep(test: Bytes -> bool, s: State, e: Event)
    requires Inv(s) && (e.Api? ==> e.op.Close?)
    ensures var r, ms := Step(ServerCode(test), s, e), Passing(test, HandedOver(s, e));
      && r.output.accepted == s.output.accepted + ms
      && Passing(test, r.input.delivered) == Passing(test, s.input.delivered) + ms
  {
    ServerReplies(test);
    ReplyStep(ServerCode(test), test, s, e);
    PassingHandedOver(test, s.input.delivered, s, e);
  }

  /** What an event at a connection adds to what its server session accepted and delivered. */
  lemma {:induction false} ServerSide(w: ChatWorld, id: nat, n: Net, e: NetEvent)
    requires LinkInv(n) && (e.AtA? && e.event.Api? ==> e.event.op.Close?)
    ensures LinkInv(NetStep(WorldOf(w, id), n, e))
    ensures var m, ms := NetStep(WorldOf(w, id), n, e), Broadcast(w, n, e);
      && m.a.output.accepted == n.a.output.accepted + ms
      && Passing(w.isMessage, m.a.input.delivered) == Passing(w.isMessage, n.a.input.delivered) + ms
      && AllValid(ms) && |ms| <= 1
  {
    NetStepKeeps(WorldOf(w, id), n, e);
    if e.AtA? {
      ServerStep(w.isMessage, n.a, e.event);
      BroadcastIsValid(w.isMessage, n.a, e.event);
      ImpossibleHandsNothing(w, id, n, e.event);
    }
  }

  lemma ImpossibleHandsNothing(w: ChatWorld, id: nat, n: Net, e: Event)
    ensures !PossibleAtA(WorldOf(w, id), n, e) ==> HandedOver(n.a, e) == []
  {
  }

  lemma {:induction false} MessagesGrow(log: seq<Entry>, joined: nat, sender: nat, ms: seq<Bytes>)
    requires joined <= |log|
    ensures Messages(log + Entries(sender, ms))[joined..] == Messages(log)[joined..] + ms
  {
    assert Messages(log + Entries(sender, ms)) == Messages(log) + ms;
  }

  lemma {:induction false} SentByGrows(log: seq<Entry>, sender: nat, ms: seq<Bytes>, id: nat)
    requires |ms| <= 1
    ensures SentBy(log + Entries(sender, ms), id) == SentBy(log, id) + (if id == sender then ms else [])
  {
    var longer := log + Entries(sender, ms);
    if ms == [] {
      assert longer == log;
    } else {
      assert longer[..|longer| - 1] == log;
      assert ms == [ms[0]];
    }
  }

  lemma {:induction false} LogGrows(log: seq<Entry>, joined: nat, sender: nat, ms: seq<Bytes>, id: nat)
    requires joined <= |log| && |ms| <= 1
    ensures Messages(log + Entries(sender, ms))[joined..] == Messages(log)[joined..] + ms
    ensures SentBy(log + Entries(sender, ms), id) == SentBy(log, id) + (if id == sender then ms else [])
  {
    MessagesGrow(log, joined, sender, ms);
    SentByGrows(log, sender, ms, id);
  }

  /** A broadcast reaches every other session: its send accepts the message. */
  lemma {:induction false} BroadcastAccepted(c: Conn, ms: seq<Bytes>)
    requires LinkInv(c.net) && AllValid(ms) && |ms| <= 1
    ensures var r := SendInto(c, ms);
      && LinkInv(r.net) && r.joined == c.joined && r.net.b == c.net.b
      && r.net.a.output.accepted == c.net.a.output.accepted + ms
      && r.net.a.input == c.net.a.input
  {
    if ms != [] {
      assert Perform((_, _, _) => [], c.net.a, Send(ms[0])) == SendTo(c.net.a, ms[0]);
      StepKeeps((_, _, _) => [], c.net.a, Api(Send(ms[0])));
      assert ms == [ms[0]];
    }
  }

  lemma {:induction false} OtherConn(w: ChatWorld, c: Chat, sender: nat, ms: seq<Bytes>, i: nat)
    requires ChatInv(w, c) && i in c.conns && i != sender && AllValid(ms) && |ms| <= 1
    ensures ConnInv(w, c.log + Entries(sender, ms), i, SendInto(c.conns[i], ms))
  {
    BroadcastAccepted(c.conns[i], ms);
    LogGrows(c.log, c.conns[i].joined, sender, ms, i);
  }

  lemma {:induction false} ActiveConn(w: ChatWorld, c: Chat, id: nat, event: NetEvent)
    requires ChatInv(w, c) && Allowed(c, Traffic(id, event))
    ensures var conn := c.conns[id];
      ConnInv(w, c.log + Entries(id, Broadcast(w, conn.net, event)), id,
              conn.(net := NetStep(WorldOf(w, id), conn.net, event)))
  {
    ServerSide(w, id, c.conns[id].net, event);
    LogGrows(c.log, c.conns[id].joined, id, Broadcast(w, c.conns[id].net, event), id);
  }

  lemma {:induction false} ConnAfterTraffic(w: ChatWorld, c: Chat, id: nat, event: NetEvent, i: nat)
    requires ChatInv(w, c) && Allowed(c, Traffic(id, event)) && i in c.conns
    ensures var r := ChatStep(w, c, Traffic(id, event));
      i in r.conns && ConnInv(w, r.log, i, r.conns[i])
  {
    if i == id {
      ActiveConn(w, c, id, event);
    } else {
      ServerSide(w, id, c.conns[id].net, event);
      OtherConn(w, c, id, Broadcast(w, c.conns[id].net, event), i);
    }
  }

  lemma {:induction false} SendersAfterTraffic(w: ChatWorld, c: Chat, id: nat, event: NetEvent)
    requires ChatInv(w, c) && Allowed(c, Traffic(id, event))
    ensures var r := ChatStep(w, c, Traffic(id, event));
      r.conns.Keys == c.conns.Keys && SendersIn(r.conns.Keys, r.log)
  {
    SendersKnown(c.conns.Keys, c.log, id, Broadcast(w, c.conns[id].net, event));
  }

  lemma SendersKnown(ids: set<nat>, log: seq<Entry>, id: nat, ms: seq<Bytes>)
    requires id in ids && SendersIn(ids, log)
    ensures SendersIn(ids, log + Entries(id, ms))
  {
  }

  lemma {:induction false} TrafficKeeps(w: ChatWorld, c: Chat, id: nat, event: NetEvent, r: Chat)
    requires ChatInv(w, c) && Allowed(c, Traffic(id, event)) && r == ChatStep(w, c, Traffic(id, event))
    ensures ChatInv(w, r)
  {
    SendersAfterTraffic(w, c, id, event);
    forall i | i in r.conns.Keys
      ensures ConnInv(w, r.log, i, r.conns[i])
    {
      ConnAfterTraffic(w, c, id, event, i);
    }
  }

  lemma {:induction false} InsertKeeps(w: ChatWorld, c: Chat, id: nat, conn: Conn, r: Chat)
    requires ChatInv(w, c) && ConnInv(w, c.log, id, conn)
    requires r.conns == c.conns[id := conn] && r.log == c.log
    ensures ChatInv(w, r)
  {
    forall i | i in r.conns
      ensures ConnInv(w, r.log, i, r.conns[i])
    {
      if i != id {
        assert i in c.conns && r.conns[i] == c.conns[i];
      }
    }
  }

  lemma {:induction false} JoinStep(w: ChatWorld, c: Chat, id: nat, clientOpen: bool)
    requires id !in c.conns
    ensures ChatStep(w, c, Join(id, clientOpen)) == c.(conns := c.conns[id := NewConn(w, id, clientOpen, |c.log|)])
  {
  }

  lemma {:induction false} ChatStepKeeps(w: ChatWorld, c: Chat, e: ChatEvent)
    requires ChatInv(w, c)
    ensures ChatInv(w, ChatStep(w, c, e))
  {
    if Allowed(c, e) {
      match e
      case Join(id, clientOpen) =>
        NewConnInv(w, c, id, clientOpen);
        JoinStep(w, c, id, clientOpen);
        InsertKeeps(w, c, id, NewConn(w, id, clientOpen, |c.log|), ChatStep(w, c, e));
      case Traffic(id, event) => TrafficKeeps(w, c, id, event, ChatStep(w, c, e));
    }
  }

  lemma {:induction false} ChatRunKeeps(w: ChatWorld, c: Chat, es: seq<ChatEvent>)
    requires ChatInv(w, c)
    ensures ChatInv(w, ChatRun(w, c, es))
    decreases |es|
  {
    if es != [] {
      ChatStepKeeps(w, c, es[0]);
      ChatRunKeeps(w, ChatStep(w, c, es[0]), es[1..]);
    }
  }

  // ---------- total order ----------

  /** Every client is handed a contiguous piece of the one log, starting where it joined. */
  lemma {:induction false} ClientsSeeTheLog(w: ChatWorld, es: seq<ChatEvent>, i: nat)
    requires i in ChatRun(w, EMPTY, es).conns
    ensures var c := ChatRun(w, EMPTY, es);
            var conn := c.conns[i];
      && conn.joined <= |c.log|
      && conn.net.a.output.accepted == Messages(c.log)[conn.joined..]
      && conn.net.b.input.delivered <= Messages(c.log)[conn.joined..]
  {
    ChatRunKeeps(w, EMPTY, es);
    DeliveredIsPrefix(ChatRun(w, EMPTY, es).conns[i].net);
  }

  /** Total order: whatever two clients have both been handed since both joined, they have been
      handed in the same order, position by position of the log. */
  lemma {:induction false} TotalOrder(w: ChatWorld, es: seq<ChatEvent>, i: nat, j: nat, k: nat)
    requires var c := ChatRun(w, EMPTY, es);
      && i in c.conns && j in c.conns
      && c.conns[i].joined <= k < c.conns[i].joined + |c.conns[i].net.b.input.delivered|
      && c.conns[j].joined <= k < c.conns[j].joined + |c.conns[j].net.b.input.delivered|
    ensures var c := ChatRun(w, EMPTY, es);
      && k < |c.log|
      && c.conns[i].net.b.input.delivered[k - c.conns[i].joined] == c.log[k].payload
      && c.conns[j].net.b.input.delivered[k - c.conns[j].joined] == c.log[k].payload
  {
    ClientsSeeTheLog(w, es, i);
    ClientsSeeTheLog(w, es, j);
  }

  lemma {:induction false} PassingPrefix(test: Bytes -> bool, a: seq<Bytes>, b: seq<Bytes>)
    requires a <= b
    ensures Passing(test, a) <= Passing(test, b)
    decreases |b|
  {
    if a != b {
      PassingPrefix(test, a, b[..|b| - 1]);
    }
  }

  /** Sender order: the log's messages from one client are a prefix of the valid messages that
      client's send accepted, in that order; nothing else enters the log in its name. */
  lemma {:induction false} SenderOrder(w: ChatWorld, es: seq<ChatEvent>, i: nat)
    requires i in ChatRun(w, EMPTY, es).conns
    ensures var c := ChatRun(w, EMPTY, es);
      SentBy(c.log, i) <= Passing(w.isMessage, c.conns[i].net.b.output.accepted)
  {
    ChatRunKeeps(w, EMPTY, es);
    var n := ChatRun(w, EMPTY, es).conns[i].net;
    DeliveredIsPrefix(FlipNet(n));
    PassingPrefix(w.isMessage, n.a.input.delivered, n.b.output.accepted);
  }
}
