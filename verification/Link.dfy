/** Two sessions joined by a byte channel in each direction. */
module Link {
  import opened Codec
  import opened Session
  import opened SessionSafety
  import opened SessionTheorems

  /** Sessions a and b, the bytes on the way from a to b, and those from b to a. */
  datatype Net = Net(a: State, b: State, ab: Bytes, ba: Bytes)

  /** User code on both sides, and how many bytes the channels from a to b and from b to a hold. */
  datatype World = World(a: Oracle, b: Oracle, capacityAB: nat, capacityBA: nat)

  datatype NetEvent = AtA(event: Event) | AtB(event: Event)

  function FlipNet(n: Net): Net {
    Net(n.b, n.a, n.ba, n.ab)
  }

  function FlipWorld(w: World): World {
    World(w.b, w.a, w.capacityBA, w.capacityAB)
  }

  function FlipEvent(e: NetEvent): NetEvent {
    match e
    case AtA(event) => AtB(event)
    case AtB(event) => AtA(event)
  }

  function InitNet(openA: bool, openB: bool): Net {
    Net(Init(openA), Init(openB), [], [])
  }

  /** A read takes bytes from the front of its channel, a write needs room in its channel.
      Everything else, end of stream and failures at any byte included, is always possible. */
  predicate PossibleAtA(w: World, n: Net, e: Event) {
    && Enabled(n.a, e)
    && (e.Arrive? ==> e.chunk <= n.ba)
    && (e.Depart? ==> |n.ab| + e.count <= w.capacityAB)
  }

  predicate Possible(w: World, n: Net, e: NetEvent) {
    match e
    case AtA(event) => PossibleAtA(w, n, event)
    case AtB(event) => PossibleAtA(FlipWorld(w), FlipNet(n), event)
  }

  function StepAtA(w: World, n: Net, e: Event): Net
    requires PossibleAtA(w, n, e)
  {
    Net(Step(w.a, n.a, e),
        n.b,
        if e.Depart? then n.ab + Outgoing(n.a, e.count) else n.ab,
        if e.Arrive? then n.ba[|e.chunk|..] else n.ba)
  }

  function NetStep(w: World, n: Net, e: NetEvent): Net {
    if !Possible(w, n, e) then n
    else
      match e
      case AtA(event) => StepAtA(w, n, event)
      case AtB(event) => FlipNet(StepAtA(FlipWorld(w), FlipNet(n), event))
  }

  lemma FlippedStep(w: World, n: Net, e: NetEvent)
    ensures NetStep(FlipWorld(w), FlipNet(n), FlipEvent(e)) == FlipNet(NetStep(w, n, e))
    ensures Possible(FlipWorld(w), FlipNet(n), FlipEvent(e)) == Possible(w, n, e)
  {
  }

  function NetRun(w: World, n: Net, es: seq<NetEvent>): Net
    decreases |es|
  {
    if es == [] then n else NetRun(w, NetStep(w, n, es[0]), es[1..])
  }

  // ---------- invariant ----------

  /** Between them, the reader and the channel hold exactly the bytes the writer wrote. */
  predicate LinkInv(n: Net) {
    && Inv(n.a) && Inv(n.b)
    && n.a.output.wire == n.b.input.consumed + n.ab
    && n.b.output.wire == n.a.input.consumed + n.ba
  }

  /** Only Depart writes to the wire and only Arrive consumes. */
  lemma BytesMoveByIO(o: Oracle, s: State, e: Event)
    requires Inv(s) && Enabled(s, e)
    ensures Step(o, s, e).output.wire == if e.Depart? then s.output.wire + Outgoing(s, e.count) else s.output.wire
    ensures Step(o, s, e).input.consumed == if e.Arrive? then s.input.consumed + e.chunk else s.input.consumed
  {
    match e
    case Api(op) => PerformKeeps(o, s, op);
    case RunRead => CompleteReadFrame(o, s);
    case RunWrite => CompleteWriteFrame(o, s);
    case _ =>
  }

  lemma StepAtAKeeps(w: World, n: Net, e: Event)
    requires LinkInv(n) && PossibleAtA(w, n, e)
    ensures LinkInv(StepAtA(w, n, e))
  {
    StepKeeps(w.a, n.a, e);
    BytesMoveByIO(w.a, n.a, e);
    match e
    case Depart(k) => Regroup(n.b.input.consumed, n.ab, Outgoing(n.a, k));
    case Arrive(chunk) => TakeFromFront(n.a.input.consumed, n.ba, chunk);
    case _ =>
  }

  lemma TakeFromFront(consumed: Bytes, channel: Bytes, chunk: Bytes)
    requires chunk <= channel
    ensures consumed + channel == consumed + chunk + channel[|chunk|..]
  {
  }

  lemma NetStepKeeps(w: World, n: Net, e: NetEvent)
    requires LinkInv(n)
    ensures LinkInv(NetStep(w, n, e))
  {
    if Possible(w, n, e) {
      match e
      case AtA(event) => StepAtAKeeps(w, n, event);
      case AtB(event) => StepAtAKeeps(FlipWorld(w), FlipNet(n), event);
    }
  }

  lemma {:induction false} NetRunKeeps(w: World, n: Net, es: seq<NetEvent>)
    requires LinkInv(n)
    ensures LinkInv(NetRun(w, n, es))
    decreases |es|
  {
    if es != [] {
      NetStepKeeps(w, n, es[0]);
      NetRunKeeps(w, NetStep(w, n, es[0]), es[1..]);
    }
  }

  // ---------- the channels ----------

  predicate WithinCapacity(w: World, n: Net) {
    |n.ab| <= w.capacityAB && |n.ba| <= w.capacityBA
  }

  /** Each channel keeps to its own capacity. */
  lemma {:induction false} CapacitiesAreKept(w: World, n: Net, es: seq<NetEvent>)
    requires WithinCapacity(w, n)
    ensures WithinCapacity(w, NetRun(w, n, es))
    decreases |es|
  {
    if es != [] {
      CapacitiesAreKept(w, NetStep(w, n, es[0]), es[1..]);
    }
  }

  /** The stream may end at any byte while b reads: b closes with that error, what was delivered
      stands, and a is not affected. */
  lemma {:induction false} StreamMayEnd(w: World, n: Net, code: int)
    requires LinkInv(n) && n.b.rd.ReadPending?
    ensures var m := NetStep(w, NetStep(w, n, AtB(FailRead(code))), AtB(RunRead));
      && m.a == n.a && !m.b.open && m.b.closing.cause == Some(Io(code))
      && m.b.input.delivered == n.b.input.delivered
  {
    EndOfStream(w.b, n.b, code);
    RunTwo(w.b, n.b, FailRead(code), RunRead);
  }

  // ---------- exact delivery ----------

  lemma DeliveredIsPrefix(n: Net)
    requires LinkInv(n)
    ensures n.b.input.delivered <= n.a.output.accepted
    ensures EncodeAll(n.b.input.delivered) + n.b.input.partial <= EncodeAll(n.a.output.accepted)
  {
    WireIsPrefix(n.a);
    assert EncodeAll(n.b.input.delivered) <= n.b.input.consumed <= n.a.output.wire;
    EncodePrefix(n.b.input.delivered, n.a.output.accepted);
  }

  /** End-to-end FIFO: under every interleaving, fragmentation, failure, close and callback
      behaviour, each side is handed a prefix of what the other side's send accepted. */
  lemma {:induction false} ExactFifo(w: World, openA: bool, openB: bool, es: seq<NetEvent>)
    ensures var n := NetRun(w, InitNet(openA, openB), es);
      && n.b.input.delivered <= n.a.output.accepted
      && n.a.input.delivered <= n.b.output.accepted
  {
    NetRunKeeps(w, InitNet(openA, openB), es);
    var n := NetRun(w, InitNet(openA, openB), es);
    DeliveredIsPrefix(n);
    DeliveredIsPrefix(FlipNet(n));
  }

  lemma Conserved(n: Net)
    requires LinkInv(n)
    ensures EncodeAll(n.a.output.accepted)
         == EncodeAll(n.b.input.delivered) + n.b.input.partial + n.ab + Unwritten(n.a)
  {
    WireIsPrefix(n.a);
  }

  /** Byte conservation: every byte of every accepted message is delivered, in the reader's
      partial frame, in the channel, or not written yet; in this order and nowhere else. While
      the reader is open, its partial frame is what its current read operations got. */
  lemma {:induction false} BytesAreConserved(w: World, openA: bool, openB: bool, es: seq<NetEvent>)
    ensures var n := NetRun(w, InitNet(openA, openB), es);
      && n.a.output.frontDone <= |FrontFrame(n.a.queue)|
      && EncodeAll(n.a.output.accepted)
         == EncodeAll(n.b.input.delivered) + n.b.input.partial + n.ab + Unwritten(n.a)
      && (n.b.open && n.b.onmessage.User? ==>
            !n.b.rd.ReadIdle? && n.b.input.partial == FramePart(n.b.rd.phase, n.b.rd.got))
  {
    NetRunKeeps(w, InitNet(openA, openB), es);
    Conserved(NetRun(w, InitNet(openA, openB), es));
  }

  /** A header read from a session is never malformed. */
  lemma PeerHeadersAreGood(n: Net)
    requires LinkInv(n) && |n.b.input.partial| == HEADER_SIZE
    ensures GoodHeader(n.b.input.partial)
  {
    DeliveredIsPrefix(n);
    HeaderAtBoundary(n.b.input.delivered, n.b.input.partial, n.a.output.accepted);
  }

  lemma {:induction false} NetRunBadMessage(w: World, n: Net, es: seq<NetEvent>)
    requires LinkInv(n) && BadMessageIsBad(n.a) && BadMessageIsBad(n.b)
    ensures BadMessageIsBad(NetRun(w, n, es).a) && BadMessageIsBad(NetRun(w, n, es).b)
    decreases |es|
  {
    if es != [] {
      var m := NetStep(w, n, es[0]);
      NetStepKeeps(w, n, es[0]);
      BadMessageStep(w.a, n.a, es[0].event);
      BadMessageStep(w.b, n.b, es[0].event);
      NetRunBadMessage(w, m, es[1..]);
    }
  }

  /** A session facing a session never closes with EBADMSG, and whatever it delivers is small
      enough to be sent on. */
  lemma {:induction false} NoBadMessageBetweenPeers(w: World, openA: bool, openB: bool, es: seq<NetEvent>)
    ensures var n := NetRun(w, InitNet(openA, openB), es);
      && n.a.closing.cause != Some(BadMessage) && n.b.closing.cause != Some(BadMessage)
      && AllValid(n.a.input.delivered) && AllValid(n.b.input.delivered)
  {
    NetRunKeeps(w, InitNet(openA, openB), es);
    NetRunBadMessage(w, InitNet(openA, openB), es);
    var n := NetRun(w, InitNet(openA, openB), es);
    if n.b.closing.cause == Some(BadMessage) {
      PeerHeadersAreGood(n);
    }
    if n.a.closing.cause == Some(BadMessage) {
      PeerHeadersAreGood(FlipNet(n));
    }
  }
}
