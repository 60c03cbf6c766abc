/** No message gets stuck: bounded progress from one session to the other, for any channel
    capacity of at least one byte. */
module Progress {
  import opened Codec
  import opened Session
  import opened SessionSafety
  import opened SessionTheorems
  import opened Link

  /** Write completions run successfully so far: two per popped message. */
  function WriteRuns(s: State): nat {
    2 * |s.output.popped| + (if !s.wr.WriteIdle? && s.wr.part.OfPayload? then 1 else 0)
  }

  /** Read completions run successfully so far: two per delivered message. */
  function ReadRuns(s: State): nat {
    2 * |s.input.delivered| + (if !s.rd.ReadIdle? && s.rd.phase.InPayload? then 1 else 0)
  }

  predicate WriteFailed(s: State) {
    s.wr.WriteDone? && !s.wr.err.NoError?
  }

  predicate ReadFailed(s: State) {
    s.rd.ReadDone? && !s.rd.err.NoError?
  }

  // ---------- what one event contributes ----------

  lemma WriteCompletionAdvances(o: Oracle, s: State)
    requires Inv(s) && s.open && Enabled(s, RunWrite) && !WriteFailed(s)
    ensures var r := Step(o, s, RunWrite);
      && WriteRuns(r) == WriteRuns(s) + 1
      && !WriteFailed(r)
      && r.output.wire == s.output.wire && r.output.accepted == s.output.accepted
      && r.open && r.onmessage == s.onmessage && r.rd == s.rd && r.input == s.input
  {
  }

  lemma DepartAdvances(o: Oracle, s: State, k: nat)
    requires Inv(s) && Enabled(s, Depart(k))
    ensures var r := Step(o, s, Depart(k));
      && WriteRuns(r) == WriteRuns(s) && |r.output.wire| == |s.output.wire| + k
      && !WriteFailed(r) && r.output.accepted == s.output.accepted
      && r.open && r.onmessage == s.onmessage && r.rd == s.rd && r.input == s.input
  {
    PendingIsOpen(s);
    TransmitMoves(s, k);
  }

  lemma PendingIsOpen(s: State)
    requires Inv(s) && s.wr.WritePending?
    ensures s.open
  {
  }

  lemma TransmitMoves(s: State, k: nat)
    requires Enabled(s, Depart(k))
    ensures var r := Transmit(s, k);
      && |r.output.wire| == |s.output.wire| + k && r.output.popped == s.output.popped
      && !r.wr.WriteIdle? && r.wr.part == s.wr.part && !WriteFailed(r)
      && r == s.(wr := r.wr, output := s.output.(wire := r.output.wire, frontDone := r.output.frontDone))
  {
  }

  lemma ArriveAdvances(o: Oracle, s: State, chunk: Bytes)
    requires Inv(s) && Enabled(s, Arrive(chunk))
    ensures var r := Step(o, s, Arrive(chunk));
      && ReadRuns(r) == ReadRuns(s) && |r.input.consumed| == |s.input.consumed| + |chunk|
      && !ReadFailed(r) && r.open && r.onmessage == s.onmessage
      && r.wr == s.wr && r.output == s.output && r.input.delivered == s.input.delivered
  {
  }

  /** An outstanding write goes on; if there was none, none has failed. */
  predicate WriterUndisturbed(s: State, r: State) {
    if s.wr.WriteIdle? then !r.wr.WriteDone? else r.wr == s.wr
  }

  /** A read completion consumes nothing, writes nothing, and closes only if its callback does. */
  lemma ReadCompletionAdvances(o: Oracle, s: State)
    requires Inv(s) && s.open && Enabled(s, RunRead) && !ReadFailed(s)
    requires s.rd.phase.InHeader? ==> GoodHeader(s.rd.got)
    ensures var r := Step(o, s, RunRead);
      && ReadRuns(r) == ReadRuns(s) + 1
      && r.input.consumed == s.input.consumed
      && r.output.wire == s.output.wire && r.output.popped == s.output.popped
      && s.output.accepted <= r.output.accepted
      && (r.open ==> r.onmessage.User? && r.rd.ReadPending? && WriterUndisturbed(s, r))
  {
    StepKeeps(o, s, RunRead);
    if s.rd.phase.InPayload? {
      DeliverKeeps(s, s.onmessage.id);
      CallbackKeeps(o, s.(rd := ReadIdle), s.onmessage.id, OnMessage(s.rd.got));
    }
  }

  // ---------- from a to b ----------

  /** Both ends are open, b reads, and no operation between them has failed. */
  predicate Flowing(n: Net) {
    && LinkInv(n)
    && n.a.open && n.b.open && n.b.onmessage.User?
    && !WriteFailed(n.a) && !ReadFailed(n.b)
  }

  /** The internal events of the direction from a to b. */
  predicate IsFlow(e: NetEvent) {
    match e
    case AtA(event) => event.Depart? || event.RunWrite?
    case AtB(event) => event.Arrive? || event.RunRead?
  }

  /** What a writer has done: bytes written and completions run. */
  function WriterDone(s: State): nat {
    |s.output.wire| + WriteRuns(s)
  }

  /** What a reader has done: bytes read and completions run. */
  function ReaderDone(s: State): nat {
    |s.input.consumed| + ReadRuns(s)
  }

  /** Work left to move the messages in total from writer w to reader r: bytes to write, bytes to
      read, and completions to run. */
  function Work(total: seq<Bytes>, w: State, r: State): int {
    2 * |EncodeAll(total)| + 4 * |total| - WriterDone(w) - ReaderDone(r)
  }

  lemma DeliveredBound(n: Net, total: seq<Bytes>)
    requires LinkInv(n) && n.a.output.accepted <= total && AllValid(total)
    ensures |n.a.output.wire| <= |EncodeAll(total)| && |n.b.input.consumed| <= |EncodeAll(total)|
    ensures |n.b.input.delivered| <= |n.a.output.accepted|
    ensures n.b.input.partial != [] ==> |n.b.input.delivered| < |n.a.output.accepted|
  {
    WireIsPrefix(n.a);
    EncodePrefix(n.a.output.accepted, total);
    DeliveredIsPrefix(n);
    if |n.b.input.delivered| == |n.a.output.accepted| {
      assert n.b.input.delivered == n.a.output.accepted;
    }
  }

  lemma WorkIsNatural(n: Net, total: seq<Bytes>)
    requires LinkInv(n) && n.b.open
    requires n.a.output.accepted <= total && AllValid(total)
    ensures 0 <= Work(total, n.a, n.b) <= 2 * |EncodeAll(total)| + 4 * |total|
  {
    DeliveredBound(n, total);
    WriteRunsBound(n.a);
    if !n.b.rd.ReadIdle? && n.b.rd.phase.InPayload? {
      PayloadHasHeader(n.b);
    }
  }

  lemma WriteRunsBound(s: State)
    requires Inv(s)
    ensures WriteRuns(s) <= 2 * |s.output.accepted|
  {
    assert |s.output.accepted| == |s.output.popped| + |s.queue|;
  }

  lemma PayloadHasHeader(s: State)
    requires Inv(s) && s.open && !s.rd.ReadIdle? && s.rd.phase.InPayload?
    ensures s.input.partial != []
  {
  }

  /** The good header a's frames guarantee. */
  lemma FlowHeader(n: Net)
    requires Flowing(n) && n.b.rd.ReadDone? && n.b.rd.phase.InHeader?
    ensures GoodHeader(n.b.rd.got)
  {
    PeerHeadersAreGood(n);
  }

  /** Every flow event uses up work, and keeps messages flowing unless b's callback closes b. */
  lemma FlowAdvances(w: World, n: Net, e: NetEvent, total: seq<Bytes>)
    requires Flowing(n) && IsFlow(e) && Possible(w, n, e)
    ensures var m := NetStep(w, n, e);
      && Work(total, m.a, m.b) < Work(total, n.a, n.b)
      && m.a.output.accepted == n.a.output.accepted
      && (m.b.open ==> Flowing(m))
  {
    NetStepKeeps(w, n, e);
    match e
    case AtA(Depart(k)) => DepartAdvances(w.a, n.a, k);
    case AtA(RunWrite) => WriteCompletionAdvances(w.a, n.a);
    case AtB(Arrive(chunk)) => ArriveAdvances(w.b, n.b, chunk);
    case AtB(RunRead) =>
      if n.b.rd.phase.InHeader? {
        FlowHeader(n);
      }
      ReadCompletionAdvances(w.b, n.b);
  }

  /** An enabled flow event, if there is one. */
  function NextFlow(n: Net): NetEvent {
    if n.a.wr.WriteDone? then AtA(RunWrite)
    else if n.b.rd.ReadDone? then AtB(RunRead)
    else if n.ab != [] then AtB(Arrive(n.ab[..1]))
    else AtA(Depart(1))
  }

  lemma AllWritten(n: Net)
    requires Flowing(n) && n.a.wr.WriteIdle? && n.b.rd.ReadPending? && n.ab == []
    ensures n.b.input.delivered == n.a.output.accepted
  {
    var s, r := n.a, n.b;
    assert s.output.accepted == s.output.popped;
    assert r.input.consumed == EncodeAll(s.output.accepted) by {
      assert FrontFrame(s.queue)[..s.output.frontDone] == [];
      assert r.input.consumed + [] == r.input.consumed;
      assert EncodeAll(s.output.popped) + [] == EncodeAll(s.output.popped);
    }
    ReaderRefinesDecoderAt(r);
    DecodeEncode(s.output.accepted, []);
    assert EncodeAll(s.output.accepted) + [] == EncodeAll(s.output.accepted);
    assert s.output.accepted + [] == s.output.accepted;
    assert r.input.delivered + [] == r.input.delivered;
  }

  /** No deadlock: while not everything accepted is delivered, a flow event is possible. */
  lemma FlowPossible(w: World, n: Net)
    requires Flowing(n) && w.capacityAB >= 1
    requires n.b.input.delivered != n.a.output.accepted
    ensures IsFlow(NextFlow(n)) && Possible(w, n, NextFlow(n))
  {
    if n.a.wr.WriteIdle? && n.b.rd.ReadPending? && n.ab == [] {
      AllWritten(n);
    }
  }

  // ---------- any run ----------

  lemma CallsLoseNothing(s: State, r: State)
    requires Inv(s) && Grows(s, r) && r.open
    ensures WriterDone(r) >= WriterDone(s) && ReaderDone(r) >= ReaderDone(s)
  {
  }

  /** While a session stays open its writer and reader only ever get on: by at least one for every
      byte event or completion, and they lose nothing in any other event. */
  lemma StepAdvances(o: Oracle, s: State, e: Event)
    requires Inv(s) && s.open && Enabled(s, e) && Step(o, s, e).open
    ensures var r := Step(o, s, e);
      && WriterDone(r) >= WriterDone(s) + (if e.Depart? || e.RunWrite? then 1 else 0)
      && ReaderDone(r) >= ReaderDone(s) + (if e.Arrive? || e.RunRead? then 1 else 0)
  {
    match e
    case Api(op) =>
      PerformKeeps(o, s, op);
      CallsLoseNothing(s, Step(o, s, e));
    case Arrive(chunk) => ArriveAdvances(o, s, chunk);
    case Depart(k) => DepartAdvances(o, s, k);
    case FailRead(_) =>
    case FailWrite(_) =>
    case RunRead => OpenReadAdvances(o, s);
    case RunWrite => OpenWriteAdvances(o, s);
  }

  lemma OpenReadAdvances(o: Oracle, s: State)
    requires Inv(s) && s.open && Enabled(s, RunRead) && Step(o, s, RunRead).open
    ensures var r := Step(o, s, RunRead);
      WriterDone(r) >= WriterDone(s) && ReaderDone(r) >= ReaderDone(s) + 1
  {
    if ReadFailed(s) || (s.rd.phase.InHeader? && !GoodHeader(s.rd.got)) {
      BadReadCloses(o, s);
    } else {
      ReadCompletionAdvances(o, s);
    }
  }

  lemma BadReadCloses(o: Oracle, s: State)
    requires Inv(s) && s.open && Enabled(s, RunRead)
    requires ReadFailed(s) || (s.rd.phase.InHeader? && !GoodHeader(s.rd.got))
    ensures !Step(o, s, RunRead).open
  {
    CloseKeeps(o, s.(rd := ReadIdle), if ReadFailed(s) then s.rd.err else BadMessage);
  }

  lemma OpenWriteAdvances(o: Oracle, s: State)
    requires Inv(s) && s.open && Enabled(s, RunWrite) && Step(o, s, RunWrite).open
    ensures var r := Step(o, s, RunWrite);
      WriterDone(r) >= WriterDone(s) + 1 && ReaderDone(r) >= ReaderDone(s)
  {
    if WriteFailed(s) {
      FailedWriteClosable(s);
      CloseKeeps(o, s.(wr := WriteIdle), s.wr.err);
    } else {
      WriteCompletionAdvances(o, s);
    }
  }

  predicate BothOpen(n: Net) {
    n.a.open && n.b.open
  }

  /** No event of a run that keeps both ends open adds work, and every flow event uses some up. */
  lemma WorkFalls(w: World, n: Net, e: NetEvent, total: seq<Bytes>)
    requires LinkInv(n) && BothOpen(n) && BothOpen(NetStep(w, n, e))
    ensures var m := NetStep(w, n, e);
      Work(total, m.a, m.b) + (if IsFlow(e) && Possible(w, n, e) then 1 else 0) <= Work(total, n.a, n.b)
  {
    if Possible(w, n, e) {
      if e.AtA? {
        StepAdvances(w.a, n.a, e.event);
      } else {
        StepAdvances(w.b, n.b, e.event);
      }
    }
  }

  /** Both ends are open in every state of a run. */
  predicate OpenThroughout(w: World, n: Net, es: seq<NetEvent>)
    decreases |es|
  {
    BothOpen(n) && (es == [] || OpenThroughout(w, NetStep(w, n, es[0]), es[1..]))
  }

  /** The flow events that happen in a run. */
  function FlowCount(w: World, n: Net, es: seq<NetEvent>): nat
    decreases |es|
  {
    if es == [] then 0
    else (if IsFlow(es[0]) && Possible(w, n, es[0]) then 1 else 0) + FlowCount(w, NetStep(w, n, es[0]), es[1..])
  }

  lemma {:induction false} FlowCountBounded(w: World, n: Net, es: seq<NetEvent>, total: seq<Bytes>)
    requires LinkInv(n) && OpenThroughout(w, n, es)
    ensures var m := NetRun(w, n, es);
      && LinkInv(m) && BothOpen(m)
      && FlowCount(w, n, es) + Work(total, m.a, m.b) <= Work(total, n.a, n.b)
    decreases |es|
  {
    if es != [] {
      WorkFalls(w, n, es[0], total);
      NetStepKeeps(w, n, es[0]);
      FlowCountBounded(w, NetStep(w, n, es[0]), es[1..], total);
    }
  }

  /** Progress under backpressure: in any run that keeps both ends open, whatever else happens in
      it, there are at most two flow events per byte and four per message accepted by its end; and
      when it ends with no flow event possible, everything accepted is delivered. */
  lemma {:induction false} EverythingArrives(w: World, n: Net, es: seq<NetEvent>)
    requires LinkInv(n) && OpenThroughout(w, n, es) && w.capacityAB >= 1
    ensures var m := NetRun(w, n, es);
      && FlowCount(w, n, es) <= 2 * |EncodeAll(m.a.output.accepted)| + 4 * |m.a.output.accepted|
      && (Flowing(m) && (forall e :: IsFlow(e) ==> !Possible(w, m, e)) ==>
            m.b.input.delivered == m.a.output.accepted)
  {
    var m := NetRun(w, n, es);
    var total := m.a.output.accepted;
    FlowCountBounded(w, n, es, total);
    WorkIsNatural(m, total);
    if Flowing(m) && m.b.input.delivered != total {
      FlowPossible(w, m);
    }
  }

  /** A run of flow events during which b stays open. */
  predicate FlowRun(w: World, n: Net, es: seq<NetEvent>)
    decreases |es|
  {
    es == [] ||
    (IsFlow(es[0]) && Possible(w, n, es[0]) && NetStep(w, n, es[0]).b.open && FlowRun(w, NetStep(w, n, es[0]), es[1..]))
  }

  /** Flow events by themselves keep messages flowing and accept nothing new, so such a run is itself
      bounded by the bytes and messages accepted when it starts. */
  lemma {:induction false} FlowRunsFlow(w: World, n: Net, es: seq<NetEvent>)
    requires Flowing(n) && FlowRun(w, n, es)
    ensures var m := NetRun(w, n, es);
      && Flowing(m) && m.a.output.accepted == n.a.output.accepted
      && OpenThroughout(w, n, es) && FlowCount(w, n, es) == |es|
    decreases |es|
  {
    if es != [] {
      FlowAdvances(w, n, es[0], []);
      FlowRunsFlow(w, NetStep(w, n, es[0]), es[1..]);
    }
  }
}
