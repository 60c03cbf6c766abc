/** Feeding a reader a byte stream cut into arbitrary chunks. */
module ChunkedReading {
  import opened Codec
  import opened Session
  import opened SessionSafety
  import opened SessionTheorems

  /** onmessage handlers never close the session; they may send, set handlers and throw. */
  ghost predicate Calm(o: Oracle) {
    forall id, n, p :: StaysOpen(o(id, n, OnMessage(p)))
  }

  predicate StaysOpen(script: seq<Action>) {
    forall i :: 0 <= i < |script| ==> script[i].Invoke? ==> !script[i].op.Close?
  }

  lemma CallStaysOpen(o: Oracle, s: State, op: Op)
    requires s.open && !op.Close?
    ensures Perform(o, s, op).state.open
  {
    match op
    case Send(_) =>
    case SetOnClose(id) =>
      if s.onclose.Empty? {
        assert InstallOnClose(o, s, id) == Register(s, id);
      }
    case SetOnMessage(_) =>
  }

  lemma {:induction false} CalmScript(o: Oracle, s: State, script: seq<Action>)
    requires s.open && StaysOpen(script)
    ensures RunScript(o, s, script).open
    decreases |script|
  {
    if script != [] && script[0].Invoke? {
      var first := Perform(o, s, script[0].op);
      CallStaysOpen(o, s, script[0].op);
      CalmScript(o, first.state, script[1..]);
    }
  }

  function Min(a: nat, b: nat): nat {
    if a < b then a else b
  }

  /** The operation takes as much as it wants of the data, its handler runs, and so on. */
  function Feed(o: Oracle, s: State, data: Bytes): State
    decreases |data|
  {
    if data == [] || !s.rd.ReadPending? || |s.rd.got| >= Wanted(s.rd.phase) then s
    else
      var k := Min(|data|, Wanted(s.rd.phase) - |s.rd.got|);
      Feed(o, Step(o, Step(o, s, Arrive(data[..k])), RunRead), data[k..])
  }

  function FeedAll(o: Oracle, s: State, chunks: seq<Bytes>): State
    decreases |chunks|
  {
    if chunks == [] then s else FeedAll(o, Feed(o, s, chunks[0]), chunks[1..])
  }

  function Concat(chunks: seq<Bytes>): Bytes {
    if chunks == [] then [] else chunks[0] + Concat(chunks[1..])
  }

  predicate Waiting(s: State) {
    Inv(s) && s.rd.ReadPending?
  }

  predicate Rejected(s: State) {
    Inv(s) && !s.open && s.closing.cause == Some(BadMessage) && Rejecting(s)
  }

  /** An onmessage callback closed the session, right after it was handed the last frame read. */
  predicate Stopped(s: State) {
    Inv(s) && !s.open && s.closing.cause == Some(NoError) && s.input.partial == [] && s.input.delivered != []
  }

  lemma TakeChunk(o: Oracle, s: State, chunk: Bytes)
    requires Waiting(s) && Enabled(s, Arrive(chunk))
    ensures var r := Step(o, Step(o, s, Arrive(chunk)), RunRead);
      && r.input.consumed == s.input.consumed + chunk
      && (Waiting(r) || Rejected(r) || Stopped(r))
      && (Calm(o) ==> Waiting(r) || Rejected(r))
  {
    var t := Step(o, s, Arrive(chunk));
    StepKeeps(o, s, Arrive(chunk));
    StepKeeps(o, t, RunRead);
    if t.rd.ReadDone? {
      if t.rd.phase.InPayload? {
        PayloadCompleted(o, t);
      } else if !GoodHeader(t.rd.got) {
        CloseKeeps(o, t.(rd := ReadIdle), BadMessage);
      }
    }
  }

  lemma PayloadCompleted(o: Oracle, t: State)
    requires Inv(t) && t.open && t.rd.ReadDone? && t.rd.err.NoError? && t.rd.phase.InPayload?
    ensures var r := CompleteRead(o, t);
      && r.input.consumed == t.input.consumed
      && (if r.open then r.rd.ReadPending?
          else r.closing.cause == Some(NoError) && r.input.partial == [] && r.input.delivered != [])
      && (Calm(o) ==> r.open)
  {
    var inside := Enter(t.(rd := ReadIdle), t.onmessage.id, OnMessage(t.rd.got));
    var script := o(t.onmessage.id, t.nesting.calls, OnMessage(t.rd.got));
    DeliverKeeps(t, t.onmessage.id);
    ScriptKeeps(o, inside, script);
    if Calm(o) {
      CalmScript(o, inside, script);
    }
  }

  /** All the data is consumed, unless the reader rejected or stopped before some of it. */
  predicate Consumes(before: Bytes, data: Bytes, r: State) {
    if r.open then Waiting(r) && r.input.consumed == before + data
    else (Rejected(r) || Stopped(r)) && r.input.consumed <= before + data
  }

  lemma Cut(data: Bytes, k: nat)
    requires k <= |data|
    ensures data == data[..k] + data[k..]
  {
  }

  lemma {:induction false} FeedConsumes(o: Oracle, s: State, data: Bytes)
    requires Waiting(s)
    ensures Consumes(s.input.consumed, data, Feed(o, s, data))
    ensures Calm(o) && !Feed(o, s, data).open ==> Rejected(Feed(o, s, data))
    decreases |data|
  {
    if data == [] {
      assert s.input.consumed + data == s.input.consumed;
    } else {
      var k := Min(|data|, Wanted(s.rd.phase) - |s.rd.got|);
      var t := Step(o, Step(o, s, Arrive(data[..k])), RunRead);
      TakeChunk(o, s, data[..k]);
      Cut(data, k);
      Regroup(s.input.consumed, data[..k], data[k..]);
      if t.open {
        FeedConsumes(o, t, data[k..]);
      }
    }
  }

  lemma {:induction false} FeedAllConsumes(o: Oracle, s: State, chunks: seq<Bytes>)
    requires Waiting(s)
    ensures Consumes(s.input.consumed, Concat(chunks), FeedAll(o, s, chunks))
    ensures Calm(o) && !FeedAll(o, s, chunks).open ==> Rejected(FeedAll(o, s, chunks))
    decreases |chunks|
  {
    if chunks == [] {
      assert s.input.consumed + [] == s.input.consumed;
    } else {
      var t := Feed(o, s, chunks[0]);
      FeedConsumes(o, s, chunks[0]);
      Regroup(s.input.consumed, chunks[0], Concat(chunks[1..]));
      if t.open {
        FeedAllConsumes(o, t, chunks[1..]);
      } else {
        FeedClosed(o, t, chunks[1..]);
      }
    }
  }

  lemma {:induction false} FeedClosed(o: Oracle, s: State, chunks: seq<Bytes>)
    requires Inv(s) && !s.open
    ensures FeedAll(o, s, chunks) == s
    decreases |chunks|
  {
    if chunks != [] {
      FeedClosed(o, s, chunks[1..]);
    }
  }

  predicate Malformed(rest: Bytes) {
    |rest| >= HEADER_SIZE && !GoodHeader(rest[..HEADER_SIZE])
  }

  /** The read that is outstanding when rest is what there is of the next frame. */
  function WaitingFor(rest: Bytes): ReadSlot {
    if |rest| < HEADER_SIZE then ReadPending(InHeader, rest)
    else ReadPending(InPayload(LengthIn(rest[..HEADER_SIZE])), rest[HEADER_SIZE..])
  }

  /** For every stream, every way to cut it into chunks and any callbacks, a fresh reader ends as the
      one-shot decoder says. If it is still open, the decoded messages are delivered and it waits in
      the header or payload phase for the rest of the decoder's rest. If it closed with EBADMSG, the
      decoded messages are delivered and a malformed header follows them. Otherwise a callback closed
      it, after the first so many of the decoded messages. Callbacks that never close leave only the
      first two, told apart by the rest. */
  lemma {:induction false} ChunkingIsIrrelevant(o: Oracle, s: State, chunks: seq<Bytes>)
    requires Waiting(s) && s.input.consumed == []
    ensures var r, d := FeedAll(o, s, chunks), Decode(Concat(chunks));
      && (r.open ==> r.input.delivered == d.messages && !Malformed(d.rest) && r.rd == WaitingFor(d.rest))
      && (r.closing.cause == Some(BadMessage) ==> r.input.delivered == d.messages && Malformed(d.rest))
      && (!r.open && r.closing.cause != Some(BadMessage) ==>
            r.closing.cause == Some(NoError) && r.input.delivered != [] && r.input.delivered <= d.messages)
      && (Calm(o) ==> (r.open <==> !Malformed(d.rest)))
      && (Calm(o) && !r.open ==> r.closing.cause == Some(BadMessage))
  {
    var r, b := FeedAll(o, s, chunks), Concat(chunks);
    FeedAllConsumes(o, s, chunks);
    assert s.input.consumed + b == b;
    if r.open {
      ReaderRefinesDecoderAt(r);
      WaitingIsNotMalformed(r);
      assert r.input.delivered + [] == r.input.delivered;
    } else if Rejected(r) {
      RejectedDecodes(r, b);
    } else {
      StoppedDecodes(r, b);
    }
  }

  lemma {:induction false} RejectedDecodes(r: State, b: Bytes)
    requires Rejected(r) && r.input.consumed <= b
    ensures Decode(b).messages == r.input.delivered && Malformed(Decode(b).rest)
  {
    var more := b[|r.input.consumed|..];
    assert b == r.input.consumed + more;
    Regroup(EncodeAll(r.input.delivered), r.input.partial, more);
    assert (r.input.partial + more)[..HEADER_SIZE] == r.input.partial;
    DecodeUnique(r.input.delivered, r.input.partial + more);
  }

  lemma {:induction false} StoppedDecodes(r: State, b: Bytes)
    requires Stopped(r) && r.input.consumed <= b
    ensures r.input.delivered <= Decode(b).messages
  {
    var more := b[|r.input.consumed|..];
    assert b == EncodeAll(r.input.delivered) + more;
    DecodeEncode(r.input.delivered, more);
  }

  lemma WaitingIsNotMalformed(s: State)
    requires Waiting(s)
    ensures !Malformed(s.input.partial) && s.rd == WaitingFor(s.input.partial)
  {
    if s.rd.phase.InPayload? {
      assert s.input.partial[..HEADER_SIZE] == HeaderFor(s.rd.phase.length);
      assert s.input.partial[HEADER_SIZE..] == s.rd.got;
      HeaderBijection(HeaderFor(s.rd.phase.length), s.rd.phase.length);
    }
  }

  // ---------- a stream that is cut short ----------

  /** A reader that has just been set on an open session waits, with nothing read. */
  lemma FreshReaderWaits(o: Oracle, id: nat)
    ensures var s := Step(o, Init(true), Api(SetOnMessage(id)));
      Waiting(s) && s.input.consumed == []
  {
  }

  /** What is left of an encoded sequence cut anywhere does not look malformed. */
  lemma {:induction false} CutIsNotMalformed(ms: seq<Bytes>, k: nat, done: seq<Bytes>, rest: Bytes)
    requires AllValid(ms) && AllValid(done) && k <= |EncodeAll(ms)|
    requires EncodeAll(ms)[..k] == EncodeAll(done) + rest
    ensures !Malformed(rest)
  {
    if |rest| >= HEADER_SIZE {
      HeaderInside(EncodeAll(ms), k, EncodeAll(done), rest);
      HeaderAtBoundary(done, rest[..HEADER_SIZE], ms);
    }
  }

  lemma HeaderInside(all: Bytes, k: nat, a: Bytes, rest: Bytes)
    requires k <= |all| && all[..k] == a + rest && |rest| >= HEADER_SIZE
    ensures a + rest[..HEADER_SIZE] <= all
  {
    assert a + rest[..HEADER_SIZE] == (a + rest)[..|a| + HEADER_SIZE] == all[..|a| + HEADER_SIZE];
  }

  /** Of an encoded sequence that is cut after k bytes and arrives in any chunks, a fresh reader whose
      callbacks do not close delivers exactly the messages that fit, and is still open; end of stream
      then closes it with that error and delivers nothing more. */
  lemma {:induction false} CutStreamInChunks(
      o: Oracle, s: State, ms: seq<Bytes>, k: nat, chunks: seq<Bytes>, code: int)
    requires Waiting(s) && Calm(o) && s.input.consumed == []
    requires AllValid(ms) && k <= |EncodeAll(ms)| && Concat(chunks) == EncodeAll(ms)[..k]
    ensures var r := FeedAll(o, s, chunks);
            var t := Run(o, r, [FailRead(code), RunRead]);
      && r.open && WholeIn(ms, k, |r.input.delivered|) && r.input.delivered == ms[..|r.input.delivered|]
      && t.input.delivered == r.input.delivered
      && !t.open && t.closing.cause == Some(Io(code))
  {
    var r, d := FeedAll(o, s, chunks), Decode(Concat(chunks));
    ChunkingIsIrrelevant(o, s, chunks);
    FeedAllConsumes(o, s, chunks);
    EncodeDecode(Concat(chunks));
    CutIsNotMalformed(ms, k, d.messages, d.rest);
    TruncatedStream(ms, k, d.messages, d.rest);
    EndOfStream(o, r, code);
  }
}
