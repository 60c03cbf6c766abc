/** Servers whose onmessage handler sends what it receives back into its own session: all of it
    (echo), or what passes a test (chat, as far as the sender's own session is concerned). */
module Replying {
  import opened Codec
  import opened Session
  import opened SessionSafety

  /** onmessage sends the message if it passes the test and does nothing else; onclose does not
      touch the session. */
  ghost predicate Replies(o: Oracle, test: Bytes -> bool) {
    && (forall id, n, p :: o(id, n, OnMessage(p)) == if test(p) then [Invoke(Send(p), false)] else [])
    && (forall id, n, err :: o(id, n, OnClose(err)) == [])
  }

  /** The payload an event hands to the user's onmessage, if any. */
  function HandedOver(s: State, e: Event): seq<Bytes> {
    if e.RunRead? && Enabled(s, e) && s.rd.err.NoError? && s.rd.phase.InPayload? && s.onmessage.User?
    then [s.rd.got] else []
  }

  function Passing(test: Bytes -> bool, ms: seq<Bytes>): seq<Bytes> {
    if ms == [] then []
    else Passing(test, ms[..|ms| - 1]) + (if test(ms[|ms| - 1]) then [ms[|ms| - 1]] else [])
  }

  lemma PassingSnoc(test: Bytes -> bool, ms: seq<Bytes>, m: Bytes)
    ensures Passing(test, ms + [m]) == Passing(test, ms) + (if test(m) then [m] else [])
  {
    assert (ms + [m])[..|ms|] == ms;
  }

  lemma SendScript(o: Oracle, s: State, p: Bytes)
    ensures RunScript(o, s, [Invoke(Send(p), false)]) == SendTo(s, p).state
  {
    assert [Invoke(Send(p), false)][1..] == [];
    assert Perform(o, s, Send(p)) == SendTo(s, p);
  }

  lemma QuietClose(o: Oracle, test: Bytes -> bool, s: State, err: ErrorCode)
    requires Replies(o, test)
    ensures CloseIntern(o, s, err).output == s.output
    ensures CloseIntern(o, s, err).input == s.input
  {
    if s.open && s.onclose.User? {
      var inside := Enter(CutOff(s, err), s.onclose.id, OnClose(err));
      assert RunScript(o, inside, []) == inside;
    }
  }

  lemma QuietCall(o: Oracle, test: Bytes -> bool, s: State, op: Op)
    requires Replies(o, test) && !op.Send?
    ensures var r := Perform(o, s, op).state;
      r.output == s.output && r.input.delivered == s.input.delivered
  {
    match op
    case Close => QuietClose(o, test, s, NoError);
    case SetOnClose(id) =>
      if s.onclose.Empty? && !s.open {
        var inside := Enter(Register(s, id), id, OnClose(NoError));
        assert RunScript(o, inside, []) == inside;
        assert InstallOnClose(o, s, id) == Leave(inside);
      }
    case SetOnMessage(_) =>
  }

  /** The re-entrant send accepts the message being delivered, since what was received has a legal
      size; it never throws, starts no second write and leaves the session open. */
  lemma ReplyDelivery(o: Oracle, test: Bytes -> bool, s: State)
    requires Replies(o, test) && Inv(s) && HandedOver(s, RunRead) != []
    ensures var r, p := CompleteRead(o, s), s.rd.got;
      && r.input.delivered == s.input.delivered + [p]
      && r.output.accepted == s.output.accepted + (if test(p) then [p] else [])
      && r.open == s.open && !r.overlap
      && (s.open && !s.wr.WriteIdle? ==> r.wr == s.wr)
      && (s.open && s.wr.WriteIdle? ==> r.wr == if test(p) then WritePending(OfHeader, 0) else WriteIdle)
  {
    var p := s.rd.got;
    var inside := Enter(s.(rd := ReadIdle), s.onmessage.id, OnMessage(p));
    if test(p) {
      SendScript(o, inside, p);
    } else {
      assert RunScript(o, inside, []) == inside;
    }
  }

  lemma ReplyRead(o: Oracle, test: Bytes -> bool, s: State)
    requires Replies(o, test) && Inv(s) && Enabled(s, RunRead)
    ensures var r, handed := CompleteRead(o, s), HandedOver(s, RunRead);
      && r.input.delivered == s.input.delivered + handed
      && r.output.accepted == s.output.accepted + Passing(test, handed)
  {
    if HandedOver(s, RunRead) == [] {
      QuietRead(o, test, s);
    } else {
      ReplyDelivery(o, test, s);
      PassingSnoc(test, [], s.rd.got);
    }
  }

  /** Completions that hand nothing over. */
  lemma QuietRead(o: Oracle, test: Bytes -> bool, s: State)
    requires Replies(o, test) && Inv(s) && Enabled(s, RunRead) && HandedOver(s, RunRead) == []
    ensures var r := CompleteRead(o, s);
      r.input.delivered == s.input.delivered && r.output.accepted == s.output.accepted
  {
    var idle := s.(rd := ReadIdle);
    QuietClose(o, test, idle, if s.rd.err.NoError? then BadMessage else s.rd.err);
  }

  lemma QuietWrite(o: Oracle, test: Bytes -> bool, s: State)
    requires Replies(o, test) && Enabled(s, RunWrite)
    ensures var r := CompleteWrite(o, s);
      r.input.delivered == s.input.delivered && r.output.accepted == s.output.accepted
  {
    QuietClose(o, test, s.(wr := WriteIdle), s.wr.err);
  }

  /** What every event adds to the deliveries and to the messages accepted for sending. */
  lemma ReplyStep(o: Oracle, test: Bytes -> bool, s: State, e: Event)
    requires Replies(o, test) && Inv(s) && !(e.Api? && e.op.Send?)
    ensures Step(o, s, e).input.delivered == s.input.delivered + HandedOver(s, e)
    ensures Step(o, s, e).output.accepted == s.output.accepted + Passing(test, HandedOver(s, e))
  {
    if Enabled(s, e) {
      match e
      case Api(op) => QuietCall(o, test, s, op);
      case RunRead => ReplyRead(o, test, s);
      case RunWrite => QuietWrite(o, test, s);
      case _ =>
    }
  }
}
