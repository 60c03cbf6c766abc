/** What the handlers of the chat server do: to the session they run in, and to all sessions. */
module ChatHandlers {
  import opened Codec
  import opened Session
  import opened Replying

  /** The handlers of do_accept as far as the session they belong to is concerned: onmessage sends
      a valid message (send_all includes the sender); an invalid message and onclose call remove,
      which does nothing to a registered id. */
  function ServerCode(isMessage: Bytes -> bool): Oracle {
    (id: nat, n: nat, call: Call) =>
      if call.OnMessage? && isMessage(call.payload) then [Invoke(Send(call.payload), false)] else []
  }

  lemma ServerReplies(isMessage: Bytes -> bool)
    ensures Replies(ServerCode(isMessage), isMessage)
  {
  }

  /** The states of the registered sessions once send_all reached every one of them. */
  ghost function Sent<Id(!new)>(before: map<Id, State>, message: Bytes): (after: map<Id, State>)
    ensures after.Keys == before.Keys
  {
    map i | i in before :: SendTo(before[i], message).state
  }

  /** An illegal message leaves every session as it was. */
  lemma SentInvalid<Id(!new)>(before: map<Id, State>, message: Bytes)
    requires !ValidSize(|message|)
    ensures Sent(before, message) == before
  {
  }
}
