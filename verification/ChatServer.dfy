/** The class chat_server: its registry of sessions under wrapping 32 bit ids, and send_all. */
module ChatServers {
  import opened Codec
  import opened AsioSessions
  import opened ChatHandlers
  import S = Session

  const ID_RANGE := 0x1_0000_0000

  type uint32 = x: int | 0 <= x < ID_RANGE

  /** Ids are the numbers of 32 bits. */
  lemma IdsAre32Bits(n: int) returns (id: Option<uint32>)
    ensures id.Some? <==> 0 <= n <= 0xffff_ffff
    ensures id.Some? ==> id.value == n
  {
    id := if 0 <= n <= 0xffff_ffff then Some(n) else None;
  }

  /** id++ on uint32_t */
  function Next(id: uint32): uint32 {
    (id + 1) % ID_RANGE
  }

  lemma NextAtTheEnd(id: uint32)
    ensures Next(id) == if id == 0xffff_ffff then 0 else id + 1
  {
  }

  function After(id: uint32, n: nat): uint32 {
    if n == 0 then id else Next(After(id, n - 1))
  }

  lemma NextWraps(x: nat)
    ensures (x % ID_RANGE + 1) % ID_RANGE == (x + 1) % ID_RANGE
  {
  }

  lemma {:induction false} AfterWraps(id: uint32, n: nat)
    ensures After(id, n) == (id + n) % ID_RANGE
  {
    if n > 0 {
      AfterWraps(id, n - 1);
      NextWraps(id + n - 1);
    }
  }

  /** How many increments lead from one id to another. */
  function Distance(from: uint32, to: uint32): (d: nat)
    ensures d < ID_RANGE
  {
    if from <= to then to - from else to - from + ID_RANGE
  }

  lemma DistanceReaches(from: uint32, to: uint32)
    ensures After(from, Distance(from, to)) == to
  {
    AfterWraps(from, Distance(from, to));
  }

  lemma DistanceOf(id: uint32, n: nat)
    requires n < ID_RANGE
    ensures Distance(id, After(id, n)) == n
  {
    AfterWraps(id, n);
  }

  /** The loop condition of create_id. */
  predicate Taken(keys: set<uint32>, id: uint32) {
    id == 0 || id in keys
  }

  /** r is free, and counting up from an id meets no free id before it. */
  ghost predicate FirstFree(keys: set<uint32>, from: uint32, r: uint32) {
    !Taken(keys, r) && forall d: nat :: d < Distance(from, r) ==> Taken(keys, After(from, d))
  }

  /** A free id exists. */
  ghost predicate HasRoom(keys: set<uint32>) {
    exists id: uint32 :: !Taken(keys, id)
  }

  /** In plain numbers: the first free id at or after the counter, or, if all those are taken, the
      first free one from 1. */
  lemma {:induction false} FirstFreeIs(keys: set<uint32>, from: uint32, r: uint32)
    requires FirstFree(keys, from, r)
    ensures r != 0 && r !in keys
    ensures from <= r ==> forall id: uint32 :: from <= id < r && id != 0 ==> id in keys
    ensures r < from ==> forall id: uint32 :: (from <= id || 0 < id < r) ==> id in keys
  {
    forall id: uint32 | if from <= r then from <= id < r else from <= id || id < r
      ensures Taken(keys, id)
    {
      DistanceReaches(from, id);
      assert Taken(keys, After(from, Distance(from, id)));
    }
    assert forall id: uint32 :: id in keys || id == 0 <==> Taken(keys, id);
  }

  predicate FirstIds(keys: set<uint32>, k: nat) {
    forall id: uint32 :: id in keys <==> 1 <= id <= k
  }

  /** The server's ids are 1, 2, 3 and so on, as far as 32 bits reach. */
  lemma {:induction false} IdsCountUp(keys: set<uint32>, k: uint32, r: uint32)
    requires k < 0xffff_ffff && FirstFree(keys, k, r) && FirstIds(keys, k)
    ensures r == k + 1
  {
    FirstFreeIs(keys, k, r);
    var next: uint32 := k + 1;
    assert next !in keys;
  }

  // ---------- pigeonhole ----------

  function Upto(n: nat): (s: set<int>)
    ensures forall x :: x in s <==> 1 <= x <= n
  {
    if n == 0 then {} else Upto(n - 1) + {n}
  }

  lemma {:induction false} UptoSize(n: nat)
    ensures |Upto(n)| == n
  {
    if n > 0 {
      UptoSize(n - 1);
    }
  }

  lemma SubsetSize(a: set<int>, b: set<int>)
    requires a <= b
    ensures |a| <= |b|
  {
    assert b == a + (b - a);
  }

  /** There is room, so create_id terminates, exactly if fewer than all non-zero ids are in use;
      otherwise its loop condition holds for every id. */
  lemma RoomByCounting(keys: set<uint32>)
    ensures HasRoom(keys) <==> |keys - {0}| < 0xffff_ffff
  {
    UptoSize(ID_RANGE - 1);
    var used: set<int> := set x: int | x in Upto(ID_RANGE - 1) && x in keys;
    assert used == keys - {0} by {
      forall x: int
        ensures x in used <==> x in keys - {0}
      {
      }
    }
    if forall id: uint32 :: Taken(keys, id) {
      forall x: int | x in Upto(ID_RANGE - 1)
        ensures x in used
      {
        var id: uint32 := x;
        assert Taken(keys, id);
      }
      SubsetSize(Upto(ID_RANGE - 1), used);
    } else {
      var id: uint32 :| !Taken(keys, id);
      SubsetSize(used, Upto(ID_RANGE - 1) - {id});
    }
  }

  /** The states while some sessions still wait. */
  ghost function Mix(before: map<uint32, S.State>, after: map<uint32, S.State>, todo: set<uint32>): map<uint32, S.State>
    requires after.Keys == before.Keys
  {
    map i | i in before :: if i in todo then before[i] else after[i]
  }

  lemma MixEnds(before: map<uint32, S.State>, after: map<uint32, S.State>)
    requires after.Keys == before.Keys
    ensures Mix(before, after, before.Keys) == before && Mix(before, after, {}) == after
  {
  }

  lemma MixOne(before: map<uint32, S.State>, after: map<uint32, S.State>, todo: set<uint32>, i: uint32)
    requires after.Keys == before.Keys && i in todo && i in before
    ensures Mix(before, after, todo - {i}) == Mix(before, after, todo)[i := after[i]]
    ensures Mix(before, after, todo)[i] == before[i]
  {
  }

  lemma DistinctInsert(sessions: map<uint32, AsioSession>, r: uint32, session: AsioSession)
    requires Distinct(sessions) && forall i :: i in sessions ==> sessions[i] != session
    ensures Distinct(sessions[r := session])
  {
  }

  /** A map that differs from another at one key only is that map updated. */
  lemma UpdatedAt(m: map<uint32, S.State>, changed: map<uint32, S.State>, i: uint32)
    requires i in m && m.Keys == changed.Keys && forall j :: j in m && j != i ==> changed[j] == m[j]
    ensures changed == m[i := changed[i]]
  {
  }

  predicate Distinct(sessions: map<uint32, AsioSession>) {
    forall i, j :: i in sessions && j in sessions && i != j ==> sessions[i] != sessions[j]
  }

  class ChatServer {
    var sessions: map<uint32, AsioSession>
    var id: uint32
    const isMessage: Bytes -> bool

    /** Registered sessions are distinct objects, each in a valid state. */
    ghost predicate Valid()
      reads this, sessions.Values
    {
      && (forall s :: s in sessions.Values ==> s.Valid())
      && Distinct(sessions)
    }

    constructor (isMessage: Bytes -> bool)
      ensures Valid() && this.isMessage == isMessage && sessions == map[] && id == 0
    {
      sessions, id := map[], 0;
      this.isMessage := isMessage;
    }

    method HasId(id: uint32) returns (found: bool)
      ensures found <==> id in sessions
    {
      found := id in sessions;
    }

    /** The loop terminates by the circular distance to a free id, and finds the first free id at
        or after the counter. */
    method CreateId() returns (r: uint32)
      requires HasRoom(sessions.Keys)
      modifies `id
      ensures r == id && r != 0 && r !in sessions
      ensures FirstFree(sessions.Keys, old(id), r)
      ensures FirstIds(sessions.Keys, old(id)) && old(id) < 0xffff_ffff ==> r == old(id) + 1
    {
      ghost var free: uint32 :| !Taken(sessions.Keys, free);
      ghost var start, n: nat := id, 0;
      ghost var far := Distance(start, free);
      DistanceReaches(start, free);
      while true
        invariant n <= far && id == After(start, n)
        invariant forall d: nat :: d < n ==> Taken(sessions.Keys, After(start, d))
        decreases far - n
      {
        var found := HasId(id);
        if id != 0 && !found {
          break;
        }
        id := Next(id);
        n := n + 1;
      }
      DistanceOf(start, n);
      if FirstIds(sessions.Keys, start) && start < 0xffff_ffff {
        IdsCountUp(sessions.Keys, start, id);
      }
      return id;
    }

    /** add never replaces a session: emplace meets an unused key. */
    method Add(session: AsioSession) returns (r: uint32)
      requires Valid() && HasRoom(sessions.Keys)
      requires session.Valid() && forall i :: i in sessions ==> sessions[i] != session
      modifies `id, `sessions
      ensures Valid() && r != 0 && r !in old(sessions)
      ensures sessions == old(sessions)[r := session]
    {
      r := CreateId();
      assert Valid();
      DistinctInsert(sessions, r, session);
      if r !in sessions {
        sessions := sessions[r := session];
      }
    }

    /** The states of the registered sessions. */
    ghost function States(): (m: map<uint32, S.State>)
      requires Valid()
      reads *
      ensures m.Keys == sessions.Keys
    {
      map i | i in sessions :: sessions[i].Abs()
    }

    /** session->send(message): the other sessions are not touched. */
    method SendOne(i: uint32, message: Bytes) returns (thrown: bool)
      requires Valid() && i in sessions
      modifies sessions[i]
      ensures Valid() && S.Outcome(sessions[i].Abs(), thrown) == S.SendTo(old(sessions[i].Abs()), message)
      ensures forall j :: j in sessions && j != i ==> States()[j] == old(States())[j]
    {
      var count;
      thrown, count := sessions[i].Send(message);
    }

    method SendNext(i: uint32, message: Bytes, ghost sent: S.State) returns (thrown: bool)
      requires Valid() && i in sessions && sent == S.SendTo(States()[i], message).state
      modifies sessions[i]
      ensures Valid() && thrown == !ValidSize(|message|)
      ensures States() == if thrown then old(States()) else old(States())[i := sent]
    {
      thrown := SendOne(i, message);
      UpdatedAt(old(States()), States(), i);
    }

    /** send_all: every session accepts the message, or none does because its size is illegal and
        the first send throws. */
    method SendAll(message: Bytes) returns (thrown: bool)
      requires Valid()
      modifies sessions.Values
      ensures Valid()
      ensures thrown <==> sessions != map[] && !ValidSize(|message|)
      ensures States() == Sent(old(States()), message)
    {
      ghost var before, after := States(), Sent(States(), message);
      MixEnds(before, after);
      var todo := sessions.Keys;
      while todo != {}
        invariant Valid() && todo <= sessions.Keys
        invariant ValidSize(|message|) || todo == sessions.Keys
        invariant States() == Mix(before, after, todo)
        decreases todo
      {
        var i :| i in todo;
        MixOne(before, after, todo, i);
        var failed := SendNext(i, message, after[i]);
        if failed {
          SentInvalid(before, message);
          return true;
        }
        todo := todo - {i};
      }
      thrown := false;
    }

    /** The set_ calls of do_accept. */
    method Greet(session: AsioSession)
      requires session.Valid() && session.Abs() == S.Init(true)
      modifies session
      ensures session.Valid() && session.Abs() == S.InstallOnMessage(S.Register(S.Init(true), 0), 1)
    {
      var failed := session.SetOnClose(0);
      failed := session.SetOnMessage(1);
    }

    /** The accept handler of do_accept: a session on the connected socket gets an id and the two
        handlers of the server; no other session is affected. */
    method Accept() returns (session: AsioSession, r: uint32)
      requires Valid() && HasRoom(sessions.Keys)
      modifies `id, `sessions
      ensures Valid() && fresh(session) && r != 0 && r !in old(sessions)
      ensures sessions == old(sessions)[r := session] && session.world == ServerCode(isMessage)
      ensures session.Valid() && session.Abs() == S.InstallOnMessage(S.Register(S.Init(true), 0), 1)
    {
      session := new AsioSession(ServerCode(isMessage), true);
      assert Valid();
      r := Add(session);
      Greet(session);
    }

    /** remove, with its inverted test: the branch that closes and erases is for ids that are not
        registered, so a registered session stays, and stays as it is. */
    method Remove(id: uint32)
      requires id in sessions
      modifies `sessions
      ensures sessions == old(sessions)
    {
      var found := HasId(id);
      if !found {
        assert false;
      }
    }

    /** The onmessage handler of session id, run while the sessions are in the states States(), its
        own one inside the callback. */
    method OnMessage(id: uint32, message: Bytes) returns (thrown: bool)
      requires Valid() && id in sessions
      modifies `sessions, sessions.Values
      ensures Valid() && sessions == old(sessions)
      ensures States() == if isMessage(message) then Sent(old(States()), message) else old(States())
      ensures thrown <==> isMessage(message) && !ValidSize(|message|)
    {
      thrown := false;
      if isMessage(message) {
        thrown := SendAll(message);
      } else {
        Remove(id);
      }
    }

    /** The onclose handler of session id. */
    method OnClose(id: uint32)
      requires Valid() && id in sessions
      modifies `sessions
      ensures Valid() && sessions == old(sessions) && States() == old(States())
    {
      Remove(id);
    }
  }
}
