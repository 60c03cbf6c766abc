/** The frame codec of com_message: a four byte header (a reserved zero byte and a
    24 bit big-endian length) followed by the payload. */
module Codec {

  type byte = x: int | 0 <= x < 256

  type Bytes = seq<byte>

  datatype Option<+T> = None | Some(value: T)

  /** The largest payload, com_max_message_size. */
  const MAX_MESSAGE_SIZE := 0xff_ffff

  const HEADER_SIZE := 4

  predicate ValidSize(n: int) {
    1 <= n <= MAX_MESSAGE_SIZE
  }

  predicate AllValid(ms: seq<Bytes>) {
    forall i :: 0 <= i < |ms| ==> ValidSize(|ms[i]|)
  }

  // ---------- headers ----------

  /** The header of a payload of n bytes. */
  function HeaderFor(n: nat): (h: Bytes)
    ensures |h| == HEADER_SIZE
  {
    [0, n / 65536 % 256, n / 256 % 256, n % 256]
  }

  /** The length a header announces, as a positional number. */
  function LengthIn(h: Bytes): nat
    requires |h| == HEADER_SIZE
  {
    h[1] as int * 65536 + h[2] as int * 256 + h[3] as int
  }

  predicate GoodHeader(h: Bytes)
    requires |h| == HEADER_SIZE
  {
    h[0] == 0 && ValidSize(LengthIn(h))
  }

  /** Headers and lengths determine each other: h is accepted with length n exactly when n is
      a legal size and h is the header the constructor writes for n. */
  lemma HeaderBijection(h: Bytes, n: nat)
    requires |h| == HEADER_SIZE
    ensures GoodHeader(h) && LengthIn(h) == n <==> ValidSize(n) && h == HeaderFor(n)
  {
    if ValidSize(n) && h == HeaderFor(n) {
      assert n / 256 == n / 65536 * 256 + n / 256 % 256;
    }
    if GoodHeader(h) && LengthIn(h) == n {
      assert n / 256 == h[1] as int * 256 + h[2] as int;
    }
  }

  /** Bitwise or of two natural numbers. */
  function BitOr(x: nat, y: nat): nat {
    if x == 0 && y == 0 then 0
    else 2 * BitOr(x / 2, y / 2) + (if x % 2 == 1 || y % 2 == 1 then 1 else 0)
  }

  lemma {:induction false} OrWithZero(x: nat)
    ensures BitOr(x, 0) == x
  {
    if x > 0 {
      OrWithZero(x / 2);
    }
  }

  function Pow2(k: nat): (p: nat)
    ensures p >= 1
  {
    if k == 0 then 1 else 2 * Pow2(k - 1)
  }

  /** Or-ing k low bits into a number shifted left by k adds them. */
  lemma {:induction false} ShiftOr(x: nat, k: nat, low: nat)
    requires low < Pow2(k)
    ensures BitOr(x * Pow2(k), low) == x * Pow2(k) + low
  {
    if k == 0 {
      OrWithZero(x);
    } else {
      var p := Pow2(k - 1);
      assert x * Pow2(k) == 2 * (x * p);
      ShiftOr(x, k - 1, low / 2);
    }
  }

  lemma ShiftOrByte(x: nat, b: byte)
    ensures BitOr(x * 256, b) == x * 256 + b
  {
    assert Pow2(8) == 256;
    ShiftOr(x, 8, b);
  }

  // ---------- com_message ----------

  /** A message with its header, as std::queue holds it by value. */
  datatype ComMessage = ComMessage(header: Bytes, payload: Bytes) {
    predicate Valid() {
      ValidSize(|payload|) && header == HeaderFor(|payload|)
    }
  }

  /** The constructor from a string; None stands for the exception "invalid message size". */
  method MakeMessage(content: Bytes) returns (r: Option<ComMessage>)
    ensures r.Some? <==> 1 <= |content| <= 0xff_ffff
    ensures r.Some? ==> r.value.payload == content && r.value.Valid()
    ensures r.Some? ==>
      r.value.header == [0, |content| / 0x1_0000 % 0x100, |content| / 0x100 % 0x100, |content| % 0x100]
  {
    var size := |content|;
    if size == 0 || size > MAX_MESSAGE_SIZE {
      return None;
    }
    var header := new byte[HEADER_SIZE];
    header[0] := 0;
    header[1] := size / 0x1_0000 % 256;
    header[2] := size / 0x100 % 256;
    header[3] := size % 256;
    r := Some(ComMessage(header[..], content));
  }

  /** The bound of parse_header never bites: three bytes hold no more than the largest legal size. */
  lemma LengthFits(h: Bytes)
    requires |h| == HEADER_SIZE
    ensures GoodHeader(h) <==> h[0] == 0 && !(h[1] == h[2] == h[3] == 0)
    ensures LengthIn(h) <= 0xff_ffff
  {
  }

  /** parse_header: the shift/or loop over the three length bytes. */
  method ParseHeader(header: array<byte>) returns (ok: bool, length: nat)
    requires header.Length == HEADER_SIZE
    ensures ok <==> exists n: nat :: ValidSize(n) && header[..] == HeaderFor(n)
    ensures ok ==> ValidSize(length) && header[..] == HeaderFor(length)
    ensures ok <==> GoodHeader(header[..])
    ensures ok <==> header[0] == 0 && !(header[1] == header[2] == header[3] == 0)
    ensures ok ==> length == LengthIn(header[..])
    ensures ok ==> length == header[1] as int * 0x1_0000 + header[2] as int * 0x100 + header[3] as int
  {
    length := 0;
    if header[0] != 0 {
      return false, length;
    }
    for i := 1 to HEADER_SIZE
      invariant i == 1 ==> length == 0
      invariant i == 2 ==> length == header[1]
      invariant i == 3 ==> length == header[1] as int * 256 + header[2] as int
      invariant i == 4 ==> length == LengthIn(header[..])
    {
      ShiftOrByte(length, header[i]);
      length := length * 256;
      length := BitOr(length, header[i]);
    }
    ok := length > 0 && length <= MAX_MESSAGE_SIZE;
    LengthFits(header[..]);
    HeaderBijection(header[..], length);
    forall n: nat | ValidSize(n) && header[..] == HeaderFor(n)
      ensures ok
    {
      HeaderBijection(header[..], n);
    }
  }

  // ---------- streams of frames ----------

  function Frame(m: Bytes): Bytes {
    HeaderFor(|m|) + m
  }

  function EncodeAll(ms: seq<Bytes>): Bytes {
    if ms == [] then [] else Frame(ms[0]) + EncodeAll(ms[1..])
  }

  /** The complete messages at the front of a stream, and the bytes after them. */
  datatype Parsed = Parsed(messages: seq<Bytes>, rest: Bytes)

  /** No whole, well-formed frame starts here. */
  predicate Stuck(b: Bytes) {
    |b| < HEADER_SIZE || !GoodHeader(b[..HEADER_SIZE]) || |b| < HEADER_SIZE + LengthIn(b[..HEADER_SIZE])
  }

  /** The one-shot decoder, the reference for the two-phase reader. */
  function Decode(b: Bytes): Parsed
    decreases |b|
  {
    if Stuck(b) then
      Parsed([], b)
    else
      var n := LengthIn(b[..HEADER_SIZE]);
      var tail := Decode(b[HEADER_SIZE + n..]);
      Parsed([b[HEADER_SIZE..HEADER_SIZE + n]] + tail.messages, tail.rest)
  }

  lemma {:induction false} EncodeAppend(a: seq<Bytes>, b: seq<Bytes>)
    ensures EncodeAll(a + b) == EncodeAll(a) + EncodeAll(b)
  {
    if a == [] {
      assert a + b == b;
    } else {
      assert (a + b)[1..] == a[1..] + b;
      EncodeAppend(a[1..], b);
    }
  }

  lemma EncodeSingle(m: Bytes)
    ensures EncodeAll([m]) == Frame(m)
  {
    assert EncodeAll([m][1..]) == [];
  }

  lemma {:induction false} EncodeSnoc(a: seq<Bytes>, m: Bytes)
    ensures EncodeAll(a + [m]) == EncodeAll(a) + Frame(m)
  {
    EncodeAppend(a, [m]);
    EncodeSingle(m);
  }

  lemma {:induction false} EncodeCons(ms: seq<Bytes>, tail: Bytes)
    requires ms != []
    ensures EncodeAll(ms) + tail == Frame(ms[0]) + (EncodeAll(ms[1..]) + tail)
  {
    assert Frame(ms[0]) + EncodeAll(ms[1..]) + tail == Frame(ms[0]) + (EncodeAll(ms[1..]) + tail);
  }

  lemma Regroup(a: Bytes, b: Bytes, c: Bytes)
    ensures a + (b + c) == a + b + c
    ensures a + b <= a + (b + c)
  {
  }

  lemma Reassociate(ms: seq<Bytes>, end: seq<Bytes>)
    requires ms != []
    ensures [ms[0]] + (ms[1..] + end) == ms + end
  {
  }

  /** Decoding a frame followed by anything peels off exactly that frame. */
  lemma {:induction false} DecodeFrame(m: Bytes, tail: Bytes)
    requires ValidSize(|m|)
    ensures Decode(Frame(m) + tail) == Parsed([m] + Decode(tail).messages, Decode(tail).rest)
  {
    var b := Frame(m) + tail;
    assert b[..HEADER_SIZE] == HeaderFor(|m|);
    HeaderBijection(HeaderFor(|m|), |m|);
    assert b[HEADER_SIZE + |m|..] == tail;
    assert b[HEADER_SIZE..HEADER_SIZE + |m|] == m;
  }

  /** Encoded messages decode to themselves, whatever follows them. */
  lemma {:induction false} DecodeEncode(ms: seq<Bytes>, tail: Bytes)
    requires AllValid(ms)
    ensures Decode(EncodeAll(ms) + tail) == Parsed(ms + Decode(tail).messages, Decode(tail).rest)
  {
    if ms == [] {
      assert EncodeAll(ms) + tail == tail;
    } else {
      var first, more := ms[0], ms[1..];
      EncodeCons(ms, tail);
      DecodeEncode(more, tail);
      DecodeFrame(first, EncodeAll(more) + tail);
      Reassociate(ms, Decode(tail).messages);
    }
  }

  /** What Decode returns re-encodes to the input, and it leaves no whole frame behind. */
  lemma {:induction false} EncodeDecode(b: Bytes)
    ensures EncodeAll(Decode(b).messages) + Decode(b).rest == b
    ensures AllValid(Decode(b).messages) && Stuck(Decode(b).rest)
    decreases |b|
  {
    if !Stuck(b) {
      var n := LengthIn(b[..HEADER_SIZE]);
      var m, tail := b[HEADER_SIZE..HEADER_SIZE + n], b[HEADER_SIZE + n..];
      FirstFrame(b);
      EncodeDecode(tail);
      EncodeFront(m, Decode(tail).messages, Decode(tail).rest);
    }
  }

  lemma FirstFrame(b: Bytes)
    requires !Stuck(b)
    ensures var n := LengthIn(b[..HEADER_SIZE]);
            ValidSize(n) && b == Frame(b[HEADER_SIZE..HEADER_SIZE + n]) + b[HEADER_SIZE + n..]
  {
    HeaderBijection(b[..HEADER_SIZE], LengthIn(b[..HEADER_SIZE]));
  }

  lemma EncodeFront(m: Bytes, ms: seq<Bytes>, rest: Bytes)
    ensures EncodeAll([m] + ms) + rest == Frame(m) + (EncodeAll(ms) + rest)
  {
    EncodeCons([m] + ms, rest);
    assert ([m] + ms)[1..] == ms;
  }

  /** Decode is characterised: the only split into valid frames and a stuck rest. */
  lemma {:induction false} DecodeUnique(ms: seq<Bytes>, rest: Bytes)
    requires AllValid(ms) && Stuck(rest)
    ensures Decode(EncodeAll(ms) + rest) == Parsed(ms, rest)
  {
    DecodeEncode(ms, rest);
    assert ms + [] == ms;
  }

  /** Frames are prefix-free even across streams: if one encoding is a prefix of another, so
      are the message sequences. Hence EncodeAll is injective. */
  lemma {:induction false} EncodePrefix(a: seq<Bytes>, b: seq<Bytes>)
    requires AllValid(a) && AllValid(b)
    ensures EncodeAll(a) <= EncodeAll(b) <==> a <= b
  {
    if EncodeAll(a) <= EncodeAll(b) {
      var tail := EncodeAll(b)[|EncodeAll(a)|..];
      assert EncodeAll(b) == EncodeAll(a) + tail;
      DecodeEncode(a, tail);
      DecodeEncode(b, []);
      assert EncodeAll(b) + [] == EncodeAll(b);
      assert b == b + [] == a + Decode(tail).messages;
    }
    if a <= b {
      assert b == a + b[|a|..];
      EncodeAppend(a, b[|a|..]);
    }
  }

  /** If one encoding is a prefix of another, the rest of it encodes the rest of the messages. */
  lemma {:induction false} EncodePrefixTake(a: seq<Bytes>, b: seq<Bytes>)
    requires AllValid(a) && AllValid(b) && EncodeAll(a) <= EncodeAll(b)
    ensures |a| <= |b| && b[..|a|] == a && AllValid(b[|a|..])
    ensures EncodeAll(b) == EncodeAll(a) + EncodeAll(b[|a|..])
  {
    EncodePrefix(a, b);
    assert b[..|a|] == a;
    EncodeSplit(b, |a|);
  }

  lemma {:induction false} EncodeInjective(a: seq<Bytes>, b: seq<Bytes>)
    requires AllValid(a) && AllValid(b) && EncodeAll(a) == EncodeAll(b)
    ensures a == b
  {
    EncodePrefix(a, b);
    EncodePrefix(b, a);
  }

  lemma {:induction false} FramesPrefixFree(a: Bytes, b: Bytes)
    requires ValidSize(|a|) && ValidSize(|b|) && Frame(a) <= Frame(b)
    ensures a == b
  {
    EncodeSingle(a);
    EncodeSingle(b);
    EncodePrefix([a], [b]);
    assert [a][0] == [b][0];
  }

  lemma {:induction false} EncodeSplit(ms: seq<Bytes>, j: nat)
    requires j <= |ms|
    ensures EncodeAll(ms) == EncodeAll(ms[..j]) + EncodeAll(ms[j..])
  {
    assert ms == ms[..j] + ms[j..];
    EncodeAppend(ms[..j], ms[j..]);
  }

  lemma {:induction false} EncodeNext(ms: seq<Bytes>, j: nat)
    requires j < |ms|
    ensures EncodeAll(ms[..j + 1]) == EncodeAll(ms[..j]) + Frame(ms[j])
  {
    assert ms[..j + 1] == ms[..j] + [ms[j]];
    EncodeSnoc(ms[..j], ms[j]);
  }

  /** In a stream of valid frames, the four bytes at any frame boundary form a good header. */
  lemma {:induction false} HeaderAtBoundary(done: seq<Bytes>, h: Bytes, all: seq<Bytes>)
    requires AllValid(done) && AllValid(all) && |h| == HEADER_SIZE
    requires EncodeAll(done) + h <= EncodeAll(all)
    ensures GoodHeader(h)
  {
    BoundarySplit(done, h, all);
    StartsWithHeader(all[|done|..], h);
  }

  lemma {:induction false} BoundarySplit(done: seq<Bytes>, h: Bytes, all: seq<Bytes>)
    requires AllValid(done) && AllValid(all) && EncodeAll(done) + h <= EncodeAll(all)
    ensures |done| <= |all| && h <= EncodeAll(all[|done|..])
  {
    PrefixOfPrefix(EncodeAll(done), h, EncodeAll(all));
    EncodePrefixTake(done, all);
    AfterPrefix(EncodeAll(done), h, EncodeAll(all[|done|..]));
  }

  lemma PrefixOfPrefix(a: Bytes, b: Bytes, all: Bytes)
    requires a + b <= all
    ensures a <= all
  {
    assert a == (a + b)[..|a|] == all[..|a|];
  }

  lemma AfterPrefix(a: Bytes, b: Bytes, c: Bytes)
    requires a + b <= a + c
    ensures b <= c
  {
    assert b == (a + b)[|a|..] == (a + c)[|a|..|a + b|];
  }

  lemma {:induction false} StartsWithHeader(ms: seq<Bytes>, h: Bytes)
    requires AllValid(ms) && h <= EncodeAll(ms) && |h| == HEADER_SIZE
    ensures GoodHeader(h)
  {
    assert h == EncodeAll(ms)[..HEADER_SIZE] == HeaderFor(|ms[0]|);
    HeaderBijection(h, |ms[0]|);
  }
}
