/** Length-prefixed frames on a byte stream: a header of four bytes in network
    order, then the payload. The receiver reads header and body in turn, however
    the stream is cut into chunks, and gives up on a header that announces too
    much. */
module Framing {
  type Byte = x: int | 0 <= x < 256
  type Bytes = seq<Byte>

  const HEADER_SIZE: nat := 4
  const MAX_MESSAGE_BYTES: nat := 1048576
  const TWO_32: nat := 0x1_0000_0000

  // --------------------------------------------------------------- the sender

  function NetworkOrder(n: nat): (b: Bytes)
    requires n < TWO_32
    ensures |b| == HEADER_SIZE
  {
    [n / 0x100_0000, n / 0x1_0000 % 0x100, n / 0x100 % 0x100, n % 0x100]
  }

  function HostOrder(b: Bytes): (n: nat)
    requires |b| == HEADER_SIZE
    ensures n < TWO_32
  {
    var b0: int, b1: int, b2: int, b3: int := b[0], b[1], b[2], b[3];
    b0 * 0x100_0000 + b1 * 0x1_0000 + b2 * 0x100 + b3
  }

  /** The length is cast to 32 bits. */
  function Frame(payload: Bytes): (f: Bytes)
    ensures |f| == HEADER_SIZE + |payload|
  {
    NetworkOrder(|payload| % TWO_32) + payload
  }

  predicate Bounded(payloads: seq<Bytes>) {
    forall p | p in payloads :: |p| <= MAX_MESSAGE_BYTES
  }

  function Frames(payloads: seq<Bytes>): Bytes {
    if payloads == [] then [] else Frame(payloads[0]) + Frames(payloads[1..])
  }

  // ------------------------------------------------------------- the receiver

  datatype Stage = Header(got: Bytes) | Body(length: nat, got: Bytes) | Closed

  datatype Incoming = Incoming(stage: Stage, messages: seq<Bytes>)

  const OPEN := Incoming(Header([]), [])

  /** A body that is complete is handed over and the next header awaited. */
  function Settle(s: Incoming): Incoming {
    if s.stage.Body? && |s.stage.got| == s.stage.length then
      Incoming(Header([]), s.messages + [s.stage.got])
    else s
  }

  /** A complete header announces a body, unless that is too long. */
  function HeaderRead(s: Incoming, header: Bytes): Incoming
    requires |header| == HEADER_SIZE
  {
    var length := HostOrder(header);
    if length > MAX_MESSAGE_BYTES then s.(stage := Closed) else Settle(s.(stage := Body(length, [])))
  }

  function Feed(s: Incoming, b: Byte): Incoming {
    match s.stage
    case Header(got) =>
      if |got + [b]| == HEADER_SIZE then HeaderRead(s, got + [b]) else s.(stage := Header(got + [b]))
    case Body(length, got) => Settle(s.(stage := Body(length, got + [b])))
    case Closed => s
  }

  /** The stream, byte by byte: the reference for every way of reading it. */
  function FeedAll(s: Incoming, bytes: Bytes): Incoming {
    if bytes == [] then s else Feed(FeedAll(s, bytes[..|bytes| - 1]), bytes[|bytes| - 1])
  }

  function FeedChunks(s: Incoming, chunks: seq<Bytes>): Incoming
    decreases |chunks|
  {
    if chunks == [] then s else FeedChunks(FeedAll(s, chunks[0]), chunks[1..])
  }

  function Joined(chunks: seq<Bytes>): Bytes {
    if chunks == [] then [] else chunks[0] + Joined(chunks[1..])
  }

  /** What the receiver can be in: an incomplete header or body. */
  predicate Reading(s: Incoming) {
    match s.stage
    case Header(got) => |got| < HEADER_SIZE
    case Body(length, got) => |got| < length <= MAX_MESSAGE_BYTES
    case Closed => true
  }

  // ----------------------------------------------------------------- chunking

  lemma {:induction false} FeedConcat(s: Incoming, a: Bytes, b: Bytes)
    ensures FeedAll(s, a + b) == FeedAll(FeedAll(s, a), b)
    decreases |b|
  {
    if b == [] {
      assert a + b == a;
    } else {
      var front := b[..|b| - 1];
      FeedConcat(s, a, front);
      assert (a + b)[..|a + b| - 1] == a + front;
    }
  }

  /** How the stream is cut into chunks makes no difference. */
  lemma {:induction false} ChunkingIrrelevant(s: Incoming, chunks: seq<Bytes>)
    ensures FeedChunks(s, chunks) == FeedAll(s, Joined(chunks))
    decreases |chunks|
  {
    if chunks != [] {
      ChunkingIrrelevant(FeedAll(s, chunks[0]), chunks[1..]);
      FeedConcat(s, chunks[0], Joined(chunks[1..]));
    }
  }

  lemma {:induction false} FeedExtends(s: Incoming, bytes: Bytes)
    ensures s.messages <= FeedAll(s, bytes).messages
  {
    if bytes != [] { FeedExtends(s, bytes[..|bytes| - 1]); }
  }

  /** Every message handed over is within the bound, and reading goes on only
      with incomplete headers and bodies. */
  lemma {:induction false} FeedKeeps(s: Incoming, bytes: Bytes)
    requires Reading(s) && Bounded(s.messages)
    ensures var t := FeedAll(s, bytes); Reading(t) && Bounded(t.messages)
  {
    if bytes != [] { FeedKeeps(s, bytes[..|bytes| - 1]); }
  }

  lemma {:induction false} ClosedStays(s: Incoming, bytes: Bytes)
    requires s.stage.Closed?
    ensures FeedAll(s, bytes) == s
  {
    if bytes != [] { ClosedStays(s, bytes[..|bytes| - 1]); }
  }

  // ------------------------------------------------------------- one frame

  lemma HostOfNetwork(n: nat)
    requires n < TWO_32
    ensures HostOrder(NetworkOrder(n)) == n
  {
    var q1 := n / 0x100;
    var q2 := n / 0x1_0000;
    var q3 := n / 0x100_0000;
    assert n == q1 * 0x100 + n % 0x100;
    assert q1 == q2 * 0x100 + q1 % 0x100;
    assert q2 == q3 * 0x100 + q2 % 0x100;
  }

  /** A header that arrives piece by piece. */
  lemma {:induction false} FillHeader(s: Incoming, bytes: Bytes)
    requires s.stage.Header? && |s.stage.got| < HEADER_SIZE && |s.stage.got| + |bytes| <= HEADER_SIZE
    ensures var got := s.stage.got + bytes;
      FeedAll(s, bytes) == if |got| == HEADER_SIZE then HeaderRead(s, got) else s.(stage := Header(got))
  {
    if bytes == [] {
      assert s.stage.got + bytes == s.stage.got;
    } else {
      var front := bytes[..|bytes| - 1];
      FillHeader(s, front);
      assert s.stage.got + front + [bytes[|bytes| - 1]] == s.stage.got + bytes;
    }
  }

  /** A body that arrives piece by piece. */
  lemma {:induction false} FillBody(s: Incoming, bytes: Bytes)
    requires s.stage.Body? && |s.stage.got| < s.stage.length && |s.stage.got| + |bytes| <= s.stage.length
    ensures FeedAll(s, bytes) == Settle(s.(stage := Body(s.stage.length, s.stage.got + bytes)))
  {
    if bytes == [] {
      assert s.stage.got + bytes == s.stage.got;
    } else {
      var front := bytes[..|bytes| - 1];
      FillBody(s, front);
      assert s.stage.got + front + [bytes[|bytes| - 1]] == s.stage.got + bytes;
    }
  }

  /** One frame within the bound yields its payload. */
  lemma FrameYields(messages: seq<Bytes>, payload: Bytes)
    requires |payload| <= MAX_MESSAGE_BYTES
    ensures FeedAll(Incoming(Header([]), messages), Frame(payload)) == Incoming(Header([]), messages + [payload])
  {
    hide FeedAll, HostOrder, NetworkOrder;
    var s := Incoming(Header([]), messages);
    var header := NetworkOrder(|payload| % TWO_32);
    HostOfNetwork(|payload|);
    FillHeader(s, header);
    assert [] + header == header;
    var t := HeaderRead(s, header);
    assert FeedAll(s, header) == t;
    if payload != [] {
      FillBody(t, payload);
      assert [] + payload == payload;
    } else {
      FeedNothing(t, payload);
    }
    hide HeaderRead;
    FeedConcat(s, header, payload);
  }

  lemma FeedNothing(s: Incoming, bytes: Bytes)
    requires bytes == []
    ensures FeedAll(s, bytes) == s
  {
  }

  /** A frame that announces more than the bound closes the connection. */
  lemma FrameCloses(messages: seq<Bytes>, payload: Bytes, rest: Bytes)
    requires |payload| % TWO_32 > MAX_MESSAGE_BYTES
    ensures FeedAll(Incoming(Header([]), messages), Frame(payload) + rest) == Incoming(Closed, messages)
  {
    var s := Incoming(Header([]), messages);
    var header := NetworkOrder(|payload| % TWO_32);
    HostOfNetwork(|payload| % TWO_32);
    FeedConcat(s, header, payload + rest);
    FillHeader(s, header);
    assert [] + header == header;
    ClosedStays(Incoming(Closed, messages), payload + rest);
    assert header + (payload + rest) == Frame(payload) + rest;
  }

  lemma {:induction false} FramesYield(messages: seq<Bytes>, payloads: seq<Bytes>)
    requires Bounded(payloads)
    ensures FeedAll(Incoming(Header([]), messages), Frames(payloads)) == Incoming(Header([]), messages + payloads)
    decreases |payloads|
  {
    hide FeedAll, Frame;
    var s := Incoming(Header([]), messages);
    if payloads == [] {
      assert messages + payloads == messages;
      FeedNothing(s, Frames(payloads));
    } else {
      var first, others := payloads[0], payloads[1..];
      FrameYields(messages, first);
      FramesYield(messages + [first], others);
      assert messages + [first] + others == messages + payloads;
      FeedConcat(s, Frame(first), Frames(others));
    }
  }

  // ------------------------------------------------------------------ theorems

  /** The bytes of a frame: the payload's size, cut to 32 bits, most significant
      byte first, then the payload. */
  lemma FrameLayout(payload: Bytes)
    ensures var f := Frame(payload);
      && |f| == 4 + |payload| && f[4..] == payload
      && f[0] as int * 16777216 + f[1] as int * 65536 + f[2] as int * 256 + f[3] as int == |payload| % 4294967296
  {
    HostOfNetwork(|payload| % TWO_32);
    hide NetworkOrder;
  }

  /** What the receiver makes of the first four bytes. */
  lemma HeaderAnnounces(b0: Byte, b1: Byte, b2: Byte, b3: Byte)
    ensures var n := b0 as int * 16777216 + b1 as int * 65536 + b2 as int * 256 + b3 as int;
      FeedAll(OPEN, [b0, b1, b2, b3]) ==
        if n > 1048576 then Incoming(Closed, [])
        else if n == 0 then Incoming(Header([]), [[]])
        else Incoming(Body(n, []), [])
  {
    FillHeader(OPEN, [b0, b1, b2, b3]);
    assert [] + [b0, b1, b2, b3] == [b0, b1, b2, b3];
    hide FeedAll;
  }

  /** Whatever the chunks, the receiver gets exactly the payloads that were sent
      if and only if each of them has at most 1048576 bytes. */
  lemma RoundTripIffBounded(payloads: seq<Bytes>, chunks: seq<Bytes>)
    requires Joined(chunks) == Frames(payloads)
    ensures FeedChunks(OPEN, chunks).messages == payloads <==> forall p | p in payloads :: |p| <= 1048576
    ensures FeedChunks(OPEN, chunks).messages == payloads ==> FeedChunks(OPEN, chunks).stage == Header([])
  {
    assert Bounded(payloads) <==> forall p | p in payloads :: |p| <= 1048576;
    hide FeedAll, Frame, Joined, Bounded;
    ChunkingIrrelevant(OPEN, chunks);
    BoundedStart();
    FeedKeeps(OPEN, Frames(payloads));
    if Bounded(payloads) {
      FramesYield([], payloads);
      assert [] + payloads == payloads;
    }
  }

  lemma BoundedStart()
    ensures Bounded(OPEN.messages) && Reading(OPEN)
  {
  }

  /** No message of more than 1048576 bytes is ever handed over. */
  lemma NothingTooLong(bytes: Bytes)
    ensures forall m | m in FeedAll(OPEN, bytes).messages :: |m| <= 1048576
  {
    BoundedStart();
    FeedKeeps(OPEN, bytes);
    hide FeedAll;
  }

  /** Where the line is drawn: a payload of 1048576 bytes arrives, one byte more
      closes the connection. */
  lemma BoundIsExact(payload: Bytes)
    ensures |payload| == 1048576 ==> FeedAll(OPEN, Frame(payload)) == Incoming(Header([]), [payload])
    ensures |payload| == 1048577 ==> FeedAll(OPEN, Frame(payload)) == Incoming(Closed, [])
  {
    hide FeedAll, Frame;
    if |payload| == 1048576 {
      FrameYields([], payload);
      assert [] + [payload] == [payload];
    }
    if |payload| == 1048577 {
      FrameCloses([], payload, []);
      assert Frame(payload) + [] == Frame(payload);
    }
  }

  /** At every moment what has been received is a prefix of what was sent. */
  lemma ReceivedIsPrefix(payloads: seq<Bytes>, chunks: seq<Bytes>, rest: Bytes)
    requires Joined(chunks) + rest == Frames(payloads)
    requires forall p | p in payloads :: |p| <= 1048576
    ensures FeedChunks(OPEN, chunks).messages <= payloads
  {
    assert Bounded(payloads);
    hide FeedAll, Frame, Joined, Bounded;
    ChunkingIrrelevant(OPEN, chunks);
    FeedConcat(OPEN, Joined(chunks), rest);
    FeedExtends(FeedAll(OPEN, Joined(chunks)), rest);
    FramesYield([], payloads);
    assert [] + payloads == payloads;
  }

  /** A frame that announces too much: exactly the payloads before it arrive,
      then the connection closes and nothing after it is read. */
  lemma OversizedCloses(payloads: seq<Bytes>, oversized: Bytes, rest: Bytes, chunks: seq<Bytes>)
    requires Joined(chunks) == Frames(payloads) + Frame(oversized) + rest
    requires forall p | p in payloads :: |p| <= 1048576
    requires |oversized| % 4294967296 > 1048576
    ensures FeedChunks(OPEN, chunks) == Incoming(Closed, payloads)
  {
    assert Bounded(payloads);
    hide FeedAll, Frame, Frames, Joined, Bounded;
    ChunkingIrrelevant(OPEN, chunks);
    var tail := Frame(oversized) + rest;
    assert Joined(chunks) == Frames(payloads) + tail;
    FramesYield([], payloads);
    assert [] + payloads == payloads;
    FrameCloses(payloads, oversized, rest);
    FeedConcat(OPEN, Frames(payloads), tail);
  }
}
