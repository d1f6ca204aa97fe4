/** Packets as bytes: | type (1) | route ID (4) | payload size (2) | payload |, the constructors that
    fill a buffer, and what a forwarding router makes of a packet. */
module PacketCodec {
  import opened Routing
  import opened Bytes

  const PACKET_HEADER_SIZE := 7

  function TypeCode(b: Body): byte
  {
    match b
    case Data(_) => 0
    case Close(_) => 1
    case KeepAlive => 2
    case Handshake(_) => 3
    case Ping(_, _) => 4
    case Pong(_) => 5
    case Error(_) => 6
  }

  /** uint64(int64). */
  function ToUint64(x: Duration): (u: nat) { if x < 0 then x + 0x1_0000_0000_0000_0000 else x }
  function Int64(x: Duration): (b: bytes) ensures |b| == 8 { BE(8, ToUint64(x)) }

  function PayloadOf(b: Body): bytes
  {
    match b
    case Data(payload) => payload
    case Close(code) => [code]
    case KeepAlive => []
    case Handshake(encrypt) => [if encrypt then 1 else 0]
    case Ping(timestamp, throughput) => Int64(timestamp) + Int64(throughput)
    case Pong(sentAt) => Int64(sentAt) + Zeros(8)
    case Error(message) => message
  }

  /** Bodies whose payload size fits its field; the constructors refuse the others. */
  predicate Makeable(b: Body) { |PayloadOf(b)| <= MAX_UINT16 }

  function Header(t: byte, id: RouteID, size: nat): (h: bytes)
    ensures |h| == PACKET_HEADER_SIZE
  {
    [t] + BE(4, id) + BE(2, size)
  }

  function Encode(p: Packet): bytes { Header(TypeCode(p.body), p.id, |PayloadOf(p.body)|) + PayloadOf(p.body) }

  // ---- getters; shorter packets make the source panic ----

  function Type(p: bytes): byte requires |p| >= 1 { p[0] }
  function RouteIDOf(p: bytes): RouteID requires |p| >= 5 { Powers(); FromBE(p[1..5]) }
  function Size(p: bytes): (n: nat) requires |p| >= 7 { FromBE(p[5..7]) }
  function Payload(p: bytes): bytes requires |p| >= 7 { p[7..] }

  lemma HeaderReads(t: byte, id: RouteID, size: nat, rest: bytes)
    requires size <= MAX_UINT16
    ensures var p := Header(t, id, size) + rest;
            Type(p) == t && RouteIDOf(p) == id && Size(p) == size && Payload(p) == rest
  {
    hide BE, FromBE, Power;
    var p := Header(t, id, size) + rest;
    ReadsBack4(id);
    ReadsBack2(size);
    assert p[1..5] == BE(4, id) && p[5..7] == BE(2, size);
  }

  /** A header and the bytes after it determine the packet, and the other way round. */
  lemma HeaderIs(p: bytes)
    requires |p| >= PACKET_HEADER_SIZE
    ensures p == Header(Type(p), RouteIDOf(p), Size(p)) + Payload(p)
  {
    EncodeDecode(p[1..5]);
    EncodeDecode(p[5..7]);
    assert p == [p[0]] + p[1..5] + p[5..7] + p[7..];
  }

  lemma EncodeReads(p: Packet)
    requires Makeable(p.body)
    ensures var b := Encode(p);
            && |b| == PACKET_HEADER_SIZE + Size(b) && Type(b) == TypeCode(p.body) && RouteIDOf(b) == p.id
            && Payload(b) == PayloadOf(p.body)
  {
    HeaderReads(TypeCode(p.body), p.id, |PayloadOf(p.body)|, PayloadOf(p.body));
  }

  lemma Int64Reads(x: Duration)
    ensures FromBE(Int64(x)) == ToUint64(x) < 0x1_0000_0000_0000_0000 && ToInt64(FromBE(Int64(x))) == x
  {
    hide BE, FromBE;
    ReadsBack8(ToUint64(x));
  }

  lemma Int64Bytes(b: bytes)
    requires |b| == 8
    ensures FromBE(b) < 0x1_0000_0000_0000_0000 && Int64(ToInt64(FromBE(b))) == b
  {
    Powers();
    EncodeDecode(b);
  }

  // ---- forwarding ----

  datatype Forwarding = Out(packet: bytes) | ErrTooBig | ErrCannotForward | Panic

  function Remake(next: RouteID, b: Body): Forwarding
  {
    if Makeable(b) then Out(Encode(Packet(next, b))) else ErrTooBig
  }

  /** The packet rebuilt with the next route ID, kind by kind. */
  function Forward(p: bytes, next: RouteID): Forwarding
  {
    if |p| < PACKET_HEADER_SIZE then Panic
    else if p[0] == 0 then Remake(next, Data(Payload(p)))
    else if p[0] == 3 then if |p| < 8 then Panic else Remake(next, Handshake(p[7] != 0))
    else if p[0] == 2 then Remake(next, KeepAlive)
    else if p[0] == 1 then if |p| < 8 then Panic else Remake(next, Close(p[7]))
    else if p[0] == 4 then
      if |p| < 23 then Panic
      else
        Powers();
        Remake(next, Ping(ToInt64(FromBE(p[7..15])), ToInt64(FromBE(p[15..23]))))
    else if p[0] == 5 then
      if |p| < 15 then Panic
      else
        Powers();
        Remake(next, Pong(ToInt64(FromBE(p[7..15]))))
    else if p[0] == 6 then Remake(next, Error(Payload(p)))
    else ErrCannotForward
  }

  /** Every constructed packet is forwarded as itself with the next route ID. */
  lemma ForwardPreserves(p: Packet, next: RouteID)
    requires Makeable(p.body)
    ensures Forward(Encode(p), next) == Out(Encode(p.(id := next)))
  {
    var b := Encode(p);
    EncodeReads(p);
    var pay := PayloadOf(p.body);
    assert b[7..] == pay;
    match p.body
    case Ping(x, y) =>
      Int64Reads(x);
      Int64Reads(y);
      assert b[7..15] == pay[..8] == Int64(x) && b[15..23] == pay[8..] == Int64(y);
    case Pong(x) =>
      Int64Reads(x);
      assert b[7..15] == pay[..8] == Int64(x);
    case Close(_) => assert b[7] == pay[0];
    case Handshake(_) => assert b[7] == pay[0];
    case KeepAlive =>
    case Data(_) =>
    case Error(_) =>
  }

  /** Forwarding through a chain of rules with the given next IDs. */
  function ForwardAll(p: bytes, nexts: seq<RouteID>): Forwarding
    decreases |nexts|
  {
    if nexts == [] then Out(p)
    else
      match Forward(p, nexts[0])
      case Out(q) => ForwardAll(q, nexts[1..])
      case e => e
  }

  /** Over any chain of rules the delivered packet is the original but for its route ID, which is the
      next ID of the last rule. */
  lemma {:induction false} ChainPreserves(p: Packet, nexts: seq<RouteID>)
    requires Makeable(p.body)
    ensures ForwardAll(Encode(p), nexts) ==
              Out(Encode(if nexts == [] then p else p.(id := nexts[|nexts| - 1])))
    decreases |nexts|
  {
    if nexts != [] {
      hide Encode, Forward, Makeable;
      var q := p.(id := nexts[0]);
      ForwardPreserves(p, nexts[0]);
      assert ForwardAll(Encode(p), nexts) == ForwardAll(Encode(q), nexts[1..]);
      ChainPreserves(q, nexts[1..]);
      assert |nexts| > 1 ==> nexts[1..][|nexts| - 2] == nexts[|nexts| - 1];
    }
  }

  /** A packet as it comes out of the framing layer. */
  predicate Framed(p: bytes) { |p| >= PACKET_HEADER_SIZE && |p| == PACKET_HEADER_SIZE + Size(p) }

  function WithRouteID(p: bytes, id: RouteID): bytes
    requires |p| >= PACKET_HEADER_SIZE
  {
    p[..1] + BE(4, id) + p[5..]
  }

  /** Payloads that the kind of packet can have. */
  predicate Regular(p: bytes)
    requires Framed(p)
  {
    match p[0]
    case 0 => true
    case 1 => Size(p) == 1
    case 2 => Size(p) == 0
    case 3 => Size(p) == 1 && p[7] <= 1
    case 4 => Size(p) == 16
    case 5 => Size(p) == 16 && p[15..] == Zeros(8)
    case 6 => true
    case _ => false
  }

  /** Any framed packet, from whatever peer, is forwarded unchanged but for its route ID exactly when
      its payload is one its kind can have. */
  lemma ForwardUnchangedIff(p: bytes, next: RouteID)
    requires Framed(p)
    ensures Forward(p, next) == Out(WithRouteID(p, next)) <==> Regular(p)
  {
    Powers();
    HeaderIs(p);
    var q := WithRouteID(p, next);
    SameHeader(p, next);
    if Regular(p) { RegularForward(p, next); }
    if Forward(p, next) == Out(q) { ForwardRegular(p, next); }
  }

  /** The outcomes that forward nothing: a payload too short for its kind makes the router panic, an unknown
      kind is an error, and no framed packet is too big. */
  lemma ForwardFails(p: bytes, next: RouteID)
    requires Framed(p)
    ensures Forward(p, next).Panic? <==>
      ((p[0] == 1 || p[0] == 3) && Size(p) < 1) || (p[0] == 4 && Size(p) < 16) || (p[0] == 5 && Size(p) < 8)
    ensures Forward(p, next).ErrCannotForward? <==> p[0] > 6
    ensures !Forward(p, next).ErrTooBig?
  {
    Powers();
    hide FromBE, BE, Power;
  }

  lemma SameHeader(p: bytes, next: RouteID)
    requires |p| >= PACKET_HEADER_SIZE
    ensures WithRouteID(p, next) == Header(p[0], next, Size(p)) + Payload(p)
  {
    EncodeDecode(p[5..7]);
    assert p[5..] == p[5..7] + p[7..] && p[..1] == [p[0]];
  }

  lemma RegularForward(p: bytes, next: RouteID)
    requires Framed(p) && Regular(p)
    ensures Forward(p, next) == Out(WithRouteID(p, next))
  {
    SameHeader(p, next);
    Powers();
    hide Header, WithRouteID, Size;
    if p[0] == 1 || p[0] == 3 {
      assert p[7..] == [p[7]];
    } else if p[0] == 4 {
      Int64Bytes(p[7..15]);
      Int64Bytes(p[15..23]);
      assert p[7..] == p[7..15] + p[15..23];
    } else if p[0] == 5 {
      Int64Bytes(p[7..15]);
      assert p[7..] == p[7..15] + p[15..];
    }
  }

  lemma ForwardRegular(p: bytes, next: RouteID)
    requires Framed(p) && Forward(p, next) == Out(WithRouteID(p, next))
    ensures Regular(p)
  {
    SameHeader(p, next);
    Powers();
    var q := WithRouteID(p, next);
    assert q[7..] == p[7..];
    if p[0] == 1 {
      assert q == Encode(Packet(next, Close(p[7])));
      assert q[7..] == [p[7]];
    } else if p[0] == 3 {
      assert q == Encode(Packet(next, Handshake(p[7] != 0)));
      assert q[7..] == [if p[7] != 0 then 1 else 0];
    } else if p[0] == 2 {
      assert q == Encode(Packet(next, KeepAlive));
    } else if p[0] == 4 {
      assert |q| == 23;
    } else if p[0] == 5 {
      var x := ToInt64(FromBE(p[7..15]));
      assert q[7..] == Int64(x) + Zeros(8);
      assert q[7..][8..] == Zeros(8);
      assert p[7..][8..] == p[15..];
    }
  }
}
