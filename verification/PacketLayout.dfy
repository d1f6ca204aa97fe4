/** The bytes of packets, by index and with plain arithmetic. */
module PacketLayout {
  import opened Routing
  import opened Bytes
  import opened PacketCodec
  import opened RuleLayout

  /** The payload size of each kind. */
  function SizeOf(b: Body): nat
  {
    match b
    case Data(payload) => |payload|
    case Error(message) => |message|
    case Ping(_, _) => 16
    case Pong(_) => 16
    case KeepAlive => 0
    case Close(_) => 1
    case Handshake(_) => 1
  }

  /** Only data and errors can be too long for a packet. */
  lemma MakeableIff(b: Body)
    ensures Makeable(b) <==> SizeOf(b) <= 65535
    ensures !b.Data? && !b.Error? ==> Makeable(b)
  {
  }

  /** One byte of type, four of route ID, two of payload size. */
  lemma HeaderBytes(p: Packet)
    requires Makeable(p.body)
    ensures var b, n := Encode(p), SizeOf(p.body);
            && |b| == 7 + n && Has4(b, 1, p.id) && Has2(b, 5, n)
            && match p.body
               case Data(_) => b[0] == 0
               case Close(_) => b[0] == 1
               case KeepAlive => b[0] == 2
               case Handshake(_) => b[0] == 3
               case Ping(_, _) => b[0] == 4
               case Pong(_) => b[0] == 5
               case Error(_) => b[0] == 6
  {
    var b, n := Encode(p), |PayloadOf(p.body)|;
    hide BE;
    assert n == SizeOf(p.body);
    assert b[1..5] == BE(4, p.id) && b[5..7] == BE(2, n);
    Slice4(b, 1, p.id);
    Slice2(b, 5, n);
  }

  /** The two's complement of an int64. */
  function Unsigned(x: Duration): nat { x % 0x1_0000_0000_0000_0000 }

  lemma SliceInt64(b: bytes, off: nat, x: Duration)
    requires off + 8 <= |b| && b[off..off + 8] == Int64(x)
    ensures Has8(b, off, Unsigned(x))
  {
    hide BE, Has8;
    Slice8(b, off, ToUint64(x));
  }

  lemma PayloadBytes(p: Packet)
    requires Makeable(p.body)
    ensures var b := Encode(p);
            && |b| == 7 + SizeOf(p.body)
            && match p.body
               case Data(payload) => b[7..] == payload
               case Error(message) => b[7..] == message
               case KeepAlive => b[7..] == []
               case Close(code) => b[7] == code
               case Handshake(encrypt) => b[7] == if encrypt then 1 else 0
               case Ping(timestamp, throughput) => Has8(b, 7, Unsigned(timestamp)) && Has8(b, 15, Unsigned(throughput))
               case Pong(sentAt) => Has8(b, 7, Unsigned(sentAt)) && b[15..] == Zeros(8)
  {
    var b, pay := Encode(p), PayloadOf(p.body);
    HeaderBytes(p);
    assert b[7..] == pay;
    hide BE, Encode, Header, Has4, Has2, Has8;
    match p.body
    case Ping(t, u) =>
      assert b[7..15] == b[7..][..8] == Int64(t) && b[15..23] == b[7..][8..] == Int64(u);
      SliceInt64(b, 7, t);
      SliceInt64(b, 15, u);
    case Pong(t) =>
      assert b[7..15] == b[7..][..8] == Int64(t) && b[15..] == b[7..][8..] == Zeros(8);
      SliceInt64(b, 7, t);
    case Close(_) => assert b[7] == b[7..][0];
    case Handshake(_) => assert b[7] == b[7..][0];
    case Data(_) =>
    case Error(_) =>
    case KeepAlive =>
  }

  /** The getters on arbitrary bytes. */
  lemma HeaderRead(p: bytes)
    requires |p| >= 7
    ensures Has4(p, 1, RouteIDOf(p)) && Size(p) == 0x100 * (p[5] as int) + p[6] && Type(p) == p[0]
  {
    hide BE, FromBE;
    Number2(p[5..7]);
    EncodeDecode(p[1..5]);
    Slice4(p, 1, RouteIDOf(p));
  }
}
