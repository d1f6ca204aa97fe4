/** Values shared by the whole route layer: keys, identifiers, descriptors, rules and packets.
    The byte layouts behind rules and packets are in RuleCodec and PacketCodec, which prove that
    these datatypes carry exactly the information of the source's buffers. */
module Routing {
  type byte = x: int | 0 <= x < 0x100
  type bytes = seq<byte>

  const PK_SIZE := 33
  const UUID_SIZE := 16
  const MAX_UINT16 := 0xFFFF
  const MAX_UINT32 := 0xFFFF_FFFF

  type PKBytes = k: bytes | |k| == PK_SIZE witness seq(PK_SIZE, _ => 0)
  type UUIDBytes = u: bytes | |u| == UUID_SIZE witness seq(UUID_SIZE, _ => 0)

  datatype PubKey = PubKey(raw: PKBytes)
  datatype UUID = UUID(raw: UUIDBytes)
  type RouteID = x: int | 0 <= x <= MAX_UINT32
  type Port = x: int | 0 <= x <= MAX_UINT16

  /** time.Duration: nanoseconds in an int64. */
  type Duration = x: int | -0x8000_0000_0000_0000 <= x < 0x8000_0000_0000_0000

  const SECOND: Duration := 1_000_000_000

  datatype Option<+T> = None | Some(value: T)

  datatype Addr = Addr(pk: PubKey, port: Port)

  datatype Desc = Desc(srcPK: PubKey, dstPK: PubKey, srcPort: Port, dstPort: Port) {
    function Src(): Addr { Addr(srcPK, srcPort) }
    function Dst(): Addr { Addr(dstPK, dstPort) }
    function Invert(): Desc { Desc(dstPK, srcPK, dstPort, srcPort) }
  }

  datatype Hop = Hop(tp: UUID, from: PubKey, to: PubKey)

  datatype Rule =
    | Consume(keepAlive: Duration, key: RouteID, desc: Desc)
    | Forward(keepAlive: Duration, key: RouteID, next: RouteID, tp: UUID, desc: Desc)
    | Intermediary(keepAlive: Duration, key: RouteID, next: RouteID, tp: UUID)

  /** What a packet carries, without its route ID. */
  datatype Body =
    | Data(payload: bytes)
    | Close(code: byte)
    | KeepAlive
    | Handshake(encrypt: bool)
    | Ping(timestamp: Duration, throughput: Duration)
    | Pong(sentAt: Duration)
    | Error(message: bytes)

  datatype Packet = Packet(id: RouteID, body: Body)

  /** The IDs `first`, `first` + 1, ... */
  function Consecutive(first: nat, n: nat): (r: seq<RouteID>)
    requires first + n <= MAX_UINT32 + 1
    ensures |r| == n && forall i :: 0 <= i < n ==> r[i] == first + i
  {
    seq(n, i requires 0 <= i < n => first + i)
  }
}
