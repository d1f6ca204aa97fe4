/** The packet constructors: a fresh buffer, its header, then its payload, written in place. */
module PacketBuffers {
  import opened Routing
  import opened Bytes
  import opened PacketCodec

  method PutHeader(p: array<byte>, t: byte, id: RouteID, size: nat)
    requires p.Length >= PACKET_HEADER_SIZE
    modifies p
    ensures p[..] == Header(t, id, size) + old(p[PACKET_HEADER_SIZE..])
  {
    p[0] := t;
    Put(p, 1, BE(4, id));
    Put(p, 5, BE(2, size));
  }

  lemma SpliceAfter(h: bytes, s: bytes, k: nat, b: bytes)
    requires k + |b| <= |s|
    ensures Splice(h + s, |h| + k, b) == h + Splice(s, k, b)
  {
  }

  /** A buffer with the payload size in its header; the payload is still zero. */
  method NewPacket(t: byte, id: RouteID, size: nat) returns (p: array<byte>)
    ensures fresh(p) && p.Length == PACKET_HEADER_SIZE + size && p[..] == Header(t, id, size) + Zeros(size)
  {
    p := new byte[PACKET_HEADER_SIZE + size](_ => 0);
    assert p[PACKET_HEADER_SIZE..] == Zeros(size);
    PutHeader(p, t, id, size);
  }

  /** None is ErrPayloadTooBig. */
  method MakeDataPacket(id: RouteID, payload: bytes) returns (ok: bool, p: array<byte>)
    ensures ok <==> Makeable(Data(payload))
    ensures ok ==> p[..] == Encode(Packet(id, Data(payload)))
  {
    if |payload| > MAX_UINT16 { ok, p := false, new byte[0]; return; }
    p := NewPacket(0, id, |payload|);
    SpliceAfter(Header(0, id, |payload|), Zeros(|payload|), 0, payload);
    Put(p, PACKET_HEADER_SIZE, payload);
    ok := true;
  }

  method MakeErrorPacket(id: RouteID, message: bytes) returns (ok: bool, p: array<byte>)
    ensures ok <==> Makeable(Error(message))
    ensures ok ==> p[..] == Encode(Packet(id, Error(message)))
  {
    if |message| > MAX_UINT16 { ok, p := false, new byte[0]; return; }
    p := NewPacket(6, id, |message|);
    SpliceAfter(Header(6, id, |message|), Zeros(|message|), 0, message);
    Put(p, PACKET_HEADER_SIZE, message);
    ok := true;
  }

  method MakeClosePacket(id: RouteID, code: byte) returns (p: array<byte>)
    ensures p[..] == Encode(Packet(id, Close(code)))
  {
    p := NewPacket(1, id, 1);
    p[PACKET_HEADER_SIZE] := code;
  }

  method MakeKeepAlivePacket(id: RouteID) returns (p: array<byte>)
    ensures p[..] == Encode(Packet(id, KeepAlive))
  {
    p := NewPacket(2, id, 0);
  }

  method MakeHandshakePacket(id: RouteID, supportEncryption: bool) returns (p: array<byte>)
    ensures p[..] == Encode(Packet(id, Handshake(supportEncryption)))
  {
    var val: byte := 1;
    if !supportEncryption { val := 0; }
    p := NewPacket(3, id, 1);
    p[PACKET_HEADER_SIZE] := val;
  }

  method MakePingPacket(id: RouteID, timestamp: Duration, throughput: Duration) returns (p: array<byte>)
    ensures p[..] == Encode(Packet(id, Ping(timestamp, throughput)))
  {
    hide BE;
    p := NewPacket(4, id, 16);
    var h, x, y := Header(4, id, 16), Int64(timestamp), Int64(throughput);
    Put(p, PACKET_HEADER_SIZE, x);
    SpliceAfter(h, Zeros(16), 0, x);
    assert Splice(Zeros(16), 0, x) == x + Zeros(8);
    Put(p, PACKET_HEADER_SIZE + 8, y);
    SpliceAfter(h, x + Zeros(8), 8, y);
    assert Splice(x + Zeros(8), 8, y) == x + y;
  }

  method MakePongPacket(id: RouteID, timestamp: Duration) returns (p: array<byte>)
    ensures p[..] == Encode(Packet(id, Pong(timestamp)))
  {
    hide BE;
    p := NewPacket(5, id, 16);
    var x := Int64(timestamp);
    Put(p, PACKET_HEADER_SIZE, x);
    SpliceAfter(Header(5, id, 16), Zeros(16), 0, x);
    assert Splice(Zeros(16), 0, x) == x + Zeros(8);
  }
}
