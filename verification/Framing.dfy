/** readPacket over a transport that hands out its bytes in arbitrary pieces. */
module Framing {
  import opened Routing
  import opened Bytes
  import opened PacketCodec

  /** The first packet of a byte stream and what follows it; None if the stream ends too early. */
  function ParseOne(s: bytes): (r: Option<(bytes, bytes)>)
    ensures r.Some? ==> |r.value.1| < |s| && r.value.0 + r.value.1 == s && Framed(r.value.0)
  {
    if |s| < PACKET_HEADER_SIZE || |s| < PACKET_HEADER_SIZE + Size(s) then None
    else
      var n := PACKET_HEADER_SIZE + Size(s);
      assert s[..n][5..7] == s[5..7];
      Some((s[..n], s[n..]))
  }

  /** The payload size that the first seven bytes announce. */
  function Announced(s: bytes): nat
    requires |s| >= 7
  {
    0x100 * (s[5] as int) + s[6]
  }

  lemma ParseOneIs(s: bytes)
    ensures ParseOne(s) ==
      if |s| >= 7 && |s| >= 7 + Announced(s) then Some((s[..7 + Announced(s)], s[7 + Announced(s)..])) else None
  {
    if |s| >= 7 { Number2(s[5..7]); }
    hide FromBE;
  }

  /** All packets of a stream, and the tail on which the last read fails. */
  function Parse(s: bytes): (seq<bytes>, bytes)
    decreases |s|
  {
    match ParseOne(s)
    case None => ([], s)
    case Some((p, rest)) => var (ps, tail) := Parse(rest); ([p] + ps, tail)
  }

  // ---- the reader ----

  /** `chunks` are the pieces the network will still deliver, possibly empty ones. */
  class Stream {
    var chunks: seq<bytes>

    ghost function Contents(): bytes reads this { Flat(chunks) }

    constructor (cs: seq<bytes>)
      ensures chunks == cs
    {
      chunks := cs;
    }

    /** One Read into a buffer of n bytes; it may return fewer bytes than asked for, even none. */
    method Read(n: nat) returns (b: bytes, eof: bool)
      modifies this
      ensures |b| <= n && old(Contents()) == b + Contents()
      ensures eof <==> old(chunks) == []
      ensures eof ==> b == [] && chunks == []
      ensures !eof && n > 0 ==> |chunks| < |old(chunks)| || (|chunks| == |old(chunks)| && |b| == n)
    {
      if chunks == [] { return [], true; }
      var c := chunks[0];
      var k := if n < |c| then n else |c|;
      b, eof := c[..k], false;
      if k == |c| {
        chunks := chunks[1..];
        assert c[..k] == c;
      } else {
        assert c == c[..k] + c[k..];
        chunks := [c[k..]] + chunks[1..];
        assert chunks[1..] == old(chunks)[1..];
      }
    }

    /** io.ReadFull: exactly n bytes, or an error once the stream has ended. */
    method ReadFull(n: nat) returns (r: Option<bytes>)
      modifies this
      ensures r.Some? <==> |old(Contents())| >= n
      ensures r.Some? ==> |r.value| == n && old(Contents()) == r.value + Contents()
      ensures r.None? ==> Contents() == []
    {
      var got: bytes := [];
      while |got| < n
        invariant |got| <= n && old(Contents()) == got + Contents()
        decreases |chunks|, n - |got|
      {
        var b, eof := Read(n - |got|);
        if eof {
          assert old(Contents()) == got;
          return None;
        }
        got := got + b;
      }
      return Some(got);
    }

    /** The header, then as many bytes as it announces. */
    method ReadPacket() returns (r: Option<bytes>)
      modifies this
      ensures ParseOne(old(Contents())) == if r.Some? then Some((r.value, Contents())) else None
      ensures var s := old(Contents());
              && (r.Some? <==> |s| >= 7 && |s| >= 7 + Announced(s))
              && (r.Some? ==> r.value == s[..7 + Announced(s)] && Contents() == s[7 + Announced(s)..])
    {
      ParseOneIs(Contents());
      ghost var s := Contents();
      var h := ReadFull(PACKET_HEADER_SIZE);
      if h.None? { return None; }
      var n := Size(h.value);
      ghost var rest := Contents();
      assert s[5..7] == h.value[5..7] && |s| == PACKET_HEADER_SIZE + |rest|;
      var p := ReadFull(n);
      if p.None? { return None; }
      assert s == h.value + p.value + Contents();
      assert s[..PACKET_HEADER_SIZE + n] == h.value + p.value && s[PACKET_HEADER_SIZE + n..] == Contents();
      return Some(h.value + p.value);
    }

    /** The read loop, until the transport fails. */
    method ReadAll() returns (ps: seq<bytes>)
      modifies this
      ensures ps == Parse(old(Contents())).0
    {
      ps := [];
      ghost var s := Contents();
      assert [] + Parse(s).0 == Parse(s).0;
      while true
        invariant Parse(s) == (ps + Parse(Contents()).0, Parse(Contents()).1)
        decreases |Contents()|
      {
        ghost var before := Contents();
        var p := ReadPacket();
        if p.None? {
          assert Parse(before).0 == [] && ps + [] == ps;
          return;
        }
        assert Parse(before).0 == [p.value] + Parse(Contents()).0;
        assert ps + ([p.value] + Parse(Contents()).0) == ps + [p.value] + Parse(Contents()).0;
        ps := ps + [p.value];
      }
    }
  }

  // ---- framing is an inverse ----

  function EncodeAll(ps: seq<Packet>): (r: seq<bytes>)
    ensures |r| == |ps| && forall i :: 0 <= i < |ps| ==> r[i] == Encode(ps[i])
  {
    seq(|ps|, i requires 0 <= i < |ps| => Encode(ps[i]))
  }

  lemma {:induction false} ParseConserves(s: bytes)
    ensures Flat(Parse(s).0) + Parse(s).1 == s && ParseOne(Parse(s).1).None?
    decreases |s|
  {
    match ParseOne(s)
    case None =>
    case Some((p, rest)) =>
      ParseConserves(rest);
      var (ps, tail) := Parse(rest);
      assert ([p] + ps)[1..] == ps;
      assert p + Flat(ps) + tail == p + (Flat(ps) + tail);
  }

  lemma ParseFront(p: Packet, rest: bytes)
    requires Makeable(p.body)
    ensures ParseOne(Encode(p) + rest) == Some((Encode(p), rest))
  {
    var s := Encode(p) + rest;
    EncodeReads(p);
    assert s[5..7] == Encode(p)[5..7];
    assert s[..|Encode(p)|] == Encode(p) && s[|Encode(p)|..] == rest;
  }

  /** The stream of any list of constructed packets, followed by less than one more packet, parses to
      exactly that list and fails on the tail. */
  lemma {:induction false} FramingInverse(ps: seq<Packet>, tail: bytes)
    requires (forall i :: 0 <= i < |ps| ==> Makeable(ps[i].body)) && ParseOne(tail).None?
    ensures Parse(Flat(EncodeAll(ps)) + tail) == (EncodeAll(ps), tail)
    decreases |ps|
  {
    hide Makeable, Encode;
    if ps == [] {
      assert Flat(EncodeAll(ps)) + tail == tail;
    } else {
      var rest := Flat(EncodeAll(ps[1..])) + tail;
      assert EncodeAll(ps)[1..] == EncodeAll(ps[1..]);
      assert Flat(EncodeAll(ps)) + tail == Encode(ps[0]) + rest;
      ParseFront(ps[0], rest);
      FramingInverse(ps[1..], tail);
      assert EncodeAll(ps) == [Encode(ps[0])] + EncodeAll(ps[1..]);
    }
  }

  /** A packet cut short anywhere yields no packet. */
  lemma TruncatedFails(p: Packet, k: nat)
    requires Makeable(p.body) && k < |Encode(p)|
    ensures ParseOne(Encode(p)[..k]).None?
  {
    EncodeReads(p);
    if k >= PACKET_HEADER_SIZE { assert Encode(p)[..k][5..7] == Encode(p)[5..7]; }
  }

  /** However the network splits the bytes of a list of packets, the read loop returns that list. */
  method ReadBack(ps: seq<Packet>, chunks: seq<bytes>) returns (got: seq<bytes>)
    requires forall i :: 0 <= i < |ps| ==> Makeable(ps[i].body)
    requires Flat(chunks) == Flat(EncodeAll(ps))
    ensures got == EncodeAll(ps)
  {
    var s := new Stream(chunks);
    FramingInverse(ps, []);
    assert Flat(EncodeAll(ps)) + [] == Flat(EncodeAll(ps));
    got := s.ReadAll();
  }
}
