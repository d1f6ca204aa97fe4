/** The bytes of rules and descriptors, by index and with plain arithmetic. */
module RuleLayout {
  import opened Routing
  import opened Bytes
  import opened RuleCodec
  import opened RuleSummaries

  /** b holds the 32-bit number x at `off`, most significant byte first. */
  ghost predicate Has4(b: bytes, off: nat, x: nat)
  {
    && off + 4 <= |b|
    && b[off] == x / 0x100_0000 % 0x100 && b[off + 1] == x / 0x1_0000 % 0x100
    && b[off + 2] == x / 0x100 % 0x100 && b[off + 3] == x % 0x100
  }

  ghost predicate Has2(b: bytes, off: nat, x: nat)
  {
    off + 2 <= |b| && b[off] == x / 0x100 % 0x100 && b[off + 1] == x % 0x100
  }

  lemma Slice4(b: bytes, off: nat, x: nat)
    requires off + 4 <= |b| && b[off..off + 4] == BE(4, x)
    ensures Has4(b, off, x)
  {
    hide BE;
    Bytes4(x);
    var s := b[off..off + 4];
    assert s[0] == b[off] && s[1] == b[off + 1] && s[2] == b[off + 2] && s[3] == b[off + 3];
  }

  lemma Slice2(b: bytes, off: nat, x: nat)
    requires off + 2 <= |b| && b[off..off + 2] == BE(2, x)
    ensures Has2(b, off, x)
  {
    hide BE;
    Bytes2(x);
    var s := b[off..off + 2];
    assert s[0] == b[off] && s[1] == b[off + 1];
  }

  ghost predicate Has8(b: bytes, off: nat, x: nat)
  {
    off + 8 <= |b| && forall k :: off <= k < off + 8 ==> b[k] == x / Power(off + 7 - k) % 0x100
  }

  lemma Slice8(b: bytes, off: nat, x: nat)
    requires off + 8 <= |b| && b[off..off + 8] == BE(8, x)
    ensures Has8(b, off, x)
  {
    hide BE, Power;
    forall k | off <= k < off + 8 ensures b[k] == x / Power(off + 7 - k) % 0x100 {
      BigEndian(8, x, k - off);
      assert b[off..off + 8][k - off] == b[k];
    }
  }

  /** Eight bytes of keep-alive, one of type, four of key. */
  lemma HeadBytes(r: Rule)
    ensures var b := Encode(r);
            && |b| == (if r.Consume? then 83 else if r.Forward? then 120 else 50)
            && Has8(b, 0, if r.keepAlive < 0 then 0 else r.keepAlive)
            && b[8] == (if r.Consume? then 0 else if r.Forward? then 1 else 2)
            && Has4(b, 9, r.key)
  {
    hide BE, Power, Join, At, Formed, Has8, Has4;
    var b, f, w := Encode(r), Fields(r), WidthsOf(r);
    HeadReads(r);
    EncodeFormed(r);
    HeadAt(w);
    DescAt(ConsumeWidths);
    ForwardAt();
    IntermediaryAt();
    GetField(b, f, w, 0);
    GetField(b, f, w, 1);
    GetField(b, f, w, 2);
    assert b[8..9][0] == b[8];
    Slice8(b, 0, NonNegative(r.keepAlive));
    Slice4(b, 9, r.key);
  }

  /** Source and destination key, source and destination port. */
  lemma DescBytes(d: Desc)
    ensures var b := EncodeDesc(d);
            && |b| == 70 && b[0..33] == d.srcPK.raw && b[33..66] == d.dstPK.raw
            && Has2(b, 66, d.srcPort) && Has2(b, 68, d.dstPort)
  {
    hide BE, At, Formed, Join;
    DescFormed(d);
    DescOffsets();
    var b, f, w := EncodeDesc(d), DescFields(d), DescWidths;
    GetField(b, f, w, 0);
    GetField(b, f, w, 1);
    GetField(b, f, w, 2);
    GetField(b, f, w, 3);
    Slice2(b, 66, d.srcPort);
    Slice2(b, 68, d.dstPort);
  }

  /** The rest of each kind of rule: the descriptor, then next route, next transport and zeros. */
  lemma BodyBytes(r: Rule)
    ensures var b := Encode(r);
            && (!r.Intermediary? ==> |b| >= 83 && b[13..83] == EncodeDesc(r.desc))
            && (r.Forward? ==> Has4(b, 83, r.next) && |b| == 120 && b[87..103] == r.tp.raw && b[103..120] == Zeros(17))
            && (r.Intermediary? ==> Has4(b, 13, r.next) && |b| == 50 && b[17..33] == r.tp.raw && b[33..50] == Zeros(17))
  {
    var b, f, w := Encode(r), Fields(r), WidthsOf(r);
    HeadBytes(r);
    EncodeFormed(r);
    ForwardAt();
    IntermediaryAt();
    hide BE, Join, At, Formed, Has4, Power;
    if !r.Intermediary? { DescReads(r); }
    if !r.Consume? {
      var i := if r.Forward? then 7 else 3;
      GetField(b, f, w, i);
      GetField(b, f, w, i + 1);
      GetField(b, f, w, i + 2);
      Slice4(b, if r.Forward? then 83 else 13, r.next);
    }
  }

  /** The getters on arbitrary bytes, in the same terms: keep-alives above the int64 range are negative. */
  lemma GettersRead(b: bytes)
    requires |b| >= 13
    ensures KeepAliveOf(b).Some? && Has8(b, 0, KeepAliveOf(b).value % 0x1_0000_0000_0000_0000)
    ensures TypeOf(b) == Some(b[8]) && KeyRouteID(b).Some? && Has4(b, 9, KeyRouteID(b).value)
    ensures NextRouteID(b).Some? ==> Has4(b, if b[8] == 1 then 83 else 13, NextRouteID(b).value)
    ensures NextTransportID(b).Some? ==>
      var off := if b[8] == 1 then 87 else 17; off + 16 <= |b| && NextTransportID(b).value.raw == b[off..off + 16]
    ensures RouteDescriptor(b).Some? ==>
      && |b| >= 83
      && var d := DecodeDesc(RouteDescriptor(b).value);
         d.srcPK.raw == b[13..46] && d.dstPK.raw == b[46..79] && Has2(b, 79, d.srcPort) && Has2(b, 81, d.dstPort)
  {
    hide BE, FromBE, Power, Has8, Has4, Has2;
    EncodeDecode(b[9..13]);
    Slice4(b, 9, KeyRouteID(b).value);
    KeepAliveReads(b);
    if NextRouteID(b).Some? {
      var off := if b[8] == 1 then 83 else 13;
      EncodeDecode(b[off..off + 4]);
      Slice4(b, off, NextRouteID(b).value);
    }
    if RouteDescriptor(b).Some? { DescReadsAt(b); }
  }

  /** When the getters answer at all: the source panics on other types and shorter buffers. */
  lemma GettersDefined(b: bytes)
    ensures KeepAliveOf(b).Some? <==> |b| >= 13
    ensures TypeOf(b).Some? <==> |b| >= 13
    ensures KeyRouteID(b).Some? <==> |b| >= 13
    ensures RouteDescriptor(b).Some? <==> |b| >= 83 && b[8] <= 1
    ensures NextRouteID(b).Some? <==> (|b| >= 87 && b[8] == 1) || (|b| >= 17 && b[8] == 2)
    ensures NextTransportID(b).Some? <==> (|b| >= 103 && b[8] == 1) || (|b| >= 33 && b[8] == 2)
    ensures Summary(b).Some? <==>
      (|b| >= 83 && b[8] == 0) || (|b| >= 103 && b[8] == 1) || (|b| >= 33 && b[8] == 2)
  {
    hide FromBE;
  }

  lemma KeepAliveReads(b: bytes)
    requires |b| >= 13
    ensures KeepAliveOf(b).Some? && Has8(b, 0, KeepAliveOf(b).value % 0x1_0000_0000_0000_0000)
  {
    Powers();
    hide BE, FromBE, Has8, Power;
    EncodeDecode(b[0..8]);
    assert KeepAliveOf(b).value % 0x1_0000_0000_0000_0000 == FromBE(b[0..8]);
    Slice8(b, 0, FromBE(b[0..8]));
  }

  lemma DescReadsAt(b: bytes)
    requires |b| >= 83
    ensures var d := DecodeDesc(b[13..83]);
            d.srcPK.raw == b[13..46] && d.dstPK.raw == b[46..79] && Has2(b, 79, d.srcPort) && Has2(b, 81, d.dstPort)
  {
    hide BE, FromBE, Power;
    SliceOfSlice(b, 13, 83, 0, 33);
    SliceOfSlice(b, 13, 83, 33, 66);
    SliceOfSlice(b, 13, 83, 66, 68);
    SliceOfSlice(b, 13, 83, 68, 70);
    EncodeDecode(b[79..81]);
    EncodeDecode(b[81..83]);
    Slice2(b, 79, FromBE(b[79..81]));
    Slice2(b, 81, FromBE(b[81..83]));
  }

  /** A summary shows the fields of its rule under their own names. */
  lemma SummaryShows(r: Rule)
    ensures var s := Summary(Encode(r));
            && s.Some? && s.value.key == r.key && s.value.keepAlive == (if r.keepAlive < 0 then 0 else r.keepAlive)
            && s.value.typ == (if r.Consume? then 0 else if r.Forward? then 1 else 2)
            && s.value.consume == (if r.Consume? then Some(r.desc) else None)
            && s.value.forward == (if r.Forward? then Some(ForwardFields(r.desc, r.next, r.tp)) else None)
            && s.value.inter == (if r.Intermediary? then Some(IntermediaryFields(r.next, r.tp)) else None)
  {
    hide Summary, Encode;
    SummaryReads(r);
  }
}
