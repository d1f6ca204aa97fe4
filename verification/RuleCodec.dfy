/** Rules as the source keeps them: byte buffers with a hand-laid layout, filled in place by setters
    and read by offset.  A getter that would panic is None. */
module RuleCodec {
  import opened Routing
  import opened Bytes

  const RULE_HEADER_SIZE := 13
  const DESC_SIZE := 70
  const RULE_REVERSE: byte := 0
  const RULE_FORWARD: byte := 1
  const RULE_INTERMEDIARY: byte := 2

  /** Keep-alive, type, key; descriptor (two keys, two ports); next route, next transport, spare. */
  const ConsumeWidths: seq<nat> := [8, 1, 4, 33, 33, 2, 2]
  const ForwardWidths: seq<nat> := [8, 1, 4, 33, 33, 2, 2, 4, 16, 17]
  const IntermediaryWidths: seq<nat> := [8, 1, 4, 4, 16, 17]
  const DescWidths: seq<nat> := [33, 33, 2, 2]

  function NonNegative(d: Duration): nat { if d < 0 then 0 else d }

  // ---- the bytes of a rule ----

  function Fields(r: Rule): seq<bytes>
  {
    match r
    case Consume(ka, key, d) =>
      [BE(8, NonNegative(ka)), [RULE_REVERSE], BE(4, key),
       d.srcPK.raw, d.dstPK.raw, BE(2, d.srcPort), BE(2, d.dstPort)]
    case Forward(ka, key, next, tp, d) =>
      [BE(8, NonNegative(ka)), [RULE_FORWARD], BE(4, key),
       d.srcPK.raw, d.dstPK.raw, BE(2, d.srcPort), BE(2, d.dstPort), BE(4, next), tp.raw, Zeros(17)]
    case Intermediary(ka, key, next, tp) =>
      [BE(8, NonNegative(ka)), [RULE_INTERMEDIARY], BE(4, key), BE(4, next), tp.raw, Zeros(17)]
  }

  function WidthsOf(r: Rule): seq<nat>
  {
    match r
    case Consume(_, _, _) => ConsumeWidths
    case Forward(_, _, _, _, _) => ForwardWidths
    case Intermediary(_, _, _, _) => IntermediaryWidths
  }

  function Encode(r: Rule): bytes { Join(Fields(r), |Fields(r)|) }

  lemma EncodeFormed(r: Rule)
    ensures Formed(Encode(r), Fields(r), WidthsOf(r))
  {
  }

  // ---- offsets ----

  lemma HeadAt(w: seq<nat>)
    requires w in {ConsumeWidths, ForwardWidths, IntermediaryWidths}
    ensures |w| >= 6 && At(w, 0) == 0 && At(w, 1) == 8 && At(w, 2) == 9 && At(w, 3) == 13
    ensures w[0] == 8 && w[1] == 1 && w[2] == 4
  {
    assert At(w, 1) == 8 && At(w, 2) == 9;
  }

  lemma DescAt(w: seq<nat>)
    requires w in {ConsumeWidths, ForwardWidths}
    ensures At(w, 3) == 13 && At(w, 4) == 46 && At(w, 5) == 79 && At(w, 6) == 81 && At(w, 7) == 83
    ensures w[3] == 33 && w[4] == 33 && w[5] == 2 && w[6] == 2
  {
    HeadAt(w);
    assert At(w, 4) == 46;
    assert At(w, 5) == 79;
    assert At(w, 6) == 81;
  }

  lemma ForwardAt()
    ensures var w := ForwardWidths; At(w, 7) == 83 && At(w, 8) == 87 && At(w, 9) == 103 && At(w, 10) == 120
  {
    DescAt(ForwardWidths);
    assert At(ForwardWidths, 8) == 87;
    assert At(ForwardWidths, 9) == 103;
  }

  lemma IntermediaryAt()
    ensures var w := IntermediaryWidths; At(w, 3) == 13 && At(w, 4) == 17 && At(w, 5) == 33 && At(w, 6) == 50
  {
    HeadAt(IntermediaryWidths);
    assert At(IntermediaryWidths, 4) == 17;
    assert At(IntermediaryWidths, 5) == 33;
  }

  // ---- getters ----

  function Uint(r: bytes, off: nat, n: nat): (x: nat)
    requires off + n <= |r|
    ensures x < Power(n)
  {
    FromBE(r[off..off + n])
  }

  function KeepAliveOf(r: bytes): Option<Duration>
  {
    if |r| < RULE_HEADER_SIZE then None else (Powers(); Some(ToInt64(Uint(r, 0, 8))))
  }

  function TypeOf(r: bytes): Option<byte>
  {
    if |r| < RULE_HEADER_SIZE then None else Some(r[8])
  }

  function KeyRouteID(r: bytes): Option<RouteID>
  {
    if |r| < RULE_HEADER_SIZE then None else (Powers(); Some(Uint(r, 9, 4)))
  }

  predicate HasDesc(t: Option<byte>) { t == Some(RULE_REVERSE) || t == Some(RULE_FORWARD) }
  predicate HasNext(t: Option<byte>) { t == Some(RULE_FORWARD) || t == Some(RULE_INTERMEDIARY) }

  function RouteDescriptor(r: bytes): (d: Option<bytes>)
    ensures d.Some? ==> |d.value| == DESC_SIZE
  {
    if !HasDesc(TypeOf(r)) || |r| < RULE_HEADER_SIZE + DESC_SIZE then None
    else Some(r[RULE_HEADER_SIZE..RULE_HEADER_SIZE + DESC_SIZE])
  }

  function NextOffset(r: bytes): (off: nat)
    requires HasNext(TypeOf(r))
  {
    if TypeOf(r) == Some(RULE_FORWARD) then RULE_HEADER_SIZE + DESC_SIZE else RULE_HEADER_SIZE
  }

  function NextRouteID(r: bytes): Option<RouteID>
  {
    if !HasNext(TypeOf(r)) || |r| < NextOffset(r) + 4 then None
    else (Powers(); Some(Uint(r, NextOffset(r), 4)))
  }

  function NextTransportID(r: bytes): Option<UUID>
  {
    if !HasNext(TypeOf(r)) || |r| < NextOffset(r) + 4 + UUID_SIZE then None
    else Some(UUID(r[NextOffset(r) + 4..NextOffset(r) + 4 + UUID_SIZE]))
  }

  // ---- descriptors ----

  function DescFields(d: Desc): seq<bytes> { [d.srcPK.raw, d.dstPK.raw, BE(2, d.srcPort), BE(2, d.dstPort)] }

  function EncodeDesc(d: Desc): bytes { Join(DescFields(d), 4) }

  function DecodeDesc(b: bytes): Desc
    requires |b| == DESC_SIZE
  {
    Powers();
    Desc(PubKey(b[0..33]), PubKey(b[33..66]), Uint(b, 66, 2), Uint(b, 68, 2))
  }

  lemma DescFormed(d: Desc)
    ensures Formed(EncodeDesc(d), DescFields(d), DescWidths) && |EncodeDesc(d)| == DESC_SIZE
  {
    DescOffsets();
    FormedSize(EncodeDesc(d), DescFields(d), DescWidths);
  }

  lemma DescOffsets()
    ensures var w := DescWidths; At(w, 0) == 0 && At(w, 1) == 33 && At(w, 2) == 66 && At(w, 3) == 68 && At(w, 4) == 70
  {
    assert At(DescWidths, 1) == 33;
    assert At(DescWidths, 2) == 66;
    assert At(DescWidths, 3) == 68;
  }

  /** A descriptor and its 70 bytes determine each other, so either can be the key of a map. */
  lemma DescRoundTrip(d: Desc)
    ensures |EncodeDesc(d)| == DESC_SIZE && DecodeDesc(EncodeDesc(d)) == d
  {
    hide BE, FromBE, Power, At, Formed, Join;
    DescFormed(d);
    DescOffsets();
    var b, f, w := EncodeDesc(d), DescFields(d), DescWidths;
    GetField(b, f, w, 0);
    GetField(b, f, w, 1);
    GetField(b, f, w, 2);
    GetField(b, f, w, 3);
    ReadsBack2(d.srcPort);
    ReadsBack2(d.dstPort);
  }

  lemma DescBytesRoundTrip(b: bytes)
    requires |b| == DESC_SIZE
    ensures EncodeDesc(DecodeDesc(b)) == b
  {
    DescOffsets();
    EncodeDecode(b[66..68]);
    EncodeDecode(b[68..70]);
    PiecesForm(b, DescFields(DecodeDesc(b)), DescWidths);
  }

  /** Invert as the source computes it: read the four fields, lay them out the other way round. */
  function InvertBytes(b: bytes): bytes
    requires |b| == DESC_SIZE
  {
    var d := DecodeDesc(b);
    EncodeDesc(Desc(d.dstPK, d.srcPK, d.dstPort, d.srcPort))
  }

  lemma InvertTwice(b: bytes)
    requires |b| == DESC_SIZE
    ensures |InvertBytes(b)| == DESC_SIZE && DecodeDesc(InvertBytes(b)) == DecodeDesc(b).Invert()
    ensures InvertBytes(InvertBytes(b)) == b
  {
    DescRoundTrip(DecodeDesc(b).Invert());
    DescBytesRoundTrip(b);
  }

  // ---- reading back ----

  /** The header of every rule. */
  lemma HeadReads(r: Rule)
    ensures KeepAliveOf(Encode(r)) == Some(NonNegative(r.keepAlive)) && KeyRouteID(Encode(r)) == Some(r.key)
    ensures TypeOf(Encode(r)) ==
      Some(if r.Consume? then RULE_REVERSE else if r.Forward? then RULE_FORWARD else RULE_INTERMEDIARY)
    ensures |Encode(r)| == At(WidthsOf(r), |WidthsOf(r)|)
  {
    var b, f, w := Encode(r), Fields(r), WidthsOf(r);
    EncodeFormed(r);
    HeadAt(w);
    FormedSize(b, f, w);
    GetField(b, f, w, 0);
    GetField(b, f, w, 1);
    GetField(b, f, w, 2);
    ReadsBack8(NonNegative(r.keepAlive));
    ReadsBack4(r.key);
    assert b[8..9] == [b[8]];
  }

  lemma DescReads(r: Rule)
    requires !r.Intermediary?
    ensures |Encode(r)| >= RULE_HEADER_SIZE + DESC_SIZE
    ensures Encode(r)[RULE_HEADER_SIZE..RULE_HEADER_SIZE + DESC_SIZE] == EncodeDesc(r.desc)
  {
    var b, f, w := Encode(r), Fields(r), WidthsOf(r);
    EncodeFormed(r);
    DescAt(w);
    DescOffsets();
    GetField(b, f, w, 3);
    GetField(b, f, w, 4);
    GetField(b, f, w, 5);
    GetField(b, f, w, 6);
    var d := b[13..83];
    hide Fields, Encode, Formed;
    SliceOfSlice(b, 13, 83, 0, 33);
    SliceOfSlice(b, 13, 83, 33, 66);
    SliceOfSlice(b, 13, 83, 66, 68);
    SliceOfSlice(b, 13, 83, 68, 70);
    assert f[3..7] == DescFields(r.desc) by { FieldsDesc(r); }
    PiecesForm(d, DescFields(r.desc), DescWidths);
    DescJoin(r.desc, d);
  }

  lemma FieldsDesc(r: Rule)
    requires !r.Intermediary?
    ensures |Fields(r)| >= 7 && Fields(r)[3..7] == DescFields(r.desc)
  {
  }

  lemma DescJoin(d: Desc, b: bytes)
    requires Formed(b, DescFields(d), DescWidths)
    ensures b == EncodeDesc(d)
  {
  }

  /** Every field of every constructed rule reads back, and the fields a rule kind lacks are refused. */
  lemma RuleReads(r: Rule)
    ensures var b := Encode(r);
            && KeepAliveOf(b) == Some(NonNegative(r.keepAlive)) && KeyRouteID(b) == Some(r.key)
            && RouteDescriptor(b) == (if r.Intermediary? then None else Some(EncodeDesc(r.desc)))
            && NextRouteID(b) == (if r.Consume? then None else Some(r.next))
            && NextTransportID(b) == (if r.Consume? then None else Some(r.tp))
  {
    HeadReads(r);
    if !r.Intermediary? {
      DescReads(r);
    }
    if !r.Consume? {
      var b, f, w := Encode(r), Fields(r), WidthsOf(r);
      var i := if r.Forward? then 7 else 3;
      EncodeFormed(r);
      ForwardAt();
      IntermediaryAt();
      GetField(b, f, w, i);
      GetField(b, f, w, i + 1);
      ReadsBack4(r.next);
    }
  }
}
