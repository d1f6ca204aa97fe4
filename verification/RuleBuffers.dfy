/** The setters and constructors of rules and descriptors: buffers filled in place.  A setter that
    panics leaves the buffer alone and answers false. */
module RuleBuffers {
  import opened Routing
  import opened Bytes
  import opened RuleCodec
  import opened RuleSummaries

  /** Go refuses the call, or overwrites exactly the bytes [off, off + |b|). */
  ghost predicate Wrote(before: bytes, after: bytes, ok: bool, allowed: bool, off: nat, b: bytes)
  {
    && ok == allowed && |after| == |before|
    && (ok ==> off + |b| <= |before| && after == Splice(before, off, b))
    && (!ok ==> after == before)
  }

  method SetKeepAlive(r: array<byte>, keepAlive: Duration) returns (ok: bool)
    modifies r
    ensures Wrote(old(r[..]), r[..], ok, r.Length >= RULE_HEADER_SIZE, 0, BE(8, NonNegative(keepAlive)))
  {
    if r.Length < RULE_HEADER_SIZE { return false; }
    var d := keepAlive;
    if d < 0 { d := 0; }
    Put(r, 0, BE(8, d));
    return true;
  }

  method SetType(r: array<byte>, t: byte) returns (ok: bool)
    modifies r
    ensures Wrote(old(r[..]), r[..], ok, r.Length >= RULE_HEADER_SIZE, 8, [t])
  {
    if r.Length < RULE_HEADER_SIZE { return false; }
    r[8] := t;
    return true;
  }

  method SetKeyRouteID(r: array<byte>, id: RouteID) returns (ok: bool)
    modifies r
    ensures Wrote(old(r[..]), r[..], ok, r.Length >= RULE_HEADER_SIZE, 9, BE(4, id))
  {
    if r.Length < RULE_HEADER_SIZE { return false; }
    Put(r, 9, BE(4, id));
    return true;
  }

  /** Where the next route ID goes, for the types that have one. */
  function NextAt(t: byte): nat { if t == RULE_FORWARD then RULE_HEADER_SIZE + DESC_SIZE else RULE_HEADER_SIZE }

  predicate Typed(r: bytes, types: set<byte>) { |r| >= RULE_HEADER_SIZE && r[8] in types }

  method SetNextRouteID(r: array<byte>, id: RouteID) returns (ok: bool)
    modifies r
    ensures var b := old(r[..]);
            var allowed := Typed(b, {RULE_FORWARD, RULE_INTERMEDIARY}) && r.Length >= NextAt(b[8]) + 4;
            Wrote(b, r[..], ok, allowed, if allowed then NextAt(b[8]) else 0, BE(4, id))
  {
    if r.Length < RULE_HEADER_SIZE { return false; }
    var offset := RULE_HEADER_SIZE;
    if r[8] != RULE_FORWARD && r[8] != RULE_INTERMEDIARY { return false; }
    if r[8] == RULE_FORWARD { offset := offset + DESC_SIZE; }
    if r.Length < offset + 4 { return false; }
    Put(r, offset, BE(4, id));
    return true;
  }

  method SetNextTransportID(r: array<byte>, id: UUID) returns (ok: bool)
    modifies r
    ensures var b := old(r[..]);
            var allowed := Typed(b, {RULE_FORWARD, RULE_INTERMEDIARY}) && r.Length >= NextAt(b[8]) + 4 + UUID_SIZE;
            Wrote(b, r[..], ok, allowed, if allowed then NextAt(b[8]) + 4 else 0, id.raw)
  {
    if r.Length < RULE_HEADER_SIZE { return false; }
    var offset := RULE_HEADER_SIZE + 4;
    if r[8] != RULE_FORWARD && r[8] != RULE_INTERMEDIARY { return false; }
    if r[8] == RULE_FORWARD { offset := offset + DESC_SIZE; }
    if r.Length < offset + UUID_SIZE { return false; }
    Put(r, offset, id.raw);
    return true;
  }

  /** The four descriptor setters differ in the place and the bytes they write. */
  method SetInDescriptor(r: array<byte>, off: nat, b: bytes) returns (ok: bool)
    modifies r
    ensures Wrote(old(r[..]), r[..], ok,
                  Typed(old(r[..]), {RULE_REVERSE, RULE_FORWARD}) && r.Length >= RULE_HEADER_SIZE + off + |b|,
                  RULE_HEADER_SIZE + off, b)
  {
    if r.Length < RULE_HEADER_SIZE { return false; }
    if r[8] != RULE_REVERSE && r[8] != RULE_FORWARD { return false; }
    if r.Length < RULE_HEADER_SIZE + off + |b| { return false; }
    Put(r, RULE_HEADER_SIZE + off, b);
    return true;
  }

  method SetSrcPK(r: array<byte>, pk: PubKey) returns (ok: bool)
    modifies r
    ensures Wrote(old(r[..]), r[..], ok, Typed(old(r[..]), {RULE_REVERSE, RULE_FORWARD}) && r.Length >= 46, 13, pk.raw)
  {
    ok := SetInDescriptor(r, 0, pk.raw);
  }

  method SetDstPK(r: array<byte>, pk: PubKey) returns (ok: bool)
    modifies r
    ensures Wrote(old(r[..]), r[..], ok, Typed(old(r[..]), {RULE_REVERSE, RULE_FORWARD}) && r.Length >= 79, 46, pk.raw)
  {
    ok := SetInDescriptor(r, PK_SIZE, pk.raw);
  }

  method SetSrcPort(r: array<byte>, port: Port) returns (ok: bool)
    modifies r
    ensures Wrote(old(r[..]), r[..], ok, Typed(old(r[..]), {RULE_REVERSE, RULE_FORWARD}) && r.Length >= 81,
                  79, BE(2, port))
  {
    ok := SetInDescriptor(r, 2 * PK_SIZE, BE(2, port));
  }

  method SetDstPort(r: array<byte>, port: Port) returns (ok: bool)
    modifies r
    ensures Wrote(old(r[..]), r[..], ok, Typed(old(r[..]), {RULE_REVERSE, RULE_FORWARD}) && r.Length >= 83,
                  81, BE(2, port))
  {
    ok := SetInDescriptor(r, 2 * PK_SIZE + 2, BE(2, port));
  }

  // ---- constructors ----

  /** A setter that was allowed has replaced one field of the layout and no other. */
  lemma FieldSet(before: bytes, after: bytes, ok: bool, parts: seq<bytes>, w: seq<nat>, i: nat, b: bytes)
    requires Formed(before, parts, w) && i < |w| && |b| == w[i] > 0
    requires Wrote(before, after, ok, true, At(w, i), b)
    ensures ok && Formed(after, parts[i := b], w)
  {
    SetField(before, after, parts, w, i, b);
  }

  lemma TypeByte(r: bytes, parts: seq<bytes>, w: seq<nat>)
    requires Formed(r, parts, w) && w in {ConsumeWidths, ForwardWidths, IntermediaryWidths}
    ensures |r| == At(w, |w|) && RULE_HEADER_SIZE <= |r| && r[8..9] == parts[1] && r[8] == parts[1][0]
  {
    HeadAt(w);
    FormedSize(r, parts, w);
    GetField(r, parts, w, 1);
    DescAt(ConsumeWidths);
    ForwardAt();
    IntermediaryAt();
    assert r[8..9][0] == r[8];
  }

  /** The part that all constructors begin with. */
  method SetHeader(r: array<byte>, keepAlive: Duration, t: byte, key: RouteID, ghost w: seq<nat>)
    requires w in {ConsumeWidths, ForwardWidths, IntermediaryWidths}
    requires Formed(r[..], Blank(w), w)
    modifies r
    ensures |w| >= 6 && Formed(r[..], Blank(w)[0 := BE(8, NonNegative(keepAlive))][1 := [t]][2 := BE(4, key)], w)
  {
    hide Formed, At, BE, Wrote;
    HeadAt(w);
    TypeByte(r[..], Blank(w), w);
    ghost var parts := Blank(w);
    ghost var b := r[..];
    var ok := SetKeepAlive(r, keepAlive);
    FieldSet(b, r[..], ok, parts, w, 0, BE(8, NonNegative(keepAlive)));
    parts, b := parts[0 := BE(8, NonNegative(keepAlive))], r[..];
    ok := SetType(r, t);
    FieldSet(b, r[..], ok, parts, w, 1, [t]);
    parts, b := parts[1 := [t]], r[..];
    ok := SetKeyRouteID(r, key);
    FieldSet(b, r[..], ok, parts, w, 2, BE(4, key));
  }

  method SetAddresses(r: array<byte>, d: Desc, ghost parts: seq<bytes>, ghost w: seq<nat>)
    requires w in {ConsumeWidths, ForwardWidths} && Formed(r[..], parts, w)
    requires |parts| == |w| && |parts[1]| == 1 && parts[1][0] in {RULE_REVERSE, RULE_FORWARD}
    modifies r
    ensures |w| >= 7
    ensures Formed(r[..], parts[3 := d.srcPK.raw][4 := d.dstPK.raw][5 := BE(2, d.srcPort)][6 := BE(2, d.dstPort)], w)
  {
    hide Formed, At, BE, Wrote;
    DescAt(w);
    assert At(w, |w|) >= 83 by { ForwardAt(); }
    ghost var p, b := parts, r[..];
    TypeByte(b, p, w);
    var ok := SetSrcPK(r, d.srcPK);
    FieldSet(b, r[..], ok, p, w, 3, d.srcPK.raw);
    p, b := p[3 := d.srcPK.raw], r[..];
    TypeByte(b, p, w);
    ok := SetDstPK(r, d.dstPK);
    FieldSet(b, r[..], ok, p, w, 4, d.dstPK.raw);
    p, b := p[4 := d.dstPK.raw], r[..];
    TypeByte(b, p, w);
    ok := SetSrcPort(r, d.srcPort);
    FieldSet(b, r[..], ok, p, w, 5, BE(2, d.srcPort));
    p, b := p[5 := BE(2, d.srcPort)], r[..];
    TypeByte(b, p, w);
    ok := SetDstPort(r, d.dstPort);
    FieldSet(b, r[..], ok, p, w, 6, BE(2, d.dstPort));
  }

  method SetNext(r: array<byte>, next: RouteID, tp: UUID, ghost parts: seq<bytes>, ghost w: seq<nat>, ghost i: nat)
    requires (w == ForwardWidths && i == 7) || (w == IntermediaryWidths && i == 3)
    requires Formed(r[..], parts, w) && |parts| == |w|
    requires parts[1] == [if i == 7 then RULE_FORWARD else RULE_INTERMEDIARY]
    modifies r
    ensures Formed(r[..], parts[i := BE(4, next)][i + 1 := tp.raw], w)
  {
    hide Formed, At, BE, Wrote;
    ForwardAt();
    IntermediaryAt();
    ghost var p, b := parts, r[..];
    TypeByte(b, p, w);
    var ok := SetNextRouteID(r, next);
    FieldSet(b, r[..], ok, p, w, i, BE(4, next));
    p, b := p[i := BE(4, next)], r[..];
    TypeByte(b, p, w);
    ok := SetNextTransportID(r, tp);
    FieldSet(b, r[..], ok, p, w, i + 1, tp.raw);
  }

  /** Whatever the order in which the fields are set, the result is the rule's encoding. */
  method ConsumeRule(keepAlive: Duration, key: RouteID, d: Desc) returns (r: array<byte>)
    ensures fresh(r) && r[..] == Encode(Consume(keepAlive, key, d))
  {
    var w := ConsumeWidths;
    r := new byte[RULE_HEADER_SIZE + DESC_SIZE](_ => 0);
    DescAt(w);
    assert r[..] == Zeros(At(w, |w|));
    BlankFormed(r[..], w);
    hide Formed, At, BE;
    SetHeader(r, keepAlive, RULE_REVERSE, key, w);
    SetAddresses(r, d, Blank(w)[0 := BE(8, NonNegative(keepAlive))][1 := [RULE_REVERSE]][2 := BE(4, key)], w);
    FormedIs(r[..], Consume(keepAlive, key, d),
      Blank(w)[0 := BE(8, NonNegative(keepAlive))][1 := [RULE_REVERSE]][2 := BE(4, key)]
        [3 := d.srcPK.raw][4 := d.dstPK.raw][5 := BE(2, d.srcPort)][6 := BE(2, d.dstPort)]);
  }

  lemma FormedIs(b: bytes, rule: Rule, parts: seq<bytes>)
    requires Formed(b, parts, WidthsOf(rule)) && parts == Fields(rule)
    ensures b == Encode(rule)
  {
  }

  method ForwardRule(keepAlive: Duration, key: RouteID, next: RouteID, tp: UUID, d: Desc) returns (r: array<byte>)
    ensures fresh(r) && r[..] == Encode(Forward(keepAlive, key, next, tp, d))
  {
    var w := ForwardWidths;
    r := new byte[RULE_HEADER_SIZE + DESC_SIZE + 4 + PK_SIZE](_ => 0);
    ForwardAt();
    assert r[..] == Zeros(At(w, |w|));
    BlankFormed(r[..], w);
    hide Formed, At, BE;
    ghost var p := Blank(w)[0 := BE(8, NonNegative(keepAlive))][1 := [RULE_FORWARD]][2 := BE(4, key)];
    SetHeader(r, keepAlive, RULE_FORWARD, key, w);
    SetNext(r, next, tp, p, w, 7);
    p := p[7 := BE(4, next)][8 := tp.raw];
    SetAddresses(r, d, p, w);
    p := p[3 := d.srcPK.raw][4 := d.dstPK.raw][5 := BE(2, d.srcPort)][6 := BE(2, d.dstPort)];
    FormedIs(r[..], Forward(keepAlive, key, next, tp, d), p);
  }

  method IntermediaryForwardRule(keepAlive: Duration, key: RouteID, next: RouteID, tp: UUID) returns (r: array<byte>)
    ensures fresh(r) && r[..] == Encode(Intermediary(keepAlive, key, next, tp))
  {
    var w := IntermediaryWidths;
    r := new byte[RULE_HEADER_SIZE + 4 + PK_SIZE](_ => 0);
    IntermediaryAt();
    assert r[..] == Zeros(At(w, |w|));
    BlankFormed(r[..], w);
    hide Formed, At, BE;
    ghost var p := Blank(w)[0 := BE(8, NonNegative(keepAlive))][1 := [RULE_INTERMEDIARY]][2 := BE(4, key)];
    SetHeader(r, keepAlive, RULE_INTERMEDIARY, key, w);
    SetNext(r, next, tp, p, w, 3);
    FormedIs(r[..], Intermediary(keepAlive, key, next, tp), p[3 := BE(4, next)][4 := tp.raw]);
  }

  method ToRule(s: RuleSummary) returns (ok: bool, r: array<byte>)
    ensures ok <==> ToRuleBytes(s).Some?
    ensures ok ==> Some(r[..]) == ToRuleBytes(s)
  {
    hide Encode;
    ok, r := true, new byte[0];
    if s.typ == RULE_REVERSE {
      if s.consume.None? || s.forward.Some? || s.inter.Some? { ok := false; return; }
      r := ConsumeRule(s.keepAlive, s.key, s.consume.value);
    } else if s.typ == RULE_FORWARD {
      if s.consume.Some? || s.forward.None? || s.inter.Some? { ok := false; return; }
      var f := s.forward.value;
      r := ForwardRule(s.keepAlive, s.key, f.next, f.tp, f.desc);
    } else if s.typ == RULE_INTERMEDIARY {
      if s.consume.Some? || s.forward.Some? || s.inter.None? { ok := false; return; }
      var f := s.inter.value;
      r := IntermediaryForwardRule(s.keepAlive, s.key, f.next, f.tp);
    } else {
      ok := false;
    }
  }

  method NewRouteDescriptor(d: Desc) returns (r: array<byte>)
    ensures fresh(r) && r[..] == EncodeDesc(d)
  {
    var w := DescWidths;
    r := new byte[DESC_SIZE](_ => 0);
    DescOffsets();
    assert r[..] == Zeros(At(w, |w|));
    BlankFormed(r[..], w);
    FormedSize(r[..], Blank(w), w);
    hide Formed, At, BE, Splice;
    ghost var p, b := Blank(w), r[..];
    Put(r, 0, d.srcPK.raw);
    SetField(b, r[..], p, w, 0, d.srcPK.raw);
    p, b := p[0 := d.srcPK.raw], r[..];
    Put(r, PK_SIZE, d.dstPK.raw);
    SetField(b, r[..], p, w, 1, d.dstPK.raw);
    p, b := p[1 := d.dstPK.raw], r[..];
    Put(r, 2 * PK_SIZE, BE(2, d.srcPort));
    SetField(b, r[..], p, w, 2, BE(2, d.srcPort));
    p, b := p[2 := BE(2, d.srcPort)], r[..];
    Put(r, 2 * PK_SIZE + 2, BE(2, d.dstPort));
    SetField(b, r[..], p, w, 3, BE(2, d.dstPort));
    p := p[3 := BE(2, d.dstPort)];
    assert p == DescFields(d);
    DescJoin(d, r[..]);
  }
}
