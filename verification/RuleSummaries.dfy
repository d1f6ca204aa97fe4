/** Summary and ToRule: the two directions between a rule's bytes and its summary. */
module RuleSummaries {
  import opened Routing
  import opened Bytes
  import opened RuleCodec

  datatype ForwardFields = ForwardFields(desc: Desc, next: RouteID, tp: UUID)
  datatype IntermediaryFields = IntermediaryFields(next: RouteID, tp: UUID)

  datatype RuleSummary = RuleSummary(
    keepAlive: Duration, typ: byte, key: RouteID,
    consume: Option<Desc>, forward: Option<ForwardFields>, inter: Option<IntermediaryFields>)

  /** None where the source panics: short buffers and unknown types. */
  function Summary(b: bytes): Option<RuleSummary>
  {
    var t := TypeOf(b);
    if t.None? then None
    else
      var s := RuleSummary(KeepAliveOf(b).value, t.value, KeyRouteID(b).value, None, None, None);
      if t.value == RULE_REVERSE then
        if RouteDescriptor(b).None? then None
        else Some(s.(consume := Some(DecodeDesc(RouteDescriptor(b).value))))
      else if t.value == RULE_FORWARD then
        if RouteDescriptor(b).None? || NextRouteID(b).None? || NextTransportID(b).None? then None
        else Some(s.(forward := Some(ForwardFields(DecodeDesc(RouteDescriptor(b).value),
                                                    NextRouteID(b).value, NextTransportID(b).value))))
      else if t.value == RULE_INTERMEDIARY then
        if NextRouteID(b).None? || NextTransportID(b).None? then None
        else Some(s.(inter := Some(IntermediaryFields(NextRouteID(b).value, NextTransportID(b).value))))
      else None
  }

  /** Which rule a summary describes; None is the source's error. */
  function Described(s: RuleSummary): Option<Rule>
  {
    if s.typ == RULE_REVERSE then
      if s.consume.None? || s.forward.Some? || s.inter.Some? then None
      else Some(Consume(s.keepAlive, s.key, s.consume.value))
    else if s.typ == RULE_FORWARD then
      if s.consume.Some? || s.forward.None? || s.inter.Some? then None
      else Some(Forward(s.keepAlive, s.key, s.forward.value.next, s.forward.value.tp, s.forward.value.desc))
    else if s.typ == RULE_INTERMEDIARY then
      if s.consume.Some? || s.forward.Some? || s.inter.None? then None
      else Some(Intermediary(s.keepAlive, s.key, s.inter.value.next, s.inter.value.tp))
    else None
  }

  function ToRuleBytes(s: RuleSummary): Option<bytes>
  {
    if Described(s).None? then None else Some(Encode(Described(s).value))
  }

  /** ToRule then Summary gives the summary back, except that a negative keep-alive becomes zero. */
  lemma ToRuleThenSummary(s: RuleSummary)
    requires ToRuleBytes(s).Some?
    ensures Summary(ToRuleBytes(s).value) == Some(s.(keepAlive := NonNegative(s.keepAlive)))
    ensures Summary(ToRuleBytes(s).value) == Some(s) <==> s.keepAlive >= 0
  {
    hide Encode, Summary;
    SummaryReads(Described(s).value);
  }

  function Summarized(r: Rule): RuleSummary
  {
    match r
    case Consume(ka, key, d) => RuleSummary(ka, RULE_REVERSE, key, Some(d), None, None)
    case Forward(ka, key, next, tp, d) =>
      RuleSummary(ka, RULE_FORWARD, key, None, Some(ForwardFields(d, next, tp)), None)
    case Intermediary(ka, key, next, tp) =>
      RuleSummary(ka, RULE_INTERMEDIARY, key, None, None, Some(IntermediaryFields(next, tp)))
  }

  lemma SummaryReads(r: Rule)
    ensures Summary(Encode(r)) == Some(Summarized(r).(keepAlive := NonNegative(r.keepAlive)))
  {
    hide Encode, KeepAliveOf, KeyRouteID, TypeOf, RouteDescriptor, NextRouteID, NextTransportID, DecodeDesc, EncodeDesc;
    hide At, WidthsOf;
    HeadReads(r);
    RuleReads(r);
    if !r.Intermediary? { DescRoundTrip(r.desc); }
  }

  /** Buffers that a constructor could have made: no surplus, spare bytes zero, keep-alive in range. */
  predicate Canonical(b: bytes)
  {
    && |b| >= RULE_HEADER_SIZE && KeepAliveOf(b).value >= 0
    && (b[8] == RULE_REVERSE ==> |b| == 83)
    && (b[8] == RULE_FORWARD ==> |b| == 120 && b[103..] == Zeros(17))
    && (b[8] == RULE_INTERMEDIARY ==> |b| == 50 && b[33..] == Zeros(17))
  }

  /** Summary then ToRule never fails, and reproduces the bytes exactly when they are canonical. */
  lemma SummaryThenToRule(b: bytes)
    requires Summary(b).Some?
    ensures ToRuleBytes(Summary(b).value).Some?
    ensures ToRuleBytes(Summary(b).value) == Some(b) <==> Canonical(b)
  {
    var r := Described(Summary(b).value).value;
    if Encode(r) == b { EncodeCanonical(r); }
    if Canonical(b) {
      HeadPieces(b);
      if b[8] == RULE_REVERSE {
        ConsumePieces(b, r);
      } else if b[8] == RULE_FORWARD {
        ForwardPieces(b, r);
      } else {
        IntermediaryPieces(b, r);
      }
    }
  }

  /** What every constructor makes is canonical, so Summary then ToRule reproduces it. */
  lemma EncodeCanonical(r: Rule)
    ensures Canonical(Encode(r))
  {
    var b, f, w := Encode(r), Fields(r), WidthsOf(r);
    HeadReads(r);
    EncodeFormed(r);
    DescAt(ConsumeWidths);
    ForwardAt();
    IntermediaryAt();
    if r.Forward? { GetField(b, f, w, 9); }
    if r.Intermediary? { GetField(b, f, w, 5); }
  }

  lemma ConstructedRoundTrip(r: Rule)
    ensures Summary(Encode(r)).Some? && ToRuleBytes(Summary(Encode(r)).value) == Some(Encode(r))
  {
    hide Encode, Summary, ToRuleBytes;
    SummaryReads(r);
    EncodeCanonical(r);
    SummaryThenToRule(Encode(r));
  }

  // ---- a canonical buffer is formed by the fields of the rule it describes ----

  lemma HeadPieces(b: bytes)
    requires |b| >= RULE_HEADER_SIZE && KeepAliveOf(b).value >= 0
    ensures BE(8, NonNegative(KeepAliveOf(b).value)) == b[0..8]
    ensures [b[8]] == b[8..9] && BE(4, KeyRouteID(b).value) == b[9..13]
  {
    Powers();
    EncodeDecode(b[0..8]);
    EncodeDecode(b[9..13]);
  }

  lemma DescPieces(b: bytes)
    requires |b| >= 83
    ensures DescFields(DecodeDesc(b[13..83])) == [b[13..46], b[46..79], b[79..81], b[81..83]]
  {
    var d := b[13..83];
    EncodeDecode(d[66..68]);
    EncodeDecode(d[68..70]);
    SliceOfSlice(b, 13, 83, 0, 33);
    SliceOfSlice(b, 13, 83, 33, 66);
    SliceOfSlice(b, 13, 83, 66, 68);
    SliceOfSlice(b, 13, 83, 68, 70);
  }

  lemma ConsumePieces(b: bytes, r: Rule)
    requires |b| == 83 && b[8] == RULE_REVERSE && KeepAliveOf(b).value >= 0
    requires r == Consume(KeepAliveOf(b).value, KeyRouteID(b).value, DecodeDesc(b[13..83]))
    ensures Encode(r) == b
  {
    HeadPieces(b);
    DescPieces(b);
    var f := [b[0..8], b[8..9], b[9..13], b[13..46], b[46..79], b[79..81], b[81..83]];
    assert Fields(r) == f by {
      var g := DescFields(r.desc);
      assert g[0] == f[3] && g[1] == f[4] && g[2] == f[5] && g[3] == f[6];
      hide BE, KeepAliveOf, KeyRouteID, DecodeDesc;
    }
    hide Fields, BE, KeepAliveOf, KeyRouteID, DecodeDesc, DescFields;
    HeadAt(ConsumeWidths);
    DescAt(ConsumeWidths);
    PiecesForm(b, f, ConsumeWidths);
  }

  lemma ForwardPieces(b: bytes, r: Rule)
    requires |b| == 120 && b[8] == RULE_FORWARD && KeepAliveOf(b).value >= 0 && b[103..] == Zeros(17)
    requires r == Forward(KeepAliveOf(b).value, KeyRouteID(b).value, NextRouteID(b).value,
                          NextTransportID(b).value, DecodeDesc(b[13..83]))
    ensures Encode(r) == b
  {
    HeadPieces(b);
    DescPieces(b);
    EncodeDecode(b[83..87]);
    var f := [b[0..8], b[8..9], b[9..13], b[13..46], b[46..79], b[79..81], b[81..83],
              b[83..87], b[87..103], b[103..120]];
    assert Fields(r) == f by {
      assert b[103..] == b[103..120];
      var g := DescFields(r.desc);
      assert g[0] == f[3] && g[1] == f[4] && g[2] == f[5] && g[3] == f[6];
      hide BE, KeepAliveOf, KeyRouteID, DecodeDesc;
    }
    hide Fields, BE, KeepAliveOf, KeyRouteID, DecodeDesc, DescFields, NextRouteID, NextTransportID;
    HeadAt(ForwardWidths);
    DescAt(ForwardWidths);
    ForwardAt();
    PiecesForm(b, f, ForwardWidths);
  }

  lemma IntermediaryPieces(b: bytes, r: Rule)
    requires |b| == 50 && b[8] == RULE_INTERMEDIARY && KeepAliveOf(b).value >= 0 && b[33..] == Zeros(17)
    requires r == Intermediary(KeepAliveOf(b).value, KeyRouteID(b).value, NextRouteID(b).value,
                               NextTransportID(b).value)
    ensures Encode(r) == b
  {
    HeadPieces(b);
    EncodeDecode(b[13..17]);
    var f := [b[0..8], b[8..9], b[9..13], b[13..17], b[17..33], b[33..50]];
    assert Fields(r) == f by {
      assert b[33..] == b[33..50];
      hide BE, KeepAliveOf, KeyRouteID;
    }
    hide Fields, BE, KeepAliveOf, KeyRouteID, NextRouteID, NextTransportID;
    HeadAt(IntermediaryWidths);
    IntermediaryAt();
    PiecesForm(b, f, IntermediaryWidths);
  }
}
