/** No packet circulates forever: every delivery uses up some of a potential that only the ends'
    applications and services can raise. */
module Progress {
  import opened Routing
  import opened RouteGroups
  import opened RouteMachine
  import opened RouteProofs

  /** What a packet can still cause: its remaining hops, and for a Ping the trip of its answer. */
  ghost function Cost(b: Body, left: nat, back: nat): nat { left + if b.Ping? then back else 0 }

  ghost function SegCost(bs: seq<Body>, left: nat, back: nat): nat
  {
    if bs == [] then 0 else Cost(bs[0], left, back) + SegCost(bs[1..], left, back)
  }

  ghost function LaneCost(segs: seq<seq<Body>>, k: nat, back: nat): nat
    requires k <= |segs|
    decreases |segs| - k
  {
    if k == |segs| then 0 else SegCost(segs[k], |segs| - k, back) + LaneCost(segs, k + 1, back)
  }

  /** A group that has not sent its Close packet may still have to answer one. */
  ghost function CloseCost(g: Group, n: nat): nat { if g.closesSent == 0 then n else 0 }

  ghost function SideCost(st: State, s: Side): nat
  {
    var n, back := |st.lanes.At(s).segs|, |st.lanes.At(s.Other()).segs|;
    LaneCost(st.lanes.At(s).segs, 0, back) + CloseCost(st.groups.At(s), n)
  }

  ghost function Potential(st: State): nat { SideCost(st, Init) + SideCost(st, Resp) }

  lemma {:induction false} SegConcat(a: seq<Body>, b: seq<Body>, left: nat, back: nat)
    ensures SegCost(a + b, left, back) == SegCost(a, left, back) + SegCost(b, left, back)
  {
    if a == [] {
      assert a + b == b;
    } else {
      assert (a + b)[1..] == a[1..] + b;
      SegConcat(a[1..], b, left, back);
    }
  }

  lemma SegOne(b: Body, left: nat, back: nat)
    ensures SegCost([b], left, back) == Cost(b, left, back)
  {
    assert SegCost([b][1..], left, back) == 0;
  }

  lemma {:induction false} LaneUpdate(segs: seq<seq<Body>>, i: nat, x: seq<Body>, k: nat, back: nat)
    requires i < |segs| && k <= |segs|
    ensures LaneCost(segs[i := x], k, back) + (if k <= i then SegCost(segs[i], |segs| - i, back) else 0)
         == LaneCost(segs, k, back) + (if k <= i then SegCost(x, |segs| - i, back) else 0)
    decreases |segs| - k
  {
    if k < |segs| { LaneUpdate(segs, i, x, k + 1, back); }
  }

  lemma PushCost(l: Lane, i: nat, out: seq<Body>, back: nat)
    requires i < |l.segs|
    ensures LaneCost(Push(l, i, out).segs, 0, back) == LaneCost(l.segs, 0, back) + SegCost(out, |l.segs| - i, back)
  {
    SegConcat(l.segs[i], out, |l.segs| - i, back);
    LaneUpdate(l.segs, i, l.segs[i] + out, 0, back);
  }

  lemma PopCost(l: Lane, i: nat, back: nat)
    requires i < |l.segs| && l.segs[i] != []
    ensures LaneCost(l.segs, 0, back) == LaneCost(Pop(l, i).segs, 0, back) + Cost(l.segs[i][0], |l.segs| - i, back)
  {
    LaneUpdate(l.segs, i, l.segs[i][1..], 0, back);
  }

  /** Carrying out an effect adds what it sends, and gives back what its group had in reserve. */
  lemma PerformCost(st: State, s: Side, e: Effect)
    requires st.Shaped()
    ensures var n, back := |st.lanes.At(s).segs|, |st.lanes.At(s.Other()).segs|;
            Potential(Perform(st, s, e)) + CloseCost(st.groups.At(s), n)
              == Potential(st) + SegCost(e.out, n, back) + CloseCost(e.group, n)
  {
    PushCost(st.lanes.At(s), 0, e.out, |st.lanes.At(s.Other()).segs|);
    hide LaneCost, SegCost;
    var st' := Perform(st, s, e);
    assert SideCost(st', s.Other()) == SideCost(st, s.Other());
    assert Potential(st) == SideCost(st, s) + SideCost(st, s.Other());
    assert Potential(st') == SideCost(st', s) + SideCost(st', s.Other());
  }

  /** A group's answer never costs more than the packet brought, and its own reserve. */
  lemma AnswerCost(g: Group, b: Body, n: nat, back: nat)
    requires b.Close? && !g.closeInitiated && g.closed == 0 ==> g.closesSent == 0
    ensures var e := HandlePacket(g, b);
            SegCost(e.out, n, back) + CloseCost(e.group, n) <= CloseCost(g, n) + if b.Ping? then n else 0
  {
    match b
    case Ping(t, _) => SegOne(Pong(t), n, back);
    case Close(code) => SegOne(Close(code), n, back);
    case Data(_) =>
    case KeepAlive =>
    case Handshake(_) =>
    case Pong(_) =>
    case Error(_) =>
  }

  /** Changing the lane of one side changes its cost only. */
  lemma LaneChange(st: State, st': State, s: Side)
    requires st'.groups == st.groups && st'.lanes.At(s.Other()) == st.lanes.At(s.Other())
    requires |st'.lanes.At(s).segs| == |st.lanes.At(s).segs|
    ensures var back := |st.lanes.At(s.Other()).segs|;
            Potential(st') + LaneCost(st.lanes.At(s).segs, 0, back)
              == Potential(st) + LaneCost(st'.lanes.At(s).segs, 0, back)
  {
    assert Potential(st) == SideCost(st, s) + SideCost(st, s.Other());
    assert Potential(st') == SideCost(st', s) + SideCost(st', s.Other());
  }

  /** The state once a packet is off its hop, before anything answers it. */
  ghost function Taken(st: State, s: Side, i: nat): State
    requires st.Shaped() && i < |st.lanes.At(s).segs| && st.lanes.At(s).segs[i] != []
  {
    var l := st.lanes.At(s);
    if l.present[i + 1] && i + 1 == |l.segs| && l.segs[i][0].Close? then
      st.(lanes := st.lanes.Put(s, Drop(Pop(l, i), i + 1)), registered := st.registered.Put(s.Other(), false))
    else st.(lanes := st.lanes.Put(s, Pop(l, i)))
  }

  lemma TakenCost(st: State, s: Side, i: nat)
    requires st.Shaped() && i < |st.lanes.At(s).segs| && st.lanes.At(s).segs[i] != []
    ensures var l, back := st.lanes.At(s), |st.lanes.At(s.Other()).segs|;
            Potential(st) == Potential(Taken(st, s, i)) + Cost(l.segs[i][0], |l.segs| - i, back)
  {
    PopCost(st.lanes.At(s), i, |st.lanes.At(s.Other()).segs|);
    LaneChange(st, Taken(st, s, i), s);
  }

  /** Every delivery lowers the potential. */
  lemma DeliveryCosts(st: State, c: Pair<nat>, s: Side, i: nat)
    requires Inv(st, c) && Enabled(st, Deliver(s, i))
    ensures Potential(DeliverAt(st, s, i)) < Potential(st)
  {
    var t, l := s.Other(), st.lanes.At(s);
    var h, b, back, n := st.groups.At(t), l.segs[i][0], |st.lanes.At(t).segs|, |l.segs|;
    var st1, st' := Taken(st, s, i), DeliverAt(st, s, i);
    TakenCost(st, s, i);
    hide LaneCost, SegCost, Potential;
    if l.present[i + 1] && i + 1 < n {
      ForwardCost(st, s, i);
    } else if st' != st1 {
      assert SideInv(st, t, c);
      AnswerCost(h, b, back, n);
      PerformCost(st1, t, HandlePacket(h, b));
    }
  }

  lemma ForwardCost(st: State, s: Side, i: nat)
    requires st.Shaped() && Enabled(st, Deliver(s, i)) && st.lanes.At(s).present[i + 1] && i + 1 < |st.lanes.At(s).segs|
    ensures Potential(DeliverAt(st, s, i)) < Potential(st)
  {
    var l, back := st.lanes.At(s), |st.lanes.At(s.Other()).segs|;
    var b, n := l.segs[i][0], |l.segs|;
    PopCost(l, i, back);
    PushCost(Pop(l, i), i + 1, [b], back);
    SegOne(b, n - i - 1, back);
    hide LaneCost, SegCost, Potential;
    LaneChange(st, DeliverAt(st, s, i), s);
  }

  /** A run of deliveries alone ends after at most as many steps as there is potential. */
  lemma {:induction false} DeliveriesEnd(st: State, c: Pair<nat>, acts: seq<Action>, st': State)
    requires Inv(st, c) && Run(st, acts, st') && forall i :: 0 <= i < |acts| ==> acts[i].Deliver?
    ensures |acts| + Potential(st') <= Potential(st)
    decreases |acts|
  {
    if acts != [] {
      DeliveryCosts(st, c, acts[0].s, acts[0].i);
      StepKeeps(st, c, acts[0]);
      var c1 :| Inv(Apply(st, acts[0]), c1);
      hide Potential, Inv, Enabled, DeliverAt;
      DeliveriesEnd(Apply(st, acts[0]), c1, acts[1..], st');
    }
  }
}
