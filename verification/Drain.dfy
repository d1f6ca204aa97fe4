/** A route never gets stuck: from every reachable state the calls in progress, the close handshake and
    the packets in flight can run to their end, and then teardown is complete. */
module Drain {
  import opened Routing
  import opened RouteGroups
  import opened RouteMachine
  import opened RouteProofs
  import opened Progress

  // ---- one end ----

  /** Items and a Close that wait at one end. */
  ghost function Waiting(g: Group): nat { |g.readCh| + if g.waiting then 1 else 0 }

  /** What its reader still has to do with the bytes it has got hold of. */
  ghost function InHand(g: Group): nat
  {
    2 * |g.readBuf| +
    match g.reading
    case NotReading => 2
    case Entered(_) => 1
    case Selecting(_) => 0
    case Holding(_, item) => 2 * |item| + 3
  }

  /** No Close waits, and if the end can still read, it has read everything. */
  ghost predicate Still(g: Group)
  {
    !g.waiting && (g.closed == 0 ==> g.readBuf == [] && g.readCh == [] && Held(g) == [])
  }

  /** Steps that need no decision of an application but to read. */
  ghost predicate Tidies(call: GroupCall)
  {
    call.CallFinishClose? || call.CallEnterRead? || call.CallLockRead? || call.CallSelectItem? || call.CallFinishRead?
  }

  ghost predicate Lower(g: Group, g': Group)
  {
    Waiting(g') < Waiting(g) || (Waiting(g') == Waiting(g) && InHand(g') < InHand(g))
  }

  /** An end that is not still can take such a step, whatever happens elsewhere. */
  lemma TidyEnd(g: Group) returns (call: GroupCall)
    requires Calling(g) && !Still(g)
    ensures Tidies(call) && Callable(g, call) && Lower(g, CallEffect(g, call).group)
  {
    if g.waiting {
      call := CallFinishClose;
    } else if g.reading.Holding? {
      call := CallFinishRead;
    } else if g.reading.Entered? {
      call := CallLockRead;
    } else if g.reading.Selecting? {
      call := CallSelectItem;
    } else {
      call := CallEnterRead(1);
    }
  }

  lemma TidyQuiet(g: Group, call: GroupCall)
    requires Tidies(call) && Callable(g, call)
    ensures var e := CallEffect(g, call);
            e.out == [] && e.group.closesSent == g.closesSent && e.group.written == g.written && e.group.late == g.late
  {
  }

  /** What holds up a delivery: a full read channel, or a mutex held by Close. */
  lemma StillReceives(g: Group, b: Body)
    requires Still(g)
    ensures !HandlePacket(g, b).blocked
  {
  }

  lemma HandleWaiting(g: Group, b: Body)
    ensures Waiting(HandlePacket(g, b).group) <= Waiting(g) + 1
    ensures HandlePacket(g, b).group.closesSent >= g.closesSent
    ensures HandlePacket(g, b).group.written == g.written && HandlePacket(g, b).group.late == g.late
    ensures !b.Close? ==> HandlePacket(g, b).group.closesSent == g.closesSent
  {
  }

  // ---- a route ----

  ghost function Measure(st: State): nat
  {
    2 * Potential(st) + Waiting(st.groups.init) + Waiting(st.groups.resp)
  }

  ghost function Hands(st: State): nat { InHand(st.groups.init) + InHand(st.groups.resp) }

  ghost predicate Lowers(st: State, st': State)
  {
    Measure(st') < Measure(st) || (Measure(st') == Measure(st) && Hands(st') < Hands(st))
  }

  ghost predicate AtRest(st: State)
  {
    Idle(st.lanes.init) && Idle(st.lanes.resp) && Still(st.groups.init) && Still(st.groups.resp)
  }

  ghost predicate Tidying(a: Action) { a.Deliver? || Tidies(a.call) }

  ghost predicate Open(st: State) { st.groups.init.closesSent == 0 && st.groups.resp.closesSent == 0 }

  /** What tidying leaves alone: closes stay, and while there is none what was written stays as it is. */
  ghost predicate Tidied(st: State, st': State)
  {
    && st'.groups.init.closesSent >= st.groups.init.closesSent
    && st'.groups.resp.closesSent >= st.groups.resp.closesSent
    && st'.groups.init.written == st.groups.init.written && st'.groups.resp.written == st.groups.resp.written
    && (Open(st) ==> Open(st'))
  }

  lemma CallTidies(st: State, s: Side, call: GroupCall)
    requires st.Shaped() && Tidies(call) && Callable(st.groups.At(s), call)
    requires Lower(st.groups.At(s), CallEffect(st.groups.At(s), call).group)
    ensures Enabled(st, Do(s, call)) && Lowers(st, Apply(st, Do(s, call))) && Tidied(st, Apply(st, Do(s, call)))
  {
    TidyQuiet(st.groups.At(s), call);
    PerformCost(st, s, CallEffect(st.groups.At(s), call));
    hide Potential, Waiting, InHand, CallEffect;
  }

  lemma DeliverTidies(st: State, c: Pair<nat>, s: Side, i: nat)
    requires Inv(st, c) && Enabled(st, Deliver(s, i))
    ensures Lowers(st, DeliverAt(st, s, i)) && Tidied(st, DeliverAt(st, s, i))
  {
    DeliveryCosts(st, c, s, i);
    HandleWaiting(st.groups.At(s.Other()), st.lanes.At(s).segs[i][0]);
    if Open(st) { OpenLane(st, c, s, i); }
    hide Potential, Waiting, HandlePacket, Inv;
    assert DeliverAt(st, s, i).groups.At(s) == st.groups.At(s);
  }

  lemma OpenLane(st: State, c: Pair<nat>, s: Side, i: nat)
    requires Inv(st, c) && Enabled(st, Deliver(s, i)) && Open(st)
    ensures !st.lanes.At(s).segs[i][0].Close?
  {
    Halves(st, c, s);
    hide Faithful, Handshaking, Calling;
    assert Closes(st.lanes.At(s).segs[i]) == 0;
  }

  lemma EndCalling(st: State, c: Pair<nat>, s: Side)
    requires Inv(st, c)
    ensures Calling(st.groups.At(s))
  {
    Halves(st, c, s);
    hide Faithful, Handshaking, Swept;
  }

  /** As long as anything is in flight, waits or can be read, some step brings the end nearer. */
  lemma NextStep(st: State, c: Pair<nat>) returns (a: Action)
    requires Inv(st, c) && !AtRest(st)
    ensures Tidying(a) && Enabled(st, a) && Lowers(st, Apply(st, a)) && Tidied(st, Apply(st, a))
  {
    if !Still(st.groups.init) || !Still(st.groups.resp) {
      var s := if Still(st.groups.init) then Resp else Init;
      EndCalling(st, c, s);
      var call := TidyEnd(st.groups.At(s));
      CallTidies(st, s, call);
      a := Do(s, call);
    } else {
      var s := if Idle(st.lanes.init) then Resp else Init;
      var l := st.lanes.At(s);
      var i :| 0 <= i < |l.segs| && l.segs[i] != [];
      StillReceives(st.groups.At(s.Other()), l.segs[i][0]);
      hide Still, HandlePacket, SideInv;
      DeliverTidies(st, c, s, i);
      a := Deliver(s, i);
    }
  }

  /** Deliveries, reads and the end of a waiting Close lead from any state of the invariant to rest. */
  lemma {:induction false} DrainFrom(st: State, c: Pair<nat>) returns (acts: seq<Action>, st': State, c': Pair<nat>)
    requires Inv(st, c)
    ensures Run(st, acts, st') && Inv(st', c') && AtRest(st') && Tidied(st, st')
    ensures forall i :: 0 <= i < |acts| ==> Tidying(acts[i])
    decreases Measure(st), Hands(st)
  {
    hide Enabled, Apply, AtRest, SideInv, Measure, Hands, Tidying;
    if AtRest(st) {
      acts, st', c' := [], st, c;
    } else {
      var a := NextStep(st, c);
      StepKeeps(st, c, a);
      var c1 :| Inv(Apply(st, a), c1);
      var rest;
      rest, st', c' := DrainFrom(Apply(st, a), c1);
      RunFirst(st, a, rest, st');
      acts := [a] + rest;
    }
  }

  /** Once an end has sent its Close, however the state came about and whatever is still in flight, the
      route can be cleaned up completely: there is a run, of deliveries, reads and the end of waiting
      Closes only, after which no visor holds a rule of it and no router knows its groups. */
  lemma TeardownCompletes(st: State, s: Side) returns (acts: seq<Action>, st': State)
    requires Reachable(st) && st.groups.At(s).closesSent > 0
    ensures st.Shaped() && Run(st, acts, st') && (forall i :: 0 <= i < |acts| ==> Tidying(acts[i]))
    ensures NoRules(st'.lanes.init) && NoRules(st'.lanes.resp) && st'.registered == Pair(false, false)
  {
    var c := ReachableInv(st);
    hide SideInv, Measure, Tidying;
    var c';
    acts, st', c' := DrainFrom(st, c);
    SweptAtRest(st', c', s);
  }

  /** No byte is lost: as long as no end has started to close, everything written at both ends can be
      delivered and read, whatever is in flight or buffered. */
  lemma EverythingArrives(st: State) returns (acts: seq<Action>, st': State)
    requires Reachable(st) && Open(st)
    ensures st.Shaped() && Run(st, acts, st') && (forall i :: 0 <= i < |acts| ==> Tidying(acts[i]))
    ensures forall s: Side :: st'.groups.At(s.Other()).readOut == st.groups.At(s).written
  {
    var c := ReachableInv(st);
    hide Measure, Tidying, SideInv;
    var c';
    acts, st', c' := DrainFrom(st, c);
    forall s: Side ensures st'.groups.At(s.Other()).readOut == st'.groups.At(s).written {
      AllRead(st', c', s);
    }
  }

  lemma AllRead(st: State, c: Pair<nat>, s: Side)
    requires Inv(st, c) && AtRest(st) && Open(st)
    ensures st.groups.At(s.Other()).readOut == st.groups.At(s).written
  {
    Halves(st, c, s);
    var t := s.Other();
    ReadHalf(st.lanes.At(s), |st.lanes.At(t).segs|, st.groups.At(s), st.groups.At(t), st.registered.At(s),
             c.At(s), c.At(t), st.lanes.At(t), |st.lanes.At(s).segs|, st.registered.At(t));
  }

  lemma ReadHalf(l: Lane, n: nat, g: Group, h: Group, rs: bool, p: nat, q: nat, back: Lane, m: nat, rt: bool)
    requires Half(l, n, g, h, rs, p, q) && Half(back, m, h, g, rt, q, p)
    requires Idle(l) && Still(h) && g.closesSent == 0 && h.closesSent == 0
    ensures h.readOut == g.written
  {
    EmptyPipe(l.segs);
    assert p == 0 && l.Shaped();
    hide Swept;
    assert h.remoteClosed == 0 && h.closed == 0 && g.late == 0;
    hide Handshaking, Calling;
    assert OnTime(g) == g.written;
    hide OnTime;
    assert Arrived(h) == h.readOut;
  }
}
