/** What the end of the stream means: unless it has initiated a close itself, a reader sees EOF only
    after the other end has initiated one, and then it has read everything the other end wrote up to
    that point, which is everything it ever wrote unless a Write was let in before and sent after it. */
module EndOfStream {
  import opened Routing
  import opened RouteGroups
  import opened RouteMachine
  import opened RouteProofs

  // ---- no empty data packets ----

  ghost predicate Solid(b: Body) { b.Data? ==> b.payload != [] }

  ghost predicate SolidLane(l: Lane)
  {
    forall i, j :: 0 <= i < |l.segs| && 0 <= j < |l.segs[i]| ==> Solid(l.segs[i][j])
  }

  ghost predicate SolidGroup(g: Group)
  {
    && (forall j :: 0 <= j < |g.readCh| ==> g.readCh[j] != [])
    && (!g.writing.NotWriting? ==> g.writing.data != [])
  }

  ghost predicate SolidState(st: State)
  {
    && st.Shaped() && SolidLane(st.lanes.init) && SolidLane(st.lanes.resp)
    && SolidGroup(st.groups.init) && SolidGroup(st.groups.resp)
  }

  ghost predicate SolidOut(out: seq<Body>) { forall j :: 0 <= j < |out| ==> Solid(out[j]) }

  lemma PerformSolid(st: State, s: Side, e: Effect)
    requires SolidState(st) && SolidOut(e.out) && SolidGroup(e.group)
    ensures SolidState(Perform(st, s, e))
  {
  }

  lemma CallSolid(g: Group, call: GroupCall)
    requires SolidGroup(g) && Callable(g, call)
    ensures SolidOut(CallEffect(g, call).out) && SolidGroup(CallEffect(g, call).group)
  {
  }

  lemma HandleSolid(g: Group, b: Body)
    requires SolidGroup(g) && Solid(b)
    ensures SolidOut(HandlePacket(g, b).out) && SolidGroup(HandlePacket(g, b).group)
  {
  }

  lemma StepSolid(st: State, a: Action)
    requires SolidState(st) && Enabled(st, a)
    ensures SolidState(Apply(st, a))
  {
    match a
    case Do(s, call) =>
      CallSolid(st.groups.At(s), call);
      hide CallEffect;
      PerformSolid(st, s, CallEffect(st.groups.At(s), call));
    case Deliver(s, i) =>
      var t, l := s.Other(), st.lanes.At(s);
      var b, g := l.segs[i][0], st.groups.At(t);
      HandleSolid(g, b);
      Deliveries(st, s, i);
      LaneSolid(l, i);
      hide HandlePacket, Perform, SolidLane, Pop, Push, Drop;
      var st1 := st.(lanes := st.lanes.Put(s, Pop(l, i)));
      var st2 := st.(lanes := st.lanes.Put(s, Drop(Pop(l, i), i + 1)), registered := st.registered.Put(t, false));
      if l.present[i + 1] && i + 1 == |l.segs| {
        PerformSolid(if b.Close? then st2 else st1, t, HandlePacket(g, b));
      }
  }

  lemma LaneSolid(l: Lane, i: nat)
    requires SolidLane(l) && l.Shaped() && i < |l.segs| && l.segs[i] != []
    ensures SolidLane(Pop(l, i)) && SolidLane(Drop(Pop(l, i), i + 1))
    ensures i + 1 < |l.segs| ==> SolidLane(Forwarded(l, i))
    ensures Pop(l, i).Shaped() && Drop(Pop(l, i), i + 1).Shaped() && (i + 1 < |l.segs| ==> Forwarded(l, i).Shaped())
    ensures Solid(l.segs[i][0])
  {
  }

  lemma {:induction false} RunSolid(st: State, acts: seq<Action>, st': State)
    requires SolidState(st) && Run(st, acts, st')
    ensures SolidState(st')
    decreases |acts|
  {
    if acts != [] {
      StepSolid(st, acts[0]);
      hide SolidState, Apply, Enabled;
      RunSolid(Apply(st, acts[0]), acts[1..], st');
    }
  }

  lemma ReachableSolid(st: State)
    requires Reachable(st)
    ensures SolidState(st)
  {
    var st0, acts :| RouteMachine.Initial(st0) && Run(st0, acts, st);
    RunSolid(st0, acts, st);
  }

  // ---- late writes ----

  /** The step sends a Write of side s that was let in before, and goes on after, s initiated a close. */
  ghost predicate SendsLate(st: State, a: Action, s: Side)
  {
    var g := st.groups.At(s);
    a == Do(s, CallSendWrite) && g.closeInitiated && g.writing.Sending? && |g.writing.data| <= MAX_UINT16
  }

  /** Some step of the run does. */
  ghost predicate LateWrite(st: State, acts: seq<Action>, s: Side)
    requires st.Shaped()
    decreases |acts|
  {
    acts != [] && Enabled(st, acts[0])
    && (SendsLate(st, acts[0], s) || (ApplyShaped(st, acts[0]); LateWrite(Apply(st, acts[0]), acts[1..], s)))
  }

  lemma CallLate(g: Group, call: GroupCall)
    requires SolidGroup(g) && Callable(g, call)
    ensures CallEffect(g, call).group.late > 0 <==>
      g.late > 0 || (call.CallSendWrite? && g.closeInitiated && |g.writing.data| <= MAX_UINT16)
  {
  }

  lemma HandleLate(g: Group, b: Body)
    ensures HandlePacket(g, b).group.late == g.late
  {
  }

  lemma StepLate(st: State, a: Action, s: Side)
    requires SolidState(st) && Enabled(st, a)
    ensures Apply(st, a).groups.At(s).late > 0 <==> st.groups.At(s).late > 0 || SendsLate(st, a, s)
  {
    match a
    case Do(t, call) =>
      CallLate(st.groups.At(t), call);
      hide CallEffect, Callable;
    case Deliver(t, i) =>
      HandleLate(st.groups.At(t.Other()), st.lanes.At(t).segs[i][0]);
      hide HandlePacket;
  }

  lemma {:induction false} RunLate(st: State, acts: seq<Action>, st': State, s: Side)
    requires SolidState(st) && Run(st, acts, st')
    ensures st'.groups.At(s).late > 0 <==> st.groups.At(s).late > 0 || LateWrite(st, acts, s)
    decreases |acts|
  {
    if acts != [] {
      StepSolid(st, acts[0]);
      StepLate(st, acts[0], s);
      hide SolidState, Apply, Enabled, SendsLate;
      RunLate(Apply(st, acts[0]), acts[1..], st', s);
    }
  }

  // ---- the result ----

  /** The Read in progress can report EOF now. */
  predicate AtEOF(g: Group) { g.reading.Selecting? && SelectItem(g).1.EOF? }

  /** EOF at an end that has not itself initiated a close means that the other end has, and that every
      byte the other end wrote before that has been read here. */
  lemma EOFMeansClosed(st: State, s: Side)
    requires Reachable(st) && AtEOF(st.groups.At(s.Other())) && !st.groups.At(s.Other()).closeInitiated
    ensures st.groups.At(s).closeInitiated && st.groups.At(s.Other()).readOut == OnTime(st.groups.At(s))
    ensures st.groups.At(s).late <= |st.groups.At(s).written|
  {
    var g, h, l := st.groups.At(s), st.groups.At(s.Other()), st.lanes.At(s);
    ReachableSolid(st);
    GroupSolid(st, s.Other());
    hide SolidState;
    var c := ReachableInv(st);
    Halves(st, c, s);
    hide Swept, Faithful, OnTime;
    assert h.readCh == [] && h.readBuf == [] && h.remoteClosed == 1;
    assert c.At(s) == |l.segs|;
    assert g.closesSent == 1 by { Consumed(l, g.closesSent, c.At(s)); }
    ArrivedAll(l, c.At(s), g, h);
    EmptyArrived(h);
  }

  lemma EmptyArrived(h: Group)
    requires h.readBuf == [] && h.readCh == [] && !h.reading.Holding?
    ensures Arrived(h) == h.readOut
  {
  }

  /** So EOF means the whole stream, for every run, if and only if no Write of the other end was let in
      before, and sent after, that end initiated its close. */
  lemma EOFMeansComplete(st0: State, acts: seq<Action>, st: State, s: Side)
    requires RouteMachine.Initial(st0) && Run(st0, acts, st)
    requires AtEOF(st.groups.At(s.Other())) && !st.groups.At(s.Other()).closeInitiated
    ensures st.groups.At(s).closeInitiated
    ensures st.groups.At(s.Other()).readOut == OnTime(st.groups.At(s))
    ensures st.groups.At(s.Other()).readOut == st.groups.At(s).written <==> !LateWrite(st0, acts, s)
  {
    RunSolid(st0, acts, st);
    RunLate(st0, acts, st, s);
    hide SolidState, Run, LateWrite;
    EOFMeansClosed(st, s);
  }

  lemma GroupSolid(st: State, s: Side)
    requires SolidState(st)
    ensures SolidGroup(st.groups.At(s))
  {
  }

  lemma Consumed(l: Lane, sent: nat, p: nat)
    requires Swept(l, sent, p) && p == |l.segs|
    ensures sent == 1
  {
  }

  lemma ArrivedAll(l: Lane, p: nat, g: Group, h: Group)
    requires Faithful(l, p, g, h) && p == |l.segs| && g.closeInitiated && !h.closeInitiated
    ensures Arrived(h) == OnTime(g)
  {
  }
}
