/** The end of the stream in a network: what EOF means on any route, whatever shares its transports. */
module NetworkStreams {
  import opened Routing
  import opened RouteGroups
  import opened RouteMachine
  import opened RouteProofs
  import opened EndOfStream
  import opened Network
  import opened NetworkProofs
  import opened NetworkSteps
  import opened NetworkTheorems

  /** The step sends a Write of end s of route k that was let in before, and goes on after, that end
      initiated its close. */
  ghost predicate NetSendsLate(net: Net, a: NetAction, k: nat, s: Side)
  {
    && k < |net.routes| && a == DoAt(net.routes[k].HomeOf(s), net.routes[k].DescOf(s), CallSendWrite)
    && var g := GroupAt(net, k, s);
       g.closeInitiated && g.writing.Sending? && |g.writing.data| <= MAX_UINT16
  }

  /** Some step of the run does. */
  ghost predicate NetLateWrite(net: Net, acts: seq<NetAction>, k: nat, s: Side)
    decreases |acts|
  {
    acts != [] && VisorsOk(net) && NetEnabled(net, acts[0])
    && (NetSendsLate(net, acts[0], k, s) || NetLateWrite(NetApply(net, acts[0]), acts[1..], k, s))
  }

  /** Late bytes of end s of route k; none before the route is there. */
  ghost function LateAt(net: Net, k: nat, s: Side): nat
  {
    if k < |net.routes| then GroupAt(net, k, s).late else 0
  }

  lemma CallLateAt(net: Net, net': Net, k: nat, s: Side, k0: nat, s0: Side, call: GroupCall)
    requires NetInv(net) && AllReachable(net) && k < |net.routes| && Simulates(net, net', k0, Do(s0, call))
    ensures k < |net'.routes|
    ensures LateAt(net', k, s) > 0 <==>
      LateAt(net, k, s) > 0 || NetSendsLate(net, DoAt(net.routes[k0].HomeOf(s0), net.routes[k0].DescOf(s0), call), k, s)
  {
    hide VisorsOk, Apart, RulesOk, GroupsLinked, GroupsOwned, PacketsOwned, GroupAt, LaneView, RunningAt, Reachable;
    LaidShaped(net);
    assert net'.routes == net.routes;
    SideOf(net, k, s);
    SideOf(net', k, s);
    hide Laid;
    if k == k0 {
      assert Reachable(View(net, k));
      hide AllReachable;
      ReachableSolid(View(net, k));
      StepLate(View(net, k), Do(s0, call), s);
      var x := net.routes[k];
      assert s0 == s <==> x.HomeOf(s0) == x.HomeOf(s) && x.DescOf(s0) == x.DescOf(s);
    }
  }

  /** A delivery sends no application data. */
  lemma DeliverLateAt(net: Net, net': Net, k: nat, s: Side, k0: nat, t: Side, i: nat)
    requires NetInv(net) && AllReachable(net) && k < |net.routes| && Simulates(net, net', k0, Deliver(t, i))
    ensures k < |net'.routes| && (LateAt(net', k, s) > 0 <==> LateAt(net, k, s) > 0)
  {
    hide VisorsOk, Apart, HomesApart, RulesOk, GroupsLinked, GroupsOwned, PacketsOwned, GroupAt, LaneView;
    hide RunningAt, Reachable;
    LaidShaped(net);
    assert net'.routes == net.routes;
    SideOf(net, k, s);
    SideOf(net', k, s);
    hide Laid;
    if k == k0 {
      assert Reachable(View(net, k));
      hide AllReachable;
      ReachableSolid(View(net, k));
      StepLate(View(net, k), Deliver(t, i), s);
    }
  }

  /** A route that the step leaves alone, or that it adds. */
  lemma OtherLateAt(net: Net, net': Net, k: nat, s: Side)
    requires Laid(net) && Laid(net') && net.routes <= net'.routes && k < |net'.routes|
    requires k < |net.routes| ==> View(net', k) == View(net, k)
    requires k >= |net.routes| ==> RouteMachine.Initial(View(net', k))
    ensures LateAt(net', k, s) == LateAt(net, k, s)
  {
    hide GroupAt, LaneView, RunningAt;
    LaidShaped(net);
    LaidShaped(net');
    SideOf(net', k, s);
    if k < |net.routes| {
      assert net'.routes[k] == net.routes[k];
      SideOf(net, k, s);
    }
  }

  lemma NoRouteYet(net: Net, a: NetAction, net': Net, k: nat, s: Side)
    requires k >= |net'.routes| && net.routes <= net'.routes
    ensures LateAt(net', k, s) == LateAt(net, k, s) && !NetSendsLate(net, a, k, s)
  {
  }

  lemma NotSending(net: Net, a: NetAction, k: nat, s: Side)
    requires !a.DoAt?
    ensures !NetSendsLate(net, a, k, s)
  {
  }

  lemma SimulatesRoutes(net: Net, net': Net, k: nat, a: Action)
    requires Simulates(net, net', k, a)
    ensures net'.routes == net.routes
  {
  }

  lemma AddsRoutes(net: Net, net': Net, k: nat, s: Side)
    requires Adds(net, net') && k < |net'.routes|
    ensures LateAt(net', k, s) == LateAt(net, k, s)
  {
    hide View, RouteMachine.Initial;
    OtherLateAt(net, net', k, s);
  }

  lemma NetStepLate(net: Net, a: NetAction, k: nat, s: Side)
    requires NetInv(net) && AllReachable(net) && NetEnabled(net, a)
    ensures LateAt(NetApply(net, a), k, s) > 0 <==> LateAt(net, k, s) > 0 || NetSendsLate(net, a, k, s)
  {
    NetStep(net, a);
    hide NetInv, LateAt, NetSendsLate, AllReachable, NetEnabled, NetApply, Moves, Isolated;
    MoveLate(net, a, NetApply(net, a), k, s);
  }

  lemma MoveLate(net: Net, a: NetAction, net': Net, k: nat, s: Side)
    requires NetInv(net) && AllReachable(net) && Moves(net, a, net')
    ensures LateAt(net', k, s) > 0 <==> LateAt(net, k, s) > 0 || NetSendsLate(net, a, k, s)
  {
    hide NetInv, LateAt, NetSendsLate, AllReachable, Simulates, Adds;
    match a
    case DoAt(v, d, call) =>
      var k0, s0 :| Owner(net, v, d, k0, s0) && Simulates(net, net', k0, Do(s0, call));
      SimulatesRoutes(net, net', k0, Do(s0, call));
      if k < |net.routes| { CallLateAt(net, net', k, s, k0, s0, call); } else { NoRouteYet(net, a, net', k, s); }
    case DeliverOn(l) =>
      var p: Spot :| Carries(net.routes, l, net.Queue(l)[0].id, p) && Simulates(net, net', p.k, Deliver(p.s, p.i));
      SimulatesRoutes(net, net', p.k, Deliver(p.s, p.i));
      hide Carries;
      NotSending(net, a, k, s);
      if k < |net.routes| { DeliverLateAt(net, net', k, s, p.k, p.s, p.i); } else { NoRouteYet(net, a, net', k, s); }
    case Establish(_) => AddsLate(net, a, net', k, s);
    case Burn(_, _) => AddsLate(net, a, net', k, s);
  }

  lemma AddsLate(net: Net, a: NetAction, net': Net, k: nat, s: Side)
    requires Adds(net, net') && !a.DoAt?
    ensures LateAt(net', k, s) == LateAt(net, k, s) && !NetSendsLate(net, a, k, s)
  {
    hide LateAt, NetSendsLate, View, RouteMachine.Initial;
    NotSending(net, a, k, s);
    if k < |net'.routes| { AddsRoutes(net, net', k, s); } else { NoRouteYet(net, a, net', k, s); }
  }

  lemma {:induction false} NetRunLate(net: Net, acts: seq<NetAction>, net': Net, k: nat, s: Side)
    requires NetInv(net) && AllReachable(net) && NetRun(net, acts, net')
    ensures LateAt(net', k, s) > 0 <==> LateAt(net, k, s) > 0 || NetLateWrite(net, acts, k, s)
    decreases |acts|
  {
    hide NetInv, AllReachable, NetApply, NetEnabled, Isolated, Moves, LateAt, NetSendsLate;
    if acts != [] {
      NetStep(net, acts[0]);
      StepReachable(net, NetApply(net, acts[0]));
      NetStepLate(net, acts[0], k, s);
      NetRunLate(NetApply(net, acts[0]), acts[1..], net', k, s);
    }
  }

  /** In every run of a network, EOF at an end of a route that has not itself initiated a close means
      that the other end has, and that everything the other end wrote before has been read; that is
      everything it ever wrote if and only if none of its Writes was let in before, and sent after, it
      initiated the close. */
  lemma NetworkEOF(net0: Net, acts: seq<NetAction>, net: Net, k: nat, s: Side)
    requires Fresh(net0) && NetRun(net0, acts, net) && k < |net.routes|
    requires AtEOF(GroupAt(net, k, s.Other())) && !GroupAt(net, k, s.Other()).closeInitiated
    ensures GroupAt(net, k, s).closeInitiated
    ensures GroupAt(net, k, s.Other()).readOut == OnTime(GroupAt(net, k, s))
    ensures GroupAt(net, k, s.Other()).readOut == GroupAt(net, k, s).written <==> !NetLateWrite(net0, acts, k, s)
  {
    hide NetInv, AllReachable, NetLateWrite, GroupAt, AtEOF, OnTime, NetRun;
    FreshLate(net0, k, s);
    NetRunReachable(net0, acts, net);
    NetRunLate(net0, acts, net, k, s);
    EOFAt(net, k, s);
  }

  lemma FreshLate(net: Net, k: nat, s: Side)
    requires Fresh(net)
    ensures NetInv(net) && AllReachable(net) && LateAt(net, k, s) == 0
  {
    hide NetInv, AllReachable;
    FreshInv(net);
  }

  lemma EOFAt(net: Net, k: nat, s: Side)
    requires AllReachable(net) && k < |net.routes|
    requires AtEOF(GroupAt(net, k, s.Other())) && !GroupAt(net, k, s.Other()).closeInitiated
    ensures var g, h := GroupAt(net, k, s), GroupAt(net, k, s.Other());
            && g.closeInitiated && h.readOut == OnTime(g) && (h.readOut == g.written <==> LateAt(net, k, s) == 0)
  {
    hide Reachable, LaneView, GroupAt, RunningAt, AtEOF;
    LaidShaped(net);
    SideOf(net, k, s);
    assert Reachable(View(net, k));
    hide Laid, View;
    EOFMeansClosed(View(net, k), s);
  }
}
