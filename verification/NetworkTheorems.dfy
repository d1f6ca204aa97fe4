/** Whole runs of the network, from visors with empty tables through any number of setups, calls and
    deliveries in any order. */
module NetworkTheorems {
  import opened Routing
  import opened Setup
  import opened RouteMachine
  import opened RouteProofs
  import opened Network
  import opened NetworkProofs
  import opened NetworkSteps
  import opened NetworkSetup

  /** No route yet, nothing in flight, no rule and no group anywhere. */
  ghost predicate Fresh(net: Net)
  {
    && net.routes == [] && (forall l :: net.Queue(l) == [])
    && forall v :: v in net.visors ==>
         net.visors[v].rules == map[] && net.visors[v].groups == map[] && net.visors[v].running == {}
  }

  /** Each step moves at most one established route, by a step of its own machine; a setup adds one
      route in its initial state. */
  ghost predicate Isolated(net: Net, net': Net)
  {
    Adds(net, net') || exists k, a :: Simulates(net, net', k, a)
  }

  ghost predicate Untouched(net: Net, net': Net)
    requires Laid(net) && Laid(net') && net.routes <= net'.routes
  {
    forall k :: 0 <= k < |net.routes| ==> View(net', k) == View(net, k)
  }

  ghost predicate Adds(net: Net, net': Net)
  {
    && Laid(net) && Laid(net') && net.routes <= net'.routes && Untouched(net, net')
    && forall k :: |net.routes| <= k < |net'.routes| ==> Initial(View(net', k))
  }

  /** Which step of which route's machine a step of the network is. */
  ghost predicate Moves(net: Net, a: NetAction, net': Net)
  {
    match a
    case Establish(bi) => Adds(net, net')
    case Burn(v, n) => Adds(net, net')
    case DoAt(v, d, call) => exists k, s :: Owner(net, v, d, k, s) && Simulates(net, net', k, Do(s, call))
    case DeliverOn(l) =>
      net.Queue(l) != [] && exists p: Spot ::
        Carries(net.routes, l, net.Queue(l)[0].id, p) && Simulates(net, net', p.k, Deliver(p.s, p.i))
  }

  lemma NetStep(net: Net, a: NetAction)
    requires NetInv(net) && NetEnabled(net, a)
    ensures NetInv(NetApply(net, a)) && Moves(net, a, NetApply(net, a)) && Isolated(net, NetApply(net, a))
  {
    hide Laid, Apart, HomesApart, RulesOk, GroupsLinked, GroupsOwned, PacketsOwned, Adds;
    match a
    case Establish(bi) => SetupStep(net, bi);
    case Burn(v, n) => BurnStep(net, v, n);
    case DoAt(v, d, call) => CallStep(net, v, d, call);
    case DeliverOn(l) =>
      DeliverStep(net, l);
      DeliverIs(net, l);
  }

  lemma SetupStep(net: Net, bi: BiRoute)
    requires NetInv(net) && CanEstablish(net, bi)
    ensures NetInv(EstablishNet(net, bi)) && Adds(net, EstablishNet(net, bi))
  {
    hide CanEstablish, EstablishNet, Extended, Laid, Apart, HomesApart, RulesOk, GroupsLinked, GroupsOwned;
    hide PacketsOwned;
    hide VisorsOk, View, Initial;
    var net', n := EstablishNet(net, bi), |net.routes|;
    EstablishFrame(net, bi);
    EstablishLaid(net, bi);
    EstablishRules(net, bi);
    ExtendedApart(net, bi);
    EstablishGroups(net, bi);
    EstablishPackets(net, bi);
    EstablishInitial(net, bi);
    forall k | 0 <= k < n ensures k < |net'.routes| && net'.routes[k].Shaped() && View(net', k) == View(net, k) {
      EstablishOthers(net, bi, k);
    }
    assert net.routes <= net'.routes by { assert net'.routes[..n] == net.routes; }
    LaidShaped(net);
    assert Untouched(net, net');
  }

  lemma LaidShaped(net: Net)
    requires Laid(net)
    ensures forall k :: 0 <= k < |net.routes| ==> net.routes[k].Shaped()
  {
  }

  lemma BurnStep(net: Net, v: PubKey, n: nat)
    requires NetInv(net) && v in net.visors
    ensures var net' := net.(visors := net.visors[v := net.visors[v].(next := net.visors[v].next + n)]);
            NetInv(net') && Adds(net, net')
  {
    hide Apart, HomesApart, RulesOk, GroupsLinked, GroupsOwned, PacketsOwned, VisorsOk, LaneView, SegsSame;
    var w := net.visors[v].(next := net.visors[v].next + n);
    var net' := net.(visors := net.visors[v := w]);
    TameInv(net, v, w);
    SameSegs(net, net');
    forall p | IsSpot(net.routes, p) ensures PresentAt(net', p) == PresentAt(net, p) {}
    hide Laid, PresentAt;
    ViewGroups(net, net');
    assert Untouched(net, net');
  }

  // ---- runs ----

  ghost predicate NetRun(net: Net, acts: seq<NetAction>, net': Net)
    decreases |acts|
  {
    if acts == [] then net' == net
    else VisorsOk(net) && NetEnabled(net, acts[0]) && NetRun(NetApply(net, acts[0]), acts[1..], net')
  }

  ghost predicate AllReachable(net: Net)
  {
    Laid(net) && forall k :: 0 <= k < |net.routes| ==> Reachable(View(net, k))
  }

  lemma FreshInv(net: Net)
    requires Fresh(net)
    ensures NetInv(net) && AllReachable(net)
  {
  }

  lemma StepReachable(net: Net, net': Net)
    requires AllReachable(net) && Isolated(net, net')
    ensures AllReachable(net')
  {
    hide Laid, Reachable, Initial, Enabled, Apply, View;
    LaidShaped(net);
    if Adds(net, net') {
      LaidShaped(net');
      forall k | 0 <= k < |net'.routes| ensures Reachable(View(net', k)) {
        if k >= |net.routes| { InitialReachable(View(net', k)); }
      }
    } else {
      var k0, a :| Simulates(net, net', k0, a);
      ReachableStep(View(net, k0), a);
    }
  }

  /** In every run every established route is in a state its own machine can reach. */
  lemma {:induction false} NetRunReachable(net: Net, acts: seq<NetAction>, net': Net)
    requires NetInv(net) && AllReachable(net) && NetRun(net, acts, net')
    ensures NetInv(net') && AllReachable(net')
    decreases |acts|
  {
    hide NetInv, AllReachable, NetApply, NetEnabled, Isolated;
    if acts != [] {
      NetStep(net, acts[0]);
      StepReachable(net, NetApply(net, acts[0]));
      NetRunReachable(NetApply(net, acts[0]), acts[1..], net');
    }
  }

  ghost predicate NetReachable(net: Net)
  {
    exists net0, acts :: Fresh(net0) && NetRun(net0, acts, net)
  }

  lemma NetReachableInv(net: Net)
    requires NetReachable(net)
    ensures NetInv(net) && AllReachable(net)
  {
    hide NetInv, AllReachable, Fresh;
    var net0, acts :| Fresh(net0) && NetRun(net0, acts, net);
    FreshInv(net0);
    NetRunReachable(net0, acts, net);
  }

  // ---- results for the network ----

  /** Over any run of a network with any number of routes, the bytes read at one end of a route are a
      prefix of the bytes written at its other end; and while neither end has started to close, the
      bytes written are those read, those waiting to be read and those of its packets in flight. */
  lemma NetworkByteStream(net: Net, k: nat, s: Side)
    requires NetReachable(net) && k < |net.routes|
    ensures GroupAt(net, k, s.Other()).readOut <= GroupAt(net, k, s).written
    ensures net.routes[k].Shaped()
    ensures GroupAt(net, k, s).closesSent == 0 && GroupAt(net, k, s.Other()).closesSent == 0 ==>
      GroupAt(net, k, s).written == Arrived(GroupAt(net, k, s.Other())) + DataOf(Pipe(LaneView(net, k, s).segs))
  {
    hide NetReachable, NetInv, Reachable, LaneView, GroupAt, Arrived, OnTime;
    NetReachableInv(net);
    LaidShaped(net);
    ByteStream(View(net, k), s);
    SideOf(net, k, s);
  }

  lemma SideOf(net: Net, k: nat, s: Side)
    requires k < |net.routes| && net.routes[k].Shaped()
    ensures View(net, k).groups.At(s) == GroupAt(net, k, s) && View(net, k).lanes.At(s) == LaneView(net, k, s)
    ensures View(net, k).groups.At(s.Other()) == GroupAt(net, k, s.Other())
  {
    hide GroupAt, LaneView, RunningAt;
  }

  lemma NetworkCloseSafety(net: Net, k: nat, s: Side)
    requires NetReachable(net) && k < |net.routes|
    ensures var g := GroupAt(net, k, s);
            && g.closed <= 1 && g.remoteClosed <= 1 && g.readChClosed <= 1 && g.closesSent <= 1
            && g.closeDone >= 0 && !g.sentOnClosed
  {
    hide NetReachable, NetInv, Reachable, LaneView;
    NetReachableInv(net);
    LaidShaped(net);
    CloseSafety(View(net, k), s);
  }

  /** No packet of route k is in flight on any link. */
  ghost predicate Quiet(net: Net, k: nat)
  {
    forall p: Spot :: p.k == k && IsHop(net.routes, p) ==> SegAt(net, p) == []
  }

  lemma QuietIdle(net: Net, k: nat, s: Side)
    requires k < |net.routes| && net.routes[k].Shaped() && Quiet(net, k)
    ensures Idle(View(net, k).lanes.At(s))
  {
    var l := View(net, k).lanes.At(s);
    forall i | 0 <= i < |l.segs| ensures l.segs[i] == [] {
      assert IsHop(net.routes, Spot(k, s, i));
      LaneAt(net, Spot(k, s, i));
    }
  }

  /** Once an end of a route has started to close, none of its packets is in flight and neither end is
      still waiting, no visor of the network holds any of its rules and no router dispatches to either
      of its groups. */
  lemma NetworkTeardown(net: Net, k: nat, s: Side, p: Spot)
    requires NetReachable(net) && k < |net.routes| && Quiet(net, k)
    requires GroupAt(net, k, s).closesSent > 0
    requires !GroupAt(net, k, Init).waiting && !GroupAt(net, k, Resp).waiting
    requires p.k == k && IsSpot(net.routes, p)
    ensures !PresentAt(net, p) && !RunningAt(net, k, Init) && !RunningAt(net, k, Resp)
  {
    hide NetReachable, NetInv, Reachable, LaneView;
    NetReachableInv(net);
    LaidShaped(net);
    assert Reachable(View(net, k));
    hide Laid, AllReachable;
    var st := View(net, k);
    QuietIdle(net, k, Init);
    QuietIdle(net, k, Resp);
    Teardown(st, s);
    LaneAt(net, p);
  }

  /** Route isolation: in every reachable network each packet in flight belongs to exactly one hop of
      exactly one route, and the only rule it can match where it arrives is that route's rule for the
      next place. */
  lemma RouteIsolation(net: Net, l: Link, j: nat) returns (p: Spot)
    requires NetReachable(net) && j < |net.Queue(l)|
    ensures var id := net.Queue(l)[j].id;
            && Carries(net.routes, l, id, p) && IsSpot(net.routes, After(p))
            && (forall q :: Carries(net.routes, l, id, q) ==> q == p)
            && l in net.peer && net.peer[l] in net.visors
            && (id in net.visors[net.peer[l]].rules ==>
                  net.visors[net.peer[l]].rules[id] == RuleOf(net.routes, After(p)))
  {
    hide NetReachable, AllReachable;
    NetReachableInv(net);
    var id := net.Queue(l)[j].id;
    assert Owned(net.routes, l, id);
    hide GroupsLinked, GroupsOwned, HomesApart, PacketsOwned, VisorsOk, RuleOf;
    p :| Carries(net.routes, l, id, p);
    HopPeer(net, p);
    forall q | Carries(net.routes, l, id, q) ensures q == p { SameHop(net, p, q); }
    hide Laid, Apart;
  }
}
