/** A network never gets stuck either: although a packet that has to wait holds up every route behind it
    on the same transport, reads, the end of waiting Closes and deliveries bring all routes to rest. */
module NetworkDrain {
  import opened Routing
  import opened RouteGroups
  import opened RouteMachine
  import opened RouteProofs
  import opened Drain
  import opened Routers
  import opened Network
  import opened NetworkProofs
  import opened NetworkSteps
  import opened NetworkTheorems

  ghost predicate NetTidying(a: NetAction) { a.DeliverOn? || (a.DoAt? && Tidies(a.call)) }

  /** Nothing in flight anywhere, and every end still. */
  ghost predicate NetAtRest(net: Net)
  {
    && (forall l :: net.Queue(l) == [])
    && forall k, s :: 0 <= k < |net.routes| ==> Still(GroupAt(net, k, s))
  }

  ghost function Weight(st: State, hands: bool): nat { if hands then Hands(st) else Measure(st) }

  /** The weight of the first k routes. */
  ghost function Sum(net: Net, k: nat, hands: bool): nat
    requires Laid(net) && k <= |net.routes|
  {
    if k == 0 then 0 else Sum(net, k - 1, hands) + Weight(View(net, k - 1), hands)
  }

  lemma {:induction false} SumChanges(net: Net, net': Net, k0: nat, st: State, k: nat, hands: bool)
    requires OnlyRoute(net, net', k0, st) && k <= |net.routes|
    ensures Sum(net', k, hands) + (if k0 < k then Weight(View(net, k0), hands) else 0)
         == Sum(net, k, hands) + (if k0 < k then Weight(st, hands) else 0)
  {
    hide View, Weight, Laid;
    if k > 0 { SumChanges(net, net', k0, st, k - 1, hands); }
  }

  /** The network has come nearer to rest, and no route has lost anything by it. */
  ghost predicate Nearer(net: Net, net': Net)
  {
    && AllTidied(net, net')
    && var n := |net.routes|;
       || Sum(net', n, false) < Sum(net, n, false)
       || (Sum(net', n, false) == Sum(net, n, false) && Sum(net', n, true) < Sum(net, n, true))
  }

  ghost predicate AllTidied(net: Net, net': Net)
  {
    && Laid(net) && Laid(net') && net'.routes == net.routes
    && forall k :: 0 <= k < |net.routes| ==> Tidied(View(net, k), View(net', k))
  }

  /** It is enough that one route has. */
  lemma OneLowers(net: Net, net': Net, k: nat, st: State)
    requires OnlyRoute(net, net', k, st) && Lowers(View(net, k), st) && Tidied(View(net, k), st)
    ensures Nearer(net, net')
  {
    hide View, Measure, Hands, Sum, Laid, Tidied;
    RoutesTidied(net, net', k, st);
    SumChanges(net, net', k, st, |net.routes|, false);
    SumChanges(net, net', k, st, |net.routes|, true);
    hide OnlyRoute, AllTidied;
  }

  lemma RoutesTidied(net: Net, net': Net, k: nat, st: State)
    requires OnlyRoute(net, net', k, st) && Tidied(View(net, k), st)
    ensures AllTidied(net, net')
  {
    hide View, Laid;
  }

  // ---- the next step ----

  lemma GroupCalling(net: Net, k: nat, s: Side)
    requires AllReachable(net) && k < |net.routes|
    ensures Calling(GroupAt(net, k, s))
  {
    hide Reachable, LaneView, GroupAt, RunningAt, Calling;
    LaidShaped(net);
    SideOf(net, k, s);
    assert Reachable(View(net, k));
    var c := ReachableInv(View(net, k));
    EndCalling(View(net, k), c, s);
  }

  /** An end that is not still takes a step of its own, whatever waits on the transports. */
  lemma TidyAt(net: Net, k: nat, s: Side) returns (a: NetAction)
    requires NetInv(net) && AllReachable(net) && k < |net.routes| && !Still(GroupAt(net, k, s))
    ensures NetTidying(a) && NetEnabled(net, a) && Nearer(net, NetApply(net, a))
  {
    hide Laid, Apart, HomesApart, RulesOk, GroupsLinked, GroupsOwned, PacketsOwned, VisorsOk;
    hide NetApply, Isolated, Still, Calling, CallEffect, Simulates, Nearer, AllReachable, GroupAt, HasGroup;
    hide Lower, Callable;
    hide NetEnabled;
    var x := net.routes[k];
    GroupCalling(net, k, s);
    var call := TidyEnd(GroupAt(net, k, s));
    a := DoAt(x.HomeOf(s), x.DescOf(s), call);
    CallEnabled(net, k, s, call);
    NetStep(net, a);
    var net' := NetApply(net, a);
    var k0, s0 :| Owner(net, x.HomeOf(s), x.DescOf(s), k0, s0) && Simulates(net, net', k0, Do(s0, call));
    OneOwner(net, k, s, k0, s0);
    TidyNearer(net, net', k, s, call);
  }

  lemma CallEnabled(net: Net, k: nat, s: Side, call: GroupCall)
    requires NetInv(net) && k < |net.routes| && Callable(GroupAt(net, k, s), call)
    ensures NetEnabled(net, DoAt(net.routes[k].HomeOf(s), net.routes[k].DescOf(s), call))
  {
    hide Apart, HomesApart, RulesOk, GroupsOwned, PacketsOwned, VisorsOk, Callable;
    GroupHere(net, k, s);
  }

  lemma OneOwner(net: Net, k: nat, s: Side, k0: nat, s0: Side)
    requires NetInv(net) && k < |net.routes| && Owner(net, net.routes[k].HomeOf(s), net.routes[k].DescOf(s), k0, s0)
    ensures k0 == k && s0 == s
  {
    hide Laid, Apart, RulesOk, GroupsLinked, GroupsOwned, PacketsOwned, VisorsOk;
  }

  lemma TidyNearer(net: Net, net': Net, k: nat, s: Side, call: GroupCall)
    requires Simulates(net, net', k, Do(s, call)) && Tidies(call) && Callable(GroupAt(net, k, s), call)
    requires Lower(GroupAt(net, k, s), CallEffect(GroupAt(net, k, s), call).group)
    ensures Nearer(net, net')
  {
    hide LaneView, GroupAt, RunningAt, CallEffect, Lower, Callable, Nearer, Lowers, Tidied, OnlyRoute;
    ShapedRoute(net, k);
    SideOf(net, k, s);
    CallTidies(View(net, k), s, call);
    OneLowers(net, net', k, Apply(View(net, k), Do(s, call)));
  }

  /** With every group still, a router takes any packet. */
  lemma RouterTakes(w: Visor, p: Packet)
    requires GroupsOk(w) && forall d :: d in w.running ==> Still(w.groups[d].group)
    ensures !HandleTransportPacket(w, p).blocked
  {
    if p.id in w.rules && !w.rules[p.id].Intermediary? && w.rules[p.id].desc in w.running {
      StillReceives(w.groups[w.rules[p.id].desc].group, p.body);
    }
    hide HandlePacket, Still;
  }

  lemma DeliverEnabled(net: Net, l: Link)
    requires NetInv(net) && net.Queue(l) != [] && forall k, s :: 0 <= k < |net.routes| ==> Still(GroupAt(net, k, s))
    ensures NetEnabled(net, DeliverOn(l))
  {
    hide Apart, HomesApart, RulesOk, GroupsLinked, Still;
    assert Owned(net.routes, l, net.Queue(l)[0].id);
    var p :| Carries(net.routes, l, net.Queue(l)[0].id, p);
    HopPeer(net, p);
    var v := net.peer[l];
    hide Laid, PacketsOwned;
    assert GroupsOk(net.visors[v]);
    forall d | d in net.visors[v].running ensures Still(net.visors[v].groups[d].group) {
      var k, s :| Owner(net, v, d, k, s);
      assert HasGroup(net, k, s) && GroupAt(net, k, s) == net.visors[v].groups[d].group;
    }
    RouterTakes(net.visors[v], net.Queue(l)[0]);
  }

  lemma DeliverNearer(net: Net, net': Net, k: nat, s: Side, i: nat)
    requires AllReachable(net) && Simulates(net, net', k, Deliver(s, i))
    ensures Nearer(net, net')
  {
    hide Reachable, LaneView, GroupAt, RunningAt, Nearer, Lowers, Tidied, Enabled;
    var st := View(net, k);
    assert Reachable(st);
    var c := ReachableInv(st);
    DeliverTidies(st, c, s, i);
    hide DeliverAt, Inv, View, AllReachable, OnlyRoute;
    OneLowers(net, net', k, Apply(st, Deliver(s, i)));
  }

  lemma NetNext(net: Net) returns (a: NetAction)
    requires NetInv(net) && AllReachable(net) && !NetAtRest(net)
    ensures NetTidying(a) && NetEnabled(net, a) && Nearer(net, NetApply(net, a))
  {
    hide Laid, Apart, HomesApart, RulesOk, GroupsLinked, GroupsOwned, PacketsOwned, VisorsOk;
    hide AllReachable, Still, NetEnabled, NetApply, Nearer, Simulates, GroupAt, Isolated;
    if k: nat, s: Side :| k < |net.routes| && !Still(GroupAt(net, k, s)) {
      a := TidyAt(net, k, s);
    } else {
      var l :| net.Queue(l) != [];
      DeliverEnabled(net, l);
      a := DeliverOn(l);
      NetStep(net, a);
      var net' := NetApply(net, a);
      var p: Spot :| Carries(net.routes, l, net.Queue(l)[0].id, p) && Simulates(net, net', p.k, Deliver(p.s, p.i));
      DeliverNearer(net, net', p.k, p.s, p.i);
    }
  }

  // ---- the run to rest ----

  lemma NearerTidied(net: Net, mid: Net, net': Net)
    requires AllTidied(net, mid) && AllTidied(mid, net')
    ensures AllTidied(net, net')
  {
    hide View, Laid;
  }

  lemma {:induction false} DrainNet(net: Net) returns (acts: seq<NetAction>, net': Net)
    requires NetInv(net) && AllReachable(net)
    ensures NetRun(net, acts, net') && NetInv(net') && AllReachable(net') && NetAtRest(net') && AllTidied(net, net')
    ensures forall i :: 0 <= i < |acts| ==> NetTidying(acts[i])
    decreases Sum(net, |net.routes|, false), Sum(net, |net.routes|, true)
  {
    hide Apart, HomesApart, RulesOk, GroupsLinked, GroupsOwned, PacketsOwned, VisorsOk, View, Tidied;
    hide NetAtRest, NetEnabled, NetApply, NetTidying, Sum, Isolated, Moves, AllReachable, Laid;
    if NetAtRest(net) {
      acts, net' := [], net;
      SelfTidied(net);
    } else {
      var a := NetNext(net);
      NetStep(net, a);
      StepReachable(net, NetApply(net, a));
      var rest;
      rest, net' := DrainNet(NetApply(net, a));
      NearerTidied(net, NetApply(net, a), net');
      acts := [a] + rest;
      assert acts[1..] == rest;
    }
  }

  lemma SelfTidied(net: Net)
    requires Laid(net)
    ensures AllTidied(net, net)
  {
    hide View;
  }

  // ---- the results ----

  lemma RestOf(net: Net, k: nat)
    requires Laid(net) && NetAtRest(net) && k < |net.routes|
    ensures AtRest(View(net, k))
  {
    hide Still, LaneView, GroupAt, RunningAt;
    LaidShaped(net);
    assert Quiet(net, k);
    hide Laid;
    QuietIdle(net, k, Init);
    QuietIdle(net, k, Resp);
  }

  /** No visor holds a rule of route k, and no router dispatches to its groups. */
  ghost predicate Cleared(net: Net, k: nat)
  {
    && k < |net.routes| && !RunningAt(net, k, Init) && !RunningAt(net, k, Resp)
    && forall p: Spot :: p.k == k && IsSpot(net.routes, p) ==> !PresentAt(net, p)
  }

  lemma ClearedAtRest(net: Net, k: nat, s: Side)
    requires AllReachable(net) && NetAtRest(net) && k < |net.routes| && GroupAt(net, k, s).closesSent > 0
    ensures Cleared(net, k)
  {
    RestOf(net, k);
    LaidShaped(net);
    hide Reachable, LaneView, GroupAt, RunningAt, NetAtRest, Still, Laid, PresentAt;
    assert Reachable(View(net, k));
    hide AllReachable;
    SideOf(net, k, s);
    var st := View(net, k);
    var c := ReachableInv(st);
    StillWaits(st.groups.init);
    StillWaits(st.groups.resp);
    SweptAtRest(st, c, s);
    forall p: Spot | p.k == k && IsSpot(net.routes, p) ensures !PresentAt(net, p) { LaneAt(net, p); }
  }

  lemma StillWaits(g: Group)
    requires Still(g)
    ensures !g.waiting
  {
  }

  /** Every byte written at s has been read at the other end. */
  lemma AllReadAtRest(net: Net, k: nat, s: Side)
    requires AllReachable(net) && NetAtRest(net) && k < |net.routes|
    requires GroupAt(net, k, s).closesSent == 0 && GroupAt(net, k, s.Other()).closesSent == 0
    ensures GroupAt(net, k, s.Other()).readOut == GroupAt(net, k, s).written
  {
    RestOf(net, k);
    LaidShaped(net);
    hide Reachable, LaneView, GroupAt, RunningAt, NetAtRest, Still, Laid, AtRest;
    assert Reachable(View(net, k));
    hide AllReachable;
    SideOf(net, k, s);
    var c := ReachableInv(View(net, k));
    hide Inv;
    AllRead(View(net, k), c, s);
  }

  /** What tidying has kept, end by end. */
  lemma TidiedAt(net: Net, net': Net, k: nat, s: Side)
    requires AllTidied(net, net') && k < |net.routes|
    ensures GroupAt(net', k, s).closesSent >= GroupAt(net, k, s).closesSent
    ensures GroupAt(net', k, s).written == GroupAt(net, k, s).written
    ensures GroupAt(net, k, s).closesSent == 0 && GroupAt(net, k, s.Other()).closesSent == 0 ==>
      GroupAt(net', k, s).closesSent == 0 && GroupAt(net', k, s.Other()).closesSent == 0
  {
    LaidShaped(net);
    hide LaneView, GroupAt, RunningAt, Laid;
    SideOf(net, k, s);
    SideOf(net', k, s);
    assert Tidied(View(net, k), View(net', k));
  }

  /** From every reachable network there is a run, of deliveries, reads and the end of waiting Closes
      only, that brings all routes to rest.  Then every route of which an end had started to close is
      cleaned up completely, and on every other route everything written has been read. */
  lemma NetworkDrains(net: Net) returns (acts: seq<NetAction>, net': Net)
    requires NetReachable(net)
    ensures NetRun(net, acts, net') && (forall i :: 0 <= i < |acts| ==> NetTidying(acts[i]))
    ensures net'.routes == net.routes && NetAtRest(net')
    ensures forall k, s :: 0 <= k < |net.routes| && GroupAt(net, k, s).closesSent > 0 ==> Cleared(net', k)
    ensures forall k, s ::
      0 <= k < |net.routes| && GroupAt(net, k, s).closesSent == 0 && GroupAt(net, k, s.Other()).closesSent == 0 ==>
        GroupAt(net', k, s.Other()).readOut == GroupAt(net, k, s).written
  {
    hide NetInv, AllReachable, NetAtRest, GroupAt, NetTidying, Cleared, NetRun, Tidied, View, Laid;
    NetReachableInv(net);
    acts, net' := DrainNet(net);
    forall k: nat, s: Side | k < |net.routes|
      ensures GroupAt(net, k, s).closesSent > 0 ==> Cleared(net', k)
      ensures GroupAt(net, k, s).closesSent == 0 && GroupAt(net, k, s.Other()).closesSent == 0 ==>
        GroupAt(net', k, s.Other()).readOut == GroupAt(net, k, s).written
    {
      TidiedAt(net, net', k, s);
      if GroupAt(net, k, s).closesSent > 0 { ClearedAtRest(net', k, s); }
      if GroupAt(net, k, s).closesSent == 0 && GroupAt(net, k, s.Other()).closesSent == 0 { AllReadAtRest(net', k, s); }
    }
  }
}
