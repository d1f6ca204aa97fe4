/** Every open route of a network can be used and closed, whatever other routes do with its transports. */
module NetworkUsable {
  import opened Routing
  import opened RouteGroups
  import opened RouteMachine
  import opened RouteProofs
  import opened Usable
  import opened Network
  import opened NetworkProofs
  import opened NetworkSteps
  import opened NetworkTheorems
  import opened NetworkDrain

  /** Some run of the network leads from net to net'. */
  ghost predicate NetLeads(net: Net, net': Net) { exists acts :: NetRun(net, acts, net') }

  lemma {:induction false} NetRunAppend(net: Net, acts: seq<NetAction>, mid: Net, more: seq<NetAction>, net': Net)
    requires NetRun(net, acts, mid) && NetRun(mid, more, net')
    ensures NetRun(net, acts + more, net')
    decreases |acts|
  {
    hide NetEnabled, NetApply, VisorsOk;
    if acts == [] {
      assert acts + more == more;
    } else {
      assert (acts + more)[0] == acts[0] && (acts + more)[1..] == acts[1..] + more;
      NetRunAppend(NetApply(net, acts[0]), acts[1..], mid, more, net');
    }
  }

  lemma NetLeadsOn(net: Net, mid: Net, net': Net)
    requires NetLeads(net, mid) && NetLeads(mid, net')
    ensures NetLeads(net, net')
  {
    hide NetRun;
    var acts :| NetRun(net, acts, mid);
    var more :| NetRun(mid, more, net');
    NetRunAppend(net, acts, mid, more, net');
  }

  lemma LeadsReachable(net: Net, net': Net)
    requires NetReachable(net) && NetLeads(net, net')
    ensures NetReachable(net')
  {
    hide NetRun, Fresh;
    var net0, acts :| Fresh(net0) && NetRun(net0, acts, net);
    var more :| NetRun(net, more, net');
    NetRunAppend(net0, acts, net, more, net');
  }

  lemma OneStep(net: Net, a: NetAction)
    requires VisorsOk(net) && NetEnabled(net, a)
    ensures NetLeads(net, NetApply(net, a))
  {
    hide NetEnabled, NetApply, VisorsOk;
    assert [a][1..] == [];
    assert NetRun(NetApply(net, a), [a][1..], NetApply(net, a));
    assert NetRun(net, [a], NetApply(net, a));
  }

  /** A step of a call at end s of route k, seen on the network. */
  lemma CallAt(net: Net, k: nat, s: Side, call: GroupCall) returns (net': Net)
    requires NetReachable(net) && k < |net.routes| && Callable(GroupAt(net, k, s), call)
    ensures NetLeads(net, net') && NetReachable(net') && net'.routes == net.routes
    ensures GroupAt(net', k, s) == CallEffect(GroupAt(net, k, s), call).group
    ensures GroupAt(net', k, s.Other()) == GroupAt(net, k, s.Other())
  {
    hide NetInv, VisorsOk, NetReachable, NetLeads;
    var x := net.routes[k];
    NetReachableInv(net);
    InvVisors(net);
    hide NetApply, Isolated, Simulates, AllReachable, GroupAt, Callable, CallEffect, NetEnabled;
    var a := DoAt(x.HomeOf(s), x.DescOf(s), call);
    CallEnabled(net, k, s, call);
    OneStep(net, a);
    net' := NetApply(net, a);
    LeadsReachable(net, net');
    NetStep(net, a);
    var k0, s0 :| Owner(net, x.HomeOf(s), x.DescOf(s), k0, s0) && Simulates(net, net', k0, Do(s0, call));
    OneOwner(net, k, s, k0, s0);
    CallSeen(net, net', k, s, call);
  }

  lemma InvVisors(net: Net)
    requires NetInv(net)
    ensures VisorsOk(net)
  {
  }

  lemma CallSeen(net: Net, net': Net, k: nat, s: Side, call: GroupCall)
    requires Simulates(net, net', k, Do(s, call))
    ensures net'.routes == net.routes && k < |net.routes| && Callable(GroupAt(net, k, s), call)
    ensures GroupAt(net', k, s) == CallEffect(GroupAt(net, k, s), call).group
    ensures GroupAt(net', k, s.Other()) == GroupAt(net, k, s.Other())
  {
    ShapedRoute(net, k);
    hide LaneView, GroupAt, RunningAt, Callable, CallEffect, Laid;
    SideOf(net, k, s);
    SideOf(net', k, s);
  }

  lemma OpenAt(net: Net, k: nat, s: Side)
    requires NetReachable(net) && k < |net.routes| && GroupAt(net, k, s).closesSent == 0
    ensures var g := GroupAt(net, k, s); g.closed == 0 && g.remoteClosed == 0 && !g.waiting
  {
    hide NetReachable, NetInv, Reachable, LaneView, GroupAt, RunningAt;
    NetReachableInv(net);
    LaidShaped(net);
    SideOf(net, k, s);
    EndOpen(View(net, k), s);
  }

  /** On every route of every reachable network that neither end has started to close, with no Write in
      progress at an end, up to 65535 bytes can be written there and read at the other end, behind all
      that was written before. */
  lemma NetworkAnythingArrives(net: Net, k: nat, s: Side, p: bytes) returns (net': Net)
    requires NetReachable(net) && k < |net.routes| && 0 < |p| <= 65535 && GroupAt(net, k, s).writing.NotWriting?
    requires GroupAt(net, k, s).closesSent == 0 && GroupAt(net, k, s.Other()).closesSent == 0
    ensures NetLeads(net, net') && net'.routes == net.routes
    ensures GroupAt(net', k, s.Other()).readOut == GroupAt(net, k, s).written + p
  {
    OpenAt(net, k, s);
    WriteSteps(GroupAt(net, k, s), p);
    hide NetReachable, NetLeads, GroupAt, Callable, CallEffect, NetRun;
    var net1 := CallAt(net, k, s, CallEnterWrite(p));
    var net2 := CallAt(net1, k, s, CallLockWrite);
    var net3 := CallAt(net2, k, s, CallSendWrite);
    var acts;
    acts, net' := NetworkDrains(net3);
    assert NetLeads(net3, net') by { RunLeads(net3, acts, net'); }
    NetLeadsOn(net, net1, net2);
    NetLeadsOn(net, net2, net3);
    NetLeadsOn(net, net3, net');
  }

  lemma RunLeads(net: Net, acts: seq<NetAction>, net': Net)
    requires NetRun(net, acts, net')
    ensures NetLeads(net, net')
  {
  }

  /** On every route of every reachable network, an end that has sent no Close can close the route and have
      it cleaned up at every visor. */
  lemma NetworkCanClose(net: Net, k: nat, s: Side) returns (net': Net)
    requires NetReachable(net) && k < |net.routes| && GroupAt(net, k, s).closesSent == 0
    ensures NetLeads(net, net') && net'.routes == net.routes && Cleared(net', k)
  {
    OpenAt(net, k, s);
    CloseStep(GroupAt(net, k, s));
    hide NetReachable, NetLeads, GroupAt, Callable, CallEffect, NetRun, Cleared;
    var net1 := CallAt(net, k, s, CallBeginClose);
    var acts;
    acts, net' := NetworkDrains(net1);
    assert NetLeads(net1, net') by { RunLeads(net1, acts, net'); }
    NetLeadsOn(net, net1, net');
  }

  lemma CloseStep(g: Group)
    requires g.closed == 0 && g.remoteClosed == 0 && !g.waiting
    ensures Callable(g, CallBeginClose) && CallEffect(g, CallBeginClose).group.closesSent > 0
  {
  }
}
