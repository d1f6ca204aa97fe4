/** Deliveries come to an end in the whole network, whatever routes share its transports. */
module NetworkProgress {
  import opened RouteMachine
  import opened RouteProofs
  import opened Network
  import opened NetworkProofs
  import opened NetworkSteps
  import opened NetworkTheorems
  import opened Progress

  /** The potential of the first k routes. */
  ghost function Total(net: Net, k: nat): nat
    requires Laid(net) && k <= |net.routes|
  {
    if k == 0 then 0 else Total(net, k - 1) + Potential(View(net, k - 1))
  }

  lemma {:induction false} TotalChanges(net: Net, net': Net, k0: nat, st: State, k: nat)
    requires OnlyRoute(net, net', k0, st) && Laid(net) && Laid(net') && net'.routes == net.routes
    requires k0 < |net.routes| && k <= |net.routes|
    ensures Total(net', k) + (if k0 < k then Potential(View(net, k0)) else 0)
         == Total(net, k) + (if k0 < k then Potential(st) else 0)
  {
    hide View, Potential, Laid;
    if k > 0 { TotalChanges(net, net', k0, st, k - 1); }
  }

  lemma DeliveryLowers(net: Net, l: Link)
    requires NetInv(net) && AllReachable(net) && NetEnabled(net, DeliverOn(l))
    ensures var net' := NetApply(net, DeliverOn(l));
            && NetInv(net') && AllReachable(net') && net'.routes == net.routes
            && Total(net', |net'.routes|) < Total(net, |net.routes|)
  {
    DeliverStep(net, l);
    NetStep(net, DeliverOn(l));
    hide NetInv, NetEnabled, NetApply, Isolated, Carries, View, Potential, Enabled, Apply, Reachable, Delivered;
    var net' := Delivered(net, l);
    assert NetApply(net, DeliverOn(l)) == net' by { DeliverIs(net, l); }
    var p: Spot :| Carries(net.routes, l, net.Queue(l)[0].id, p) && Simulates(net, net', p.k, Deliver(p.s, p.i));
    StepReachable(net, net');
    Lowers(net, net', p.k, p.s, p.i);
  }

  lemma Lowers(net: Net, net': Net, k: nat, s: Side, i: nat)
    requires AllReachable(net) && AllReachable(net') && Simulates(net, net', k, Deliver(s, i))
    ensures net'.routes == net.routes && Total(net', |net'.routes|) < Total(net, |net.routes|)
  {
    hide Reachable, Potential, LaneView, GroupAt, RunningAt, Enabled;
    var st := View(net, k);
    assert Reachable(st);
    var c := ReachableInv(st);
    DeliveryCosts(st, c, s, i);
    hide DeliverAt, Inv, View;
    TotalChanges(net, net', k, Apply(st, Deliver(s, i)), |net.routes|);
  }

  /** From any reachable network, packets already in flight cause only finitely many deliveries: a run
      of deliveries is at most as long as the total potential. */
  lemma {:induction false} NetworkDeliveriesEnd(net: Net, acts: seq<NetAction>, net': Net)
    requires NetInv(net) && AllReachable(net) && NetRun(net, acts, net')
    requires forall i :: 0 <= i < |acts| ==> acts[i].DeliverOn?
    ensures Laid(net') && net'.routes == net.routes
    ensures |acts| + Total(net', |net'.routes|) <= Total(net, |net.routes|)
    decreases |acts|
  {
    hide NetInv, AllReachable, NetEnabled, NetApply, Laid;
    LaidOf(net);
    if acts != [] {
      DeliveryLowers(net, acts[0].link);
      NetworkDeliveriesEnd(NetApply(net, acts[0]), acts[1..], net');
    }
  }

  lemma LaidOf(net: Net)
    requires AllReachable(net)
    ensures Laid(net)
  {
  }
}
