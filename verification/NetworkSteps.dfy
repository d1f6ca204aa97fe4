/** Every network step, seen from the routes: one route takes a step of its machine and no other
    route notices. */
module NetworkSteps {
  import opened Routing
  import opened RouteGroups
  import opened Routers
  import opened RouteMachine
  import opened Network
  import opened NetworkProofs

  lemma Compose(n0: Net, n1: Net, n2: Net, k: nat, st1: State, st2: State)
    requires OnlyRoute(n0, n1, k, st1) && OnlyRoute(n1, n2, k, st2)
    ensures OnlyRoute(n0, n2, k, st2)
  {
    hide View;
  }

  /** A group's effect on its home visor and on the network, in elementary changes. */
  ghost function Performed(net: Net, k: nat, s: Side, e: Effect): Net
    requires k < |net.routes| && net.routes[k].Shaped() && HasGroup(net, k, s)
  {
    var x := net.routes[k];
    var n1 := SetGroup(net, x.HomeOf(s), x.DescOf(s), e.group, true);
    var n2 := if e.dropForward then DropRule(n1, x.HomeOf(s), IdOf(net.routes, Spot(k, s, 0))) else n1;
    SendOn(n2, Spot(k, s, 0), e.out)
  }

  lemma PerformedIs(net: Net, k: nat, s: Side, e: Effect)
    requires NetInv(net) && k < |net.routes| && HasGroup(net, k, s)
    requires net.visors[net.routes[k].HomeOf(s)].groups[net.routes[k].DescOf(s)].fwd.Forward?
    ensures var v, d := net.routes[k].HomeOf(s), net.routes[k].DescOf(s);
            React(net, v, PerformAt(net.visors[v], d, e)) == Performed(net, k, s, e)
  {
    hide Apart, HomesApart, RulesOk, GroupsOwned, PacketsOwned, RuleOf;
    var v, d := net.routes[k].HomeOf(s), net.routes[k].DescOf(s);
    SpotFacts(net.routes, Spot(k, s, 0));
    assert net.visors[v].groups[d].fwd == RuleOf(net.routes, Spot(k, s, 0));
    var w := PerformAt(net.visors[v], d, e).visor;
    var n1 := SetGroup(net, v, d, e.group, true);
    var n2 := if e.dropForward then DropRule(n1, v, IdOf(net.routes, Spot(k, s, 0))) else n1;
    assert n2.visors == net.visors[v := w];
    assert n2 == net.(visors := net.visors[v := w]);
  }

  lemma PerformedView(net: Net, k: nat, s: Side, e: Effect)
    requires NetInv(net) && k < |net.routes| && HasGroup(net, k, s)
    ensures NetInv(Performed(net, k, s, e)) && View(net, k).Shaped()
    ensures OnlyRoute(net, Performed(net, k, s, e), k, Perform(View(net, k), s, e))
  {
    hide Laid, Apart, HomesApart, RulesOk, GroupsLinked, GroupsOwned, PacketsOwned, VisorsOk, OnlyRoute;
    hide LaneView, GroupAt;
    hide RunningAt;
    var x, p := net.routes[k], Spot(k, s, 0);
    ShapedRoute(net, k);
    SpotFacts(net.routes, p);
    var v := x.HomeOf(s);
    var st := View(net, k);
    LaneAt(net, p);
    LaneAt(net, Spot(k, s.Other(), 0));
    var n1 := SetGroup(net, v, x.DescOf(s), e.group, true);
    GroupView(net, k, s, e.group, true);
    var st1 := st.(groups := st.groups.Put(s, e.group));
    SameRegistered(st, s);
    assert OnlyRoute(net, n1, k, st1);
    ViewOf(net, n1, k, st1);
    var n2, st2 := n1, st1;
    if e.dropForward {
      DropView(n1, p);
      n2 := DropRule(n1, v, IdOf(net.routes, p));
      st2 := WithLane(st1, s, Drop(st1.lanes.At(s), 0));
      Compose(net, n1, n2, k, st1, st2);
      ViewOf(net, n2, k, st2);
    }
    SendView(n2, p, e.out);
    var st3 := WithLane(st2, s, Push(st2.lanes.At(s), 0, e.out));
    Compose(net, n2, SendOn(n2, p, e.out), k, st2, st3);
    assert st3.lanes == Perform(st, s, e).lanes;
    assert st3 == Perform(st, s, e);
  }

  lemma SameRegistered(st: State, s: Side)
    ensures st.registered.Put(s, true && st.registered.At(s)) == st.registered
  {
  }

  lemma ViewOf(net: Net, net': Net, k: nat, st: State)
    requires OnlyRoute(net, net', k, st)
    ensures Laid(net') && net'.routes == net.routes && k < |net.routes| && View(net', k) == st
  {
  }

  /** Route k takes step a of its machine and every other route stays put. */
  ghost predicate Simulates(net: Net, net': Net, k: nat, a: Action)
  {
    && Laid(net) && k < |net.routes| && View(net, k).Shaped() && Enabled(View(net, k), a)
    && OnlyRoute(net, net', k, Apply(View(net, k), a))
  }

  // ---- deliveries ----

  /** A packet of hop p is next to be delivered on l, and its delivery is not held up. */
  ghost predicate Arriving(net: Net, l: Link, p: Spot)
  {
    && l in net.peer && net.peer[l] in net.visors && net.Queue(l) != []
    && GroupsOk(net.visors[net.peer[l]])
    && !HandleTransportPacket(net.visors[net.peer[l]], net.Queue(l)[0]).blocked
    && Carries(net.routes, l, net.Queue(l)[0].id, p)
  }

  ghost function Delivered(net: Net, l: Link): Net
    requires l in net.peer && net.peer[l] in net.visors && net.Queue(l) != [] && GroupsOk(net.visors[net.peer[l]])
  {
    React(PopLink(net, l), net.peer[l], HandleTransportPacket(net.visors[net.peer[l]], net.Queue(l)[0]))
  }

  /** The visor has no rule for the packet. */
  lemma LostDelivery(net: Net, l: Link, p: Spot)
    requires NetInv(net) && Arriving(net, l, p) && !PresentAt(net, After(p))
    ensures NetInv(Delivered(net, l)) && Simulates(net, Delivered(net, l), p.k, Deliver(p.s, p.i))
  {
    hide Laid, Apart, HomesApart, RulesOk, GroupsLinked, GroupsOwned, PacketsOwned, VisorsOk, OnlyRoute;
    hide LaneView, GroupAt;
    hide RunningAt, PresentAt, SegAt, HandleTransportPacket, Delivered;
    LostIs(net, l, p);
    HopPeer(net, p);
    LaneAt(net, p);
    LaneAt(net, After(p));
    LaneAt(net, Spot(p.k, p.s.Other(), 0));
    PopView(net, p);
  }

  lemma LostIs(net: Net, l: Link, p: Spot)
    requires Laid(net) && Arriving(net, l, p) && !PresentAt(net, After(p))
    ensures Delivered(net, l) == PopLink(net, l)
  {
    HopPeer(net, p);
    assert net.Queue(l)[0].id !in net.visors[net.peer[l]].rules;
    assert net.visors[net.peer[l] := net.visors[net.peer[l]]] == net.visors;
  }

  /** The visor is in the middle of the path. */
  lemma ForwardDelivery(net: Net, l: Link, p: Spot)
    requires NetInv(net) && Arriving(net, l, p) && PresentAt(net, After(p)) && IsHop(net.routes, After(p))
    ensures NetInv(Delivered(net, l)) && Simulates(net, Delivered(net, l), p.k, Deliver(p.s, p.i))
  {
    hide Laid, Apart, HomesApart, RulesOk, GroupsLinked, GroupsOwned, PacketsOwned, VisorsOk, OnlyRoute;
    hide LaneView, GroupAt;
    hide RunningAt, PresentAt, SegAt, HandleTransportPacket, Delivered;
    var q, b := After(p), net.Queue(l)[0].body;
    HopPeer(net, p);
    SpotFacts(net.routes, p);
    SpotFacts(net.routes, q);
    var v := net.peer[l];
    var n1 := PopLink(net, l);
    var n2 := if b.Close? then DropRule(n1, v, IdOf(net.routes, q)) else n1;
    ForwardIs(net, l, p);
    var st := View(net, p.k);
    LaneAt(net, p);
    LaneAt(net, q);
    LaneAt(net, Spot(p.k, p.s.Other(), 0));
    PopView(net, p);
    var lane := st.lanes.At(p.s);
    var st1 := WithLane(st, p.s, Pop(lane, p.i));
    ViewOf(net, n1, p.k, st1);
    var st2 := st1;
    if b.Close? {
      DropView(n1, q);
      st2 := WithLane(st1, p.s, Drop(Pop(lane, p.i), q.i));
      Compose(net, n1, n2, p.k, st1, st2);
      ViewOf(net, n2, p.k, st2);
    }
    SendView(n2, q, [b]);
    var st3 := WithLane(st2, p.s, Push(st2.lanes.At(p.s), q.i, [b]));
    Compose(net, n2, SendOn(n2, q, [b]), p.k, st2, st3);
    assert st3.lanes == DeliverAt(st, p.s, p.i).lanes;
  }

  lemma ForwardIs(net: Net, l: Link, p: Spot)
    requires NetInv(net) && Arriving(net, l, p) && PresentAt(net, After(p)) && IsHop(net.routes, After(p))
    ensures var q, b, n1 := After(p), net.Queue(l)[0].body, PopLink(net, l);
            && net.peer[l] in n1.visors
            && Delivered(net, l) ==
               SendOn(if b.Close? then DropRule(n1, net.peer[l], IdOf(net.routes, q)) else n1, q, [b])
  {
    hide Apart, HomesApart, GroupsLinked, GroupsOwned, PacketsOwned, VisorsOk, RuleOf;
    var q, pkt := After(p), net.Queue(l)[0];
    HopPeer(net, p);
    SpotFacts(net.routes, p);
    SpotFacts(net.routes, q);
    hide Laid, VisorOf;
    var v := net.peer[l];
    var rule := net.visors[v].rules[pkt.id];
    assert rule == RuleOf(net.routes, q);
    hide RulesOk, PresentAt, IdOf, LinkOf;
    ForwardAtVisor(net.visors[v], pkt, rule);
    hide HandleTransportPacket;
    assert net.visors[v := net.visors[v]] == net.visors;
  }

  lemma ForwardAtVisor(w: Visor, pkt: Packet, rule: Rule)
    requires GroupsOk(w) && pkt.id in w.rules && w.rules[pkt.id] == rule && rule.Intermediary?
    ensures HandleTransportPacket(w, pkt) ==
              Reaction(if pkt.body.Close? then w.(rules := w.rules - {pkt.id}) else w,
                       Some(Burst(rule.tp, Addressed(rule.next, [pkt.body]))), false)
  {
    assert Addressed(rule.next, [pkt.body]) == [pkt.(id := rule.next)];
  }

  /** The packet has reached the far end and is not a Close. */
  lemma ConsumeDelivery(net: Net, l: Link, p: Spot)
    requires NetInv(net) && Arriving(net, l, p) && PresentAt(net, After(p)) && !IsHop(net.routes, After(p))
    requires !net.Queue(l)[0].body.Close?
    ensures NetInv(Delivered(net, l)) && Simulates(net, Delivered(net, l), p.k, Deliver(p.s, p.i))
  {
    hide Laid, Apart, HomesApart, RulesOk, GroupsLinked, GroupsOwned, PacketsOwned, VisorsOk, OnlyRoute;
    hide LaneView, GroupAt;
    hide RunningAt, PresentAt, SegAt, HandleTransportPacket, Delivered, HandlePacket, Perform, HasGroup, RuleOf;
    hide VisorOf, GroupsOk;
    var b, k, t := net.Queue(l)[0].body, p.k, p.s.Other();
    PoppedLast(net, l, p);
    hide Arriving, NetInv;
    var n1, st := PopLink(net, l), View(net, k);
    var st1 := WithLane(st, p.s, Pop(st.lanes.At(p.s), p.i));
    ConsumeIs(net, l, p);
    var e := HandlePacket(st.groups.At(t), b);
    if st.registered.At(t) && !b.KeepAlive? {
      PerformedView(n1, k, t, e);
      Compose(net, n1, Performed(n1, k, t, e), k, st1, Perform(st1, t, e));
    } else {
      PerformNothing(st1, t);
      KeepAliveIgnored(st.groups.At(t), b);
    }
  }

  /** The packet can be taken off the last hop of its lane. */
  ghost predicate OffLast(net: Net, l: Link, p: Spot)
  {
    && Laid(net) && p.k < |net.routes| && View(net, p.k).Shaped() && net.Queue(l) != []
    && NetInv(PopLink(net, l)) && PopLink(net, l).routes == net.routes
    && var st, n1 := View(net, p.k), PopLink(net, l);
       var lane := st.lanes.At(p.s);
       && p.i + 1 == |lane.segs| && lane.segs[p.i] != [] && lane.segs[p.i][0] == net.Queue(l)[0].body
       && lane.present[p.i + 1]
       && OnlyRoute(net, n1, p.k, WithLane(st, p.s, Pop(lane, p.i)))
       && View(n1, p.k) == WithLane(st, p.s, Pop(lane, p.i))
  }

  lemma PoppedLast(net: Net, l: Link, p: Spot)
    requires NetInv(net) && Arriving(net, l, p) && PresentAt(net, After(p)) && !IsHop(net.routes, After(p))
    ensures OffLast(net, l, p)
  {
    hide Apart, HomesApart, RulesOk, GroupsLinked, GroupsOwned, PacketsOwned, VisorsOk, OnlyRoute, LaneView, GroupAt;
    hide Laid, RunningAt, PresentAt, SegAt, HandleTransportPacket, RuleOf, VisorOf, GroupsOk;
    HopPeer(net, p);
    LaneAt(net, p);
    LaneAt(net, After(p));
    LaneAt(net, Spot(p.k, p.s.Other(), 0));
    PopView(net, p);
    var st := View(net, p.k);
    ViewOf(net, PopLink(net, l), p.k, WithLane(st, p.s, Pop(st.lanes.At(p.s), p.i)));
  }

  lemma KeepAliveIgnored(g: Group, b: Body)
    ensures b.KeepAlive? ==> HandlePacket(g, b) == Stay(g)
  {
  }

  lemma GroupHere(net: Net, k: nat, s: Side)
    requires GroupsLinked(net) && Laid(net) && k < |net.routes|
    ensures HasGroup(net, k, s)
    ensures var ep := net.visors[net.routes[k].HomeOf(s)].groups[net.routes[k].DescOf(s)];
            ep.fwd.Forward? && ep.group == GroupAt(net, k, s)
  {
    SpotFacts(net.routes, Spot(k, s, 0));
  }

  /** What the router of the far end finds: the consume rule, and the group it names. */
  lemma ConsumeLookup(net: Net, l: Link, p: Spot)
    requires NetInv(net) && Arriving(net, l, p) && PresentAt(net, After(p)) && !IsHop(net.routes, After(p))
    ensures IsSpot(net.routes, After(p)) && net.peer[l] == net.routes[p.k].HomeOf(p.s.Other())
    ensures var v, id := net.visors[net.peer[l]], net.Queue(l)[0].id;
            && id == IdOf(net.routes, After(p)) && VisorOf(net.routes, After(p)) == net.peer[l]
            && id in v.rules && v.rules[id].Consume? && v.rules[id].desc == net.routes[p.k].DescOf(p.s.Other())
  {
    hide Apart, HomesApart, GroupsLinked, GroupsOwned, PacketsOwned;
    HopPeer(net, p);
    SpotFacts(net.routes, After(p));
    hide RuleOf;
  }

  lemma ConsumeIs(net: Net, l: Link, p: Spot)
    requires NetInv(net) && Arriving(net, l, p) && PresentAt(net, After(p)) && !IsHop(net.routes, After(p))
    requires !net.Queue(l)[0].body.Close?
    ensures var n1, b, k, t := PopLink(net, l), net.Queue(l)[0].body, p.k, p.s.Other();
            var e := HandlePacket(GroupAt(net, k, t), b);
            && n1.routes[k].Shaped() && HasGroup(n1, k, t)
            && (RunningAt(net, k, t) ==> !e.blocked)
            && Delivered(net, l) == if RunningAt(net, k, t) && !b.KeepAlive? then Performed(n1, k, t, e) else n1
  {
    hide Apart, HomesApart, RulesOk, GroupsOwned, PacketsOwned;
    var n1, b, k, t := PopLink(net, l), net.Queue(l)[0].body, p.k, p.s.Other();
    ConsumeLookup(net, l, p);
    GroupHere(net, k, t);
    hide PresentAt, GroupsLinked;
    var v, d := net.peer[l], net.routes[k].DescOf(t);
    assert n1.visors[v := n1.visors[v]] == n1.visors;
    if RunningAt(net, k, t) && !b.KeepAlive? {
      assert HandleTransportPacket(net.visors[v], net.Queue(l)[0])
          == PerformAt(n1.visors[v], d, HandlePacket(GroupAt(net, k, t), b));
      SameTables(net, n1);
      PopOwned(net, l);
      PerformedIs(n1, k, t, HandlePacket(GroupAt(net, k, t), b));
    }
  }

  /** The far end's rule is deleted and its group forgotten, before the group reacts. */
  ghost function Retired(net: Net, l: Link, p: Spot): Net
    requires l in net.peer && net.peer[l] in net.visors && net.Queue(l) != []
    requires IsSpot(net.routes, After(p)) && HasGroup(net, p.k, p.s.Other())
    requires net.peer[l] == net.routes[p.k].HomeOf(p.s.Other())
  {
    var n2 := DropRule(PopLink(net, l), net.peer[l], IdOf(net.routes, After(p)));
    SetGroup(n2, net.peer[l], net.routes[p.k].DescOf(p.s.Other()), GroupAt(net, p.k, p.s.Other()), false)
  }

  lemma CloseDelivery(net: Net, l: Link, p: Spot)
    requires NetInv(net) && Arriving(net, l, p) && PresentAt(net, After(p)) && !IsHop(net.routes, After(p))
    requires net.Queue(l)[0].body.Close?
    ensures NetInv(Delivered(net, l)) && Simulates(net, Delivered(net, l), p.k, Deliver(p.s, p.i))
  {
    hide Laid, Apart, HomesApart, RulesOk, GroupsLinked, GroupsOwned, PacketsOwned, VisorsOk, OnlyRoute;
    hide LaneView, GroupAt;
    hide RunningAt, PresentAt, SegAt, HandleTransportPacket, Delivered;
    hide HandlePacket;
    var b, k, t := net.Queue(l)[0].body, p.k, p.s.Other();
    LaneAt(net, p);
    LaneAt(net, Spot(k, t, 0));
    CloseIs(net, l, p);
    RetiredView(net, l, p);
    var st, n3 := View(net, k), Retired(net, l, p);
    assert HandlePacket(st.groups.At(t), b).blocked == false by { CloseNotBlocked(st.groups.At(t), b); }
    var st3 := st.(lanes := st.lanes.Put(p.s, Drop(Pop(st.lanes.At(p.s), p.i), p.i + 1)),
                   registered := st.registered.Put(t, false));
    if st.registered.At(t) && st.groups.At(t).closed == 0 {
      var e := HandlePacket(st.groups.At(t), b);
      PerformedView(n3, k, t, e);
      ViewOf(net, n3, k, st3);
      Compose(net, n3, Performed(n3, k, t, e), k, st3, Perform(st3, t, e));
    }
  }

  /** The Close at the end of lane p.s is off the lane, with its rule and the registration. */
  ghost predicate TookClose(net: Net, net': Net, l: Link, p: Spot)
  {
    && p.k < |net.routes| && net.routes[p.k].Shaped() && net'.routes == net.routes && net.Queue(l) != []
    && HasGroup(net', p.k, p.s.Other())
    && var st := View(net, p.k);
       var lane := st.lanes.At(p.s);
       && p.i + 1 == |lane.segs| && lane.Shaped() && lane.segs[p.i] != [] && lane.segs[p.i][0] == net.Queue(l)[0].body
       && lane.present[p.i + 1]
       && OnlyRoute(net, net', p.k, st.(lanes := st.lanes.Put(p.s, Drop(Pop(lane, p.i), p.i + 1)),
                                        registered := st.registered.Put(p.s.Other(), false)))
  }

  lemma RetiredView(net: Net, l: Link, p: Spot)
    requires NetInv(net) && Arriving(net, l, p) && PresentAt(net, After(p)) && !IsHop(net.routes, After(p))
    requires HasGroup(net, p.k, p.s.Other()) && net.peer[l] == net.routes[p.k].HomeOf(p.s.Other())
    ensures IsSpot(net.routes, After(p)) && NetInv(Retired(net, l, p))
    ensures TookClose(net, Retired(net, l, p), l, p)
  {
    hide Laid, Apart, HomesApart, RulesOk, GroupsOwned, PacketsOwned, VisorsOk, OnlyRoute, LaneView;
    hide RunningAt, PresentAt, SegAt, HandleTransportPacket, RuleOf;
    var q, k, t := After(p), p.k, p.s.Other();
    HopPeer(net, p);
    LaneAt(net, p);
    LaneAt(net, q);
    LaneAt(net, Spot(k, t, 0));
    var st, n1 := View(net, k), PopLink(net, l);
    var lane := st.lanes.At(p.s);
    PopView(net, p);
    var st1 := WithLane(st, p.s, Pop(lane, p.i));
    ViewOf(net, n1, k, st1);
    var n2 := DropRule(n1, net.peer[l], IdOf(net.routes, q));
    DropView(n1, q);
    var st2 := WithLane(st1, p.s, Drop(Pop(lane, p.i), q.i));
    Compose(net, n1, n2, k, st1, st2);
    ViewOf(net, n2, k, st2);
    GroupHere(net, k, t);
    hide GroupsLinked, GroupAt;
    var n3 := SetGroup(n2, net.peer[l], net.routes[k].DescOf(t), GroupAt(net, k, t), false);
    GroupView(n2, k, t, GroupAt(net, k, t), false);
    assert GroupAt(net, k, t) == st2.groups.At(t);
    var st3 := st2.(registered := st2.registered.Put(t, false));
    assert st2.groups.Put(t, st2.groups.At(t)) == st2.groups;
    Compose(net, n2, n3, k, st2, st3);
    GroupHere(n3, k, t);
  }

  lemma CloseIs(net: Net, l: Link, p: Spot)
    requires NetInv(net) && Arriving(net, l, p) && PresentAt(net, After(p)) && !IsHop(net.routes, After(p))
    requires net.Queue(l)[0].body.Close?
    ensures var b, k, t := net.Queue(l)[0].body, p.k, p.s.Other();
            var g := GroupAt(net, k, t);
            && IsSpot(net.routes, After(p)) && HasGroup(net, k, t) && net.peer[l] == net.routes[k].HomeOf(t)
            && var n3 := Retired(net, l, p);
            && n3.routes[k].Shaped() && HasGroup(n3, k, t)
            && Delivered(net, l) ==
               if RunningAt(net, k, t) && g.closed == 0 then Performed(n3, k, t, HandlePacket(g, b)) else n3
  {
    hide Apart, HomesApart, RulesOk, GroupsOwned, PacketsOwned, HandlePacket, PerformAt, RuleOf, VisorsOk, VisorOf;
    hide HandleTransportPacket;
    var pkt, k, t := net.Queue(l)[0], p.k, p.s.Other();
    ConsumeLookup(net, l, p);
    GroupHere(net, k, t);
    hide PresentAt, GroupsLinked, OnlyRoute, View, Laid;
    RetiredView(net, l, p);
    assert HasGroup(Retired(net, l, p), k, t);
    hide TookClose;
    var v, d, g := net.peer[l], net.routes[k].DescOf(t), GroupAt(net, k, t);
    var n3, w := Retired(net, l, p), net.visors[v];
    CloseAtVisor(w, pkt, d);
    RetiredIs(net, l, p);
    hide Retired;
    var r := HandleTransportPacket(w, pkt);
    assert n3.visors[v := r.visor] == net.visors[v := r.visor];
    if RunningAt(net, k, t) && g.closed == 0 {
      PerformedIs(n3, k, t, HandlePacket(g, pkt.body));
      assert React(n3, v, r) == Delivered(net, l);
    }
  }

  lemma RetiredIs(net: Net, l: Link, p: Spot)
    requires l in net.peer && net.peer[l] in net.visors && net.Queue(l) != []
    requires IsSpot(net.routes, After(p)) && HasGroup(net, p.k, p.s.Other())
    requires net.peer[l] == net.routes[p.k].HomeOf(p.s.Other())
    ensures var v, d, n3 := net.peer[l], net.routes[p.k].DescOf(p.s.Other()), Retired(net, l, p);
            var w3 := net.visors[v].(rules := net.visors[v].rules - {IdOf(net.routes, After(p))},
                                     running := net.visors[v].running - {d});
            n3 == PopLink(net, l).(visors := net.visors[v := w3]) && n3.visors[v] == w3
  {
    hide RuleOf, VisorOf, IdOf;
    var v, d := net.peer[l], net.routes[p.k].DescOf(p.s.Other());
    var w, n3 := net.visors[v], Retired(net, l, p);
    assert w.groups[d := w.groups[d].(group := GroupAt(net, p.k, p.s.Other()))] == w.groups;
    assert n3.visors == net.visors[v := n3.visors[v]];
  }

  /** A router's whole reaction to a Close on a consume rule. */
  lemma CloseAtVisor(w: Visor, pkt: Packet, d: Desc)
    requires GroupsOk(w) && pkt.id in w.rules && w.rules[pkt.id].Consume? && w.rules[pkt.id].desc == d
    requires pkt.body.Close? && d in w.groups && w.groups[d].fwd.Forward?
    ensures var w3 := w.(rules := w.rules - {pkt.id}, running := w.running - {d});
            HandleTransportPacket(w, pkt) ==
              if d in w.running && w.groups[d].group.closed == 0
              then PerformAt(w3, d, HandlePacket(w.groups[d].group, pkt.body))
              else Reaction(w3, None, false)
  {
    var w3 := w.(rules := w.rules - {pkt.id}, running := w.running - {d});
    if d in w.running && w.groups[d].group.closed == 0 {
      var e := HandlePacket(w.groups[d].group, pkt.body);
      CloseNotBlocked(w.groups[d].group, pkt.body);
      hide HandlePacket;
      assert HandleTransportPacket(w, pkt).visor.rules == PerformAt(w3, d, e).visor.rules;
    }
  }

  // ---- the step theorem ----

  lemma DeliverStep(net: Net, l: Link)
    requires NetInv(net) && NetEnabled(net, DeliverOn(l))
    ensures NetInv(Delivered(net, l))
    ensures exists p: Spot :: Carries(net.routes, l, net.Queue(l)[0].id, p)
              && Simulates(net, Delivered(net, l), p.k, Deliver(p.s, p.i))
  {
    hide Simulates, HandleTransportPacket, Delivered, PresentAt;
    assert Owned(net.routes, l, net.Queue(l)[0].id);
    var p :| Carries(net.routes, l, net.Queue(l)[0].id, p);
    hide Laid, Apart, HomesApart, RulesOk, GroupsLinked, GroupsOwned, PacketsOwned, VisorsOk;
    HopPeer(net, p);
    if !PresentAt(net, After(p)) {
      LostDelivery(net, l, p);
    } else if IsHop(net.routes, After(p)) {
      ForwardDelivery(net, l, p);
    } else if net.Queue(l)[0].body.Close? {
      CloseDelivery(net, l, p);
    } else {
      ConsumeDelivery(net, l, p);
    }
  }

  lemma DeliverIs(net: Net, l: Link)
    requires NetInv(net) && NetEnabled(net, DeliverOn(l))
    ensures NetApply(net, DeliverOn(l)) == Delivered(net, l)
  {
  }

  lemma CallStep(net: Net, v: PubKey, d: Desc, call: GroupCall)
    requires NetInv(net) && NetEnabled(net, DoAt(v, d, call))
    ensures var net' := NetApply(net, DoAt(v, d, call));
            && NetInv(net')
            && exists k, s :: Owner(net, v, d, k, s) && Simulates(net, net', k, Do(s, call))
  {
    hide Laid, GroupsLinked, Apart, HomesApart, RulesOk, PacketsOwned, OnlyRoute, LaneView, RunningAt, VisorsOk;
    var k, s :| Owner(net, v, d, k, s);
    hide GroupsOwned;
    GroupHere(net, k, s);
    ShapedRoute(net, k);
    var e := CallEffect(net.visors[v].groups[d].group, call);
    PerformedIs(net, k, s, e);
    PerformedView(net, k, s, e);
    assert View(net, k).groups.At(s) == GroupAt(net, k, s);
    hide CallEffect;
    assert Simulates(net, Performed(net, k, s, e), k, Do(s, call));
  }
}
