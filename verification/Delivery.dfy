/** The meaning of a compiled route: following the rules from its source leads over exactly its
    transports to its destination's consume rule. */
module Delivery {
  import opened Routing
  import opened Setup
  import opened SetupProofs
  import opened RouteMachine
  import opened Network
  import opened NetworkProofs
  import opened NetworkSetup

  type Tables = map<PubKey, map<RouteID, Rule>>

  /** Where a packet ends: on a consume rule, without a rule or transport, or not within the fuel. */
  datatype End = Consumed(at: PubKey, desc: Desc) | Lost(at: PubKey) | Going

  datatype Trip = Trip(crossed: seq<UUID>, end: End)

  /** Follow a packet that carries `id` at visor v for at most `fuel` writes. */
  function Walk(tables: Tables, peer: map<Link, PubKey>, v: PubKey, id: RouteID, fuel: nat): Trip
    decreases fuel
  {
    if v !in tables || id !in tables[v] then Trip([], Lost(v))
    else
      var rule := tables[v][id];
      if rule.Consume? then Trip([], Consumed(v, rule.desc))
      else if (rule.tp, v) !in peer then Trip([], Lost(v))
      else if fuel == 0 then Trip([], Going)
      else
        var t := Walk(tables, peer, peer[(rule.tp, v)], rule.next, fuel - 1);
        t.(crossed := [rule.tp] + t.crossed)
  }

  ghost predicate HoldsAt(tables: Tables, v: PubKey, rule: Rule)
  {
    v in tables && rule.key in tables[v] && tables[v][rule.key] == rule
  }

  /** Every rule of a chain is in the table of its visor. */
  ghost predicate HoldsAll(tables: Tables, rules: set<(PubKey, Rule)>)
  {
    forall x :: x in rules ==> HoldsAt(tables, x.0, x.1)
  }

  function Transports(hops: seq<Hop>, i: nat): (r: seq<UUID>)
    requires i <= |hops|
    ensures |r| == |hops| - i && forall j :: 0 <= j < |r| ==> r[j] == hops[i + j].tp
  {
    seq(|hops| - i, j requires 0 <= j < |hops| - i => hops[i + j].tp)
  }

  /** From any place of the chain the walk crosses exactly the remaining transports, in order, and ends
      at the destination with the route's descriptor; visors may repeat. */
  lemma {:induction false} ChainDelivers(tables: Tables, peer: map<Link, PubKey>, route: Route, ids: seq<RouteID>,
                                         i: nat, fuel: nat)
    requires route.hops != [] && |ids| == |route.hops| + 1 && i <= |route.hops| <= i + fuel
    requires Contiguous(route.hops) && Wired(peer, route.hops) && HoldsAll(tables, Chain(route, ids))
    ensures |Visits(route.hops)| == |route.hops| + 1
    ensures Walk(tables, peer, Visits(route.hops)[i], ids[i], fuel) ==
              Trip(Transports(route.hops, i), Consumed(route.hops[|route.hops| - 1].to, route.desc))
    decreases |route.hops| - i
  {
    var n, v := |route.hops|, Visits(route.hops)[i];
    RuleHeld(tables, route, ids, i);
    if i < n {
      assert route.hops[i].from == v by { if i > 0 { assert route.hops[i - 1].to == route.hops[i].from; } }
      assert Visits(route.hops)[i + 1] == route.hops[i].to;
      ChainDelivers(tables, peer, route, ids, i + 1, fuel - 1);
      assert Transports(route.hops, i) == [route.hops[i].tp] + Transports(route.hops, i + 1);
    }
  }

  lemma RuleHeld(tables: Tables, route: Route, ids: seq<RouteID>, i: nat)
    requires route.hops != [] && |ids| == |route.hops| + 1 && i < |ids| && HoldsAll(tables, Chain(route, ids))
    ensures |Visits(route.hops)| == |route.hops| + 1
    ensures var v := Visits(route.hops)[i];
            v in tables && ids[i] in tables[v] && tables[v][ids[i]] == RuleAt(route, ids, i)
  {
    VisitsLength(route.hops);
    assert Place(route, ids, i) in Chain(route, ids);
  }

  /** The rules that the setup node hands out for a checked route deliver in both directions: a packet
      written on either edge's forward rule crosses that direction's transports in order, after as
      many writes as there are hops, and is consumed by the other edge under that edge's descriptor. */
  lemma HandedOutDelivers(tables: Tables, peer: map<Link, PubKey>, bi: BiRoute, f: seq<RouteID>, r: seq<RouteID>,
                          fuel: nat)
    requires bi.Check() == CheckOk && |f| == |bi.forward| + 1 && |r| == |bi.reverse| + 1
    requires bi.desc.Src() != bi.desc.Dst() && Contiguous(bi.forward) && Contiguous(bi.reverse)
    requires Wired(peer, bi.forward) && Wired(peer, bi.reverse)
    requires EdgeReady(BiRules(bi, f, r), bi.desc.Src()) && EdgeReady(BiRules(bi, f, r), bi.desc.Dst())
    requires HoldsAll(tables, HandedOut(bi, BiRules(bi, f, r)))
    requires fuel >= |bi.forward| && fuel >= |bi.reverse|
    ensures Walk(tables, peer, bi.desc.srcPK, f[0], fuel) ==
              Trip(Transports(bi.forward, 0), Consumed(bi.desc.dstPK, bi.desc))
    ensures Walk(tables, peer, bi.desc.dstPK, r[0], fuel) ==
              Trip(Transports(bi.reverse, 0), Consumed(bi.desc.srcPK, bi.desc.Invert()))
  {
    HandedOutIsChains(bi, f, r);
    var F, R := bi.ForwardRoute(), bi.ReverseRoute();
    hide BiRules, HandedOut, Chain, Walk;
    assert HoldsAll(tables, Chain(F, f)) && HoldsAll(tables, Chain(R, r));
    ChainDelivers(tables, peer, F, f, 0, fuel);
    ChainDelivers(tables, peer, R, r, 0, fuel);
  }

  // ---- in a network ----

  ghost function TablesOf(net: Net): Tables { map v | v in net.visors :: net.visors[v].rules }

  lemma EstablishedHolds(net: Net, bi: BiRoute, s: Side)
    requires NetInv(net) && CanEstablish(net, bi)
    ensures var x := NewRoute(net, bi);
            x.Shaped() && HoldsAll(TablesOf(EstablishNet(net, bi)), Chain(x.Dir(s), x.Ids(s)))
  {
    hide CanEstablish, NetInv, NewRoute, EstablishNet, RuleAt, Visits, TablesOf;
    var x := NewRoute(net, bi);
    forall y | y in Chain(x.Dir(s), x.Ids(s)) ensures HoldsAt(TablesOf(EstablishNet(net, bi)), y.0, y.1) {
      var i: nat :| 0 <= i < |x.Ids(s)| && y == Place(x.Dir(s), x.Ids(s), i);
      PlaceHeld(net, bi, s, i);
    }
  }

  lemma PlaceHeld(net: Net, bi: BiRoute, s: Side, i: nat)
    requires NetInv(net) && CanEstablish(net, bi) && i < |NewRoute(net, bi).Ids(s)|
    ensures var y := Place(NewRoute(net, bi).Dir(s), NewRoute(net, bi).Ids(s), i);
            HoldsAt(TablesOf(EstablishNet(net, bi)), y.0, y.1)
  {
    hide CanEstablish, NetInv, NewRoute, EstablishNet, RuleAt, Visits;
    var p, rs := Spot(|net.routes|, s, i), Extended(net, bi);
    assert rs[p.k] == NewRoute(net, bi);
    hide Extended;
    EstablishedRules(net, bi, p);
    SpotFacts(rs, p);
  }

  /** Whatever other routes are in place, a route just established delivers from end to end. */
  lemma EstablishedDelivers(net: Net, bi: BiRoute, s: Side, fuel: nat)
    requires NetInv(net) && CanEstablish(net, bi) && fuel >= |NewRoute(net, bi).Hops(s)|
    ensures var net', x := EstablishNet(net, bi), NewRoute(net, bi);
            x.Shaped() && Walk(TablesOf(net'), net'.peer, x.HomeOf(s), x.Ids(s)[0], fuel) ==
              Trip(Transports(x.Hops(s), 0), Consumed(x.HomeOf(s.Other()), x.DescOf(s.Other())))
  {
    hide CanEstablish, NetInv, NewRoute, EstablishNet, RuleAt, Chain, HoldsAll, Walk, TablesOf;
    var net', x := EstablishNet(net, bi), NewRoute(net, bi);
    EstablishedHolds(net, bi, s);
    NewRouteWired(net, bi);
    EstablishFrame(net, bi);
    EndsOf(x, s);
    ChainDelivers(TablesOf(net'), net'.peer, x.Dir(s), x.Ids(s), 0, fuel);
  }

  lemma EndsOf(x: Installed, s: Side)
    requires x.Shaped()
    ensures Contiguous(x.Hops(s)) && |x.Ids(s)| == |x.Hops(s)| + 1 > 1
    ensures Visits(x.Hops(s))[0] == x.HomeOf(s) && x.Hops(s)[|x.Hops(s)| - 1].to == x.HomeOf(s.Other())
    ensures x.Dir(s).desc == x.DescOf(s.Other()) && x.Dir(s).hops == x.Hops(s)
  {
  }
}
