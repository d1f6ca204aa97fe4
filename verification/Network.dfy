/** The network as it is deployed: visors with one rule table each, transports shared by every route
    that crosses them, routes set up at any time and in any number. */
module Network {
  import opened Routing
  import opened RouteGroups
  import opened Routers
  import opened Setup
  import opened SetupProofs
  import opened SetupNode
  import opened RouteMachine

  /** One direction of a transport, named by the transport and the sending visor. */
  type Link = (UUID, PubKey)

  /** A route in place: its request and the IDs of its two directions. */
  datatype Installed = Installed(bi: BiRoute, f: seq<RouteID>, r: seq<RouteID>) {
    /** The direction in which side s sends. */
    function Dir(s: Side): Route { if s.Init? then bi.ForwardRoute() else bi.ReverseRoute() }
    function Ids(s: Side): seq<RouteID> { if s.Init? then f else r }
    function Hops(s: Side): seq<Hop> { Dir(s).hops }

    /** Where the group of side s lives: its visor, and the descriptor of its consume rule. */
    function HomeOf(s: Side): PubKey { if s.Init? then bi.desc.srcPK else bi.desc.dstPK }
    function DescOf(s: Side): Desc { if s.Init? then bi.desc.Invert() else bi.desc }

    ghost predicate Shaped()
    {
      && bi.Check() == CheckOk && bi.desc.Src() != bi.desc.Dst()
      && Contiguous(bi.forward) && Contiguous(bi.reverse)
      && |f| == |bi.forward| + 1 && |r| == |bi.reverse| + 1
    }
  }

  /** `peer` is the wiring and does not change; `routes` lists the routes ever established. */
  datatype Net = Net(peer: map<Link, PubKey>, visors: map<PubKey, Visor>,
                     links: map<Link, seq<Packet>>, routes: seq<Installed>)
  {
    function Queue(l: Link): seq<Packet> { if l in links then links[l] else [] }
  }

  datatype NetAction =
    | Establish(bi: BiRoute)
    | Burn(v: PubKey, n: nat)
    | DoAt(v: PubKey, desc: Desc, call: GroupCall)
    | DeliverOn(link: Link)

  // ---- establishing a route ----

  predicate KnownPath(vs: map<PubKey, Visor>, hops: seq<Hop>) { forall v :: v in Visits(hops) ==> v in vs }

  function SaveRule(vs: map<PubKey, Visor>, v: PubKey, rule: Rule): map<PubKey, Visor>
    requires v in vs
  {
    vs[v := vs[v].(rules := vs[v].rules[rule.key := rule])]
  }

  /** Save the rules 0..k-1 of a chain, each at its visor. */
  function SaveChain(vs: map<PubKey, Visor>, route: Route, ids: seq<RouteID>, k: nat): (vs': map<PubKey, Visor>)
    requires route.hops != [] && |ids| == |route.hops| + 1 && k <= |ids|
    requires KnownPath(vs, route.hops)
    ensures vs'.Keys == vs.Keys
  {
    if k == 0 then vs
    else SaveRule(SaveChain(vs, route, ids, k - 1), Visits(route.hops)[k - 1], RuleAt(route, ids, k - 1))
  }

  function StartGroup(vs: map<PubKey, Visor>, v: PubKey, desc: Desc, fwd: Rule): map<PubKey, Visor>
    requires v in vs
  {
    vs[v := vs[v].(groups := vs[v].groups[desc := Endpoint(FreshGroup, fwd)], running := vs[v].running + {desc})]
  }

  ghost function Counters(vs: map<PubKey, Visor>): map<PubKey, nat> { map v | v in vs :: vs[v].next }

  ghost function Advance(vs: map<PubKey, Visor>, bi: BiRoute): map<PubKey, Visor>
  {
    map v | v in vs :: vs[v].(next := vs[v].next + Count(BiVisits(bi), v))
  }

  /** The transports of the hops exist and lead where the hops say. */
  ghost predicate Wired(peer: map<Link, PubKey>, hops: seq<Hop>)
  {
    forall i :: 0 <= i < |hops| ==>
      (hops[i].tp, hops[i].from) in peer && peer[(hops[i].tp, hops[i].from)] == hops[i].to
  }

  /** A setup that goes through: what CreateRouteGroup demands, over transports that exist and with
      contiguous hops, and no group yet under either descriptor. */
  ghost predicate CanEstablish(net: Net, bi: BiRoute)
  {
    && bi.Check() == CheckOk && bi.desc.Src() != bi.desc.Dst()
    && Contiguous(bi.forward) && Contiguous(bi.reverse)
    && Wired(net.peer, bi.forward) && Wired(net.peer, bi.reverse)
    && CanGrant(Counters(net.visors), bi)
    && bi.desc.srcPK in net.visors && bi.desc.Invert() !in net.visors[bi.desc.srcPK].groups
    && bi.desc.dstPK in net.visors && bi.desc !in net.visors[bi.desc.dstPK].groups
  }

  ghost function NewRoute(net: Net, bi: BiRoute): (x: Installed)
    requires CanEstablish(net, bi)
    ensures x.bi == bi && x.Shaped()
  {
    ReservedGranted(Counters(net.visors), bi);
    var (_, f, r) := Assign(Reserved(Counters(net.visors), bi), bi).value;
    Installed(bi, f, r)
  }

  lemma VisitsKnown(net: Net, bi: BiRoute)
    requires CanEstablish(net, bi)
    ensures KnownPath(net.visors, bi.forward) && KnownPath(net.visors, bi.reverse)
  {
    forall v | v in Visits(bi.forward) || v in Visits(bi.reverse) ensures v in net.visors {
      assert v in BiVisits(bi);
      assert Count(BiVisits(bi), v) > 0;
    }
  }

  /** The visors after a route's rules have been saved and its two groups started. */
  ghost function Equip(vs: map<PubKey, Visor>, x: Installed): map<PubKey, Visor>
    requires x.Shaped() && KnownPath(vs, x.bi.forward) && KnownPath(vs, x.bi.reverse)
    requires x.bi.desc.srcPK in vs && x.bi.desc.dstPK in vs
  {
    var vs1 := SaveChain(vs, x.Dir(Init), x.f, |x.f|);
    var vs2 := SaveChain(vs1, x.Dir(Resp), x.r, |x.r|);
    var vs3 := StartGroup(vs2, x.HomeOf(Init), x.DescOf(Init), RuleAt(x.Dir(Init), x.f, 0));
    StartGroup(vs3, x.HomeOf(Resp), x.DescOf(Resp), RuleAt(x.Dir(Resp), x.r, 0))
  }

  ghost function EstablishNet(net: Net, bi: BiRoute): Net
    requires CanEstablish(net, bi)
  {
    VisitsKnown(net, bi);
    var x := NewRoute(net, bi);
    net.(visors := Equip(Advance(net.visors, bi), x), routes := net.routes + [x])
  }

  // ---- steps ----

  /** Packets for a transport that the visor does not have are lost. */
  function SendFrom(net: Net, v: PubKey, send: Option<Burst>): Net
  {
    if send.None? || (send.value.tp, v) !in net.peer then net
    else
      var l := (send.value.tp, v);
      net.(links := net.links[l := net.Queue(l) + send.value.packets])
  }

  function React(net: Net, v: PubKey, r: Reaction): Net
  {
    SendFrom(net.(visors := net.visors[v := r.visor]), v, r.send)
  }

  ghost predicate NetEnabled(net: Net, a: NetAction)
  {
    match a
    case Establish(bi) => CanEstablish(net, bi)
    case Burn(v, n) => v in net.visors
    case DoAt(v, desc, call) =>
      v in net.visors && desc in net.visors[v].groups && Callable(net.visors[v].groups[desc].group, call)
    case DeliverOn(l) =>
      && l in net.peer && net.peer[l] in net.visors && net.Queue(l) != []
      && GroupsOk(net.visors[net.peer[l]])
      && !HandleTransportPacket(net.visors[net.peer[l]], net.Queue(l)[0]).blocked
  }

  ghost predicate VisorsOk(net: Net) { forall v :: v in net.visors ==> GroupsOk(net.visors[v]) }

  ghost function NetApply(net: Net, a: NetAction): Net
    requires VisorsOk(net) && NetEnabled(net, a)
  {
    match a
    case Establish(bi) => EstablishNet(net, bi)
    case Burn(v, n) => net.(visors := net.visors[v := net.visors[v].(next := net.visors[v].next + n)])
    case DoAt(v, desc, call) =>
      React(net, v, PerformAt(net.visors[v], desc, CallEffect(net.visors[v].groups[desc].group, call)))
    case DeliverOn(l) =>
      var v, q := net.peer[l], net.Queue(l);
      React(net.(links := net.links[l := q[1..]]), v, HandleTransportPacket(net.visors[v], q[0]))
  }
}
