/** The network refines one route machine per established route: shared tables and shared transports
    are invisible to the routes that use them. */
module NetworkProofs {
  import opened Routing
  import opened RouteGroups
  import opened Routers
  import opened Setup
  import opened SetupProofs
  import opened RouteMachine
  import opened Network

  // ---- places on a route ----

  /** The i-th visor on the path of side s of route k; as a hop, the one that leaves it. */
  datatype Spot = Spot(k: nat, s: Side, i: nat)

  ghost predicate IsSpot(rs: seq<Installed>, p: Spot)
  {
    p.k < |rs| && rs[p.k].Shaped() && p.i <= |rs[p.k].Hops(p.s)|
  }

  ghost predicate IsHop(rs: seq<Installed>, p: Spot) { IsSpot(rs, p) && p.i < |rs[p.k].Hops(p.s)| }

  ghost function After(p: Spot): Spot { p.(i := p.i + 1) }

  ghost function VisorOf(rs: seq<Installed>, p: Spot): PubKey
    requires IsSpot(rs, p)
  {
    Visits(rs[p.k].Hops(p.s))[p.i]
  }

  ghost function IdOf(rs: seq<Installed>, p: Spot): RouteID
    requires IsSpot(rs, p)
  {
    rs[p.k].Ids(p.s)[p.i]
  }

  ghost function RuleOf(rs: seq<Installed>, p: Spot): Rule
    requires IsSpot(rs, p)
  {
    RuleAt(rs[p.k].Dir(p.s), rs[p.k].Ids(p.s), p.i)
  }

  ghost function LinkOf(rs: seq<Installed>, p: Spot): Link
    requires IsHop(rs, p)
  {
    var h := rs[p.k].Hops(p.s)[p.i];
    (h.tp, h.from)
  }

  /** A rule sits at the visor whose transports it names, and consume rules at the far group's home. */
  lemma SpotFacts(rs: seq<Installed>, p: Spot)
    requires IsSpot(rs, p)
    ensures IsHop(rs, p) ==> VisorOf(rs, p) == LinkOf(rs, p).1 && IsSpot(rs, After(p))
    ensures IsHop(rs, p) ==> VisorOf(rs, After(p)) == rs[p.k].Hops(p.s)[p.i].to
    ensures p.i == 0 ==> VisorOf(rs, p) == rs[p.k].HomeOf(p.s)
    ensures !IsHop(rs, p) ==> VisorOf(rs, p) == rs[p.k].HomeOf(p.s.Other())
    ensures !IsHop(rs, p) ==> RuleOf(rs, p).Consume? && RuleOf(rs, p).desc == rs[p.k].DescOf(p.s.Other())
    ensures IsHop(rs, p) ==> !RuleOf(rs, p).Consume? && RuleOf(rs, p).tp == LinkOf(rs, p).0
    ensures IsHop(rs, p) ==> RuleOf(rs, p).next == IdOf(rs, After(p))
    ensures IsHop(rs, p) ==> (RuleOf(rs, p).Forward? <==> p.i == 0)
    ensures RuleOf(rs, p).key == IdOf(rs, p)
  {
    var hops := rs[p.k].Hops(p.s);
    if 0 < p.i < |hops| { assert hops[p.i - 1].to == hops[p.i].from; }
  }

  // ---- seeing one route in the network ----

  /** The packets of a queue with a given route ID, without it. */
  ghost function Bodies(q: seq<Packet>, id: RouteID): seq<Body>
  {
    if q == [] then [] else (if q[0].id == id then [q[0].body] else []) + Bodies(q[1..], id)
  }

  lemma {:induction false} BodiesConcat(a: seq<Packet>, b: seq<Packet>, id: RouteID)
    ensures Bodies(a + b, id) == Bodies(a, id) + Bodies(b, id)
  {
    if a == [] {
      assert a + b == b;
    } else {
      var rest := a[1..];
      BodiesConcat(rest, b, id);
      assert (a + b)[1..] == rest + b && (a + b)[0] == a[0];
      Regroup(if a[0].id == id then [a[0].body] else [], Bodies(rest, id), Bodies(b, id));
    }
  }

  lemma Regroup(x: seq<Body>, y: seq<Body>, z: seq<Body>)
    ensures x + (y + z) == x + y + z
  {
  }

  lemma {:induction false} BodiesAddressed(to: RouteID, bs: seq<Body>, id: RouteID)
    ensures Bodies(Addressed(to, bs), id) == if to == id then bs else []
    decreases |bs|
  {
    if bs != [] {
      assert Addressed(to, bs)[1..] == Addressed(to, bs[1..]);
      BodiesAddressed(to, bs[1..], id);
    }
  }

  ghost function SegAt(net: Net, p: Spot): seq<Body>
    requires IsHop(net.routes, p)
  {
    Bodies(net.Queue(LinkOf(net.routes, p)), IdOf(net.routes, After(p)))
  }

  ghost predicate PresentAt(net: Net, p: Spot)
    requires IsSpot(net.routes, p)
  {
    VisorOf(net.routes, p) in net.visors && IdOf(net.routes, p) in net.visors[VisorOf(net.routes, p)].rules
  }

  ghost predicate HasGroup(net: Net, k: nat, s: Side)
    requires k < |net.routes|
  {
    var x := net.routes[k];
    x.HomeOf(s) in net.visors && x.DescOf(s) in net.visors[x.HomeOf(s)].groups
  }

  ghost function GroupAt(net: Net, k: nat, s: Side): Group
    requires k < |net.routes|
  {
    if HasGroup(net, k, s) then net.visors[net.routes[k].HomeOf(s)].groups[net.routes[k].DescOf(s)].group
    else FreshGroup
  }

  ghost predicate RunningAt(net: Net, k: nat, s: Side)
    requires k < |net.routes|
  {
    var x := net.routes[k];
    x.HomeOf(s) in net.visors && x.DescOf(s) in net.visors[x.HomeOf(s)].running
  }

  ghost function LaneView(net: Net, k: nat, s: Side): Lane
    requires k < |net.routes| && net.routes[k].Shaped()
  {
    var n := |net.routes[k].Hops(s)|;
    Lane(seq(n, i requires 0 <= i < n => SegAt(net, Spot(k, s, i))),
         seq(n + 1, i requires 0 <= i < n + 1 => PresentAt(net, Spot(k, s, i))))
  }

  /** Route k as a state of the route machine. */
  ghost function View(net: Net, k: nat): State
    requires k < |net.routes| && net.routes[k].Shaped()
  {
    State(Pair(GroupAt(net, k, Init), GroupAt(net, k, Resp)),
          Pair(RunningAt(net, k, Init), RunningAt(net, k, Resp)),
          Pair(LaneView(net, k, Init), LaneView(net, k, Resp)))
  }

  // ---- the invariant ----

  ghost predicate Laid(net: Net)
  {
    forall k :: 0 <= k < |net.routes| ==>
      && net.routes[k].Shaped()
      && Wired(net.peer, net.routes[k].bi.forward) && Wired(net.peer, net.routes[k].bi.reverse)
      && KnownPath(net.visors, net.routes[k].bi.forward) && KnownPath(net.visors, net.routes[k].bi.reverse)
  }

  /** No two places of any routes share a visor and a route ID. */
  ghost predicate Apart(rs: seq<Installed>)
  {
    forall p, q | IsSpot(rs, p) && IsSpot(rs, q) ::
      VisorOf(rs, p) == VisorOf(rs, q) && IdOf(rs, p) == IdOf(rs, q) ==> p == q
  }

  ghost predicate HomesApart(rs: seq<Installed>)
  {
    forall k, s, k', s' | 0 <= k < |rs| && 0 <= k' < |rs| ::
      rs[k].HomeOf(s) == rs[k'].HomeOf(s') && rs[k].DescOf(s) == rs[k'].DescOf(s') ==> k == k' && s == s'
  }

  /** IDs in use have been issued, and what a table holds under them is the rule of that place. */
  ghost predicate RulesOk(net: Net)
  {
    forall p :: IsSpot(net.routes, p) && VisorOf(net.routes, p) in net.visors ==>
      var v := net.visors[VisorOf(net.routes, p)];
      && IdOf(net.routes, p) <= v.next
      && (IdOf(net.routes, p) in v.rules ==> v.rules[IdOf(net.routes, p)] == RuleOf(net.routes, p))
  }

  ghost predicate GroupsLinked(net: Net)
  {
    forall k, s :: 0 <= k < |net.routes| ==>
      && HasGroup(net, k, s)
      && (net.routes[k].Shaped() ==>
            net.visors[net.routes[k].HomeOf(s)].groups[net.routes[k].DescOf(s)].fwd ==
              RuleOf(net.routes, Spot(k, s, 0)))
  }

  ghost predicate Owner(net: Net, v: PubKey, d: Desc, k: nat, s: Side)
  {
    k < |net.routes| && net.routes[k].HomeOf(s) == v && net.routes[k].DescOf(s) == d
  }

  ghost predicate GroupsOwned(net: Net)
  {
    forall v, d :: v in net.visors && d in net.visors[v].groups ==> exists k, s :: Owner(net, v, d, k, s)
  }

  ghost predicate Carries(rs: seq<Installed>, l: Link, id: RouteID, p: Spot)
  {
    IsHop(rs, p) && LinkOf(rs, p) == l && IdOf(rs, After(p)) == id
  }

  ghost predicate Owned(rs: seq<Installed>, l: Link, id: RouteID) { exists p :: Carries(rs, l, id, p) }

  /** Every packet in flight is on a hop of some route and addressed to the next visor of it. */
  ghost predicate PacketsOwned(net: Net)
  {
    forall l, j :: 0 <= j < |net.Queue(l)| ==> Owned(net.routes, l, net.Queue(l)[j].id)
  }

  ghost predicate NetInv(net: Net)
  {
    && VisorsOk(net) && Laid(net) && Apart(net.routes) && HomesApart(net.routes)
    && RulesOk(net) && GroupsLinked(net) && GroupsOwned(net) && PacketsOwned(net)
  }

  lemma ShapedRoute(net: Net, k: nat)
    requires Laid(net) && k < |net.routes|
    ensures net.routes[k].Shaped()
  {
  }

  // ---- elementary changes of the network, as one route sees them ----

  /** Route k is now in state st and every other route is as before. */
  ghost predicate OnlyRoute(net: Net, net': Net, k: nat, st: State)
  {
    && Laid(net) && Laid(net') && net'.routes == net.routes && k < |net.routes|
    && View(net', k) == st
    && forall k' :: 0 <= k' < |net.routes| && k' != k ==> View(net', k') == View(net, k')
  }

  ghost function WithLane(st: State, s: Side, l: Lane): State { st.(lanes := st.lanes.Put(s, l)) }

  /** A hop's transport leads to the next visor, so two hops that share a link and an ID coincide. */
  lemma SameHop(net: Net, p: Spot, q: Spot)
    requires Laid(net) && Apart(net.routes) && IsHop(net.routes, p) && IsHop(net.routes, q)
    requires LinkOf(net.routes, p) == LinkOf(net.routes, q)
    requires IdOf(net.routes, After(p)) == IdOf(net.routes, After(q))
    ensures p == q
  {
    SpotFacts(net.routes, p);
    SpotFacts(net.routes, q);
    HopPeer(net, p);
    HopPeer(net, q);
    assert After(p) == After(q);
  }

  lemma HopPeer(net: Net, p: Spot)
    requires Laid(net) && IsHop(net.routes, p)
    ensures LinkOf(net.routes, p) in net.peer
    ensures IsSpot(net.routes, After(p)) && net.peer[LinkOf(net.routes, p)] == VisorOf(net.routes, After(p))
    ensures VisorOf(net.routes, After(p)) in net.visors && VisorOf(net.routes, p) in net.visors
  {
    SpotFacts(net.routes, p);
    var x := net.routes[p.k];
    var hops := x.Hops(p.s);
    assert Wired(net.peer, hops) && KnownPath(net.visors, hops);
    assert VisorOf(net.routes, p) in Visits(hops) && VisorOf(net.routes, After(p)) in Visits(hops);
  }

  function PopLink(net: Net, l: Link): Net
    requires net.Queue(l) != []
  {
    net.(links := net.links[l := net.Queue(l)[1..]])
  }

  lemma PopSeg(net: Net, p: Spot, q: Spot)
    requires Laid(net) && Apart(net.routes) && IsHop(net.routes, p) && IsHop(net.routes, q)
    requires net.Queue(LinkOf(net.routes, p)) != []
    requires Carries(net.routes, LinkOf(net.routes, p), net.Queue(LinkOf(net.routes, p))[0].id, p)
    ensures SegAt(net, p) != [] && SegAt(net, p)[0] == net.Queue(LinkOf(net.routes, p))[0].body
    ensures SegAt(PopLink(net, LinkOf(net.routes, p)), q) == if q == p then SegAt(net, p)[1..] else SegAt(net, q)
  {
    var l := LinkOf(net.routes, p);
    if q != p && LinkOf(net.routes, q) == l && IdOf(net.routes, After(q)) == net.Queue(l)[0].id {
      SameHop(net, p, q);
    }
    assert SegAt(net, p) == [net.Queue(l)[0].body] + Bodies(net.Queue(l)[1..], IdOf(net.routes, After(p)));
  }

  /** Hop p now holds x; every other hop is as before. */
  ghost predicate SegsChange(net: Net, net': Net, p: Spot, x: seq<Body>)
    requires net'.routes == net.routes
  {
    forall q :: IsHop(net.routes, q) ==> SegAt(net', q) == if q == p then x else SegAt(net, q)
  }

  ghost predicate SegsSame(net: Net, net': Net)
    requires net'.routes == net.routes
  {
    forall q :: IsHop(net.routes, q) ==> SegAt(net', q) == SegAt(net, q)
  }

  ghost predicate TablesSame(net: Net, net': Net)
    requires net'.routes == net.routes
  {
    && (forall p :: IsSpot(net.routes, p) ==> PresentAt(net', p) == PresentAt(net, p))
    && GroupsSame(net, net')
  }

  ghost predicate GroupsSame(net: Net, net': Net)
    requires net'.routes == net.routes
  {
    forall k, s :: 0 <= k < |net.routes| ==>
      GroupAt(net', k, s) == GroupAt(net, k, s) && RunningAt(net', k, s) == RunningAt(net, k, s)
  }

  lemma ViewSegs(net: Net, net': Net, p: Spot, x: seq<Body>)
    requires Laid(net) && Laid(net') && net'.routes == net.routes && IsHop(net.routes, p)
    requires SegsChange(net, net', p, x) && TablesSame(net, net')
    ensures var l := View(net, p.k).lanes.At(p.s);
            OnlyRoute(net, net', p.k, WithLane(View(net, p.k), p.s, l.(segs := l.segs[p.i := x])))
  {
    hide SegAt, PresentAt, GroupAt, RunningAt, LaneView;
    LaneSegs(net, net', p, x, p.k, p.s);
    forall k, s | 0 <= k < |net.routes|
      ensures var l := LaneView(net, k, s);
              LaneView(net', k, s) == if k == p.k && s == p.s then l.(segs := l.segs[p.i := x]) else l
    {
      LaneSegs(net, net', p, x, k, s);
    }
  }

  lemma LaneSegs(net: Net, net': Net, p: Spot, x: seq<Body>, k: nat, s: Side)
    requires Laid(net) && net'.routes == net.routes && IsHop(net.routes, p) && k < |net.routes|
    requires SegsChange(net, net', p, x) && TablesSame(net, net')
    ensures var l := LaneView(net, k, s);
            && (k == p.k && s == p.s ==> p.i < |l.segs|)
            && LaneView(net', k, s) == if k == p.k && s == p.s then l.(segs := l.segs[p.i := x]) else l
  {
    hide SegAt, PresentAt, GroupAt, RunningAt;
    var n := |net.routes[k].Hops(s)|;
    assert forall i :: 0 <= i < n ==> IsHop(net.routes, Spot(k, s, i));
    assert forall i :: 0 <= i <= n ==> IsSpot(net.routes, Spot(k, s, i));
  }

  lemma LaneAt(net: Net, p: Spot)
    requires IsSpot(net.routes, p)
    ensures var l, n := View(net, p.k).lanes.At(p.s), |net.routes[p.k].Hops(p.s)|;
            && |l.segs| == n >= 1 && |l.present| == n + 1 && l.Shaped()
            && l.present[p.i] == PresentAt(net, p) && (p.i < n ==> l.segs[p.i] == SegAt(net, p))
  {
  }

  lemma PopSegs(net: Net, p: Spot)
    requires Laid(net) && Apart(net.routes) && IsHop(net.routes, p) && net.Queue(LinkOf(net.routes, p)) != []
    requires Carries(net.routes, LinkOf(net.routes, p), net.Queue(LinkOf(net.routes, p))[0].id, p)
    ensures SegsChange(net, PopLink(net, LinkOf(net.routes, p)), p, SegAt(net, p)[1..])
  {
    hide SegAt;
    PopSeg(net, p, p);
    forall q | IsHop(net.routes, q)
      ensures SegAt(PopLink(net, LinkOf(net.routes, p)), q) == if q == p then SegAt(net, p)[1..] else SegAt(net, q)
    {
      PopSeg(net, p, q);
    }
  }

  lemma PopView(net: Net, p: Spot)
    requires NetInv(net) && IsHop(net.routes, p) && net.Queue(LinkOf(net.routes, p)) != []
    requires Carries(net.routes, LinkOf(net.routes, p), net.Queue(LinkOf(net.routes, p))[0].id, p)
    ensures NetInv(PopLink(net, LinkOf(net.routes, p)))
    ensures SegAt(net, p) != [] && SegAt(net, p)[0] == net.Queue(LinkOf(net.routes, p))[0].body
    ensures var l := View(net, p.k).lanes.At(p.s);
            && |l.segs| > p.i
            && OnlyRoute(net, PopLink(net, LinkOf(net.routes, p)), p.k,
                         WithLane(View(net, p.k), p.s, l.(segs := l.segs[p.i := SegAt(net, p)[1..]])))
  {
    hide SegAt, LaneView, Laid, Apart, HomesApart, RulesOk, GroupsLinked, GroupsOwned, PacketsOwned, VisorsOk;
    hide TablesSame, OnlyRoute, SegsChange;
    var net' := PopLink(net, LinkOf(net.routes, p));
    PopSegs(net, p);
    PopSeg(net, p, p);
    PopOwned(net, LinkOf(net.routes, p));
    SameTables(net, net');
    LaneAt(net, p);
    ViewSegs(net, net', p, SegAt(net, p)[1..]);
  }

  lemma PopOwned(net: Net, l: Link)
    requires PacketsOwned(net) && net.Queue(l) != []
    ensures PacketsOwned(PopLink(net, l))
  {
    var net' := PopLink(net, l);
    forall l', j | 0 <= j < |net'.Queue(l')|
      ensures Owned(net.routes, l', net'.Queue(l')[j].id)
    {
      assert net'.Queue(l')[j] == net.Queue(l')[if l' == l then j + 1 else j];
    }
  }

  /** Changing only queues leaves everything but the hops alone. */
  lemma SameTables(net: Net, net': Net)
    requires NetInv(net) && net' == net.(links := net'.links)
    ensures VisorsOk(net') && Laid(net') && RulesOk(net') && GroupsLinked(net') && GroupsOwned(net')
    ensures TablesSame(net, net')
  {
    hide Apart, HomesApart, PacketsOwned, Contiguous, Visits, GroupsOwned, GroupsLinked, RuleOf;
    SameOwned(net, net');
    SameLinked(net, net');
  }

  lemma SameOwned(net: Net, net': Net)
    requires GroupsOwned(net) && net' == net.(links := net'.links)
    ensures GroupsOwned(net')
  {
    forall v, d | v in net'.visors && d in net'.visors[v].groups ensures exists k, s :: Owner(net', v, d, k, s) {
      var k, s :| Owner(net, v, d, k, s);
      assert Owner(net', v, d, k, s);
    }
  }

  lemma SameLinked(net: Net, net': Net)
    requires GroupsLinked(net) && net' == net.(links := net'.links)
    ensures GroupsLinked(net')
  {
    hide RuleOf;
    assert forall k, s :: 0 <= k < |net.routes| ==> HasGroup(net', k, s) == HasGroup(net, k, s);
  }

  // ---- sending ----

  ghost function SendOn(net: Net, p: Spot, bs: seq<Body>): Net
    requires IsHop(net.routes, p)
  {
    var l := LinkOf(net.routes, p);
    SendFrom(net, l.1, Some(Burst(l.0, Addressed(IdOf(net.routes, After(p)), bs))))
  }

  lemma SendSeg(net: Net, p: Spot, bs: seq<Body>, q: Spot)
    requires Laid(net) && Apart(net.routes) && IsHop(net.routes, p) && IsHop(net.routes, q)
    ensures SegAt(SendOn(net, p, bs), q) == if q == p then SegAt(net, p) + bs else SegAt(net, q)
  {
    hide Bodies;
    HopPeer(net, p);
    var l, id := LinkOf(net.routes, p), IdOf(net.routes, After(q));
    BodiesConcat(net.Queue(l), Addressed(IdOf(net.routes, After(p)), bs), id);
    BodiesAddressed(IdOf(net.routes, After(p)), bs, id);
    if q != p && LinkOf(net.routes, q) == l && id == IdOf(net.routes, After(p)) {
      SameHop(net, p, q);
    }
  }

  lemma SendOwned(net: Net, p: Spot, bs: seq<Body>)
    requires Laid(net) && PacketsOwned(net) && IsHop(net.routes, p)
    ensures PacketsOwned(SendOn(net, p, bs))
  {
    HopPeer(net, p);
    var l, id := LinkOf(net.routes, p), IdOf(net.routes, After(p));
    var net' := SendOn(net, p, bs);
    assert Carries(net.routes, l, id, p);
    forall l', j | 0 <= j < |net'.Queue(l')|
      ensures Owned(net.routes, l', net'.Queue(l')[j].id)
    {
      if l' != l || j < |net.Queue(l)| {
        assert net'.Queue(l')[j] == net.Queue(l')[j];
      } else {
        assert net'.Queue(l')[j] == Addressed(id, bs)[j - |net.Queue(l)|];
      }
    }
  }

  lemma SendView(net: Net, p: Spot, bs: seq<Body>)
    requires NetInv(net) && IsHop(net.routes, p)
    ensures NetInv(SendOn(net, p, bs))
    ensures var l := View(net, p.k).lanes.At(p.s);
            && p.i < |l.segs|
            && OnlyRoute(net, SendOn(net, p, bs), p.k, WithLane(View(net, p.k), p.s, Push(l, p.i, bs)))
  {
    hide SegAt, LaneView, Laid, Apart, HomesApart, RulesOk, GroupsLinked, GroupsOwned, PacketsOwned, VisorsOk;
    hide TablesSame, OnlyRoute;
    var net' := SendOn(net, p, bs);
    forall q | IsHop(net.routes, q)
      ensures SegAt(net', q) == if q == p then SegAt(net, p) + bs else SegAt(net, q)
    {
      SendSeg(net, p, bs, q);
    }
    assert SegsChange(net, net', p, SegAt(net, p) + bs);
    SendOwned(net, p, bs);
    SameTables(net, net');
    LaneAt(net, p);
    hide SegsChange;
    ViewSegs(net, net', p, SegAt(net, p) + bs);
  }

  // ---- changing a visor ----

  ghost predicate LinksSame(net: Net, net': Net) { net' == net.(visors := net'.visors) }

  lemma SameSegs(net: Net, net': Net)
    requires LinksSame(net, net')
    ensures SegsSame(net, net') && (PacketsOwned(net) ==> PacketsOwned(net'))
  {
    forall q | IsHop(net.routes, q) ensures SegAt(net', q) == SegAt(net, q) {}
    if PacketsOwned(net) {
      forall l, j | 0 <= j < |net'.Queue(l)| ensures Owned(net'.routes, l, net'.Queue(l)[j].id) {
        assert net'.Queue(l)[j] == net.Queue(l)[j];
      }
    }
  }

  /** A visor may forget rules and running groups, issue IDs and change the state of its groups. */
  ghost predicate Tame(a: Visor, b: Visor)
  {
    && a.next <= b.next && b.running <= a.running
    && (forall id :: id in b.rules ==> id in a.rules && b.rules[id] == a.rules[id])
    && b.groups.Keys == a.groups.Keys
    && (forall d :: d in a.groups ==> b.groups[d].fwd == a.groups[d].fwd)
  }

  lemma TameInv(net: Net, v: PubKey, w: Visor)
    requires NetInv(net) && v in net.visors && Tame(net.visors[v], w)
    ensures NetInv(net.(visors := net.visors[v := w]))
  {
    var net' := net.(visors := net.visors[v := w]);
    assert Laid(net') && VisorsOk(net');
    assert RulesOk(net') by {
      hide VisorOf, IdOf, RuleOf, IsSpot;
    }
    TameGroups(net, v, w);
    hide SegsSame;
    SameSegs(net, net');
  }

  lemma TameGroups(net: Net, v: PubKey, w: Visor)
    requires GroupsLinked(net) && GroupsOwned(net) && v in net.visors && Tame(net.visors[v], w)
    ensures GroupsLinked(net.(visors := net.visors[v := w])) && GroupsOwned(net.(visors := net.visors[v := w]))
  {
    var net' := net.(visors := net.visors[v := w]);
    assert forall u, d, k, s :: Owner(net, u, d, k, s) ==> Owner(net', u, d, k, s);
    hide RuleOf;
    forall k, s | 0 <= k < |net.routes| ensures HasGroup(net', k, s) { assert HasGroup(net, k, s); }
  }

  /** Delete the rule of a place. */
  function DropRule(net: Net, v: PubKey, id: RouteID): Net
    requires v in net.visors
  {
    net.(visors := net.visors[v := net.visors[v].(rules := net.visors[v].rules - {id})])
  }

  lemma DropView(net: Net, p: Spot)
    requires NetInv(net) && IsSpot(net.routes, p) && VisorOf(net.routes, p) in net.visors
    ensures NetInv(DropRule(net, VisorOf(net.routes, p), IdOf(net.routes, p)))
    ensures var l := View(net, p.k).lanes.At(p.s);
            && p.i < |l.present|
            && OnlyRoute(net, DropRule(net, VisorOf(net.routes, p), IdOf(net.routes, p)), p.k,
                         WithLane(View(net, p.k), p.s, Drop(l, p.i)))
  {
    hide Laid, Apart, HomesApart, RulesOk, GroupsLinked, GroupsOwned, PacketsOwned, VisorsOk, OnlyRoute;
    hide LaneView, SegAt;
    hide PresentAt, SegsSame, GroupsSame;
    var v := VisorOf(net.routes, p);
    var net' := DropRule(net, v, IdOf(net.routes, p));
    TameInv(net, v, net'.visors[v]);
    SameSegs(net, net');
    DropPresent(net, p);
    DropGroups(net, v, IdOf(net.routes, p));
    LaneAt(net, p);
    ViewPresent(net, net', p);
  }

  lemma DropGroups(net: Net, v: PubKey, id: RouteID)
    requires v in net.visors
    ensures GroupsSame(net, DropRule(net, v, id))
  {
    forall k, s | 0 <= k < |net.routes| ensures HasGroup(DropRule(net, v, id), k, s) == HasGroup(net, k, s) {}
  }

  lemma DropPresent(net: Net, p: Spot)
    requires Apart(net.routes) && IsSpot(net.routes, p) && VisorOf(net.routes, p) in net.visors
    ensures var net' := DropRule(net, VisorOf(net.routes, p), IdOf(net.routes, p));
            forall q :: IsSpot(net.routes, q) ==> PresentAt(net', q) == (q != p && PresentAt(net, q))
  {
  }

  lemma ViewPresent(net: Net, net': Net, p: Spot)
    requires Laid(net) && Laid(net') && net'.routes == net.routes && IsSpot(net.routes, p)
    requires SegsSame(net, net') && GroupsSame(net, net')
    requires forall q :: IsSpot(net.routes, q) ==> PresentAt(net', q) == (q != p && PresentAt(net, q))
    ensures var l := View(net, p.k).lanes.At(p.s);
            && p.i < |l.present|
            && OnlyRoute(net, net', p.k, WithLane(View(net, p.k), p.s, Drop(l, p.i)))
  {
    hide SegAt, PresentAt, GroupAt, RunningAt;
    forall k, s | 0 <= k < |net.routes|
      ensures var l := LaneView(net, k, s);
              p.i < |LaneView(net, p.k, p.s).present|
              && LaneView(net', k, s) == if k == p.k && s == p.s then Drop(l, p.i) else l
    {
      var n := |net.routes[k].Hops(s)|;
      assert forall i :: 0 <= i < n ==> IsHop(net.routes, Spot(k, s, i));
      assert forall i :: 0 <= i <= n ==> IsSpot(net.routes, Spot(k, s, i));
    }
    hide LaneView;
  }

  /** Replace the state of a group, and whether its router still dispatches to it. */
  function SetGroup(net: Net, v: PubKey, d: Desc, g: Group, running: bool): Net
    requires v in net.visors && d in net.visors[v].groups
  {
    var w := net.visors[v];
    net.(visors := net.visors[v := w.(groups := w.groups[d := w.groups[d].(group := g)],
                                      running := if running then w.running else w.running - {d})])
  }

  lemma GroupView(net: Net, k: nat, s: Side, g: Group, running: bool)
    requires NetInv(net) && k < |net.routes| && HasGroup(net, k, s)
    ensures NetInv(SetGroup(net, net.routes[k].HomeOf(s), net.routes[k].DescOf(s), g, running))
    ensures var st := View(net, k);
            OnlyRoute(net, SetGroup(net, net.routes[k].HomeOf(s), net.routes[k].DescOf(s), g, running), k,
                      st.(groups := st.groups.Put(s, g),
                          registered := st.registered.Put(s, running && st.registered.At(s))))
  {
    hide Laid, Apart, HomesApart, RulesOk, GroupsLinked, GroupsOwned, PacketsOwned, VisorsOk, OnlyRoute;
    hide LaneView, SegAt;
    hide PresentAt, SegsSame, GroupAt, RunningAt;
    var v, d := net.routes[k].HomeOf(s), net.routes[k].DescOf(s);
    var net' := SetGroup(net, v, d, g, running);
    TameInv(net, v, net'.visors[v]);
    SameSegs(net, net');
    SetGroupObserved(net, k, s, g, running);
    ViewGroups(net, net');
    GroupRoutes(net, net', k, s, g, running);
  }

  ghost predicate GroupChange(net: Net, net': Net, k: nat, s: Side, g: Group, running: bool)
    requires net'.routes == net.routes
  {
    forall k', s' :: 0 <= k' < |net.routes| ==>
      && GroupAt(net', k', s') == (if k' == k && s' == s then g else GroupAt(net, k', s'))
      && RunningAt(net', k', s') == (RunningAt(net, k', s') && (k' == k && s' == s ==> running))
  }

  lemma SetGroupObserved(net: Net, k: nat, s: Side, g: Group, running: bool)
    requires HomesApart(net.routes) && k < |net.routes| && HasGroup(net, k, s)
    ensures var net' := SetGroup(net, net.routes[k].HomeOf(s), net.routes[k].DescOf(s), g, running);
            && GroupChange(net, net', k, s, g, running)
            && forall p :: IsSpot(net.routes, p) ==> PresentAt(net', p) == PresentAt(net, p)
  {
  }

  lemma GroupRoutes(net: Net, net': Net, k: nat, s: Side, g: Group, running: bool)
    requires Laid(net) && Laid(net') && net'.routes == net.routes && k < |net.routes|
    requires GroupChange(net, net', k, s, g, running)
    requires forall k', s' :: 0 <= k' < |net.routes| ==> LaneView(net', k', s') == LaneView(net, k', s')
    ensures var st := View(net, k);
            OnlyRoute(net, net', k, st.(groups := st.groups.Put(s, g),
                                        registered := st.registered.Put(s, running && st.registered.At(s))))
  {
    hide LaneView, GroupAt, RunningAt;
  }

  lemma ViewGroups(net: Net, net': Net)
    requires Laid(net) && Laid(net') && net'.routes == net.routes && SegsSame(net, net')
    requires forall p :: IsSpot(net.routes, p) ==> PresentAt(net', p) == PresentAt(net, p)
    ensures forall k, s :: 0 <= k < |net.routes| ==> LaneView(net', k, s) == LaneView(net, k, s)
  {
    hide SegAt, PresentAt;
    forall k, s | 0 <= k < |net.routes| ensures LaneView(net', k, s) == LaneView(net, k, s) {
      var n := |net.routes[k].Hops(s)|;
      assert forall i :: 0 <= i < n ==> IsHop(net.routes, Spot(k, s, i));
      assert forall i :: 0 <= i <= n ==> IsSpot(net.routes, Spot(k, s, i));
    }
  }
}
