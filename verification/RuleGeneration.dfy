/** GenerateRules and CreateRouteGroup: the loops of the setup node against Setup.Generate, what
    becomes of the reserved IDs, and what the edges receive. */
module RuleGeneration {
  import opened Routing
  import opened Setup

  /** ErrNoKey is None.  Like the source, it demands that every route has a first hop. */
  method GenerateRules(idR: IDReserver, routes: seq<Route>) returns (r: Option<RuleMaps>)
    requires forall rt :: rt in routes ==> rt.hops != []
    modifies idR`ids
    ensures var g := Generate(old(idR.ids), routes, NoRules);
            && (r.None? <==> g.None?)
            && (g.Some? ==> idR.ids == g.value.0 && r.value == g.value.1)
  {
    var m := NoRules;
    ghost var spec := Generate(idR.ids, routes, NoRules);
    for k := 0 to |routes|
      invariant spec == Generate(idR.ids, routes[k..], m)
    {
      assert routes[k..][1..] == routes[k + 1..];
      var filed := GenerateRoute(idR, routes[k], m);
      if filed.None? { return None; }
      m := filed.value;
    }
    assert routes[|routes|..] == [];
    return Some(m);
  }

  /** The body of the outer loop: walk one route, popping an ID per visit. */
  method GenerateRoute(idR: IDReserver, route: Route, m0: RuleMaps) returns (r: Option<RuleMaps>)
    requires route.hops != []
    modifies idR`ids
    ensures var p := PopAll(old(idR.ids), Visits(route.hops));
            && (r.None? <==> p.None?)
            && (p.Some? ==> idR.ids == p.value.0 && r.value == FileRoute(m0, route, p.value.1))
  {
    hide PopAll, FileHops, Resumes, RuleAt, FileRoute, File, FiledHop, Visits;
    ghost var vs := Visits(route.hops);
    VisitsAt(route.hops, 0);
    ghost var ids0 := idR.ids;
    var rID, ok := idR.PopID(route.hops[0].from);
    PopStep(ids0, vs, 0, ids0, []);
    if !ok { return None; }
    var m := m0;
    ghost var popped := [rID];
    assert [] + [rID] == [rID];
    FileHopsNone(m0, route, popped);
    for i := 0 to |route.hops|
      invariant |popped| == i + 1 && popped[i] == rID
      invariant Resumes(ids0, vs, i + 1, idR.ids, popped)
      invariant m == FileHops(m0, route, popped, i)
    {
      ghost var ids1 := idR.ids;
      var nxtRID;
      nxtRID, m, ok := GenerateHop(idR, route, i, rID, m);
      VisitsAt(route.hops, i);
      PopStep(ids0, vs, i + 1, ids1, popped);
      if !ok { return None; }
      FileHopsNext(m0, route, popped, nxtRID, i);
      rID, popped := nxtRID, popped + [nxtRID];
    }
    PopDone(ids0, vs, idR.ids, popped);
    FileRouteIs(m0, route, popped);
    m := m.(rev := File(m.rev, route.desc.Dst(), Consume(route.keepAlive, rID, route.desc)));
    return Some(m);
  }

  /** The body of the inner loop: chain hop i from rID to a newly popped ID. */
  method GenerateHop(idR: IDReserver, route: Route, i: nat, rID: RouteID, m0: RuleMaps)
    returns (nxtRID: RouteID, m: RuleMaps, ok: bool)
    requires i < |route.hops|
    modifies idR`ids
    ensures var s := Stack(old(idR.ids), route.hops[i].to);
            && (ok <==> s != [])
            && (ok ==> nxtRID == s[0] && idR.ids == old(idR.ids)[route.hops[i].to := s[1..]]
                       && m == FiledHop(m0, route, i, rID, nxtRID))
  {
    var hop := route.hops[i];
    m := m0;
    nxtRID, ok := idR.PopID(hop.to);
    if !ok { return; }
    var port: Port := 0;
    if route.desc.dstPK == hop.from { port := route.desc.dstPort; }
    if route.desc.srcPK == hop.from { port := route.desc.srcPort; }
    var addr := Addr(hop.from, port);
    if i == 0 {
      m := m.(fwd := File(m.fwd, addr, Forward(route.keepAlive, rID, nxtRID, hop.tp, route.desc)));
    } else {
      m := m.(inter := File(m.inter, addr, Intermediary(route.keepAlive, rID, nxtRID, hop.tp)));
    }
  }

  function FiledHop(m: RuleMaps, route: Route, i: nat, rID: RouteID, next: RouteID): RuleMaps
    requires i < |route.hops|
  {
    var a, tp := HopAddr(route, i), route.hops[i].tp;
    if i == 0 then m.(fwd := File(m.fwd, a, Forward(route.keepAlive, rID, next, tp, route.desc)))
    else m.(inter := File(m.inter, a, Intermediary(route.keepAlive, rID, next, tp)))
  }

  lemma VisitsAt(hops: seq<Hop>, i: nat)
    requires i < |hops|
    ensures var vs := Visits(hops); |vs| == |hops| + 1 && vs[0] == hops[0].from && vs[i + 1] == hops[i].to
  {
  }

  /** The walk so far has popped k IDs: finishing from `ids` finishes the whole. */
  ghost predicate Resumes(ids0: Stacks, vs: seq<PubKey>, k: nat, ids: Stacks, popped: seq<RouteID>)
  {
    k <= |vs| && PopAll(ids0, vs) ==
      match PopAll(ids, vs[k..])
      case None => None
      case Some((ids', rest)) => Some((ids', popped + rest))
  }

  lemma PopStep(ids0: Stacks, vs: seq<PubKey>, k: nat, ids: Stacks, popped: seq<RouteID>)
    requires k < |vs| && (k == 0 ==> ids == ids0 && popped == [])
    requires k > 0 ==> Resumes(ids0, vs, k, ids, popped)
    ensures Stack(ids, vs[k]) == [] ==> PopAll(ids0, vs).None?
    ensures Stack(ids, vs[k]) != [] ==>
      Resumes(ids0, vs, k + 1, ids[vs[k] := ids[vs[k]][1..]], popped + [ids[vs[k]][0]])
  {
    assert vs[k..][1..] == vs[k + 1..];
    if k == 0 {
      assert vs[0..] == vs;
      assert Resumes(ids0, vs, 0, ids, popped) by {
        if PopAll(ids0, vs).Some? { assert [] + PopAll(ids0, vs).value.1 == PopAll(ids0, vs).value.1; }
      }
    }
    if Stack(ids, vs[k]) != [] {
      var head := ids[vs[k]][0];
      var next := PopAll(ids[vs[k] := ids[vs[k]][1..]], vs[k + 1..]);
      if next.Some? {
        assert popped + ([head] + next.value.1) == popped + [head] + next.value.1;
      }
    }
  }

  lemma PopDone(ids0: Stacks, vs: seq<PubKey>, ids: Stacks, popped: seq<RouteID>)
    requires Resumes(ids0, vs, |vs|, ids, popped)
    ensures PopAll(ids0, vs) == Some((ids, popped))
  {
    assert vs[|vs|..] == [] && popped + [] == popped;
  }

  lemma FileHopsNone(m: RuleMaps, route: Route, ids: seq<RouteID>)
    ensures FileHops(m, route, ids, 0) == m
  {
  }

  lemma FileHopsNext(m: RuleMaps, route: Route, ids: seq<RouteID>, next: RouteID, k: nat)
    requires k < |route.hops| && |ids| == k + 1
    ensures FileHops(m, route, ids + [next], k + 1) ==
              FiledHop(FileHops(m, route, ids, k), route, k, ids[k], next)
  {
    hide File, HopAddr;
    FileHopsPrefix(m, route, ids, ids + [next], k);
  }

  lemma FileRouteIs(m: RuleMaps, route: Route, ids: seq<RouteID>)
    requires |ids| == |route.hops| + 1
    ensures var m' := FileHops(m, route, ids, |route.hops|);
            FileRoute(m, route, ids) ==
              m'.(rev := File(m'.rev, route.desc.Dst(), Consume(route.keepAlive, ids[|route.hops|], route.desc)))
  {
  }

  lemma {:induction false} FileHopsPrefix(m: RuleMaps, route: Route, ids: seq<RouteID>, ids': seq<RouteID>, k: nat)
    requires k <= |route.hops| && k < |ids| && ids <= ids'
    ensures FileHops(m, route, ids, k) == FileHops(m, route, ids', k)
  {
    if k > 0 { FileHopsPrefix(m, route, ids, ids', k - 1); }
  }
}
