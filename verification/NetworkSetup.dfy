/** Establishing a route adds one machine in its initial state and leaves the others alone. */
module NetworkSetup {
  import opened Routing
  import opened RouteGroups
  import opened Routers
  import opened Setup
  import opened SetupProofs
  import opened SetupNode
  import opened FreshIds
  import opened RouteMachine
  import opened Network
  import opened NetworkProofs

  // ---- the new route's places ----

  ghost function Extended(net: Net, bi: BiRoute): seq<Installed>
    requires CanEstablish(net, bi)
  {
    net.routes + [NewRoute(net, bi)]
  }

  /** The position of a place of the new route among all its visits. */
  ghost function VisitNo(bi: BiRoute, p: Spot): nat
  {
    if p.s.Init? then p.i else |Visits(bi.forward)| + p.i
  }

  lemma NewSpot(net: Net, bi: BiRoute, p: Spot)
    requires CanEstablish(net, bi) && p.k == |net.routes| && IsSpot(Extended(net, bi), p)
    ensures VisitNo(bi, p) < |BiVisits(bi)| && VisorOf(Extended(net, bi), p) == BiVisits(bi)[VisitNo(bi, p)]
    ensures IdOf(Extended(net, bi), p) == BiIds(Counters(net.visors), bi)[VisitNo(bi, p)]
  {
    hide CanGrant, Reserved;
  }

  /** Its IDs are new at their visors and different from each other. */
  lemma NewIds(net: Net, bi: BiRoute, p: Spot, q: Spot)
    requires CanEstablish(net, bi) && p.k == |net.routes| && IsSpot(Extended(net, bi), p)
    requires q.k == |net.routes| && IsSpot(Extended(net, bi), q)
    requires VisorOf(Extended(net, bi), p) == VisorOf(Extended(net, bi), q)
    ensures var v, id := VisorOf(Extended(net, bi), p), IdOf(Extended(net, bi), p);
            v in net.visors && net.visors[v].next < id <= net.visors[v].next + Count(BiVisits(bi), v)
    ensures p != q ==> IdOf(Extended(net, bi), p) != IdOf(Extended(net, bi), q)
  {
    hide BiVisits, BiIds, Count, CanGrant, Extended, VisorOf, IdOf, VisitNo, Visits;
    NewSpot(net, bi, p);
    NewSpot(net, bi, q);
    NumbersApart(net, bi, p, q);
    IssuedApart(Counters(net.visors), bi, VisitNo(bi, p), VisitNo(bi, q));
  }

  lemma NumbersApart(net: Net, bi: BiRoute, p: Spot, q: Spot)
    requires CanEstablish(net, bi) && p.k == q.k == |net.routes|
    requires IsSpot(Extended(net, bi), p) && IsSpot(Extended(net, bi), q)
    ensures p != q ==> VisitNo(bi, p) != VisitNo(bi, q)
  {
    hide CanEstablish, Visits, CanGrant;
    assert Extended(net, bi)[p.k] == NewRoute(net, bi);
    VisitsLength(bi.forward);
  }

  /** Places of earlier routes are what they were. */
  lemma OldSpot(net: Net, bi: BiRoute, p: Spot)
    requires CanEstablish(net, bi) && p.k < |net.routes|
    ensures IsSpot(Extended(net, bi), p) <==> IsSpot(net.routes, p)
    ensures IsHop(Extended(net, bi), p) <==> IsHop(net.routes, p)
    ensures IsSpot(net.routes, p) ==>
              && VisorOf(Extended(net, bi), p) == VisorOf(net.routes, p)
              && IdOf(Extended(net, bi), p) == IdOf(net.routes, p)
              && RuleOf(Extended(net, bi), p) == RuleOf(net.routes, p)
    ensures IsHop(net.routes, p) ==> LinkOf(Extended(net, bi), p) == LinkOf(net.routes, p)
  {
    assert Extended(net, bi)[p.k] == net.routes[p.k];
  }

  lemma ExtendedApart(net: Net, bi: BiRoute)
    requires NetInv(net) && CanEstablish(net, bi)
    ensures Apart(Extended(net, bi))
  {
    var rs := Extended(net, bi);
    hide VisorsOk, HomesApart, GroupsLinked, GroupsOwned, PacketsOwned, CanEstablish, Extended;
    forall p, q | IsSpot(rs, p) && IsSpot(rs, q) && VisorOf(rs, p) == VisorOf(rs, q) && IdOf(rs, p) == IdOf(rs, q)
      ensures p == q
    {
      SpotsApart(net, bi, p, q);
    }
  }

  lemma SpotsApart(net: Net, bi: BiRoute, p: Spot, q: Spot)
    requires NetInv(net) && CanEstablish(net, bi) && IsSpot(Extended(net, bi), p) && IsSpot(Extended(net, bi), q)
    requires VisorOf(Extended(net, bi), p) == VisorOf(Extended(net, bi), q)
    requires IdOf(Extended(net, bi), p) == IdOf(Extended(net, bi), q)
    ensures p == q
  {
    hide VisorsOk, Laid, HomesApart, GroupsLinked, GroupsOwned, PacketsOwned, RuleOf, VisorOf, IdOf;
    var n := |net.routes|;
    assert |Extended(net, bi)| == n + 1;
    hide CanEstablish, Extended;
    if p.k == n && q.k == n {
      NewIds(net, bi, p, q);
    } else if p.k == n {
      OldIsBelow(net, bi, q, p);
    } else if q.k == n {
      OldIsBelow(net, bi, p, q);
    } else {
      OldSpot(net, bi, p);
      OldSpot(net, bi, q);
    }
  }

  /** An old place never has the visor and ID of a new one. */
  lemma OldIsBelow(net: Net, bi: BiRoute, p: Spot, q: Spot)
    requires RulesOk(net) && CanEstablish(net, bi) && p.k < |net.routes| && IsSpot(net.routes, p)
    requires q.k == |net.routes| && IsSpot(Extended(net, bi), q)
    ensures VisorOf(net.routes, p) == VisorOf(Extended(net, bi), q) ==>
              VisorOf(net.routes, p) in net.visors && IdOf(net.routes, p) < IdOf(Extended(net, bi), q)
    ensures IsSpot(Extended(net, bi), p) && VisorOf(Extended(net, bi), p) == VisorOf(net.routes, p)
    ensures IdOf(Extended(net, bi), p) == IdOf(net.routes, p)
  {
    hide CanEstablish, VisorOf, IdOf, RuleOf;
    NewIds(net, bi, q, q);
    OldSpot(net, bi, p);
  }

  // ---- saving a chain ----

  ghost predicate OnChain(route: Route, ids: seq<RouteID>, k: nat, v: PubKey, id: RouteID)
    requires route.hops != [] && |ids| == |route.hops| + 1 && k <= |ids|
  {
    exists i :: 0 <= i < k && Visits(route.hops)[i] == v && ids[i] == id
  }

  ghost predicate ChainApart(route: Route, ids: seq<RouteID>)
    requires route.hops != [] && |ids| == |route.hops| + 1
  {
    forall i, j :: 0 <= i < j < |ids| && Visits(route.hops)[i] == Visits(route.hops)[j] ==> ids[i] != ids[j]
  }

  /** What saving the first k rules of a chain does: it adds exactly those rules, each under its ID at
      its visor. */
  ghost predicate SavedTo(vs: map<PubKey, Visor>, vs': map<PubKey, Visor>, route: Route, ids: seq<RouteID>, k: nat)
    requires route.hops != [] && |ids| == |route.hops| + 1 && k <= |ids|
  {
    && vs'.Keys == vs.Keys
    && (forall v :: v in vs ==> vs'[v] == vs[v].(rules := vs'[v].rules))
    && (forall v, id :: v in vs && !OnChain(route, ids, k, v, id) ==>
          (id in vs'[v].rules <==> id in vs[v].rules)
          && (id in vs[v].rules ==> vs'[v].rules[id] == vs[v].rules[id]))
    && (forall i :: 0 <= i < k ==>
          var v := Visits(route.hops)[i];
          v in vs && ids[i] in vs'[v].rules && vs'[v].rules[ids[i]] == RuleAt(route, ids, i))
  }

  lemma {:induction false} SaveChainEffect(vs: map<PubKey, Visor>, route: Route, ids: seq<RouteID>, k: nat)
    requires route.hops != [] && |ids| == |route.hops| + 1 && k <= |ids| && KnownPath(vs, route.hops)
    requires ChainApart(route, ids)
    ensures SavedTo(vs, SaveChain(vs, route, ids, k), route, ids, k)
  {
    hide ChainApart, Visits, RuleAt, SavedTo, KnownPath, SaveRule;
    if k == 0 {
      SavedNone(vs, route, ids);
    } else {
      SaveChainEffect(vs, route, ids, k - 1);
      VisitKnown(vs, route, k - 1);
      SaveOneMore(vs, SaveChain(vs, route, ids, k - 1), route, ids, k);
    }
  }

  lemma VisitKnown(vs: map<PubKey, Visor>, route: Route, i: nat)
    requires route.hops != [] && i <= |route.hops| && KnownPath(vs, route.hops)
    ensures i < |Visits(route.hops)| && Visits(route.hops)[i] in vs
  {
    VisitsLength(route.hops);
    assert Visits(route.hops)[i] in Visits(route.hops);
  }

  lemma SavedNone(vs: map<PubKey, Visor>, route: Route, ids: seq<RouteID>)
    requires route.hops != [] && |ids| == |route.hops| + 1
    ensures SavedTo(vs, vs, route, ids, 0)
  {
    hide RuleAt, Visits;
  }

  lemma SaveOneAt(vs: map<PubKey, Visor>, u: PubKey, rule: Rule, v: PubKey, id: RouteID)
    requires u in vs && v in vs
    ensures var vs' := SaveRule(vs, u, rule);
            && v in vs' && vs'[v] == vs[v].(rules := vs'[v].rules)
            && (id in vs'[v].rules <==> id in vs[v].rules || (v == u && id == rule.key))
            && (id in vs'[v].rules ==> vs'[v].rules[id] == if v == u && id == rule.key then rule else vs[v].rules[id])
  {
  }

  lemma SaveOneMore(vs: map<PubKey, Visor>, vs1: map<PubKey, Visor>, route: Route, ids: seq<RouteID>, k: nat)
    requires route.hops != [] && |ids| == |route.hops| + 1 && 0 < k <= |ids| && ChainApart(route, ids)
    requires SavedTo(vs, vs1, route, ids, k - 1) && Visits(route.hops)[k - 1] in vs
    ensures Visits(route.hops)[k - 1] in vs1
    ensures SavedTo(vs, SaveRule(vs1, Visits(route.hops)[k - 1], RuleAt(route, ids, k - 1)), route, ids, k)
  {
    VisitsLength(route.hops);
    var u, rule := Visits(route.hops)[k - 1], RuleAt(route, ids, k - 1);
    SavedFrame(vs, vs1, route, ids, k - 1);
    var vs' := SaveRule(vs1, u, rule);
    assert vs'.Keys == vs1.Keys;
    hide RuleAt, Visits, SaveRule, OnChain, SavedTo, ChainApart;
    forall v | v in vs ensures vs'[v] == vs[v].(rules := vs'[v].rules) { SaveOneAt(vs1, u, rule, v, rule.key); }
    forall v, id | v in vs && !OnChain(route, ids, k, v, id)
      ensures (id in vs'[v].rules <==> id in vs[v].rules) && (id in vs[v].rules ==> vs'[v].rules[id] == vs[v].rules[id])
    {
      SavedOff(vs, vs1, route, ids, k, v, id);
    }
    forall i | 0 <= i < k
      ensures var v := Visits(route.hops)[i];
              v in vs && ids[i] in vs'[v].rules && vs'[v].rules[ids[i]] == RuleAt(route, ids, i)
    {
      SavedOn(vs, vs1, route, ids, k, i);
    }
    SavedParts(vs, vs', route, ids, k);
  }

  lemma SavedFrame(vs: map<PubKey, Visor>, vs': map<PubKey, Visor>, route: Route, ids: seq<RouteID>, k: nat)
    requires route.hops != [] && |ids| == |route.hops| + 1 && k <= |ids| && SavedTo(vs, vs', route, ids, k)
    ensures vs'.Keys == vs.Keys && forall v :: v in vs ==> vs'[v] == vs[v].(rules := vs'[v].rules)
  {
    hide OnChain, RuleAt, Visits;
  }

  lemma SavedParts(vs: map<PubKey, Visor>, vs': map<PubKey, Visor>, route: Route, ids: seq<RouteID>, k: nat)
    requires route.hops != [] && |ids| == |route.hops| + 1 && k <= |ids| && |Visits(route.hops)| == |ids|
    requires vs'.Keys == vs.Keys && forall v :: v in vs ==> vs'[v] == vs[v].(rules := vs'[v].rules)
    requires forall v, id :: v in vs && !OnChain(route, ids, k, v, id) ==>
      (id in vs'[v].rules <==> id in vs[v].rules) && (id in vs[v].rules ==> vs'[v].rules[id] == vs[v].rules[id])
    requires forall i :: 0 <= i < k ==>
      var v := Visits(route.hops)[i];
      v in vs && ids[i] in vs'[v].rules && vs'[v].rules[ids[i]] == RuleAt(route, ids, i)
    ensures SavedTo(vs, vs', route, ids, k)
  {
    hide OnChain, RuleAt, Visits;
  }

  /** Off the longer chain nothing changes. */
  lemma SavedOff(vs: map<PubKey, Visor>, vs1: map<PubKey, Visor>, route: Route, ids: seq<RouteID>, k: nat,
                 v: PubKey, id: RouteID)
    requires route.hops != [] && |ids| == |route.hops| + 1 && 0 < k <= |ids| && |Visits(route.hops)| == |ids|
    requires SavedTo(vs, vs1, route, ids, k - 1) && Visits(route.hops)[k - 1] in vs1
    requires v in vs && !OnChain(route, ids, k, v, id)
    ensures var vs' := SaveRule(vs1, Visits(route.hops)[k - 1], RuleAt(route, ids, k - 1));
            && v in vs' && (id in vs'[v].rules <==> id in vs[v].rules)
            && (id in vs[v].rules ==> vs'[v].rules[id] == vs[v].rules[id])
  {
    var u, rule := Visits(route.hops)[k - 1], RuleAt(route, ids, k - 1);
    assert rule.key == ids[k - 1];
    hide RuleAt, Visits, SaveRule;
    assert !OnChain(route, ids, k - 1, v, id) && !(v == u && id == rule.key);
    hide OnChain;
    SaveOneAt(vs1, u, rule, v, id);
  }

  /** On it every rule is there, the last one included. */
  lemma SavedOn(vs: map<PubKey, Visor>, vs1: map<PubKey, Visor>, route: Route, ids: seq<RouteID>, k: nat, i: nat)
    requires route.hops != [] && |ids| == |route.hops| + 1 && 0 < k <= |ids| && |Visits(route.hops)| == |ids| && i < k
    requires ChainApart(route, ids) && SavedTo(vs, vs1, route, ids, k - 1) && Visits(route.hops)[k - 1] in vs
    ensures Visits(route.hops)[k - 1] in vs1
    ensures var vs' := SaveRule(vs1, Visits(route.hops)[k - 1], RuleAt(route, ids, k - 1));
            var v := Visits(route.hops)[i];
            v in vs && v in vs' && ids[i] in vs'[v].rules && vs'[v].rules[ids[i]] == RuleAt(route, ids, i)
  {
    var u, rule := Visits(route.hops)[k - 1], RuleAt(route, ids, k - 1);
    assert rule.key == ids[k - 1];
    SavedFrame(vs, vs1, route, ids, k - 1);
    hide RuleAt, Visits, SaveRule, OnChain;
    if i < k - 1 {
      SavedAt(vs, vs1, route, ids, k - 1, i);
      assert Visits(route.hops)[i] == u ==> ids[i] != rule.key;
    }
    hide SavedTo, ChainApart;
    SaveOneAt(vs1, u, rule, Visits(route.hops)[i], ids[i]);
  }

  lemma SavedAt(vs: map<PubKey, Visor>, vs': map<PubKey, Visor>, route: Route, ids: seq<RouteID>, k: nat, i: nat)
    requires route.hops != [] && |ids| == |route.hops| + 1 && k <= |ids| && SavedTo(vs, vs', route, ids, k) && i < k
    ensures i < |Visits(route.hops)|
    ensures var v := Visits(route.hops)[i];
            v in vs && v in vs' && ids[i] in vs'[v].rules && vs'[v].rules[ids[i]] == RuleAt(route, ids, i)
  {
    VisitsLength(route.hops);
    hide OnChain, RuleAt, Visits;
  }

  lemma NewChainApart(net: Net, bi: BiRoute, s: Side)
    requires CanEstablish(net, bi)
    ensures var x := NewRoute(net, bi); x.Shaped() && ChainApart(x.Dir(s), x.Ids(s))
  {
    var x, k := NewRoute(net, bi), |net.routes|;
    var vs, ids := Visits(x.Hops(s)), x.Ids(s);
    hide CanEstablish, CanGrant, NewRoute;
    forall i, j | 0 <= i < j < |ids| && vs[i] == vs[j] ensures ids[i] != ids[j] {
      var p, q := Spot(k, s, i), Spot(k, s, j);
      assert Extended(net, bi)[k] == x;
      NewIds(net, bi, p, q);
    }
  }

  // ---- the equipped network ----

  /** The tables after the two chains are saved. */
  ghost function Saved(net: Net, bi: BiRoute): map<PubKey, Visor>
    requires CanEstablish(net, bi)
  {
    VisitsKnown(net, bi);
    var x, vs := NewRoute(net, bi), Advance(net.visors, bi);
    SaveChain(SaveChain(vs, x.Dir(Init), x.f, |x.f|), x.Dir(Resp), x.r, |x.r|)
  }

  lemma AdvanceKnows(net: Net, bi: BiRoute)
    requires KnownPath(net.visors, bi.forward) && KnownPath(net.visors, bi.reverse)
    ensures KnownPath(Advance(net.visors, bi), bi.forward) && KnownPath(Advance(net.visors, bi), bi.reverse)
  {
  }

  lemma KnownStays(vs: map<PubKey, Visor>, vs': map<PubKey, Visor>, hops: seq<Hop>)
    requires KnownPath(vs, hops) && vs'.Keys == vs.Keys
    ensures KnownPath(vs', hops)
  {
  }

  /** Saving changes only tables and counters. */
  lemma SavedShape(net: Net, bi: BiRoute)
    requires CanEstablish(net, bi)
    ensures Saved(net, bi).Keys == net.visors.Keys
    ensures forall v :: v in net.visors ==>
      Saved(net, bi)[v] == net.visors[v].(rules := Saved(net, bi)[v].rules,
                                          next := net.visors[v].next + Count(BiVisits(bi), v))
  {
    hide ChainApart, NewRoute, CanEstablish, Visits, Count, BiVisits, SaveChain, OnChain, RuleAt, KnownPath;
    VisitsKnown(net, bi);
    NewChainApart(net, bi, Init);
    NewChainApart(net, bi, Resp);
    var x, vs := NewRoute(net, bi), Advance(net.visors, bi);
    AdvanceKnows(net, bi);
    KnownStays(vs, SaveChain(vs, x.Dir(Init), x.f, |x.f|), bi.reverse);
    SaveChainEffect(vs, x.Dir(Init), x.f, |x.f|);
    SaveChainEffect(SaveChain(vs, x.Dir(Init), x.f, |x.f|), x.Dir(Resp), x.r, |x.r|);
  }

  /** A place that is on neither new chain keeps what it had. */
  lemma SavedElsewhere(net: Net, bi: BiRoute, v: PubKey, id: RouteID)
    requires CanEstablish(net, bi) && v in net.visors
    requires forall p: Spot :: p.k == |net.routes| && IsSpot(Extended(net, bi), p) ==>
      !(VisorOf(Extended(net, bi), p) == v && IdOf(Extended(net, bi), p) == id)
    ensures v in Saved(net, bi) && (id in Saved(net, bi)[v].rules <==> id in net.visors[v].rules)
    ensures id in net.visors[v].rules ==> Saved(net, bi)[v].rules[id] == net.visors[v].rules[id]
  {
    SavedShape(net, bi);
    VisitsKnown(net, bi);
    NewChainApart(net, bi, Init);
    NewChainApart(net, bi, Resp);
    OffChain(net, bi, Init, v, id);
    OffChain(net, bi, Resp, v, id);
    var x, vs := NewRoute(net, bi), Advance(net.visors, bi);
    hide ChainApart, NewRoute, CanEstablish, Visits, Count, BiVisits, SaveChain, OnChain, RuleAt, VisorOf, IdOf, IsSpot;
    SaveChainEffect(vs, x.Dir(Init), x.f, |x.f|);
    SaveChainEffect(SaveChain(vs, x.Dir(Init), x.f, |x.f|), x.Dir(Resp), x.r, |x.r|);
  }

  lemma OffChain(net: Net, bi: BiRoute, s: Side, v: PubKey, id: RouteID)
    requires CanEstablish(net, bi)
    requires forall p: Spot :: p.k == |net.routes| && p.s == s && IsSpot(Extended(net, bi), p) ==>
      !(VisorOf(Extended(net, bi), p) == v && IdOf(Extended(net, bi), p) == id)
    ensures var x := NewRoute(net, bi); x.Shaped() && !OnChain(x.Dir(s), x.Ids(s), |x.Ids(s)|, v, id)
  {
    var x, k := NewRoute(net, bi), |net.routes|;
    hide CanEstablish, CanGrant, NewRoute;
    var rs, ids := Extended(net, bi), x.Ids(s);
    assert rs[k] == x;
    forall i | 0 <= i < |ids| ensures !(Visits(x.Hops(s))[i] == v && ids[i] == id) {
      var p := Spot(k, s, i);
      assert IsSpot(rs, p) && VisorOf(rs, p) == Visits(x.Hops(s))[i] && IdOf(rs, p) == ids[i];
    }
  }

  /** Every place of the new route holds its rule. */
  lemma SavedHere(net: Net, bi: BiRoute, p: Spot)
    requires CanEstablish(net, bi) && p.k == |net.routes| && IsSpot(Extended(net, bi), p)
    ensures var v, id := VisorOf(Extended(net, bi), p), IdOf(Extended(net, bi), p);
            && v in net.visors && v in Saved(net, bi) && id in Saved(net, bi)[v].rules
            && Saved(net, bi)[v].rules[id] == RuleOf(Extended(net, bi), p)
  {
    hide ChainApart, NewRoute, CanEstablish, Count, BiVisits, SaveChain, OnChain, RuleAt, KnownPath, Visits;
    SavedShape(net, bi);
    NewIds(net, bi, p, p);
    VisitsKnown(net, bi);
    NewChainApart(net, bi, Init);
    NewChainApart(net, bi, Resp);
    var x, vs := NewRoute(net, bi), Advance(net.visors, bi);
    AdvanceKnows(net, bi);
    var vs1 := SaveChain(vs, x.Dir(Init), x.f, |x.f|);
    KnownStays(vs, vs1, bi.reverse);
    assert Extended(net, bi)[p.k] == x;
    SaveChainEffect(vs, x.Dir(Init), x.f, |x.f|);
    SaveChainEffect(vs1, x.Dir(Resp), x.r, |x.r|);
    if p.s.Init? { OffOther(net, bi, p); }
  }

  lemma OffOther(net: Net, bi: BiRoute, p: Spot)
    requires CanEstablish(net, bi) && p.k == |net.routes| && p.s == Init && IsSpot(Extended(net, bi), p)
    ensures var x := NewRoute(net, bi);
            !OnChain(x.Dir(Resp), x.r, |x.r|, VisorOf(Extended(net, bi), p), IdOf(Extended(net, bi), p))
  {
    var rs := Extended(net, bi);
    hide CanEstablish, VisorOf, IdOf, NewRoute;
    forall q: Spot | q.k == |net.routes| && q.s == Resp && IsSpot(rs, q)
      ensures !(VisorOf(rs, q) == VisorOf(rs, p) && IdOf(rs, q) == IdOf(rs, p))
    {
      if VisorOf(rs, q) == VisorOf(rs, p) { NewIds(net, bi, p, q); }
    }
    OffChain(net, bi, Resp, VisorOf(rs, p), IdOf(rs, p));
  }

  ghost predicate NewEnd(x: Installed, s: Side, v: PubKey, d: Desc) { x.HomeOf(s) == v && x.DescOf(s) == d }

  /** From vs to vs' only the two groups of x are added. */
  ghost predicate StartsOnly(vs: map<PubKey, Visor>, vs': map<PubKey, Visor>, x: Installed)
  {
    && vs'.Keys == vs.Keys
    && (forall v :: v in vs ==> vs'[v].rules == vs[v].rules && vs'[v].next == vs[v].next)
    && (forall v, d :: v in vs && !NewEnd(x, Init, v, d) && !NewEnd(x, Resp, v, d) ==> SameGroup(vs, vs', v, d))
    && StartedAt(vs', x, Init) && StartedAt(vs', x, Resp)
  }

  /** From vs to vs' only the group under (v, d) is added. */
  ghost predicate StartsOne(vs: map<PubKey, Visor>, vs': map<PubKey, Visor>, v: PubKey, d: Desc)
  {
    && vs'.Keys == vs.Keys
    && (forall u :: u in vs ==> vs'[u].rules == vs[u].rules && vs'[u].next == vs[u].next)
    && (forall u, c :: u in vs && !(u == v && c == d) ==> SameGroup(vs, vs', u, c))
  }

  lemma StartGroupEffect(vs: map<PubKey, Visor>, v: PubKey, d: Desc, fwd: Rule)
    requires v in vs
    ensures StartsOne(vs, StartGroup(vs, v, d, fwd), v, d)
    ensures var w := StartGroup(vs, v, d, fwd)[v];
            d in w.running && d in w.groups && w.groups[d] == Endpoint(FreshGroup, fwd)
  {
  }

  lemma EndsDiffer(x: Installed)
    requires x.Shaped()
    ensures !(x.HomeOf(Init) == x.HomeOf(Resp) && x.DescOf(Init) == x.DescOf(Resp))
  {
    hide Contiguous;
  }

  lemma StartedStays(vs: map<PubKey, Visor>, vs': map<PubKey, Visor>, x: Installed)
    requires x.Shaped() && StartedAt(vs, x, Init) && StartsOne(vs, vs', x.HomeOf(Resp), x.DescOf(Resp))
    ensures StartedAt(vs', x, Init)
  {
    EndsDiffer(x);
    hide RuleAt;
    assert SameGroup(vs, vs', x.HomeOf(Init), x.DescOf(Init));
  }

  lemma StartsTwo(vs: map<PubKey, Visor>, vs1: map<PubKey, Visor>, vs2: map<PubKey, Visor>, x: Installed)
    requires x.Shaped()
    requires StartsOne(vs, vs1, x.HomeOf(Init), x.DescOf(Init)) && StartsOne(vs1, vs2, x.HomeOf(Resp), x.DescOf(Resp))
    requires StartedAt(vs1, x, Init) && StartedAt(vs2, x, Resp)
    ensures StartsOnly(vs, vs2, x)
  {
    StartedStays(vs1, vs2, x);
    StartsKeep(vs, vs1, x.HomeOf(Init), x.DescOf(Init));
    StartsKeep(vs1, vs2, x.HomeOf(Resp), x.DescOf(Resp));
    hide RuleAt, StartedAt, StartsOne;
    forall v, d | v in vs && !NewEnd(x, Init, v, d) && !NewEnd(x, Resp, v, d)
      ensures SameGroup(vs, vs2, v, d)
    {
      StartsElsewhere(vs, vs1, x.HomeOf(Init), x.DescOf(Init), v, d);
      StartsElsewhere(vs1, vs2, x.HomeOf(Resp), x.DescOf(Resp), v, d);
    }
  }

  ghost predicate SameGroup(vs: map<PubKey, Visor>, vs': map<PubKey, Visor>, v: PubKey, d: Desc)
    requires v in vs
  {
    && v in vs'
    && (d in vs'[v].groups <==> d in vs[v].groups)
    && (d in vs'[v].running <==> d in vs[v].running)
    && (d in vs[v].groups ==> vs'[v].groups[d] == vs[v].groups[d])
  }

  lemma StartsKeep(vs: map<PubKey, Visor>, vs': map<PubKey, Visor>, v: PubKey, d: Desc)
    requires StartsOne(vs, vs', v, d)
    ensures vs'.Keys == vs.Keys
    ensures forall u :: u in vs ==> vs'[u].rules == vs[u].rules && vs'[u].next == vs[u].next
  {
  }

  lemma StartsElsewhere(vs: map<PubKey, Visor>, vs': map<PubKey, Visor>, v: PubKey, d: Desc, u: PubKey, c: Desc)
    requires StartsOne(vs, vs', v, d) && u in vs && !(u == v && c == d)
    ensures SameGroup(vs, vs', u, c)
  {
  }

  lemma Equipped(vs: map<PubKey, Visor>, x: Installed)
    requires x.Shaped() && KnownPath(vs, x.bi.forward) && KnownPath(vs, x.bi.reverse)
    requires x.bi.desc.srcPK in vs && x.bi.desc.dstPK in vs
    ensures StartsOnly(SaveChain(SaveChain(vs, x.Dir(Init), x.f, |x.f|), x.Dir(Resp), x.r, |x.r|), Equip(vs, x), x)
  {
    KnownStays(vs, SaveChain(vs, x.Dir(Init), x.f, |x.f|), x.bi.reverse);
    hide SaveChain, Visits, RuleAt, KnownPath, StartGroup, StartsOne, StartsOnly;
    var vs2 := SaveChain(SaveChain(vs, x.Dir(Init), x.f, |x.f|), x.Dir(Resp), x.r, |x.r|);
    var f0, r0 := RuleAt(x.Dir(Init), x.f, 0), RuleAt(x.Dir(Resp), x.r, 0);
    var vs3 := StartGroup(vs2, x.HomeOf(Init), x.DescOf(Init), f0);
    StartGroupEffect(vs2, x.HomeOf(Init), x.DescOf(Init), f0);
    StartsKeep(vs2, vs3, x.HomeOf(Init), x.DescOf(Init));
    StartGroupEffect(vs3, x.HomeOf(Resp), x.DescOf(Resp), r0);
    var vs4 := StartGroup(vs3, x.HomeOf(Resp), x.DescOf(Resp), r0);
    StartsKeep(vs3, vs4, x.HomeOf(Resp), x.DescOf(Resp));
    StartsTwo(vs2, vs3, vs4, x);
  }

  lemma EstablishedVisors(net: Net, bi: BiRoute)
    requires CanEstablish(net, bi)
    ensures StartsOnly(Saved(net, bi), EstablishNet(net, bi).visors, NewRoute(net, bi))
    ensures EstablishNet(net, bi) == net.(visors := EstablishNet(net, bi).visors, routes := Extended(net, bi))
  {
    VisitsKnown(net, bi);
    AdvanceKnows(net, bi);
    hide SaveChain, Visits, RuleAt, KnownPath, StartsOnly, Equip, NewRoute, CanGrant;
    Equipped(Advance(net.visors, bi), NewRoute(net, bi));
  }

  ghost predicate StartedAt(vs: map<PubKey, Visor>, x: Installed, s: Side)
  {
    && x.Shaped() && x.HomeOf(s) in vs
    && var w := vs[x.HomeOf(s)];
       && x.DescOf(s) in w.running && x.DescOf(s) in w.groups
       && w.groups[x.DescOf(s)] == Endpoint(FreshGroup, RuleAt(x.Dir(s), x.Ids(s), 0))
  }

  // ---- the establish theorem ----

  /** What does not change, and the routes. */
  lemma EstablishFrame(net: Net, bi: BiRoute)
    requires CanEstablish(net, bi)
    ensures var net', rs, n := EstablishNet(net, bi), Extended(net, bi), |net.routes|;
            && net'.routes == rs && |rs| == n + 1 && rs[n] == NewRoute(net, bi) && rs[..n] == net.routes
            && net'.peer == net.peer && (forall l :: net'.Queue(l) == net.Queue(l))
            && net'.visors.Keys == net.visors.Keys
  {
    hide CanEstablish, NewRoute;
    EstablishedVisors(net, bi);
    SavedShape(net, bi);
    hide EstablishNet, Saved, Count, BiVisits;
  }

  /** Tables of the established network at any place of any route. */
  lemma EstablishedRules(net: Net, bi: BiRoute, p: Spot)
    requires NetInv(net) && CanEstablish(net, bi) && IsSpot(Extended(net, bi), p)
    ensures var net', rs := EstablishNet(net, bi), Extended(net, bi);
            var v, id := VisorOf(rs, p), IdOf(rs, p);
            && v in net'.visors && id <= net'.visors[v].next
            && (id in net'.visors[v].rules ==> net'.visors[v].rules[id] == RuleOf(rs, p))
            && (p.k == |net.routes| ==> id in net'.visors[v].rules)
            && (p.k < |net.routes| ==>
                  v in net.visors && (id in net'.visors[v].rules <==> id in net.visors[v].rules))
  {
    hide VisorOf, IdOf, RuleOf, CanEstablish, NewRoute, HomesApart, GroupsLinked, GroupsOwned, PacketsOwned;
    hide VisorsOk, Apart;
    var rs := Extended(net, bi);
    var v, id := VisorOf(rs, p), IdOf(rs, p);
    EstablishedVisors(net, bi);
    SavedShape(net, bi);
    if p.k == |net.routes| {
      SavedHere(net, bi, p);
      NewIds(net, bi, p, p);
    } else {
      OldSpot(net, bi, p);
      OldVisorKnown(net, p);
      forall q: Spot | q.k == |net.routes| && IsSpot(rs, q) ensures !(VisorOf(rs, q) == v && IdOf(rs, q) == id) {
        OldIsBelow(net, bi, p, q);
      }
      SavedElsewhere(net, bi, v, id);
    }
  }

  lemma OldVisorKnown(net: Net, p: Spot)
    requires Laid(net) && IsSpot(net.routes, p)
    ensures VisorOf(net.routes, p) in net.visors
  {
    assert VisorOf(net.routes, p) in Visits(net.routes[p.k].Hops(p.s));
  }

  lemma NewRouteWired(net: Net, bi: BiRoute)
    requires CanEstablish(net, bi)
    ensures Wired(net.peer, bi.forward) && Wired(net.peer, bi.reverse)
  {
    hide CanGrant, Contiguous, Wired;
  }

  lemma EstablishLaid(net: Net, bi: BiRoute)
    requires Laid(net) && CanEstablish(net, bi)
    ensures Laid(EstablishNet(net, bi)) && EstablishNet(net, bi).routes == Extended(net, bi)
  {
    hide CanEstablish, NewRoute, EstablishNet, Extended, Visits;
    var net', rs, n := EstablishNet(net, bi), Extended(net, bi), |net.routes|;
    EstablishFrame(net, bi);
    VisitsKnown(net, bi);
    NewRouteWired(net, bi);
    forall k | 0 <= k < |rs|
      ensures && rs[k].Shaped() && Wired(net'.peer, rs[k].bi.forward) && Wired(net'.peer, rs[k].bi.reverse)
              && KnownPath(net'.visors, rs[k].bi.forward) && KnownPath(net'.visors, rs[k].bi.reverse)
    {
      if k < n { assert rs[k] == rs[..n][k] == net.routes[k]; }
    }
  }

  lemma EstablishRules(net: Net, bi: BiRoute)
    requires NetInv(net) && CanEstablish(net, bi)
    ensures RulesOk(EstablishNet(net, bi))
  {
    hide HomesApart, GroupsLinked, GroupsOwned, PacketsOwned, VisorsOk, Apart, EstablishNet, CanEstablish;
    hide VisorOf, IdOf;
    hide RuleOf, IsSpot, Laid, Extended;
    EstablishLaid(net, bi);
    var net', rs := EstablishNet(net, bi), Extended(net, bi);
    forall p | IsSpot(rs, p) && VisorOf(rs, p) in net'.visors
      ensures var v := net'.visors[VisorOf(rs, p)];
              IdOf(rs, p) <= v.next && (IdOf(rs, p) in v.rules ==> v.rules[IdOf(rs, p)] == RuleOf(rs, p))
    {
      EstablishedRules(net, bi, p);
    }
  }

  lemma EstablishedOnlyNew(net: Net, bi: BiRoute)
    requires CanEstablish(net, bi)
    ensures OnlyNew(net, EstablishNet(net, bi), NewRoute(net, bi))
  {
    hide EstablishNet, NewRoute, CanEstablish, RuleAt, Count, BiVisits, Saved;
    EstablishedVisors(net, bi);
    SavedShape(net, bi);
    hide StartedAt;
  }

  lemma EstablishGroups(net: Net, bi: BiRoute)
    requires NetInv(net) && CanEstablish(net, bi)
    ensures var net' := EstablishNet(net, bi);
            VisorsOk(net') && HomesApart(net'.routes) && GroupsLinked(net') && GroupsOwned(net')
  {
    hide PacketsOwned, Apart, RulesOk, Laid, EstablishNet, NewRoute, CanEstablish, Extended, VisorsOk;
    hide HomesApart, GroupsLinked;
    hide GroupsOwned, RuleAt, OnlyNew;
    var net', x, n := EstablishNet(net, bi), NewRoute(net, bi), |net.routes|;
    EstablishFrame(net, bi);
    assert net'.routes == net.routes + [x] by { assert net'.routes == net'.routes[..n] + [net'.routes[n]]; }
    NewEndsFree(net, bi);
    HomesStayApart(net, net'.routes, x);
    EstablishedOnlyNew(net, bi);
    GroupsStayLinked(net, net', x);
    GroupsStayOwned(net, net', x);
    VisorsStayOk(net, net', x);
  }

  /** Neither end of the new route was in use. */
  lemma NewEndsFree(net: Net, bi: BiRoute)
    requires CanEstablish(net, bi)
    ensures var x := NewRoute(net, bi);
            && x.Shaped()
            && forall s: Side :: x.HomeOf(s) in net.visors && x.DescOf(s) !in net.visors[x.HomeOf(s)].groups
  {
    hide CanGrant, Contiguous, Wired;
  }

  lemma HomesStayApart(net: Net, rs: seq<Installed>, x: Installed)
    requires HomesApart(net.routes) && GroupsLinked(net) && rs == net.routes + [x] && x.Shaped()
    requires forall s: Side :: x.HomeOf(s) in net.visors && x.DescOf(s) !in net.visors[x.HomeOf(s)].groups
    ensures HomesApart(rs)
  {
    var n := |net.routes|;
    hide RuleOf;
    EndsDiffer(x);
    forall k, s, k', s' | 0 <= k < |rs| && 0 <= k' < |rs|
      && rs[k].HomeOf(s) == rs[k'].HomeOf(s') && rs[k].DescOf(s) == rs[k'].DescOf(s')
      ensures k == k' && s == s'
    {
      if k < n { assert HasGroup(net, k, s); }
      if k' < n { assert HasGroup(net, k', s'); }
    }
  }

  /** Only the groups of x are new from net to net'. */
  ghost predicate OnlyNew(net: Net, net': Net, x: Installed)
  {
    && net'.routes == net.routes + [x] && x.Shaped() && net'.visors.Keys == net.visors.Keys
    && StartedAt(net'.visors, x, Init) && StartedAt(net'.visors, x, Resp)
    && forall v, d :: v in net.visors && !NewEnd(x, Init, v, d) && !NewEnd(x, Resp, v, d) ==>
         SameGroup(net.visors, net'.visors, v, d)
  }

  lemma GroupsStayLinked(net: Net, net': Net, x: Installed)
    requires GroupsLinked(net) && OnlyNew(net, net', x)
    requires forall s: Side :: x.HomeOf(s) in net.visors && x.DescOf(s) !in net.visors[x.HomeOf(s)].groups
    ensures GroupsLinked(net')
  {
    var n, rs := |net.routes|, net'.routes;
    assert rs[n] == x;
    hide RuleAt;
    forall k, s | 0 <= k < |rs|
      ensures HasGroup(net', k, s)
      ensures rs[k].Shaped() ==> net'.visors[rs[k].HomeOf(s)].groups[rs[k].DescOf(s)].fwd == RuleOf(rs, Spot(k, s, 0))
    {
      if k < n {
        assert rs[k] == net.routes[k] && HasGroup(net, k, s);
        assert SameGroup(net.visors, net'.visors, rs[k].HomeOf(s), rs[k].DescOf(s));
      }
    }
  }

  lemma GroupsStayOwned(net: Net, net': Net, x: Installed)
    requires GroupsOwned(net) && OnlyNew(net, net', x)
    ensures GroupsOwned(net')
  {
    var n := |net.routes|;
    hide RuleAt;
    forall v, d | v in net'.visors && d in net'.visors[v].groups ensures exists k, s :: Owner(net', v, d, k, s) {
      if NewEnd(x, Init, v, d) {
        assert Owner(net', v, d, n, Init);
      } else if NewEnd(x, Resp, v, d) {
        assert Owner(net', v, d, n, Resp);
      } else {
        var k, s :| Owner(net, v, d, k, s);
        assert Owner(net', v, d, k, s);
      }
    }
  }

  lemma VisorsStayOk(net: Net, net': Net, x: Installed)
    requires VisorsOk(net) && OnlyNew(net, net', x)
    ensures VisorsOk(net')
  {
    assert x.Dir(Init).hops != [] && x.Dir(Resp).hops != [];
    forall v | v in net'.visors ensures GroupsOk(net'.visors[v]) {
      assert GroupsOk(net.visors[v]);
      forall d | d in net'.visors[v].groups ensures net'.visors[v].groups[d].fwd.Forward? {
        if !NewEnd(x, Init, v, d) && !NewEnd(x, Resp, v, d) {
          assert SameGroup(net.visors, net'.visors, v, d);
          assert d in net.visors[v].groups;
        }
      }
      forall d | d in net'.visors[v].running ensures d in net'.visors[v].groups {
        if !NewEnd(x, Init, v, d) && !NewEnd(x, Resp, v, d) {
          assert SameGroup(net.visors, net'.visors, v, d);
        }
      }
    }
  }

  lemma StillOwned(net: Net, bi: BiRoute, l: Link, id: RouteID)
    requires CanEstablish(net, bi) && Owned(net.routes, l, id)
    ensures Owned(Extended(net, bi), l, id)
  {
    hide CanEstablish, NewRoute;
    var p :| Carries(net.routes, l, id, p);
    OldSpot(net, bi, p);
    OldSpot(net, bi, After(p));
    assert Carries(Extended(net, bi), l, id, p);
  }

  lemma EstablishPackets(net: Net, bi: BiRoute)
    requires NetInv(net) && CanEstablish(net, bi)
    ensures PacketsOwned(EstablishNet(net, bi))
  {
    hide HomesApart, GroupsLinked, GroupsOwned, VisorsOk, Apart, CanEstablish, Laid, RulesOk, NewRoute, EstablishNet;
    EstablishFrame(net, bi);
    var net', rs := EstablishNet(net, bi), Extended(net, bi);
    hide Extended, VisorOf, IdOf, LinkOf, IsSpot;
    forall l, j | 0 <= j < |net'.Queue(l)| ensures Owned(rs, l, net'.Queue(l)[j].id) {
      assert net'.Queue(l) == net.Queue(l);
      assert Owned(net.routes, l, net.Queue(l)[j].id);
      StillOwned(net, bi, l, net.Queue(l)[j].id);
    }
  }

  /** A route that was there before looks the same. */
  lemma EstablishOthers(net: Net, bi: BiRoute, k: nat)
    requires NetInv(net) && CanEstablish(net, bi) && k < |net.routes|
    ensures var net' := EstablishNet(net, bi);
            && k < |net'.routes| && net'.routes[k] == net.routes[k] && net.routes[k].Shaped()
            && View(net', k) == View(net, k)
  {
    hide CanEstablish, NetInv, NewRoute, EstablishNet, Extended, LaneView, GroupAt, RunningAt;
    EstablishFrame(net, bi);
    OthersLane(net, bi, k, Init);
    OthersLane(net, bi, k, Resp);
    OthersGroup(net, bi, k, Init);
    OthersGroup(net, bi, k, Resp);
  }

  lemma OthersGroup(net: Net, bi: BiRoute, k: nat, s: Side)
    requires NetInv(net) && CanEstablish(net, bi) && k < |net.routes|
    ensures var net' := EstablishNet(net, bi);
            && k < |net'.routes| && GroupAt(net', k, s) == GroupAt(net, k, s)
            && RunningAt(net', k, s) == RunningAt(net, k, s)
  {
    hide HomesApart, GroupsOwned, VisorsOk, Apart, Laid, RulesOk, PacketsOwned, CanEstablish, NewRoute;
    hide EstablishNet, RuleOf;
    EstablishedOnlyNew(net, bi);
    NewEndsFree(net, bi);
    hide StartedAt;
    assert HasGroup(net, k, s);
    var x := NewRoute(net, bi);
    var v, d := net.routes[k].HomeOf(s), net.routes[k].DescOf(s);
    assert EstablishNet(net, bi).routes[k] == net.routes[k];
    assert SameGroup(net.visors, EstablishNet(net, bi).visors, v, d);
  }

  lemma OthersLane(net: Net, bi: BiRoute, k: nat, s: Side)
    requires NetInv(net) && CanEstablish(net, bi) && k < |net.routes|
    ensures var net' := EstablishNet(net, bi);
            && k < |net'.routes| && net.routes[k].Shaped() && net'.routes[k] == net.routes[k]
            && LaneView(net', k, s) == LaneView(net, k, s)
  {
    hide HomesApart, GroupsLinked, GroupsOwned, VisorsOk, Apart, RulesOk, PacketsOwned, CanEstablish, NewRoute;
    hide EstablishNet;
    hide Extended, SegAt, PresentAt;
    ShapedRoute(net, k);
    hide Laid;
    EstablishFrame(net, bi);
    var net', n := EstablishNet(net, bi), |net.routes[k].Hops(s)|;
    assert net'.routes[k] == net'.routes[..|net.routes|][k] == net.routes[k];
    forall i | 0 <= i <= n
      ensures PresentAt(net', Spot(k, s, i)) == PresentAt(net, Spot(k, s, i))
      ensures i < n ==> SegAt(net', Spot(k, s, i)) == SegAt(net, Spot(k, s, i))
    {
      OthersSpot(net, bi, Spot(k, s, i));
    }
  }

  lemma OthersSpot(net: Net, bi: BiRoute, p: Spot)
    requires NetInv(net) && CanEstablish(net, bi) && IsSpot(net.routes, p)
    ensures var net' := EstablishNet(net, bi);
            && IsSpot(net'.routes, p) && PresentAt(net', p) == PresentAt(net, p)
            && (IsHop(net.routes, p) ==> IsHop(net'.routes, p) && SegAt(net', p) == SegAt(net, p))
  {
    hide HomesApart, GroupsLinked, GroupsOwned, VisorsOk, Apart, RulesOk, PacketsOwned, CanEstablish, NewRoute, Bodies;
    hide EstablishNet, Extended, VisorOf, IdOf, RuleOf, LinkOf;
    var net' := EstablishNet(net, bi);
    EstablishFrame(net, bi);
    OldVisorKnown(net, p);
    hide Laid;
    OldSpot(net, bi, p);
    EstablishedRules(net, bi, p);
    if IsHop(net.routes, p) { OldSpot(net, bi, After(p)); }
  }

  /** The new route's machine starts in its initial state. */
  lemma EstablishInitial(net: Net, bi: BiRoute)
    requires NetInv(net) && CanEstablish(net, bi)
    ensures var net', n := EstablishNet(net, bi), |net.routes|;
            n < |net'.routes| && net'.routes[n].Shaped() && Initial(View(net', n))
  {
    hide CanEstablish, NetInv, NewRoute, EstablishNet, Extended, LaneView, RuleAt;
    EstablishFrame(net, bi);
    EstablishedVisors(net, bi);
    var net', n := EstablishNet(net, bi), |net.routes|;
    assert StartedAt(net'.visors, net'.routes[n], Init) && StartedAt(net'.visors, net'.routes[n], Resp);
    hide StartsOnly, FreshLane;
    NewLane(net, bi, Init);
    NewLane(net, bi, Resp);
  }

  lemma NewLane(net: Net, bi: BiRoute, s: Side)
    requires NetInv(net) && CanEstablish(net, bi)
    ensures var net', n := EstablishNet(net, bi), |net.routes|;
            n < |net'.routes| && net'.routes[n].Shaped() && FreshLane(LaneView(net', n, s))
  {
    hide HomesApart, GroupsLinked, GroupsOwned, VisorsOk, Apart, RulesOk, PacketsOwned, CanEstablish, NewRoute;
    hide SegAt, PresentAt;
    hide EstablishNet, Laid, Extended;
    EstablishFrame(net, bi);
    var net', n := EstablishNet(net, bi), |net.routes|;
    var m := |net'.routes[n].Hops(s)|;
    forall i | 0 <= i <= m
      ensures PresentAt(net', Spot(n, s, i))
      ensures i < m ==> SegAt(net', Spot(n, s, i)) == []
    {
      NewPlace(net, bi, Spot(n, s, i));
    }
  }

  lemma NewPlace(net: Net, bi: BiRoute, p: Spot)
    requires NetInv(net) && CanEstablish(net, bi) && p.k == |net.routes| && IsSpot(EstablishNet(net, bi).routes, p)
    ensures PresentAt(EstablishNet(net, bi), p)
    ensures IsHop(EstablishNet(net, bi).routes, p) ==> SegAt(EstablishNet(net, bi), p) == []
  {
    hide HomesApart, GroupsLinked, GroupsOwned, VisorsOk, Apart, RulesOk, CanEstablish, NewRoute, PacketsOwned;
    EstablishLaid(net, bi);
    EstablishedRules(net, bi, p);
    var net' := EstablishNet(net, bi);
    if IsHop(net'.routes, p) {
      var l, id := LinkOf(net'.routes, p), IdOf(net'.routes, After(p));
      EstablishedVisors(net, bi);
      hide EstablishNet, StartsOnly, VisorOf, IdOf, RuleOf;
      assert net'.Queue(l) == net.Queue(l);
      if j :| 0 <= j < |net.Queue(l)| && net.Queue(l)[j].id == id { NoStrayPacket(net, bi, p, j); }
      NothingToSee(net.Queue(l), id);
    }
  }

  /** No packet in flight carries an ID of the new route. */
  lemma NoStrayPacket(net: Net, bi: BiRoute, p: Spot, j: nat)
    requires NetInv(net) && CanEstablish(net, bi) && p.k == |net.routes| && IsHop(Extended(net, bi), p)
    requires j < |net.Queue(LinkOf(Extended(net, bi), p))|
    ensures net.Queue(LinkOf(Extended(net, bi), p))[j].id != IdOf(Extended(net, bi), After(p))
  {
    hide HomesApart, GroupsLinked, GroupsOwned, VisorsOk, Apart, NewRoute, RulesOk, CanGrant, RuleOf;
    var rs := Extended(net, bi);
    var l := LinkOf(rs, p);
    var id := net.Queue(l)[j].id;
    assert Owned(net.routes, l, id);
    var q :| Carries(net.routes, l, id, q);
    HopPeer(net, q);
    SpotFacts(rs, p);
    assert rs[p.k] == NewRoute(net, bi);
    assert Wired(net.peer, rs[p.k].Hops(p.s));
    assert net.peer[l] == VisorOf(rs, After(p));
    hide CanEstablish, Laid, PacketsOwned, VisorOf, IdOf, Extended;
    OldIsBelow(net, bi, After(q), After(p));
  }

  lemma {:induction false} NothingToSee(q: seq<Packet>, id: RouteID)
    requires forall j :: 0 <= j < |q| ==> q[j].id != id
    ensures Bodies(q, id) == []
  {
    if q != [] { NothingToSee(q[1..], id); }
  }
}
