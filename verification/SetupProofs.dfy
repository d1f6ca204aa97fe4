/** What route setup promises: reserved IDs are neither lost nor shared, the edges are told about the
    right groups, and the rules that are handed out are exactly the two chains of the route. */
module SetupProofs {
  import opened Routing
  import opened Setup

  // ---- conservation of reserved IDs ----

  /** The IDs popped on the visits to v, in order. */
  ghost function Picks(vs: seq<PubKey>, popped: seq<RouteID>, v: PubKey): seq<RouteID>
    requires |vs| == |popped|
  {
    if vs == [] then []
    else (if vs[0] == v then [popped[0]] else []) + Picks(vs[1..], popped[1..], v)
  }

  lemma {:induction false} PopConserves(ids: Stacks, vs: seq<PubKey>, v: PubKey)
    requires PopAll(ids, vs).Some?
    ensures var (ids', popped) := PopAll(ids, vs).value;
            Picks(vs, popped, v) + Stack(ids', v) == Stack(ids, v)
    decreases |vs|
  {
    if vs != [] {
      var ids1, id := ids[vs[0] := ids[vs[0]][1..]], ids[vs[0]][0];
      PopConserves(ids1, vs[1..], v);
      var (ids', popped) := PopAll(ids1, vs[1..]).value;
      assert ([id] + popped)[0] == id && ([id] + popped)[1..] == popped;
      hide PopAll, Stack;
      StackFirst(ids, vs[0], v);
      JoinAssoc(if vs[0] == v then [id] else [], Picks(vs[1..], popped, v), Stack(ids', v));
    }
  }

  lemma StackFirst(ids: Stacks, u: PubKey, v: PubKey)
    requires Stack(ids, u) != []
    ensures Stack(ids, v) == (if u == v then [ids[u][0]] else []) + Stack(ids[u := ids[u][1..]], v)
  {
  }

  lemma JoinAssoc(a: seq<RouteID>, b: seq<RouteID>, c: seq<RouteID>)
    ensures a + b + c == a + (b + c)
  {
  }

  lemma {:induction false} PopSucceeds(ids: Stacks, vs: seq<PubKey>)
    ensures PopAll(ids, vs).Some? <==> forall v :: Count(vs, v) <= |Stack(ids, v)|
    decreases |vs|
  {
    if vs != [] {
      assert vs == [vs[0]] + vs[1..];
      assert Count(vs, vs[0]) >= 1;
      if Stack(ids, vs[0]) != [] {
        var ids1 := ids[vs[0] := ids[vs[0]][1..]];
        PopSucceeds(ids1, vs[1..]);
        assert forall v :: Count(vs, v) == Count(vs[1..], v) + if v == vs[0] then 1 else 0;
        assert forall v :: |Stack(ids, v)| == |Stack(ids1, v)| + if v == vs[0] then 1 else 0;
        if forall v :: Count(vs, v) <= |Stack(ids, v)| {
          forall v ensures Count(vs[1..], v) <= |Stack(ids1, v)| {
            assert Count(vs, v) <= |Stack(ids, v)|;
          }
        }
        if PopAll(ids, vs).Some? {
          forall v ensures Count(vs, v) <= |Stack(ids, v)| {
            assert Count(vs[1..], v) <= |Stack(ids1, v)|;
          }
        }
      }
    }
  }

  lemma {:induction false} PopAppend(ids: Stacks, a: seq<PubKey>, b: seq<PubKey>)
    ensures PopAll(ids, a + b) ==
              match PopAll(ids, a)
              case None => None
              case Some((ids1, x)) =>
                match PopAll(ids1, b)
                case None => None
                case Some((ids2, y)) => Some((ids2, x + y))
    decreases |a|
  {
    if a == [] {
      assert a + b == b;
      if PopAll(ids, b).Some? { assert [] + PopAll(ids, b).value.1 == PopAll(ids, b).value.1; }
    } else if Stack(ids, a[0]) != [] {
      assert (a + b)[1..] == a[1..] + b;
      var ids1 := ids[a[0] := ids[a[0]][1..]];
      PopAppend(ids1, a[1..], b);
      if PopAll(ids1, a[1..]).Some? {
        var (ids2, x) := PopAll(ids1, a[1..]).value;
        if PopAll(ids2, b).Some? {
          assert [ids[a[0]][0]] + x + PopAll(ids2, b).value.1 == [ids[a[0]][0]] + (x + PopAll(ids2, b).value.1);
        }
      }
    }
  }

  function BiVisits(bi: BiRoute): seq<PubKey> { Visits(bi.forward) + Visits(bi.reverse) }

  /** The IDs given to the two directions, and what is left of the stacks. */
  function Assign(ids: Stacks, bi: BiRoute): (r: Option<(Stacks, seq<RouteID>, seq<RouteID>)>)
    ensures r.Some? ==> |r.value.1| == |Visits(bi.forward)| && |r.value.2| == |Visits(bi.reverse)|
  {
    match PopAll(ids, Visits(bi.forward))
    case None => None
    case Some((ids1, f)) =>
      match PopAll(ids1, Visits(bi.reverse))
      case None => None
      case Some((ids2, r)) => Some((ids2, f, r))
  }

  function BiRules(bi: BiRoute, f: seq<RouteID>, r: seq<RouteID>): RuleMaps
    requires |f| == |bi.forward| + 1 && |r| == |bi.reverse| + 1
  {
    FileRoute(FileRoute(NoRules, bi.ForwardRoute(), f), bi.ReverseRoute(), r)
  }

  lemma GenerateIsAssign(ids: Stacks, bi: BiRoute)
    requires bi.forward != [] && bi.reverse != []
    ensures var g := Generate(ids, [bi.ForwardRoute(), bi.ReverseRoute()], NoRules);
            && (g.Some? <==> Assign(ids, bi).Some?)
            && (g.Some? ==> var (rest, f, r) := Assign(ids, bi).value; g.value == (rest, BiRules(bi, f, r)))
  {
    var F, R := bi.ForwardRoute(), bi.ReverseRoute();
    assert [F, R][1..] == [R] && [R][1..] == [];
    match PopAll(ids, Visits(bi.forward)) {
      case None =>
      case Some((ids1, f)) =>
        assert Generate(ids, [F, R], NoRules) == Generate(ids1, [R], FileRoute(NoRules, F, f));
    }
  }

  /** Every visor granted as many IDs as its wrapping counter asked for. */
  ghost predicate Granted(ids: Stacks, bi: BiRoute)
  {
    forall v :: |Stack(ids, v)| == Count(BiVisits(bi), v) % 256
  }

  /** Rule generation runs out of IDs exactly when some visor is visited more than 255 times. When it
      does not, every stack ends empty and the keys of the generated rules are, visor by visor and in
      order, exactly the reserved IDs: each is the key of one rule. */
  lemma IDConservation(ids: Stacks, bi: BiRoute)
    requires bi.forward != [] && bi.reverse != [] && Granted(ids, bi)
    ensures Assign(ids, bi).Some? <==> forall v :: Count(BiVisits(bi), v) <= 255
    ensures Assign(ids, bi).Some? ==>
              var (rest, f, r) := Assign(ids, bi).value;
              && (forall v :: Stack(rest, v) == [])
              && (forall v :: Picks(Visits(bi.forward), f, v) + Picks(Visits(bi.reverse), r, v) == Stack(ids, v))
  {
    AssignSucceeds(ids, bi);
    if Assign(ids, bi).Some? {
      var (rest, f, r) := Assign(ids, bi).value;
      forall v
        ensures Stack(rest, v) == []
        ensures Picks(Visits(bi.forward), f, v) + Picks(Visits(bi.reverse), r, v) == Stack(ids, v)
      {
        AssignConserves(ids, bi, v);
      }
    }
  }

  lemma AssignSucceeds(ids: Stacks, bi: BiRoute)
    requires Granted(ids, bi)
    ensures Assign(ids, bi).Some? <==> forall v :: Count(BiVisits(bi), v) <= 255
  {
    hide PopAll, Visits, Count;
    var vs := BiVisits(bi);
    PopAppend(ids, Visits(bi.forward), Visits(bi.reverse));
    PopSucceeds(ids, vs);
    if forall v :: Count(vs, v) <= 255 {
      forall v ensures Count(vs, v) <= |Stack(ids, v)| { assert Count(vs, v) <= 255; }
    }
    if PopAll(ids, vs).Some? {
      forall v ensures Count(vs, v) <= 255 { assert Count(vs, v) <= |Stack(ids, v)|; }
    }
  }

  lemma AssignConserves(ids: Stacks, bi: BiRoute, v: PubKey)
    requires Granted(ids, bi) && Assign(ids, bi).Some?
    ensures var (rest, f, r) := Assign(ids, bi).value;
            && Stack(rest, v) == []
            && Picks(Visits(bi.forward), f, v) + Picks(Visits(bi.reverse), r, v) == Stack(ids, v)
  {
    hide PopAll, Picks, Visits;
    var a, b := Visits(bi.forward), Visits(bi.reverse);
    var (rest, f, r) := Assign(ids, bi).value;
    AssignSucceeds(ids, bi);
    assert Count(BiVisits(bi), v) <= 255;
    PopConserves(ids, a, v);
    PopConserves(PopAll(ids, a).value.0, b, v);
    PicksLength(a, f, v);
    PicksLength(b, r, v);
    CountConcat(a, b, v);
    assert |Stack(ids, v)| == Count(a, v) + Count(b, v);
  }

  lemma CountConcat(a: seq<PubKey>, b: seq<PubKey>, v: PubKey)
    ensures Count(a + b, v) == Count(a, v) + Count(b, v)
  {
  }

  lemma {:induction false} PicksLength(vs: seq<PubKey>, popped: seq<RouteID>, v: PubKey)
    requires |vs| == |popped|
    ensures |Picks(vs, popped, v)| == Count(vs, v)
  {
    if vs != [] {
      assert vs == [vs[0]] + vs[1..];
      PicksLength(vs[1..], popped[1..], v);
    }
  }

  // ---- the total ----

  ghost function Sum(r: map<PubKey, byte>): nat
    decreases |r|
  {
    if r == map[] then 0 else var v :| v in r; r[v] + Sum(r - {v})
  }

  ghost function Without(vs: seq<PubKey>, k: PubKey): seq<PubKey>
  {
    if vs == [] then [] else (if vs[0] == k then [] else [vs[0]]) + Without(vs[1..], k)
  }

  lemma {:induction false} WithoutCount(vs: seq<PubKey>, k: PubKey, v: PubKey)
    ensures Count(Without(vs, k), v) == if v == k then 0 else Count(vs, v)
    ensures |vs| == Count(vs, k) + |Without(vs, k)|
  {
    if vs != [] {
      WithoutCount(vs[1..], k, v);
      assert vs == [vs[0]] + vs[1..];
      CountConcat([vs[0]], vs[1..], v);
      CountConcat([vs[0]], vs[1..], k);
      CountConcat(if vs[0] == k then [] else [vs[0]], Without(vs[1..], k), v);
    }
  }

  /** TotalIDs is the sum of the per-visor counters exactly when no counter has wrapped. */
  lemma {:induction false} TotalIsSum(r: map<PubKey, byte>, vs: seq<PubKey>)
    requires Counts(r, vs)
    ensures Sum(r) <= |vs|
    ensures Sum(r) == |vs| <==> forall v :: Count(vs, v) <= 255
    decreases |r|
  {
    hide Count, Without, Counts;
    if r == map[] {
      NobodyCounted(r, vs);
    } else {
      var k :| k in r && Sum(r) == r[k] + Sum(r - {k});
      CountsWithout(r, vs, k);
      TotalIsSum(r - {k}, Without(vs, k));
    }
  }

  lemma CountsWithout(r: map<PubKey, byte>, vs: seq<PubKey>, k: PubKey)
    requires Counts(r, vs) && k in r
    ensures Counts(r - {k}, Without(vs, k)) && |vs| == Count(vs, k) + |Without(vs, k)|
    ensures r[k] <= Count(vs, k) && (r[k] == Count(vs, k) <==> Count(vs, k) <= 255)
    ensures (forall v :: Count(vs, v) <= 255) <==> Count(vs, k) <= 255 && forall v :: Count(Without(vs, k), v) <= 255
  {
    hide Count, Without;
    var vs' := Without(vs, k);
    forall v ensures Count(vs', v) == (if v == k then 0 else Count(vs, v)) && |vs| == Count(vs, k) + |vs'| {
      WithoutCount(vs, k, v);
    }
    if forall v :: Count(vs, v) <= 255 {
      forall v ensures Count(vs', v) <= 255 { assert Count(vs, v) <= 255; }
    }
    if Count(vs, k) <= 255 && forall v :: Count(vs', v) <= 255 {
      forall v ensures Count(vs, v) <= 255 { assert Count(vs', v) <= 255; }
    }
  }

  lemma NobodyCounted(r: map<PubKey, byte>, vs: seq<PubKey>)
    requires Counts(r, vs) && r == map[]
    ensures vs == [] && forall v :: Count(vs, v) <= 255
  {
    assert vs != [] ==> vs[0] in multiset(vs) && Count(vs, vs[0]) > 0;
  }

  // ---- where the rules go ----

  /** Every rule of a map with the visor it is filed for. */
  ghost function Placed(m: RulesMap): set<(PubKey, Rule)>
  {
    set a, i | a in m && 0 <= i < |m[a]| :: (a.pk, m[a][i])
  }

  /** The rules of a route, each at the visor that has to hold it. */
  ghost function Chain(route: Route, ids: seq<RouteID>): set<(PubKey, Rule)>
    requires route.hops != [] && |ids| == |route.hops| + 1
  {
    set i | 0 <= i < |ids| :: Place(route, ids, i)
  }

  ghost function Place(route: Route, ids: seq<RouteID>, i: nat): (PubKey, Rule)
    requires route.hops != [] && |ids| == |route.hops| + 1 && i < |ids|
  {
    (Visits(route.hops)[i], RuleAt(route, ids, i))
  }

  ghost predicate Contiguous(hops: seq<Hop>)
  {
    forall i :: 0 <= i < |hops| - 1 ==> hops[i].to == hops[i + 1].from
  }

  lemma PlacedFile(m: RulesMap, a: Addr, r: Rule)
    ensures Placed(File(m, a, r)) == Placed(m) + {(a.pk, r)}
  {
    var m' := File(m, a, r);
    assert m'[a][|m'[a]| - 1] == r;
    forall x | x in Placed(m) ensures x in Placed(m') {
      var b, i :| b in m && 0 <= i < |m[b]| && x == (b.pk, m[b][i]);
      assert m'[b][i] == m[b][i];
    }
    forall x | x in Placed(m') ensures x in Placed(m) + {(a.pk, r)} {
      var b, i :| b in m' && 0 <= i < |m'[b]| && x == (b.pk, m'[b][i]);
      if b == a && i == |m'[a]| - 1 {
      } else {
        assert b in m && m[b][i] == m'[b][i];
      }
    }
  }

  lemma FileFirst(a: Addr, r: Rule)
    ensures File(map[], a, r) == map[a := [r]]
  {
    assert [] + [r] == [r];
  }

  /** The intermediary rules of hops 1..k-1. */
  ghost function Inner(route: Route, ids: seq<RouteID>, k: nat): set<(PubKey, Rule)>
    requires k <= |route.hops| && k < |ids|
  {
    set i | 1 <= i < k :: (route.hops[i].from, RuleAt(route, ids, i))
  }

  lemma {:induction false} FileHopsEffect(m: RuleMaps, route: Route, ids: seq<RouteID>, k: nat)
    requires 1 <= k <= |route.hops| && k < |ids|
    ensures var m' := FileHops(m, route, ids, k);
            && m'.rev == m.rev
            && m'.fwd == File(m.fwd, HopAddr(route, 0), RuleAt(route, ids, 0))
            && Placed(m'.inter) == Placed(m.inter) + Inner(route, ids, k)
  {
    if k == 1 {
      assert FileHops(m, route, ids, 0) == m;
      assert Inner(route, ids, 1) == {};
    } else {
      FileHopsEffect(m, route, ids, k - 1);
      var m1 := FileHops(m, route, ids, k - 1);
      var x := (route.hops[k - 1].from, RuleAt(route, ids, k - 1));
      PlacedFile(m1.inter, HopAddr(route, k - 1), RuleAt(route, ids, k - 1));
      assert Inner(route, ids, k) == Inner(route, ids, k - 1) + {x};
    }
  }

  // ---- keep-alives ----

  /** Every rule of a map has this keep-alive. */
  ghost predicate AllKeep(m: RulesMap, keepAlive: Duration)
  {
    forall a: Addr, i: nat :: a in m && i < |m[a]| ==> m[a][i].keepAlive == keepAlive
  }

  ghost predicate MapsKeep(m: RuleMaps, keepAlive: Duration)
  {
    AllKeep(m.fwd, keepAlive) && AllKeep(m.rev, keepAlive) && AllKeep(m.inter, keepAlive)
  }

  lemma FileKeeps(m: RulesMap, a: Addr, r: Rule, keepAlive: Duration)
    requires AllKeep(m, keepAlive) && r.keepAlive == keepAlive
    ensures AllKeep(File(m, a, r), keepAlive)
  {
    var m': RulesMap := File(m, a, r);
    forall b: Addr, i: nat | b in m' && i < |m'[b]| ensures m'[b][i].keepAlive == keepAlive {
      assert b != a || i < |m'[b]| - 1 ==> b in m && m[b][i] == m'[b][i];
    }
  }

  lemma {:induction false} FileHopsKeep(m: RuleMaps, route: Route, ids: seq<RouteID>, k: nat)
    requires MapsKeep(m, route.keepAlive) && k <= |route.hops| && (k > 0 ==> k < |ids|)
    ensures MapsKeep(FileHops(m, route, ids, k), route.keepAlive)
  {
    hide AllKeep, File, HopAddr;
    if k > 0 {
      FileHopsKeep(m, route, ids, k - 1);
      var m1, a, r := FileHops(m, route, ids, k - 1), HopAddr(route, k - 1), RuleAt(route, ids, k - 1);
      FileKeeps(m1.fwd, a, r, route.keepAlive);
      FileKeeps(m1.inter, a, r, route.keepAlive);
    }
  }

  /** Generation gives every rule, of whatever kind, the keep-alive of its route. */
  lemma {:induction false} GenerateKeeps(ids: Stacks, routes: seq<Route>, m: RuleMaps, keepAlive: Duration)
    requires forall rt: Route :: rt in routes ==> rt.hops != [] && rt.keepAlive == keepAlive
    requires MapsKeep(m, keepAlive)
    ensures Generate(ids, routes, m).Some? ==> MapsKeep(Generate(ids, routes, m).value.1, keepAlive)
    decreases |routes|
  {
    hide AllKeep, PopAll, FileHops, File;
    if routes != [] && PopAll(ids, Visits(routes[0].hops)).Some? {
      var (ids', popped) := PopAll(ids, Visits(routes[0].hops)).value;
      VisitsLength(routes[0].hops);
      hide Visits;
      FileHopsKeep(m, routes[0], popped, |routes[0].hops|);
      var m1 := FileHops(m, routes[0], popped, |routes[0].hops|);
      FileKeeps(m1.rev, routes[0].desc.Dst(), RuleAt(routes[0], popped, |routes[0].hops|), keepAlive);
      GenerateKeeps(ids', routes[1..], FileRoute(m, routes[0], popped), keepAlive);
    }
  }

  lemma BiRulesKeep(bi: BiRoute, f: seq<RouteID>, r: seq<RouteID>)
    requires |f| == |bi.forward| + 1 && |r| == |bi.reverse| + 1
    ensures MapsKeep(BiRules(bi, f, r), bi.keepAlive)
  {
    hide AllKeep, FileHops, File;
    var F, R := bi.ForwardRoute(), bi.ReverseRoute();
    assert MapsKeep(NoRules, bi.keepAlive) by { NothingKeeps(bi.keepAlive); }
    FileHopsKeep(NoRules, F, f, |bi.forward|);
    var m1 := FileHops(NoRules, F, f, |bi.forward|);
    FileKeeps(m1.rev, F.desc.Dst(), RuleAt(F, f, |bi.forward|), bi.keepAlive);
    var m := FileRoute(NoRules, F, f);
    FileHopsKeep(m, R, r, |bi.reverse|);
    var m2 := FileHops(m, R, r, |bi.reverse|);
    FileKeeps(m2.rev, R.desc.Dst(), RuleAt(R, r, |bi.reverse|), bi.keepAlive);
  }

  lemma NothingKeeps(keepAlive: Duration)
    ensures MapsKeep(NoRules, keepAlive)
  {
  }

  // ---- which requests are accepted ----

  /** A request passes exactly if both paths are there and lead from one end of its descriptor to the other. */
  lemma CheckIff(bi: BiRoute)
    ensures bi.Check() == CheckOk <==>
      && bi.forward != [] && bi.reverse != []
      && var f, r := Visits(bi.forward), Visits(bi.reverse);
         f[0] == r[|r| - 1] == bi.desc.srcPK && r[0] == f[|f| - 1] == bi.desc.dstPK
    ensures bi.Check() == ErrNoForwardHops <==> bi.forward == []
    ensures bi.Check() == ErrNoReverseHops <==> bi.forward != [] && bi.reverse == []
  {
  }

  // ---- what the edges are told ----

  /** Both lookups are in range for every checked route. */
  ghost predicate EdgeReady(m: RuleMaps, a: Addr)
  {
    a in m.fwd && m.fwd[a] != [] && a in m.rev && m.rev[a] != []
  }

  function Edge(m: RuleMaps, a: Addr, desc: Desc): EdgeRules
    requires a in m.fwd && m.fwd[a] != [] && a in m.rev && m.rev[a] != []
  {
    EdgeRules(desc, m.fwd[a][0], m.rev[a][0])
  }

  /** The maps of a checked route, spelled out. */
  lemma BiRulesShape(bi: BiRoute, f: seq<RouteID>, r: seq<RouteID>)
    requires bi.Check() == CheckOk && |f| == |bi.forward| + 1 && |r| == |bi.reverse| + 1
    ensures var F, R := bi.ForwardRoute(), bi.ReverseRoute();
            var m := BiRules(bi, f, r);
            && m.fwd == File(map[bi.desc.Src() := [RuleAt(F, f, 0)]], bi.desc.Dst(), RuleAt(R, r, 0))
            && m.rev == File(map[bi.desc.Dst() := [RuleAt(F, f, |bi.forward|)]], bi.desc.Src(),
                             RuleAt(R, r, |bi.reverse|))
            && Placed(m.inter) == Inner(F, f, |bi.forward|) + Inner(R, r, |bi.reverse|)
  {
    var F, R := bi.ForwardRoute(), bi.ReverseRoute();
    FileHopsEffect(NoRules, F, f, |bi.forward|);
    FileHopsEffect(FileRoute(NoRules, F, f), R, r, |bi.reverse|);
    assert HopAddr(F, 0) == bi.desc.Src() && HopAddr(R, 0) == bi.desc.Dst();
    assert R.desc.Dst() == bi.desc.Src();
    assert NoRules.fwd == map[] && Placed(NoRules.inter) == {};
    FileFirst(bi.desc.Src(), RuleAt(F, f, 0));
    FileFirst(bi.desc.Dst(), RuleAt(F, f, |bi.forward|));
  }

  /** For a checked route the edge lookups never go out of range, and when the two addresses differ
      each edge gets the forward rule of its own direction and the consume rule of the other, filed
      under the descriptor that its consume rule carries (the inverse of its forward rule's), which is
      where the router will look for the group when packets arrive on that consume rule. */
  lemma DispatchAgreement(bi: BiRoute, f: seq<RouteID>, r: seq<RouteID>)
    requires bi.Check() == CheckOk && |f| == |bi.forward| + 1 && |r| == |bi.reverse| + 1
    ensures var m := BiRules(bi, f, r);
            EdgeReady(m, bi.desc.Src()) && EdgeReady(m, bi.desc.Dst())
    ensures bi.desc.Src() != bi.desc.Dst() ==>
              var m, F, R := BiRules(bi, f, r), bi.ForwardRoute(), bi.ReverseRoute();
              var init, resp := Edge(m, bi.desc.Src(), R.desc), Edge(m, bi.desc.Dst(), F.desc);
              && init == EdgeRules(R.desc, RuleAt(F, f, 0), RuleAt(R, r, |bi.reverse|))
              && resp == EdgeRules(F.desc, RuleAt(R, r, 0), RuleAt(F, f, |bi.forward|))
              && init.reverse.desc == init.desc == init.forward.desc.Invert()
              && resp.reverse.desc == resp.desc == resp.forward.desc.Invert()
  {
    BiRulesShape(bi, f, r);
  }

  /** When the addresses coincide both edges look under the same address, and the responder finds the
      initiator's forward rule first. */
  lemma SharedAddress(bi: BiRoute, f: seq<RouteID>, r: seq<RouteID>)
    requires bi.Check() == CheckOk && |f| == |bi.forward| + 1 && |r| == |bi.reverse| + 1
    requires bi.desc.Src() == bi.desc.Dst()
    ensures EdgeReady(BiRules(bi, f, r), bi.desc.Dst())
    ensures Edge(BiRules(bi, f, r), bi.desc.Dst(), bi.desc).forward == RuleAt(bi.ForwardRoute(), f, 0)
  {
    BiRulesShape(bi, f, r);
  }

  /** What the setup node hands out: to the edges, and in the broadcast of intermediary rules. */
  ghost function HandedOut(bi: BiRoute, m: RuleMaps): set<(PubKey, Rule)>
    requires EdgeReady(m, bi.desc.Src()) && EdgeReady(m, bi.desc.Dst())
  {
    var init, resp := Edge(m, bi.desc.Src(), bi.desc.Invert()), Edge(m, bi.desc.Dst(), bi.desc);
    Placed(m.inter)
    + {(bi.desc.srcPK, init.forward), (bi.desc.srcPK, init.reverse)}
    + {(bi.desc.dstPK, resp.forward), (bi.desc.dstPK, resp.reverse)}
  }

  /** It is exactly the two chains, every rule at the visor whose ID is its key. */
  lemma HandedOutIsChains(bi: BiRoute, f: seq<RouteID>, r: seq<RouteID>)
    requires bi.Check() == CheckOk && |f| == |bi.forward| + 1 && |r| == |bi.reverse| + 1
    requires bi.desc.Src() != bi.desc.Dst() && Contiguous(bi.forward) && Contiguous(bi.reverse)
    ensures var m := BiRules(bi, f, r); EdgeReady(m, bi.desc.Src()) && EdgeReady(m, bi.desc.Dst())
    ensures HandedOut(bi, BiRules(bi, f, r)) == Chain(bi.ForwardRoute(), f) + Chain(bi.ReverseRoute(), r)
  {
    var F, R := bi.ForwardRoute(), bi.ReverseRoute();
    var n, k := |bi.forward|, |bi.reverse|;
    DispatchAgreement(bi, f, r);
    BiRulesShape(bi, f, r);
    ChainParts(F, f);
    ChainParts(R, r);
    hide Chain, Inner, Placed, RuleAt, Visits, BiRules, File, Contiguous;
    Regroup(Inner(F, f, n), Inner(R, r, k), (bi.desc.srcPK, RuleAt(F, f, 0)), (bi.desc.srcPK, RuleAt(R, r, k)),
            (bi.desc.dstPK, RuleAt(R, r, 0)), (bi.desc.dstPK, RuleAt(F, f, n)));
  }

  lemma Regroup<T>(x: set<T>, y: set<T>, a: T, b: T, c: T, d: T)
    ensures x + y + {a, b} + {c, d} == (x + {a, d}) + (y + {c, b})
  {
  }

  lemma ChainParts(route: Route, ids: seq<RouteID>)
    requires route.hops != [] && |ids| == |route.hops| + 1 && Contiguous(route.hops)
    ensures var n := |route.hops|;
            Chain(route, ids) == Inner(route, ids, n)
              + {(route.hops[0].from, RuleAt(route, ids, 0)), (route.hops[n - 1].to, RuleAt(route, ids, n))}
  {
    var n, vs := |route.hops|, Visits(route.hops);
    assert vs[0] == route.hops[0].from && vs[n] == route.hops[n - 1].to && |vs| == n + 1;
    forall i | 1 <= i < n ensures Place(route, ids, i) == (route.hops[i].from, RuleAt(route, ids, i)) {
      assert vs[i] == route.hops[i - 1].to;
    }
    var edges := {Place(route, ids, 0), Place(route, ids, n)};
    hide RuleAt, Visits, Contiguous, Place;
    forall x | x in Inner(route, ids, n) ensures x in Chain(route, ids) {
      var i :| 1 <= i < n && x == (route.hops[i].from, RuleAt(route, ids, i));
      assert x == Place(route, ids, i);
    }
    forall x | x in Chain(route, ids) ensures x in Inner(route, ids, n) + edges {
      var i :| 0 <= i < |ids| && x == Place(route, ids, i);
      if 1 <= i < n { assert x == (route.hops[i].from, RuleAt(route, ids, i)); }
    }
  }
}
