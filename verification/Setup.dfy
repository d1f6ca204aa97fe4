/** Route setup: how many route IDs are reserved from which visor, how they are chained into forward,
    intermediary and consume rules, and which edge gets which rules. */
module Setup {
  import opened Routing

  type Stacks = map<PubKey, seq<RouteID>>
  type RulesMap = map<Addr, seq<Rule>>

  datatype Route = Route(desc: Desc, hops: seq<Hop>, keepAlive: Duration)

  datatype CheckResult = CheckOk | ErrNoForwardHops | ErrNoReverseHops | ErrInvalidDesc

  datatype BiRoute = BiRoute(desc: Desc, keepAlive: Duration, forward: seq<Hop>, reverse: seq<Hop>) {
    function ForwardRoute(): Route { Route(desc, forward, keepAlive) }
    function ReverseRoute(): Route { Route(desc.Invert(), reverse, keepAlive) }

    function Check(): CheckResult
    {
      if |forward| == 0 then ErrNoForwardHops
      else if |reverse| == 0 then ErrNoReverseHops
      else if forward[0].from != desc.srcPK || reverse[|reverse| - 1].to != desc.srcPK then ErrInvalidDesc
      else if reverse[0].from != desc.dstPK || forward[|forward| - 1].to != desc.dstPK then ErrInvalidDesc
      else CheckOk
    }
  }

  datatype RuleMaps = RuleMaps(fwd: RulesMap, rev: RulesMap, inter: RulesMap)
  datatype EdgeRules = EdgeRules(desc: Desc, forward: Rule, reverse: Rule)

  const NoRules := RuleMaps(map[], map[], map[])

  // ---- visits and ID stacks ----

  /** The visors a path goes through, with repetitions: one route ID is needed per visit. */
  function Visits(hops: seq<Hop>): seq<PubKey>
  {
    if hops == [] then [] else [hops[0].from] + Tos(hops)
  }

  function Tos(hops: seq<Hop>): (r: seq<PubKey>)
    ensures |r| == |hops| && forall i :: 0 <= i < |hops| ==> r[i] == hops[i].to
  {
    seq(|hops|, i requires 0 <= i < |hops| => hops[i].to)
  }

  lemma VisitsLength(hops: seq<Hop>)
    ensures |Visits(hops)| == if hops == [] then 0 else |hops| + 1
  {
  }

  function AllVisits(paths: seq<seq<Hop>>): seq<PubKey>
  {
    if paths == [] then [] else Visits(paths[0]) + AllVisits(paths[1..])
  }

  ghost function Count(vs: seq<PubKey>, v: PubKey): nat { multiset(vs)[v] }

  function Stack(ids: Stacks, v: PubKey): seq<RouteID> { if v in ids then ids[v] else [] }

  /** Pop one ID per visit, in order. */
  function PopAll(ids: Stacks, vs: seq<PubKey>): (r: Option<(Stacks, seq<RouteID>)>)
    ensures r.Some? ==> |r.value.1| == |vs|
  {
    if vs == [] then Some((ids, []))
    else if Stack(ids, vs[0]) == [] then None
    else
      match PopAll(ids[vs[0] := ids[vs[0]][1..]], vs[1..])
      case None => None
      case Some((ids', popped)) => Some((ids', [ids[vs[0]][0]] + popped))
  }

  // ---- rules ----

  function RuleAt(route: Route, ids: seq<RouteID>, i: nat): Rule
    requires i <= |route.hops| && i < |ids| && (i < |route.hops| ==> i + 1 < |ids|)
  {
    if i == |route.hops| then Consume(route.keepAlive, ids[i], route.desc)
    else if i == 0 then Forward(route.keepAlive, ids[0], ids[1], route.hops[0].tp, route.desc)
    else Intermediary(route.keepAlive, ids[i], ids[i + 1], route.hops[i].tp)
  }

  /** The address under which the rule of hop i is filed. */
  function HopAddr(route: Route, i: nat): Addr
    requires i < |route.hops|
  {
    var from := route.hops[i].from;
    Addr(from, if route.desc.srcPK == from then route.desc.srcPort
               else if route.desc.dstPK == from then route.desc.dstPort else 0)
  }

  function File(m: RulesMap, a: Addr, r: Rule): RulesMap
  {
    m[a := (if a in m then m[a] else []) + [r]]
  }

  /** The rule maps after the first k hops of a route. */
  function FileHops(m: RuleMaps, route: Route, ids: seq<RouteID>, k: nat): RuleMaps
    requires k <= |route.hops| && (k > 0 ==> k < |ids|)
  {
    if k == 0 then m
    else
      var m' := FileHops(m, route, ids, k - 1);
      var a, r := HopAddr(route, k - 1), RuleAt(route, ids, k - 1);
      if k == 1 then m'.(fwd := File(m'.fwd, a, r)) else m'.(inter := File(m'.inter, a, r))
  }

  function FileRoute(m: RuleMaps, route: Route, ids: seq<RouteID>): RuleMaps
    requires |ids| == |route.hops| + 1
  {
    var m' := FileHops(m, route, ids, |route.hops|);
    m'.(rev := File(m'.rev, route.desc.Dst(), RuleAt(route, ids, |route.hops|)))
  }

  /** All routes in turn, from a shared supply of IDs. */
  function Generate(ids: Stacks, routes: seq<Route>, m: RuleMaps): Option<(Stacks, RuleMaps)>
    requires forall r :: r in routes ==> r.hops != []
    decreases |routes|
  {
    if routes == [] then Some((ids, m))
    else
      match PopAll(ids, Visits(routes[0].hops))
      case None => None
      case Some((ids', popped)) => Generate(ids', routes[1..], FileRoute(m, routes[0], popped))
  }

  // ---- the reserver ----

  class IDReserver {
    var total: nat
    var rec: map<PubKey, byte>
    var ids: Stacks

    /** Counts wrap at 256, the width of the source's counter. */
    constructor (paths: seq<seq<Hop>>)
      ensures total == |AllVisits(paths)|
      ensures Counts(rec, AllVisits(paths)) && ids == map[]
    {
      var n, r := CountPaths(paths);
      total, rec, ids := n, r, map[];
    }

    /** Reserve the recorded number of IDs from every visor; `next` holds each visor's last issued
        ID.  A visor that is missing or has too few IDs left fails the whole call, after which other
        visors may have issued IDs for nothing. */
    method ReserveIDs(next: map<PubKey, nat>) returns (ok: bool, next': map<PubKey, nat>)
      modifies this`ids
      ensures next'.Keys == next.Keys && forall v :: v in next ==> next[v] <= next'[v]
      ensures ok <==> forall v :: v in rec ==> v in next && next[v] + rec[v] < MAX_UINT32
      ensures ok ==> ids.Keys == rec.Keys
      ensures ok ==> forall v :: v in rec ==>
        next'[v] == next[v] + rec[v] <= MAX_UINT32 && ids[v] == Consecutive(next[v] + 1, rec[v])
      ensures ok ==> forall v :: v in next && v !in rec ==> next'[v] == next[v]
    {
      next', ok := next, true;
      ids := map[];
      var todo := rec.Keys;
      while todo != {}
        invariant todo <= rec.Keys && next'.Keys == next.Keys
        invariant forall v :: v in next ==> next[v] <= next'[v]
        invariant forall v :: v in next && (v !in rec || v in todo) ==> next'[v] == next[v]
        invariant ok <==> forall v :: v in rec.Keys - todo ==> v in next && next[v] + rec[v] < MAX_UINT32
        invariant ok ==> ids.Keys == rec.Keys - todo
        invariant ok ==> forall v :: v in rec.Keys - todo ==>
          next'[v] == next[v] + rec[v] <= MAX_UINT32 && ids[v] == Consecutive(next[v] + 1, rec[v])
        decreases todo
      {
        var v :| v in todo;
        if v in next' && next'[v] + rec[v] < MAX_UINT32 {
          ids := ids[v := Consecutive(next'[v] + 1, rec[v])];
          next' := next'[v := next'[v] + rec[v]];
        } else {
          ok := false;
        }
        todo := todo - {v};
      }
    }

    method PopID(v: PubKey) returns (id: RouteID, ok: bool)
      modifies this`ids
      ensures ok <==> Stack(old(ids), v) != []
      ensures ok ==> Stack(old(ids), v) == [id] + Stack(ids, v)
      ensures ok ==> ids == old(ids)[v := Stack(old(ids), v)[1..]]
      ensures !ok ==> ids == old(ids) && id == 0
    {
      if v !in ids || |ids[v]| == 0 { return 0, false; }
      id, ok := ids[v][0], true;
      ids := ids[v := ids[v][1..]];
    }
  }

  /** One wrapping counter per visited visor. */
  ghost predicate Counts(r: map<PubKey, byte>, vs: seq<PubKey>)
  {
    && (forall v :: v in r <==> Count(vs, v) > 0)
    && (forall v :: v in r ==> r[v] == Count(vs, v) % 256)
  }

  lemma CountAppend(vs: seq<PubKey>, v: PubKey, w: PubKey)
    ensures Count(vs + [v], w) == Count(vs, w) + if w == v then 1 else 0
  {
  }

  /** Increment a wrapping counter. */
  method Bump(r: map<PubKey, byte>, v: PubKey, ghost vs: seq<PubKey>) returns (r': map<PubKey, byte>)
    requires Counts(r, vs)
    ensures Counts(r', vs + [v])
  {
    hide Count;
    var c: int := if v in r then r[v] else 0;
    r' := r[v := (c + 1) % 256];
    forall w ensures Count(vs + [v], w) == Count(vs, w) + if w == v then 1 else 0 {
      CountAppend(vs, v, w);
    }
  }

  method CountPath(r: map<PubKey, byte>, hops: seq<Hop>, ghost vs: seq<PubKey>) returns (r': map<PubKey, byte>)
    requires Counts(r, vs)
    ensures Counts(r', vs + Visits(hops))
  {
    if hops == [] {
      assert vs + Visits(hops) == vs;
      return r;
    }
    r' := Bump(r, hops[0].from, vs);
    ghost var seen := vs + [hops[0].from];
    for i := 0 to |hops|
      invariant Counts(r', seen) && seen == vs + Visits(hops)[..i + 1]
    {
      r' := Bump(r', hops[i].to, seen);
      assert Visits(hops)[..i + 2] == Visits(hops)[..i + 1] + [hops[i].to];
      seen := seen + [hops[i].to];
    }
    assert Visits(hops)[..|hops| + 1] == Visits(hops);
  }

  method CountPaths(paths: seq<seq<Hop>>) returns (n: nat, r: map<PubKey, byte>)
    ensures n == |AllVisits(paths)| && Counts(r, AllVisits(paths))
  {
    n, r := 0, map[];
    ghost var seen: seq<PubKey> := [];
    assert Counts(r, seen);
    hide Counts, Visits;
    assert paths[0..] == paths && seen + AllVisits(paths) == AllVisits(paths);
    for k := 0 to |paths|
      invariant AllVisits(paths) == seen + AllVisits(paths[k..])
      invariant n == |seen| && Counts(r, seen)
    {
      assert paths[k..][0] == paths[k] && paths[k..][1..] == paths[k + 1..];
      assert seen + (Visits(paths[k]) + AllVisits(paths[k + 1..])) ==
             seen + Visits(paths[k]) + AllVisits(paths[k + 1..]);
      r := CountPath(r, paths[k], seen);
      VisitsLength(paths[k]);
      n := n + if paths[k] == [] then 0 else |paths[k]| + 1;
      seen := seen + Visits(paths[k]);
    }
    assert paths[|paths|..] == [] && seen + [] == seen;
  }
}
