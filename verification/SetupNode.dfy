/** CreateRouteGroup from the check of its input to the edges it returns, with the visors' tables
    called directly instead of over RPC. */
module SetupNode {
  import opened Routing
  import opened Setup
  import opened RuleGeneration
  import opened SetupProofs

  datatype SetupResult = SetupOk(init: EdgeRules, resp: EdgeRules, inter: RulesMap) | SetupFailed

  /** Every visited visor is known, is visited at most 255 times and has that many IDs left.  `next`
      maps each visor to its last issued ID. */
  ghost predicate CanGrant(next: map<PubKey, nat>, bi: BiRoute)
  {
    forall v :: Count(BiVisits(bi), v) > 0 ==>
      v in next && Count(BiVisits(bi), v) <= 255 && next[v] + Count(BiVisits(bi), v) < MAX_UINT32
  }

  /** The IDs the visors issue. */
  ghost function Reserved(next: map<PubKey, nat>, bi: BiRoute): Stacks
    requires CanGrant(next, bi)
  {
    map v | v in next && Count(BiVisits(bi), v) > 0 :: Consecutive(next[v] + 1, Count(BiVisits(bi), v))
  }

  ghost function Advanced(next: map<PubKey, nat>, bi: BiRoute): map<PubKey, nat>
    requires CanGrant(next, bi)
  {
    map v | v in next :: next[v] + Count(BiVisits(bi), v)
  }

  lemma ReservedGranted(next: map<PubKey, nat>, bi: BiRoute)
    requires CanGrant(next, bi)
    ensures Granted(Reserved(next, bi), bi)
    ensures bi.forward != [] && bi.reverse != [] ==> Assign(Reserved(next, bi), bi).Some?
  {
    hide Count;
    var ids := Reserved(next, bi);
    forall v ensures |Stack(ids, v)| == Count(BiVisits(bi), v) % 256 {
      assert v in ids <==> Count(BiVisits(bi), v) > 0;
    }
    AssignSucceeds(ids, bi);
  }

  lemma TwoPaths(bi: BiRoute)
    ensures AllVisits([bi.forward, bi.reverse]) == BiVisits(bi)
  {
    assert [bi.forward, bi.reverse][1..] == [bi.reverse];
    assert AllVisits([bi.reverse]) == Visits(bi.reverse) + AllVisits([bi.reverse][1..]);
    assert Visits(bi.reverse) + [] == Visits(bi.reverse);
  }

  /** Setup succeeds exactly on checked routes whose visors can grant the IDs; then the edges and the
      broadcast carry the rules of the two chains over the issued IDs, and every visor's counter has
      moved by its number of visits.  A failed setup may still have used up IDs. */
  method CreateRouteGroup(bi: BiRoute, next: map<PubKey, nat>) returns (res: SetupResult, next': map<PubKey, nat>)
    ensures next'.Keys == next.Keys && forall v :: v in next ==> next[v] <= next'[v]
    ensures res.SetupOk? <==> bi.Check() == CheckOk && CanGrant(next, bi)
    ensures res.SetupOk? ==>
              && next' == Advanced(next, bi)
              && Assign(Reserved(next, bi), bi).Some?
              && var (_, f, r) := Assign(Reserved(next, bi), bi).value;
                 var m := BiRules(bi, f, r);
                 && EdgeReady(m, bi.desc.Src()) && EdgeReady(m, bi.desc.Dst())
                 && res == SetupOk(Edge(m, bi.desc.Src(), bi.desc.Invert()), Edge(m, bi.desc.Dst(), bi.desc), m.inter)
    ensures res.SetupOk? ==>
              && AllKeep(res.inter, bi.keepAlive)
              && res.init.forward.keepAlive == res.init.reverse.keepAlive == bi.keepAlive
              && res.resp.forward.keepAlive == res.resp.reverse.keepAlive == bi.keepAlive
  {
    hide Count, Counts, CanGrant, Reserved, Advanced, BiVisits, AllVisits, PopAll, Generate, BiRules, Granted;
    next' := next;
    if bi.Check() != CheckOk { return SetupFailed, next'; }
    var idR := new IDReserver([bi.forward, bi.reverse]);
    TwoPaths(bi);
    var ok;
    ok, next' := idR.ReserveIDs(next);
    GrantIff(next, bi, idR.rec);
    if !ok { return SetupFailed, next'; }
    ghost var ids := idR.ids;
    GrantedByCounters(ids, bi, idR.rec);
    GenerateIsAssign(ids, bi);
    AssignSucceeds(ids, bi);
    var rules := GenerateRules(idR, [bi.ForwardRoute(), bi.ReverseRoute()]);
    if rules.None? { return SetupFailed, next'; }
    ReservedIs(next, bi, idR.rec, ids, next');
    var m := rules.value;
    ghost var (_, f, r) := Assign(ids, bi).value;
    DispatchAgreement(bi, f, r);
    BiRulesKeep(bi, f, r);
    res := SetupOk(Edge(m, bi.desc.Src(), bi.desc.Invert()), Edge(m, bi.desc.Dst(), bi.desc), m.inter);
  }

  lemma GrantIff(next: map<PubKey, nat>, bi: BiRoute, rec: map<PubKey, byte>)
    requires Counts(rec, BiVisits(bi))
    ensures CanGrant(next, bi) <==>
              && (forall v :: v in rec ==> v in next && next[v] + rec[v] < MAX_UINT32)
              && (forall v :: Count(BiVisits(bi), v) <= 255)
  {
    hide Count, BiVisits;
    if CanGrant(next, bi) {
      forall v ensures Count(BiVisits(bi), v) <= 255 {}
    }
  }

  lemma ReservedIs(next: map<PubKey, nat>, bi: BiRoute, rec: map<PubKey, byte>, ids: Stacks, next': map<PubKey, nat>)
    requires Counts(rec, BiVisits(bi)) && CanGrant(next, bi) && ids.Keys == rec.Keys && next'.Keys == next.Keys
    requires forall v :: v in rec ==>
      next'[v] == next[v] + rec[v] <= MAX_UINT32 && ids[v] == Consecutive(next[v] + 1, rec[v])
    requires forall v :: v in next && v !in rec ==> next'[v] == next[v]
    ensures ids == Reserved(next, bi) && next' == Advanced(next, bi)
  {
    hide Count, BiVisits;
    assert rec.Keys == Reserved(next, bi).Keys;
    forall v | v in rec ensures rec[v] == Count(BiVisits(bi), v) && ids[v] == Reserved(next, bi)[v] {}
    assert next'.Keys == Advanced(next, bi).Keys;
    forall v | v in next ensures next'[v] == Advanced(next, bi)[v] {}
  }

  lemma GrantedByCounters(ids: Stacks, bi: BiRoute, rec: map<PubKey, byte>)
    requires Counts(rec, BiVisits(bi)) && ids.Keys == rec.Keys
    requires forall v :: v in rec ==> |ids[v]| == rec[v]
    ensures Granted(ids, bi)
  {
    hide Count;
    forall v ensures |Stack(ids, v)| == Count(BiVisits(bi), v) % 256 {
      assert v in rec <==> Count(BiVisits(bi), v) > 0;
    }
  }
}
