/** The IDs of a new route: which they are, and that no place of the network already uses them. */
module FreshIds {
  import opened Routing
  import opened Setup
  import opened SetupProofs
  import opened SetupNode

  lemma {:induction false} PicksAt(vs: seq<PubKey>, popped: seq<RouteID>, i: nat)
    requires |vs| == |popped| && i < |vs|
    ensures var c := Count(vs[..i], vs[i]);
            c < |Picks(vs, popped, vs[i])| && Picks(vs, popped, vs[i])[c] == popped[i]
  {
    var v := vs[i];
    if i == 0 {
      assert Count(vs[..0], v) == 0;
    } else {
      PicksAt(vs[1..], popped[1..], i - 1);
      assert vs[1..][i - 1] == v && popped[1..][i - 1] == popped[i];
      assert vs[..i] == [vs[0]] + vs[1..][..i - 1];
      CountFirst(vs[0], vs[1..][..i - 1], v);
    }
  }

  lemma CountFirst(u: PubKey, vs: seq<PubKey>, v: PubKey)
    ensures Count([u] + vs, v) == (if u == v then 1 else 0) + Count(vs, v)
  {
  }

  /** The IDs of both directions in the order of the visits. */
  ghost function BiIds(next: map<PubKey, nat>, bi: BiRoute): (ids: seq<RouteID>)
    requires CanGrant(next, bi) && bi.forward != [] && bi.reverse != []
    ensures |ids| == |BiVisits(bi)|
  {
    ReservedGranted(next, bi);
    var (_, f, r) := Assign(Reserved(next, bi), bi).value;
    f + r
  }

  /** The j-th visit gets the visor's next unissued ID, counting the earlier visits. */
  lemma IssuedId(next: map<PubKey, nat>, bi: BiRoute, j: nat)
    requires CanGrant(next, bi) && bi.forward != [] && bi.reverse != [] && j < |BiVisits(bi)|
    ensures var vs := BiVisits(bi);
            && vs[j] in next
            && BiIds(next, bi)[j] == next[vs[j]] + 1 + Count(vs[..j], vs[j])
            && Count(vs[..j], vs[j]) < Count(vs, vs[j])
  {
    hide BiVisits, Count, Picks, BiIds, Reserved, CanGrant, Stack;
    var vs := BiVisits(bi);
    var v := vs[j];
    VisitCounted(vs, j);
    JoinedPicks(next, bi, v);
    PicksAt(vs, BiIds(next, bi), j);
    PicksLength(vs, BiIds(next, bi), v);
    ReservedAt(next, bi, v);
  }

  lemma ReservedAt(next: map<PubKey, nat>, bi: BiRoute, v: PubKey)
    requires CanGrant(next, bi) && Count(BiVisits(bi), v) > 0
    ensures v in next && next[v] + Count(BiVisits(bi), v) < MAX_UINT32
    ensures Stack(Reserved(next, bi), v) == Consecutive(next[v] + 1, Count(BiVisits(bi), v))
  {
    hide BiVisits, Count;
  }

  lemma VisitCounted(vs: seq<PubKey>, j: nat)
    requires j < |vs|
    ensures Count(vs, vs[j]) > 0
  {
    assert vs[j] in vs;
  }

  lemma JoinedPicks(next: map<PubKey, nat>, bi: BiRoute, v: PubKey)
    requires CanGrant(next, bi) && bi.forward != [] && bi.reverse != []
    ensures Picks(BiVisits(bi), BiIds(next, bi), v) == Stack(Reserved(next, bi), v)
  {
    hide Visits, Count, Picks, PopAll, Reserved, CanGrant, Granted;
    var ids := Reserved(next, bi);
    ReservedGranted(next, bi);
    PopAppend(ids, Visits(bi.forward), Visits(bi.reverse));
    PopConserves(ids, BiVisits(bi), v);
    AssignConserves(ids, bi, v);
  }

  lemma {:induction false} CountGrows(vs: seq<PubKey>, i: nat, j: nat)
    requires i < j < |vs| && vs[i] == vs[j]
    ensures Count(vs[..i], vs[i]) < Count(vs[..j], vs[i])
  {
    assert vs[..j] == vs[..i] + vs[i..j];
    assert vs[i..j][0] == vs[i];
    CountConcat(vs[..i], vs[i..j], vs[i]);
    assert vs[i] in vs[i..j];
    assert Count(vs[i..j], vs[i]) > 0;
  }

  /** Distinct visits to a visor get distinct IDs, all above what it had issued before and within
      what it has issued now. */
  lemma IssuedApart(next: map<PubKey, nat>, bi: BiRoute, i: nat, j: nat)
    requires CanGrant(next, bi) && bi.forward != [] && bi.reverse != []
    requires i < |BiVisits(bi)| && j < |BiVisits(bi)| && BiVisits(bi)[i] == BiVisits(bi)[j]
    ensures var v := BiVisits(bi)[i];
            v in next && next[v] < BiIds(next, bi)[i] <= next[v] + Count(BiVisits(bi), v)
    ensures i != j ==> BiIds(next, bi)[i] != BiIds(next, bi)[j]
  {
    hide BiIds, BiVisits, CanGrant, Count;
    IssuedId(next, bi, i);
    IssuedId(next, bi, j);
    if i < j {
      CountGrows(BiVisits(bi), i, j);
    } else if j < i {
      CountGrows(BiVisits(bi), j, i);
    }
  }

  /** With the IDs that the visors issue, the responder is handed the forward rule of its own direction
      if and only if the two addresses differ: a route from an address to itself is misrouted. */
  lemma RespondsIff(next: map<PubKey, nat>, bi: BiRoute)
    requires bi.Check() == CheckOk && CanGrant(next, bi)
    ensures Assign(Reserved(next, bi), bi).Some?
    ensures var (_, f, r) := Assign(Reserved(next, bi), bi).value;
            var m := BiRules(bi, f, r);
            && EdgeReady(m, bi.desc.Dst())
            && (Edge(m, bi.desc.Dst(), bi.desc).forward == RuleAt(bi.ReverseRoute(), r, 0) <==>
                  bi.desc.Src() != bi.desc.Dst())
  {
    ReservedGranted(next, bi);
    var (_, f, r) := Assign(Reserved(next, bi), bi).value;
    VisitsLength(bi.forward);
    VisitsLength(bi.reverse);
    DispatchAgreement(bi, f, r);
    if bi.desc.Src() == bi.desc.Dst() {
      SharedAddress(bi, f, r);
      var n := |Visits(bi.forward)|;
      assert BiVisits(bi)[0] == bi.desc.srcPK && BiVisits(bi)[n] == bi.desc.dstPK;
      assert BiIds(next, bi)[0] == f[0] && BiIds(next, bi)[n] == r[0];
      hide BiIds, BiVisits, CanGrant, Reserved, Assign, BiRules;
      IssuedApart(next, bi, 0, n);
    }
  }
}
