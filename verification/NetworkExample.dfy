/** The assumptions of the network results can be met: two visors joined by one transport. */
module NetworkExample {
  import opened Routing
  import opened Routers
  import opened Setup
  import opened SetupProofs
  import opened SetupNode
  import opened Network
  import opened NetworkTheorems

  const NewVisor := Visor(0, map[], {}, map[])

  /** Two visors with empty tables, and a route request between them. */
  function Pairing(a: PubKey, b: PubKey, tp: UUID): Net
  {
    Net(map[(tp, a) := b, (tp, b) := a], map[a := NewVisor, b := NewVisor], map[], [])
  }

  function Request(a: PubKey, b: PubKey, tp: UUID, keepAlive: Duration): BiRoute
  {
    BiRoute(Desc(a, b, 1, 2), keepAlive, [Hop(tp, a, b)], [Hop(tp, b, a)])
  }

  lemma VisitedTwice(a: PubKey, b: PubKey, tp: UUID, keepAlive: Duration, v: PubKey)
    requires a != b
    ensures Count(BiVisits(Request(a, b, tp, keepAlive)), v) == if v == a || v == b then 2 else 0
  {
    var bi := Request(a, b, tp, keepAlive);
    assert Visits(bi.forward) == [a, b] && Visits(bi.reverse) == [b, a];
    assert BiVisits(bi) == [a, b, b, a];
  }

  lemma CanBeGranted(a: PubKey, b: PubKey, tp: UUID, keepAlive: Duration)
    requires a != b
    ensures CanGrant(Counters(Pairing(a, b, tp).visors), Request(a, b, tp, keepAlive))
  {
    hide Count, BiVisits, Request;
    var bi := Request(a, b, tp, keepAlive);
    forall v ensures Count(BiVisits(bi), v) == if v == a || v == b then 2 else 0 {
      VisitedTwice(a, b, tp, keepAlive, v);
    }
  }

  lemma CanBeEstablished(a: PubKey, b: PubKey, tp: UUID, keepAlive: Duration)
    requires a != b
    ensures Fresh(Pairing(a, b, tp)) && CanEstablish(Pairing(a, b, tp), Request(a, b, tp, keepAlive))
  {
    hide CanGrant, Counters;
    CanBeGranted(a, b, tp, keepAlive);
  }

  /** So there are reachable networks with a route in place. */
  lemma CanStart(a: PubKey, b: PubKey, tp: UUID, keepAlive: Duration)
    requires a != b
    ensures CanEstablish(Pairing(a, b, tp), Request(a, b, tp, keepAlive))
    ensures NetReachable(EstablishNet(Pairing(a, b, tp), Request(a, b, tp, keepAlive)))
  {
    CanBeEstablished(a, b, tp, keepAlive);
    var net, bi := Pairing(a, b, tp), Request(a, b, tp, keepAlive);
    assert VisorsOk(net);
    hide EstablishNet, CanEstablish, Pairing, Request, Fresh, VisorsOk;
    RunOne(net, bi);
  }

  lemma RunOne(net: Net, bi: BiRoute)
    requires VisorsOk(net) && CanEstablish(net, bi)
    ensures NetRun(net, [Establish(bi)], EstablishNet(net, bi))
  {
    hide EstablishNet, CanEstablish, VisorsOk;
    var acts, net' := [Establish(bi)], EstablishNet(net, bi);
    assert acts[1..] == [] && NetApply(net, acts[0]) == net';
    assert NetRun(net', acts[1..], net');
  }

  /** More generally, any two paths between two addresses, over existing transports and through known
      visors with IDs to spare, can be set up; visors may repeat, up to 255 times in all. */
  lemma AnyPaths(net: Net, bi: BiRoute)
    requires Fresh(net) && bi.forward != [] && bi.reverse != [] && bi.desc.Src() != bi.desc.Dst()
    requires var f, r := Visits(bi.forward), Visits(bi.reverse);
             f[0] == r[|r| - 1] == bi.desc.srcPK && r[0] == f[|f| - 1] == bi.desc.dstPK
    requires Contiguous(bi.forward) && Contiguous(bi.reverse)
    requires Wired(net.peer, bi.forward) && Wired(net.peer, bi.reverse)
    requires forall v :: Count(BiVisits(bi), v) > 0 ==>
      v in net.visors && Count(BiVisits(bi), v) <= 255 && net.visors[v].next < 0xFFFF_FF00
    ensures CanEstablish(net, bi)
  {
    CheckIff(bi);
    EndsVisited(bi);
    hide Count, BiVisits, Visits, Contiguous, Wired;
  }

  lemma EndsVisited(bi: BiRoute)
    requires bi.Check() == CheckOk
    ensures Count(BiVisits(bi), bi.desc.srcPK) > 0 && Count(BiVisits(bi), bi.desc.dstPK) > 0
  {
    var vs := BiVisits(bi);
    assert vs[0] == bi.desc.srcPK && vs[|Visits(bi.forward)|] == bi.desc.dstPK;
    assert bi.desc.srcPK in multiset(vs) && bi.desc.dstPK in multiset(vs);
  }
}
