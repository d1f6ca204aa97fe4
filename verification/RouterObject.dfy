/** The router as an object with a table of group objects, proved against the functions of Routers. */
module RouterObject {
  import opened Routing
  import opened RouteGroups
  import opened Routers
  import opened RouteGroupObject

  class Router {
    const be: Backend
    /** The groups that packets are dispatched to. */
    var rgsNs: map<Desc, RouteGroup>
    /** Also those the router has let go of and only the application still holds. */
    ghost var known: map<Desc, RouteGroup>

    /** Every group works on this router's table and transports, and no two descriptors share one. */
    ghost predicate Owned()
      reads this`known, known.Values
    {
      && (forall d :: d in known ==> known[d].be == be && known[d].Valid())
      && (forall d, d' :: d in known && d' in known && known[d] == known[d'] ==> d == d')
    }

    ghost predicate Valid()
      reads this, known.Values
    {
      Owned() && forall d :: d in rgsNs ==> d in known && known[d] == rgsNs[d]
    }

    ghost function Ends(): map<Desc, Endpoint>
      requires Owned()
      reads this`known, known.Values
    {
      map d | d in known :: Endpoint(known[d].Model(), known[d].fwd[0])
    }

    ghost function AsVisor(): (v: Visor)
      requires Valid()
      reads this, be, known.Values
      ensures GroupsOk(v)
    {
      Visor(be.nextID, be.rules, rgsNs.Keys, Ends())
    }

    constructor (be: Backend)
      ensures this.be == be && rgsNs == map[] && known == map[] && Valid()
    {
      this.be, rgsNs, known := be, map[], map[];
    }

    method SaveRoutingRules(rules: seq<Rule>)
      requires Valid()
      modifies be`rules
      ensures Valid() && SavedInOrder(old(be.rules), be.rules, rules, |rules|)
    {
      hide Owned, SavedInOrder;
      SavedNone(be.rules, rules);
      for i := 0 to |rules|
        invariant Valid() && SavedInOrder(old(be.rules), be.rules, rules, i)
      {
        SavedOne(old(be.rules), be.rules, rules, i);
        SaveRule(rules[i]);
      }
    }

    method SaveRule(rule: Rule)
      requires Valid()
      modifies be`rules
      ensures Valid() && be.rules == old(be.rules)[rule.key := rule]
    {
      be.rules := be.rules[rule.key := rule];
    }

    /** A new group for a descriptor not in use, after a successful handshake. */
    method SaveRouteGroupRules(desc: Desc, forward: Rule, reverse: Rule) returns (g: RouteGroup)
      requires Valid() && desc !in known && forward.Forward?
      modifies this
      ensures Valid() && fresh(g) && known == old(known)[desc := g] && rgsNs == old(rgsNs)[desc := g]
      ensures Ends() == old(Ends())[desc := Endpoint(FreshGroup, forward)]
    {
      hide Owned, Ends, RouteGroup.Model;
      g := new RouteGroup(be);
      g.AppendRules(forward, reverse, forward.tp);
      Register(desc, g);
    }

    method Register(desc: Desc, g: RouteGroup)
      requires Valid() && desc !in known && g !in known.Values && g.be == be && g.Valid()
      modifies this`rgsNs, this`known
      ensures Valid() && known == old(known)[desc := g] && rgsNs == old(rgsNs)[desc := g]
      ensures Ends() == old(Ends())[desc := Endpoint(g.Model(), g.fwd[0])]
    {
      hide RouteGroup.Model, RouteGroup.Valid;
      rgsNs := rgsNs[desc := g];
      known := known[desc := g];
    }

    /** The rule's transport gets the packet with the rule's next ID. */
    method ForwardPacket(p: Packet, rule: Rule)
      requires Valid() && !rule.Consume?
      modifies be`sent
      ensures Valid() && Ends() == old(Ends()) && be.sent == old(be.sent) + [(rule.tp, p.(id := rule.next))]
    {
      be.WritePacket(rule.tp, Packet(rule.next, p.body));
    }

    /** Hand a packet to the group of a descriptor that is running. */
    method Dispatch(desc: Desc, b: Body) returns (handled: bool)
      requires Valid() && desc in rgsNs
      modifies be`rules, be`sent, known.Values
      ensures Valid()
      ensures var ep := old(Ends())[desc];
              var e := RouteGroups.HandlePacket(ep.group, b);
              && handled == !e.blocked
              && Ends() == old(Ends())[desc := ep.(group := e.group)]
              && (handled ==> Carried(old(be.rules), be.rules, old(be.sent), be.sent, ep.fwd, e))
              && (!handled ==> be.rules == old(be.rules) && be.sent == old(be.sent))
    {
      hide RouteGroups.HandlePacket, Carried, RouteGroup.Model, RouteGroup.Valid;
      var rg := rgsNs[desc];
      handled := rg.HandlePacket(b);
      assert forall d :: d in known && d != desc ==> known[d] != rg;
    }

    method HandleClosePacket(p: Packet, rule: Rule)
      requires Valid() && p.body.Close?
      modifies this`rgsNs, be`rules, be`sent, known.Values
      ensures Valid()
      ensures Reacted(old(AsVisor()), AsVisor(), old(be.sent), be.sent, true,
                      Routers.HandleClose(old(AsVisor()), p, rule))
    {
      hide RouteGroups.HandlePacket;
      ghost var v, sent := AsVisor(), be.sent;
      if rule.Intermediary? {
        ForwardPacket(p, rule);
        DropRule(p.id);
        ForwardReacts(v, sent, p, rule);
        return;
      }
      ClosesGroup(p, rule);
    }

    /** The group reacts, unless it is closed; the rule and the registration go in any case. */
    method ClosesGroup(p: Packet, rule: Rule)
      requires Valid() && p.body.Close? && !rule.Intermediary?
      modifies this`rgsNs, be`rules, be`sent, known.Values
      ensures Valid()
      ensures Reacted(old(AsVisor()), AsVisor(), old(be.sent), be.sent, true,
                      Routers.HandleClose(old(AsVisor()), p, rule))
    {
      hide RouteGroups.HandlePacket, Carried, Reacted, Routers.HandleClose, Owned, Ends, Notified;
      ghost var v, sent := AsVisor(), be.sent;
      Notify(rule.desc, p.body);
      ghost var mid := be.rules;
      DropRule(p.id);
      Forget(rule.desc);
      CloseReacts(v, AsVisor(), sent, be.sent, mid, p, rule);
    }

    /** Tell a running group of a Close, unless it is closed itself. */
    method Notify(desc: Desc, b: Body)
      requires Valid() && b.Close?
      modifies be`rules, be`sent, known.Values
      ensures Valid()
      ensures Notified(old(AsVisor()), be.rules, Ends(), old(be.sent), be.sent, desc, b)
    {
      hide RouteGroups.HandlePacket, Carried;
      if desc in rgsNs && rgsNs[desc].closed == 0 {
        CloseNotBlocked(rgsNs[desc].Model(), b);
        var _ := Dispatch(desc, b);
      }
    }

    method DropRule(id: RouteID)
      requires Valid()
      modifies be`rules
      ensures Valid() && Ends() == old(Ends()) && be.rules == old(be.rules) - {id}
    {
      be.DelRules([id]);
      assert (set k | k in [id]) == {id};
    }

    method Forget(desc: Desc)
      requires Valid()
      modifies this`rgsNs
      ensures Valid() && Ends() == old(Ends()) && rgsNs == old(rgsNs) - {desc}
    {
      rgsNs := rgsNs - {desc};
    }

    /** Packets without a rule are dropped; the others go by kind of packet and kind of rule. */
    method HandleTransportPacket(p: Packet) returns (handled: bool)
      requires Valid()
      modifies this`rgsNs, be`rules, be`sent, known.Values
      ensures Valid()
      ensures Reacted(old(AsVisor()), AsVisor(), old(be.sent), be.sent, handled,
                      Routers.HandleTransportPacket(old(AsVisor()), p))
    {
      hide RouteGroups.HandlePacket, Routers.HandleClose, Owned, Ends, Carried;
      ghost var v, sent := AsVisor(), be.sent;
      handled := true;
      if p.id !in be.rules { return; }
      var rule := be.rules[p.id];
      if p.body.Close? {
        HandleClosePacket(p, rule);
      } else if p.body.KeepAlive? {
        if rule.Intermediary? { ForwardPacket(p, rule); }
      } else if !rule.Consume? {
        ForwardPacket(p, rule);
      } else {
        if rule.desc in rgsNs {
          BlockedKeeps(v.groups[rule.desc].group, p.body);
          handled := Dispatch(rule.desc, p.body);
          GroupReacts(v, AsVisor(), sent, be.sent, handled, rule.desc, p.body);
        }
      }
    }
  }

  /** None of the rules behind rule i, up to n, has its key. */
  predicate LastOfKey(rules: seq<Rule>, i: nat, n: nat)
    requires i < n <= |rules|
  {
    forall j :: i < j < n ==> rules[j].key != rules[i].key
  }

  predicate KeyOf(rules: seq<Rule>, n: nat, k: RouteID)
    requires n <= |rules|
  {
    exists i :: 0 <= i < n && rules[i].key == k
  }

  /** The first n rules are in the table under their keys, the last one of each key, and all other keys are
      as they were. */
  ghost predicate SavedInOrder(table: map<RouteID, Rule>, table': map<RouteID, Rule>, rules: seq<Rule>, n: nat)
    requires n <= |rules|
  {
    && (forall k: RouteID :: !KeyOf(rules, n, k) ==>
          (k in table' <==> k in table) && (k in table ==> table'[k] == table[k]))
    && (forall i :: 0 <= i < n && LastOfKey(rules, i, n) ==>
          rules[i].key in table' && table'[rules[i].key] == rules[i])
  }

  lemma SavedNone(table: map<RouteID, Rule>, rules: seq<Rule>)
    ensures SavedInOrder(table, table, rules, 0)
  {
  }

  lemma SavedOne(table: map<RouteID, Rule>, table': map<RouteID, Rule>, rules: seq<Rule>, n: nat)
    requires n < |rules| && SavedInOrder(table, table', rules, n)
    ensures SavedInOrder(table, table'[rules[n].key := rules[n]], rules, n + 1)
  {
    hide KeyOf, LastOfKey;
    var table1 := table'[rules[n].key := rules[n]];
    forall k: RouteID | !KeyOf(rules, n + 1, k)
      ensures (k in table1 <==> k in table) && (k in table ==> table1[k] == table[k])
    {
      KeyMore(rules, n, k);
    }
    forall i | 0 <= i < n + 1 && LastOfKey(rules, i, n + 1)
      ensures rules[i].key in table1 && table1[rules[i].key] == rules[i]
    {
      if i < n { LastMore(rules, i, n); }
    }
  }

  lemma KeyMore(rules: seq<Rule>, n: nat, k: RouteID)
    requires n < |rules| && !KeyOf(rules, n + 1, k)
    ensures !KeyOf(rules, n, k) && k != rules[n].key
  {
  }

  lemma LastMore(rules: seq<Rule>, i: nat, n: nat)
    requires i < n < |rules| && LastOfKey(rules, i, n + 1)
    ensures LastOfKey(rules, i, n) && rules[i].key != rules[n].key
  {
  }

  /** The visor and the record of sent packets after a reaction; a blocked packet has no effect yet. */
  ghost predicate Reacted(v: Visor, v': Visor, sent: seq<(UUID, Packet)>, sent': seq<(UUID, Packet)>, handled: bool,
                          r: Reaction)
  {
    && handled == !r.blocked
    && (handled ==> v' == r.visor)
    && (handled ==> sent' == sent + if r.send.None? then [] else Posted(r.send.value.tp, r.send.value.packets))
    && (!handled ==> v' == v && sent' == sent)
  }

  lemma BlockedKeeps(g: Group, b: Body)
    ensures RouteGroups.HandlePacket(g, b).blocked ==> RouteGroups.HandlePacket(g, b).group == g
  {
  }

  lemma ForwardReacts(v: Visor, sent: seq<(UUID, Packet)>, p: Packet, rule: Rule)
    requires GroupsOk(v) && rule.Intermediary?
    ensures Reacted(v, v.(rules := v.rules - {p.id}), sent, sent + [(rule.tp, p.(id := rule.next))], true,
                    Routers.HandleClose(v, p, rule))
  {
    assert Posted(rule.tp, [p.(id := rule.next)]) == [(rule.tp, p.(id := rule.next))];
  }

  lemma GroupReacts(v: Visor, v': Visor, sent: seq<(UUID, Packet)>, sent': seq<(UUID, Packet)>, handled: bool,
                    desc: Desc, b: Body)
    requires GroupsOk(v) && desc in v.running
    requires var ep := v.groups[desc];
             var e := RouteGroups.HandlePacket(ep.group, b);
             && handled == !e.blocked && (e.blocked ==> e.group == ep.group)
             && v' == v.(rules := v'.rules, groups := v.groups[desc := ep.(group := e.group)])
             && (handled ==> Carried(v.rules, v'.rules, sent, sent', ep.fwd, e))
             && (!handled ==> v'.rules == v.rules && sent' == sent)
    ensures Reacted(v, v', sent, sent', handled, ToGroup(v, desc, b))
  {
    hide RouteGroups.HandlePacket;
    if !handled { assert v.groups[desc := v.groups[desc]] == v.groups; }
  }

  ghost predicate Notified(v: Visor, rules: map<RouteID, Rule>, ends: map<Desc, Endpoint>,
                           sent: seq<(UUID, Packet)>, sent': seq<(UUID, Packet)>, desc: Desc, b: Body)
    requires GroupsOk(v)
  {
    if desc in v.running && v.groups[desc].group.closed == 0 then
      var ep := v.groups[desc];
      var e := RouteGroups.HandlePacket(ep.group, b);
      Carried(v.rules, rules, sent, sent', ep.fwd, e) && ends == v.groups[desc := ep.(group := e.group)]
    else rules == v.rules && ends == v.groups && sent' == sent
  }

  lemma CloseReacts(v: Visor, v': Visor, sent: seq<(UUID, Packet)>, sent': seq<(UUID, Packet)>, mid: map<RouteID, Rule>,
                    p: Packet, rule: Rule)
    requires GroupsOk(v) && !rule.Intermediary? && p.body.Close?
    requires v' == v.(rules := mid - {p.id}, groups := v'.groups, running := v.running - {rule.desc})
    requires Notified(v, mid, v'.groups, sent, sent', rule.desc, p.body)
    ensures Reacted(v, v', sent, sent', true, Routers.HandleClose(v, p, rule))
  {
    if rule.desc in v.running { CloseNotBlocked(v.groups[rule.desc].group, p.body); }
    hide RouteGroups.HandlePacket;
  }
}
