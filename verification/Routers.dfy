/** What a router does with a packet that arrives from a transport.  Rule expiry is not part of this
    module: see Table for the table itself and PacketCodec for the bytes of the forwarded packet. */
module Routers {
  import opened Routing
  import opened RouteGroups

  /** A group with the forward rule it writes on. */
  datatype Endpoint = Endpoint(group: Group, fwd: Rule) {
    ghost predicate Valid() { fwd.Forward? }
  }

  /** `running` holds the descriptors of the groups the router dispatches to; a group outlives its
      entry, because the application still holds it. */
  datatype Visor = Visor(next: nat, rules: map<RouteID, Rule>, running: set<Desc>, groups: map<Desc, Endpoint>)

  /** Packets handed to one transport, in order. */
  datatype Burst = Burst(tp: UUID, packets: seq<Packet>)

  datatype Reaction = Reaction(visor: Visor, send: Option<Burst>, blocked: bool)

  function Ignore(v: Visor): Reaction { Reaction(v, None, false) }

  function Addressed(id: RouteID, bs: seq<Body>): (ps: seq<Packet>)
    ensures |ps| == |bs| && forall i :: 0 <= i < |bs| ==> ps[i] == Packet(id, bs[i])
  {
    seq(|bs|, i requires 0 <= i < |bs| => Packet(id, bs[i]))
  }

  /** Carry out the effect of a group call. */
  function PerformAt(v: Visor, desc: Desc, e: Effect): Reaction
    requires desc in v.groups && v.groups[desc].fwd.Forward?
  {
    var ep := v.groups[desc];
    var v' := v.(groups := v.groups[desc := ep.(group := e.group)],
                 rules := if e.dropForward then v.rules - {ep.fwd.key} else v.rules);
    Reaction(v', Some(Burst(ep.fwd.tp, Addressed(ep.fwd.next, e.out))), e.blocked)
  }

  /** The packet goes on with the rule's next route ID; everything else in it is unchanged. */
  function ForwardPacket(v: Visor, p: Packet, rule: Rule): Reaction
    requires !rule.Consume?
  {
    Reaction(v, Some(Burst(rule.tp, [p.(id := rule.next)])), false)
  }

  ghost predicate GroupsOk(v: Visor)
  {
    && v.running <= v.groups.Keys
    && forall d :: d in v.groups ==> v.groups[d].fwd.Forward?
  }

  function ToGroup(v: Visor, desc: Desc, b: Body): Reaction
    requires GroupsOk(v)
  {
    if desc in v.running then PerformAt(v, desc, HandlePacket(v.groups[desc].group, b)) else Ignore(v)
  }

  /** Whatever happens to a Close packet, the rule it matched is deleted, and a group that it reaches
      is forgotten. */
  function HandleClose(v: Visor, p: Packet, rule: Rule): Reaction
    requires GroupsOk(v)
  {
    if rule.Intermediary? then
      ForwardPacket(v.(rules := v.rules - {p.id}), p, rule)
    else
      var r := if rule.desc in v.running && v.groups[rule.desc].group.closed > 0 then Ignore(v)
               else ToGroup(v, rule.desc, p.body);
      r.(visor := r.visor.(rules := r.visor.rules - {p.id}, running := v.running - {rule.desc}))
  }

  function HandleTransportPacket(v: Visor, p: Packet): Reaction
    requires GroupsOk(v)
  {
    if p.id !in v.rules then Ignore(v)
    else
      var rule := v.rules[p.id];
      match p.body
      case Close(_) => HandleClose(v, p, rule)
      case KeepAlive => if rule.Intermediary? then ForwardPacket(v, p, rule) else Ignore(v)
      case _ => if rule.Consume? then ToGroup(v, rule.desc, p.body) else ForwardPacket(v, p, rule)
  }
}
