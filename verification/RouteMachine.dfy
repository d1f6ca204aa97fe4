/** One bidirectional route as a step machine: two route groups joined by two lanes of hops.
    Lane `s` carries what side `s` sends.  Each lane has a private queue per hop and records, per
    visor on its path, whether that visor still holds the lane's rule.  Network proves that any
    number of routes sharing visors, tables and transports behave like independent copies of this
    machine. */
module RouteMachine {
  import opened Routing
  import opened RouteGroups

  datatype Side = Init | Resp {
    function Other(): Side { if Init? then Resp else Init }
  }

  datatype Pair<T> = Pair(init: T, resp: T) {
    function At(s: Side): T { if s.Init? then init else resp }
    function Put(s: Side, t: T): (p: Pair<T>)
      ensures p.At(s) == t && p.At(s.Other()) == At(s.Other())
    {
      if s.Init? then this.(init := t) else this.(resp := t)
    }
  }

  /** `segs[i]` is in flight on hop i towards visor i + 1 of the path; `present[i]` says that visor i
      holds its rule: the forward rule at 0, the consume rule at |segs|. */
  datatype Lane = Lane(segs: seq<seq<Body>>, present: seq<bool>) {
    ghost predicate Shaped() { |segs| >= 1 && |present| == |segs| + 1 }
  }

  /** `registered` is membership of the group in the router's table of running groups. */
  datatype State = State(groups: Pair<Group>, registered: Pair<bool>, lanes: Pair<Lane>) {
    ghost predicate Shaped() { lanes.init.Shaped() && lanes.resp.Shaped() }
  }

  datatype Action = Do(s: Side, call: GroupCall) | Deliver(s: Side, i: nat)

  // ---- steps ----

  function Push(l: Lane, i: nat, out: seq<Body>): Lane
    requires i < |l.segs|
  {
    l.(segs := l.segs[i := l.segs[i] + out])
  }

  function Pop(l: Lane, i: nat): Lane
    requires i < |l.segs| && l.segs[i] != []
  {
    l.(segs := l.segs[i := l.segs[i][1..]])
  }

  function Drop(l: Lane, i: nat): Lane
    requires i < |l.present|
  {
    l.(present := l.present[i := false])
  }

  /** Perform a group's effect on side s: send on the lane of s, delete its forward rule if asked. */
  function Perform(st: State, s: Side, e: Effect): State
    requires st.Shaped()
  {
    var l := Push(st.lanes.At(s), 0, e.out);
    var l' := if e.dropForward then Drop(l, 0) else l;
    st.(groups := st.groups.Put(s, e.group), lanes := st.lanes.Put(s, l'))
  }

  /** A packet reaches a visor that no longer has the rule, one that forwards it, or the far end. */
  function DeliverAt(st: State, s: Side, i: nat): State
    requires st.Shaped() && i < |st.lanes.At(s).segs| && st.lanes.At(s).segs[i] != []
  {
    var l := st.lanes.At(s);
    var b := l.segs[i][0];
    if !l.present[i + 1] then st.(lanes := st.lanes.Put(s, Pop(l, i)))
    else if i + 1 < |l.segs| then
      var l' := Push(Pop(l, i), i + 1, [b]);
      st.(lanes := st.lanes.Put(s, if b.Close? then Drop(l', i + 1) else l'))
    else if b.Close? then
      var st' := st.(lanes := st.lanes.Put(s, Drop(Pop(l, i), i + 1)),
                     registered := st.registered.Put(s.Other(), false));
      if !st.registered.At(s.Other()) || st.groups.At(s.Other()).closed > 0 then st'
      else Perform(st', s.Other(), HandlePacket(st.groups.At(s.Other()), b))
    else
      var st' := st.(lanes := st.lanes.Put(s, Pop(l, i)));
      if !st.registered.At(s.Other()) then st'
      else Perform(st', s.Other(), HandlePacket(st.groups.At(s.Other()), b))
  }

  predicate Enabled(st: State, a: Action)
  {
    match a
    case Do(s, call) => Callable(st.groups.At(s), call)
    case Deliver(s, i) =>
      var l := st.lanes.At(s);
      && i < |l.segs| && |l.present| == |l.segs| + 1 && l.segs[i] != []
      && !(l.present[i + 1] && i + 1 == |l.segs| && st.registered.At(s.Other())
           && HandlePacket(st.groups.At(s.Other()), l.segs[i][0]).blocked)
  }

  function Apply(st: State, a: Action): State
    requires st.Shaped() && Enabled(st, a)
  {
    match a
    case Do(s, call) => Perform(st, s, CallEffect(st.groups.At(s), call))
    case Deliver(s, i) => DeliverAt(st, s, i)
  }

  lemma ApplyShaped(st: State, a: Action)
    requires st.Shaped() && Enabled(st, a)
    ensures Apply(st, a).Shaped()
  {
  }

  ghost predicate FreshLane(l: Lane)
  {
    && l.Shaped()
    && (forall i :: 0 <= i < |l.segs| ==> l.segs[i] == [])
    && (forall i :: 0 <= i < |l.present| ==> l.present[i])
  }

  /** A completed setup: all rules in place, nothing in flight, both groups new and running. */
  ghost predicate Initial(st: State)
  {
    && st.Shaped()
    && st.groups == Pair(FreshGroup, FreshGroup)
    && st.registered == Pair(true, true)
    && FreshLane(st.lanes.init) && FreshLane(st.lanes.resp)
  }

  ghost predicate Run(st: State, acts: seq<Action>, st': State)
    requires st.Shaped()
    decreases |acts|
  {
    if acts == [] then st' == st
    else Enabled(st, acts[0]) && (ApplyShaped(st, acts[0]); Run(Apply(st, acts[0]), acts[1..], st'))
  }

  lemma RunFirst(st: State, a: Action, rest: seq<Action>, st': State)
    requires st.Shaped() && Enabled(st, a) && Apply(st, a).Shaped() && Run(Apply(st, a), rest, st')
    ensures Run(st, [a] + rest, st')
  {
    hide Enabled, Apply;
    assert ([a] + rest)[1..] == rest;
  }

  lemma {:induction false} RunExtend(st: State, acts: seq<Action>, mid: State, a: Action)
    requires st.Shaped() && mid.Shaped() && Run(st, acts, mid) && Enabled(mid, a)
    ensures Run(st, acts + [a], Apply(mid, a))
    decreases |acts|
  {
    ApplyShaped(mid, a);
    if acts == [] {
      assert acts + [a] == [a] && [a][1..] == [];
      hide Apply, Enabled;
      assert Run(Apply(mid, a), [], Apply(mid, a));
    } else {
      ApplyShaped(st, acts[0]);
      hide Apply, Enabled;
      assert (acts + [a])[0] == acts[0] && (acts + [a])[1..] == acts[1..] + [a];
      RunExtend(Apply(st, acts[0]), acts[1..], mid, a);
    }
  }

  lemma PerformNothing(st: State, s: Side)
    requires st.Shaped()
    ensures Perform(st, s, Stay(st.groups.At(s))) == st
  {
    assert st.lanes.At(s).segs[0] + [] == st.lanes.At(s).segs[0];
    assert Push(st.lanes.At(s), 0, []).segs == st.lanes.At(s).segs;
  }
}
