/** The RPC gateway's bookkeeping of connections: Dial and Accept reserve a slot, work without a lock
    and then fill or free it, in any interleaving with each other, CloseConn and CloseAll.  Listeners
    use a second manager in the same way, without the wrapping step. */
module Gateway {
  import opened Routing
  import opened IdRing

  type Conn = nat
  type CallNo = nat

  /** `calls` are the Dial and Accept calls between reservation and result; `open` the connections that
      were made and not closed; `stray` those of them whose wrapping failed. */
  datatype State = State(cm: Ring<Conn>, calls: map<CallNo, ID>, open: set<Conn>, stray: set<Conn>)

  datatype Action =
    | Begin(c: CallNo, slot: Option<ID>)
    | FailDial(c: CallNo)
    | FailWrap(c: CallNo, conn: Conn)
    | Finish(c: CallNo, conn: Conn)
    | CloseConn(id: ID)
    | CloseAll

  ghost predicate Enabled(st: State, a: Action)
  {
    match a
    case Begin(c, id) => c !in st.calls && if id.None? then Full(st.cm) else FirstFree(st.cm, id.value)
    case FailDial(c) => c in st.calls
    case FailWrap(c, conn) => c in st.calls && conn !in st.open
    case Finish(c, conn) => c in st.calls && conn !in st.open
    case CloseConn(id) => true
    case CloseAll => true
  }

  function Conns(cm: Ring<Conn>): set<Conn> { set id | id in cm.values && cm.values[id].Some? :: cm.values[id].value }

  function Apply(st: State, a: Action): State
    requires (a.FailDial? || a.FailWrap? || a.Finish?) ==> a.c in st.calls
  {
    match a
    case Begin(c, id) =>
      if id.None? then st else st.(cm := Reserve(st.cm, id.value), calls := st.calls[c := id.value])
    case FailDial(c) => st.(cm := Remove(st.cm, st.calls[c]), calls := st.calls - {c})
    case FailWrap(c, conn) =>
      st.(cm := Remove(st.cm, st.calls[c]), calls := st.calls - {c},
          open := st.open + {conn}, stray := st.stray + {conn})
    case Finish(c, conn) =>
      if Empty(st.cm, st.calls[c]) then
        st.(cm := Fill(st.cm, st.calls[c], conn), calls := st.calls - {c}, open := st.open + {conn})
      else
        st.(cm := Remove(st.cm, st.calls[c]), calls := st.calls - {c})
    case CloseConn(id) =>
      if Filled(st.cm, id) then st.(cm := Remove(st.cm, id), open := st.open - {st.cm.values[id].value}) else st
    case CloseAll => st.(cm := EmptySlots(st.cm), open := st.open - Conns(st.cm))
  }

  ghost predicate Run(st: State, acts: seq<Action>, st': State)
    decreases |acts|
  {
    if acts == [] then st' == st else Enabled(st, acts[0]) && Run(Apply(st, acts[0]), acts[1..], st')
  }

  ghost predicate Initial(st: State) { st.cm.values == map[] && st.calls == map[] && st.open == {} && st.stray == {} }

  // ---- accounting ----

  /** Empty slots are exactly the slots of calls in progress, one each. */
  ghost predicate SlotsAreCalls(st: State)
  {
    && (forall id: ID :: Empty(st.cm, id) <==> exists c :: c in st.calls && st.calls[c] == id)
    && (forall c, c' :: c in st.calls && c' in st.calls && st.calls[c] == st.calls[c'] ==> c == c')
  }

  /** Filled slots are exactly the open connections, one each, apart from the stray ones. */
  ghost predicate SlotsAreConns(st: State)
  {
    && Conns(st.cm) + st.stray == st.open && Conns(st.cm) !! st.stray
    && (forall id: ID, id': ID ::
          Filled(st.cm, id) && Filled(st.cm, id') && st.cm.values[id] == st.cm.values[id'] ==> id == id')
  }

  /** Afterwards too, the call of an empty slot. */
  lemma CallOf(st: State, a: Action, id: ID) returns (c: CallNo)
    requires SlotsAreCalls(st) && Enabled(st, a) && Empty(Apply(st, a).cm, id)
    ensures c in Apply(st, a).calls && Apply(st, a).calls[c] == id
  {
    if a.Begin? && a.slot == Some(id) {
      c := a.c;
    } else {
      assert Empty(st.cm, id);
      c :| c in st.calls && st.calls[c] == id;
    }
  }

  lemma SlotOf(st: State, a: Action, c: CallNo)
    requires SlotsAreCalls(st) && Enabled(st, a) && c in Apply(st, a).calls
    ensures Empty(Apply(st, a).cm, Apply(st, a).calls[c])
    ensures !(a.Begin? && a.c == c) ==>
      c in st.calls && st.calls[c] == Apply(st, a).calls[c] && Empty(st.cm, st.calls[c])
  {
    if !(a.Begin? && a.c == c) { assert Empty(st.cm, st.calls[c]); }
  }

  lemma StepKeepsCalls(st: State, a: Action)
    requires SlotsAreCalls(st) && Enabled(st, a)
    ensures SlotsAreCalls(Apply(st, a))
  {
    var st' := Apply(st, a);
    forall c | c in st'.calls
      ensures Empty(st'.cm, st'.calls[c])
      ensures !(a.Begin? && a.c == c) ==> c in st.calls && st.calls[c] == st'.calls[c] && Empty(st.cm, st.calls[c])
    {
      SlotOf(st, a, c);
    }
    forall id: ID | Empty(st'.cm, id) ensures exists c :: c in st'.calls && st'.calls[c] == id {
      var c := CallOf(st, a, id);
    }
  }

  lemma ConnsAfter(cm: Ring<Conn>, id: ID, conn: Conn)
    ensures !Filled(cm, id) ==> Conns(Remove(cm, id)) == Conns(cm) && Conns(Reserve(cm, id)) == Conns(cm)
    ensures !Filled(cm, id) ==> Conns(Fill(cm, id, conn)) == Conns(cm) + {conn}
    ensures Conns(EmptySlots(cm)) == {}
  {
    if !Filled(cm, id) {
      var cm' := Fill(cm, id, conn);
      assert cm'.values[id].value in Conns(cm');
      forall x | x in Conns(cm) ensures x in Conns(cm') && x in Conns(Remove(cm, id)) && x in Conns(Reserve(cm, id)) {
        var i :| i in cm.values && cm.values[i].Some? && cm.values[i].value == x;
        assert Filled(cm, i) && i != id;
        assert cm'.values[i] == cm.values[i] && Remove(cm, id).values[i] == cm.values[i];
        assert Reserve(cm, id).values[i] == cm.values[i];
      }
    }
  }

  /** The connection of a slot leaves with it, if no other slot has it. */
  lemma ConnsPopped(cm: Ring<Conn>, id: ID)
    requires Filled(cm, id)
    requires forall i: ID :: Filled(cm, i) && cm.values[i] == cm.values[id] ==> i == id
    ensures Conns(Remove(cm, id)) == Conns(cm) - {cm.values[id].value}
  {
    var cm' := Remove(cm, id);
    forall x | x in Conns(cm) && x != cm.values[id].value ensures x in Conns(cm') {
      var i :| i in cm.values && cm.values[i].Some? && cm.values[i].value == x;
      assert cm'.values[i] == cm.values[i];
    }
    forall x | x in Conns(cm') ensures x in Conns(cm) && x != cm.values[id].value {
      var i :| i in cm'.values && cm'.values[i].Some? && cm'.values[i].value == x;
      assert Filled(cm, i);
    }
  }

  lemma StepKeepsConns(st: State, a: Action)
    requires SlotsAreCalls(st) && SlotsAreConns(st) && Enabled(st, a)
    ensures SlotsAreConns(Apply(st, a))
  {
    var st' := Apply(st, a);
    match a
    case Begin(c, id) => if id.Some? { ConnsAfter(st.cm, id.value, 0); }
    case FailDial(c) => assert Empty(st.cm, st.calls[c]); ConnsAfter(st.cm, st.calls[c], 0);
    case FailWrap(c, conn) => assert Empty(st.cm, st.calls[c]); ConnsAfter(st.cm, st.calls[c], 0);
    case Finish(c, conn) =>
      assert Empty(st.cm, st.calls[c]);
      ConnsAfter(st.cm, st.calls[c], conn);
      forall id: ID | Filled(st.cm, id) ensures st.cm.values[id].value in st.open {
        assert st.cm.values[id].value in Conns(st.cm);
      }
    case CloseConn(id) =>
      if Filled(st.cm, id) {
        ConnsPopped(st.cm, id);
        assert st.cm.values[id].value in Conns(st.cm);
      }
    case CloseAll => ConnsAfter(st.cm, 0, 0);
  }

  lemma {:induction false} RunKeeps(st: State, acts: seq<Action>, st': State)
    requires SlotsAreCalls(st) && SlotsAreConns(st) && Run(st, acts, st')
    ensures SlotsAreCalls(st') && SlotsAreConns(st')
    decreases |acts|
  {
    if acts != [] {
      StepKeepsCalls(st, acts[0]);
      StepKeepsConns(st, acts[0]);
      hide SlotsAreCalls, SlotsAreConns, Apply, Enabled;
      RunKeeps(Apply(st, acts[0]), acts[1..], st');
    }
  }

  ghost predicate WrapsAll(acts: seq<Action>) { forall i :: 0 <= i < |acts| ==> !acts[i].FailWrap? }

  lemma {:induction false} RunStray(st: State, acts: seq<Action>, st': State)
    requires Run(st, acts, st')
    ensures st'.stray == {} <==> st.stray == {} && WrapsAll(acts)
    decreases |acts|
  {
    if acts != [] {
      var mid := Apply(st, acts[0]);
      assert mid.stray == {} <==> st.stray == {} && !acts[0].FailWrap? by {
        if acts[0].FailWrap? { assert acts[0].conn in mid.stray; }
      }
      hide Apply, Enabled;
      RunStray(mid, acts[1..], st');
      assert WrapsAll(acts) <==> !acts[0].FailWrap? && WrapsAll(acts[1..]) by { WrapsFirst(acts); }
    }
  }

  lemma WrapsFirst(acts: seq<Action>)
    requires acts != []
    ensures WrapsAll(acts) <==> !acts[0].FailWrap? && WrapsAll(acts[1..])
  {
    if !acts[0].FailWrap? && WrapsAll(acts[1..]) {
      forall i | 0 <= i < |acts| ensures !acts[i].FailWrap? {
        if i > 0 { assert acts[i] == acts[1..][i - 1]; }
      }
    }
  }

  /** In every interleaving with failures at any point: empty slots are the calls in progress, and filled
      slots are open connections, one each; they are all the open connections if and only if no
      connection failed to be wrapped. */
  lemma Accounting(st0: State, acts: seq<Action>, st: State)
    requires Initial(st0) && Run(st0, acts, st)
    ensures SlotsAreCalls(st) && SlotsAreConns(st)
    ensures Conns(st.cm) == st.open <==> forall i :: 0 <= i < |acts| ==> !acts[i].FailWrap?
  {
    assert Conns(st0.cm) == {};
    RunKeeps(st0, acts, st);
    RunStray(st0, acts, st);
  }

  const NewGateway := State(Ring(map[], 0), map[], {}, {})

  /** The exception is real: after one call whose wrapping fails, its connection is open and no slot
      knows of it, so that neither CloseConn nor CloseAll can reach it. */
  lemma FailedWrapLeaks(conn: Conn)
    ensures var acts := [Begin(0, Some(1)), FailWrap(0, conn)];
            var st := NewGateway.(cm := Ring(map[], 1), open := {conn}, stray := {conn});
            && Initial(NewGateway) && Run(NewGateway, acts, st) && st.cm.values == map[] && conn in st.open
            && conn in Apply(st, CloseAll).open && forall id :: Apply(st, CloseConn(id)) == st
  {
    var a, b := Begin(0, Some(1)), FailWrap(0, conn);
    var st1 := Apply(NewGateway, a);
    var st2 := NewGateway.(cm := Ring(map[], 1), open := {conn}, stray := {conn});
    assert Enabled(NewGateway, a);
    assert Apply(st1, b) == st2;
    assert [a, b][1..] == [b] && [b][1..] == [];
    assert Run(st2, [], st2);
    assert Run(st1, [b], st2);
  }

  ghost predicate ActionOf(a: Action, c: CallNo)
  {
    (a.Begin? || a.FailDial? || a.FailWrap? || a.Finish?) && a.c == c
  }

  /** A reserved slot stays with its call and stays empty until that call ends it, so the Set that
      follows a reservation never fails. */
  lemma {:induction false} SlotStays(st: State, acts: seq<Action>, st': State, c: CallNo)
    requires SlotsAreCalls(st) && Run(st, acts, st') && c in st.calls
    requires forall i :: 0 <= i < |acts| ==> !ActionOf(acts[i], c)
    ensures c in st'.calls && st'.calls[c] == st.calls[c] && Empty(st'.cm, st.calls[c])
    decreases |acts|
  {
    if acts == [] {
      assert Empty(st.cm, st.calls[c]);
    } else {
      assert !ActionOf(acts[0], c);
      StepKeepsCalls(st, acts[0]);
      forall i | 0 <= i < |acts[1..]| ensures !ActionOf(acts[1..][i], c) { assert acts[1..][i] == acts[i + 1]; }
      SlotStays(Apply(st, acts[0]), acts[1..], st', c);
    }
  }

  lemma SetNeverFails(st0: State, acts: seq<Action>, st: State, c: CallNo, conn: Conn)
    requires Initial(st0) && Run(st0, acts, st) && Enabled(st, Finish(c, conn))
    ensures var st' := Apply(st, Finish(c, conn));
            Filled(st'.cm, st.calls[c]) && st'.cm.values[st.calls[c]] == Some(conn) && conn in st'.open
  {
    Accounting(st0, acts, st);
    assert Empty(st.cm, st.calls[c]);
  }
}
