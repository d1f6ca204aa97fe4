/** The ID manager: a map from 16-bit IDs to values with a cursor that walks the IDs as a ring.  A
    reserved ID whose value is not set yet maps to None (nil). */
module IdRing {
  import opened Routing

  const RING := 0x1_0000

  type ID = x: int | 0 <= x < RING

  function After(id: ID): ID { (id + 1) % RING }

  /** How far the cursor has to move from a to reach b. */
  function Ahead(a: ID, b: ID): (d: nat)
    ensures d < RING && (d == 0 <==> a == b)
  {
    if b >= a then b - a else b - a + RING
  }

  datatype Ring<V> = Ring(values: map<ID, Option<V>>, lstID: ID)

  /** `id` is the first free ID after the cursor; the cursor's own ID is never considered. */
  ghost predicate FirstFree<V>(r: Ring<V>, id: ID)
  {
    && id != r.lstID && id !in r.values
    && forall y: ID :: 0 < Ahead(r.lstID, y) < Ahead(r.lstID, id) ==> y in r.values
  }

  ghost predicate Full<V>(r: Ring<V>) { forall y: ID :: y != r.lstID ==> y in r.values }

  /** There is at most one such ID, and there is none exactly when the ring is full. */
  lemma FirstFreeUnique<V>(r: Ring<V>, a: ID, b: ID)
    requires FirstFree(r, a)
    ensures !Full(r) && (FirstFree(r, b) ==> a == b)
  {
    assert FirstFree(r, b) ==> Ahead(r.lstID, a) == Ahead(r.lstID, b);
  }

  function Reserve<V>(r: Ring<V>, id: ID): Ring<V> { r.(values := r.values[id := None], lstID := id) }

  function Remove<V>(r: Ring<V>, id: ID): Ring<V> { r.(values := r.values - {id}) }

  predicate Empty<V>(r: Ring<V>, id: ID) { id in r.values && r.values[id].None? }
  predicate Filled<V>(r: Ring<V>, id: ID) { id in r.values && r.values[id].Some? }

  function Fill<V>(r: Ring<V>, id: ID, v: V): Ring<V> { r.(values := r.values[id := Some(v)]) }

  /** CloseAll removes the values that are set and leaves reserved slots alone. */
  function EmptySlots<V>(r: Ring<V>): Ring<V>
  {
    r.(values := map id | id in r.values && r.values[id].None? :: r.values[id])
  }

  class Manager<V> {
    var values: map<ID, Option<V>>
    var lstID: ID

    ghost function Model(): Ring<V> reads this { Ring(values, lstID) }

    constructor ()
      ensures Model() == Ring(map[], 0)
    {
      values, lstID := map[], 0;
    }

    /** The search wraps around and ends at the cursor itself. */
    method ReserveNextID() returns (id: Option<ID>)
      modifies this
      ensures id.None? <==> Full(old(Model()))
      ensures id.None? ==> Model() == old(Model())
      ensures id.Some? ==> FirstFree(old(Model()), id.value) && Model() == Reserve(old(Model()), id.value)
      ensures id.Some? ==> lstID == id.value && values == old(values)[id.value := None]
    {
      var nxtID := After(lstID);
      while nxtID != lstID && nxtID in values
        invariant forall y: ID ::
          0 < Ahead(lstID, y) && (nxtID == lstID || Ahead(lstID, y) < Ahead(lstID, nxtID)) ==> y in values
        decreases if nxtID == lstID then 0 else RING - Ahead(lstID, nxtID)
      {
        nxtID := After(nxtID);
      }
      if nxtID == lstID { return None; }
      assert FirstFree(Model(), nxtID) && nxtID !in values;
      values := values[nxtID := None];
      lstID := nxtID;
      return Some(nxtID);
    }

    method Pop(id: ID) returns (v: Option<V>)
      modifies this
      ensures v.Some? <==> Filled(old(Model()), id)
      ensures v.Some? ==> old(values)[id] == v && Model() == Remove(old(Model()), id)
      ensures values == (if v.Some? then old(values) - {id} else old(values)) && lstID == old(lstID)
      ensures v.None? ==> Model() == old(Model())
    {
      if id !in values || values[id].None? { return None; }
      v := values[id];
      values := values - {id};
    }

    method Add(id: ID, v: V) returns (ok: bool)
      modifies this
      ensures ok <==> id !in old(values)
      ensures Model() == if ok then Fill(old(Model()), id, v) else old(Model())
      ensures values == (if ok then old(values)[id := Some(v)] else old(values)) && lstID == old(lstID)
    {
      if id in values { return false; }
      values := values[id := Some(v)];
      return true;
    }

    method Set(id: ID, v: V) returns (ok: bool)
      modifies this
      ensures ok <==> id in old(values) && old(values)[id] == None
      ensures Model() == if ok then Fill(old(Model()), id, v) else old(Model())
      ensures values == (if ok then old(values)[id := Some(v)] else old(values)) && lstID == old(lstID)
    {
      if id !in values || values[id].Some? { return false; }
      values := values[id := Some(v)];
      return true;
    }

    method Get(id: ID) returns (v: Option<V>)
      ensures v.Some? <==> Filled(Model(), id)
      ensures v.Some? ==> v == values[id]
    {
      if id !in values { return None; }
      return values[id];
    }

    method CloseAll() returns (closed: seq<V>)
      modifies this
      ensures Model() == EmptySlots(old(Model())) && lstID == old(lstID)
      ensures forall id :: id in values <==> id in old(values) && old(values)[id] == None
      ensures forall v :: v in closed <==> exists id: ID :: Filled(old(Model()), id) && old(values)[id].value == v
    {
      closed := [];
      var todo := values.Keys;
      ghost var r := Model();
      while todo != {}
        invariant todo <= r.values.Keys && lstID == r.lstID
        invariant values == map id | id in r.values && (id in todo || r.values[id].None?) :: r.values[id]
        invariant forall v :: v in closed <==> exists id: ID :: Filled(r, id) && id !in todo && r.values[id].value == v
        decreases todo
      {
        var k :| k in todo;
        var c := values[k];
        if c.Some? {
          values := values - {k};
          closed := closed + [c.value];
        }
        todo := todo - {k};
      }
    }
  }

  /** The function that frees a slot; it acts once. */
  class FreeFunc<V> {
    const m: Manager<V>
    const id: ID
    var used: bool

    constructor (m: Manager<V>, id: ID)
      ensures this.m == m && this.id == id && !used
    {
      this.m, this.id, used := m, id, false;
    }

    method Call() returns (freed: bool)
      modifies this, m
      ensures used && freed == !old(used)
      ensures m.Model() == if freed then Remove(old(m.Model()), id) else old(m.Model())
    {
      freed := false;
      if !used {
        used, freed := true, true;
        m.values := m.values - {id};
      }
    }
  }

  // ---- reuse of an ID ----

  /** One step of a manager: a reservation, or any change of its values that leaves the cursor. */
  ghost predicate Steps<V(!new)>(r: Ring<V>, r': Ring<V>)
  {
    r'.lstID == r.lstID || (FirstFree(r, r'.lstID) && r' == Reserve(r, r'.lstID))
  }

  ghost predicate Trace<V(!new)>(h: seq<Ring<V>>) { forall i :: 0 < i < |h| ==> Steps(h[i - 1], h[i]) }

  ghost predicate Issues<V(!new)>(h: seq<Ring<V>>, i: nat, x: ID)
  {
    0 < i < |h| && h[i].lstID == x != h[i - 1].lstID
  }

  /** The step to h[m] issues y, or its cursor moves past y while y is occupied. */
  ghost predicate Passes<V(!new)>(h: seq<Ring<V>>, m: nat, y: ID)
  {
    && 0 < m < |h| && h[m].lstID != h[m - 1].lstID
    && (h[m].lstID == y ||
        (0 < Ahead(h[m - 1].lstID, y) < Ahead(h[m - 1].lstID, h[m].lstID) && y in h[m - 1].values))
  }

  /** Before an ID is issued again the cursor goes all the way round: every other ID is issued in
      between, or was occupied when the cursor passed it. */
  lemma FairReuse<V(!new)>(h: seq<Ring<V>>, i: nat, j: nat, x: ID, y: ID)
    requires Trace(h) && i < j && Issues(h, i, x) && Issues(h, j, x) && y != x
    ensures exists m :: i < m <= j && Passes(h, m, y)
  {
    var m := PassedSince(h, i, j, x, y);
  }

  lemma {:induction false} PassedSince<V(!new)>(h: seq<Ring<V>>, k: nat, j: nat, x: ID, y: ID) returns (m: nat)
    requires Trace(h) && k < j < |h| && Issues(h, j, x) && y != x
    requires Ahead(x, h[k].lstID) < Ahead(x, y)
    ensures k < m <= j && Passes(h, m, y)
    decreases j - k
  {
    hide Ahead;
    assert Steps(h[k + 1 - 1], h[k + 1]);
    var a, b := h[k].lstID, h[k + 1].lstID;
    NotYet(x, a, b, y);
    if a != b && Ahead(a, y) <= Ahead(a, b) {
      m := k + 1;
    } else if k + 1 == j {
      assert false;
    } else {
      m := PassedSince(h, k + 1, j, x, y);
    }
  }

  /** A cursor that has not reached y, counted from x, and stops short of it, is still before it. */
  lemma NotYet(x: ID, a: ID, b: ID, y: ID)
    requires Ahead(x, a) < Ahead(x, y)
    ensures 0 < Ahead(a, y) && (b == y ==> Ahead(a, y) == Ahead(a, b)) && (Ahead(a, y) == Ahead(a, b) ==> b == y)
    ensures Ahead(a, b) < Ahead(a, y) ==> Ahead(x, b) < Ahead(x, y) && (a != b ==> b != x)
  {
  }
}
