/** Runs that show what a call can do that was let in before its own end's Close took the mutex: the
    conditions in EndOfStream are needed. */
module LetIn {
  import opened Routing
  import opened RouteGroups
  import opened RouteMachine
  import opened EndOfStream

  const OneHop := Lane([[]], [true, true])
  const Start := State(Pair(FreshGroup, FreshGroup), Pair(true, true), Pair(OneHop, OneHop))

  /** One step of a run, with its result spelled out. */
  ghost predicate Goes(st: State, a: Action, st': State)
  {
    st.Shaped() && st'.Shaped() && Enabled(st, a) && Apply(st, a) == st'
  }

  /** A run given by its states. */
  ghost predicate Path(sts: seq<State>, acts: seq<Action>)
  {
    && |sts| == |acts| + 1 && sts[0].Shaped()
    && forall i :: 0 <= i < |acts| ==> Goes(sts[i], acts[i], sts[i + 1])
  }

  lemma {:induction false} PathRuns(sts: seq<State>, acts: seq<Action>, k: nat)
    requires Path(sts, acts) && k <= |acts|
    ensures Run(sts[0], acts[..k], sts[k])
  {
    hide Apply, Enabled;
    if k > 0 {
      PathRuns(sts, acts, k - 1);
      assert Goes(sts[k - 1], acts[k - 1], sts[k - 1 + 1]);
      RunExtend(sts[0], acts[..k - 1], sts[k - 1], acts[k - 1]);
      assert acts[..k] == acts[..k - 1] + [acts[k - 1]];
    }
  }

  const Asking := Close(CLOSE_REQUESTED)
  const Asked := Lane([[Asking]], [true, true])
  const AskedAfter := Lane([[Asking]], [false, true])

  // ---- a Write let in before Close, sent after it ----

  const Byte: bytes := [7]
  const W1 := FreshGroup.(writing := AtLock(Byte))
  const W2 := W1.(closeInitiated := true, waiting := true, closeDone := 1, closesSent := 1)
  const W3 := W2.(waiting := false, once := true, closed := 1, remoteClosed := 1, readChClosed := 1)
  const W4 := W3.(writing := Sending(Byte))
  const W5 := W4.(writing := NotWriting, written := Byte, late := 1)
  const R1 := FreshGroup.(closesSent := 1, once := true, remoteClosed := 1, readChClosed := 1)
  const R2 := R1.(reading := Entered(1))
  const R3 := R1.(reading := Selecting(1))

  const Consumed := Lane([[]], [true, false])
  const Bare := Lane([[]], [false, false])
  const Stray := Lane([[Data(Byte)]], [false, false])
  const HalfOff := Pair(true, false)

  const L1 := State(Pair(W1, FreshGroup), Pair(true, true), Pair(OneHop, OneHop))
  const L2 := State(Pair(W2, FreshGroup), Pair(true, true), Pair(Asked, OneHop))
  const L3 := State(Pair(W2, R1), HalfOff, Pair(Consumed, AskedAfter))
  const L4 := State(Pair(W3, R1), HalfOff, Pair(Bare, AskedAfter))
  const L5 := State(Pair(W4, R1), HalfOff, Pair(Bare, AskedAfter))
  const L6 := State(Pair(W5, R1), HalfOff, Pair(Stray, AskedAfter))
  const L7 := State(Pair(W5, R2), HalfOff, Pair(Stray, AskedAfter))
  const L8 := State(Pair(W5, R3), HalfOff, Pair(Stray, AskedAfter))

  const LateActs: seq<Action> :=
    [Do(Init, CallEnterWrite(Byte)), Do(Init, CallBeginClose), Deliver(Init, 0), Do(Init, CallFinishClose),
     Do(Init, CallLockWrite), Do(Init, CallSendWrite), Do(Resp, CallEnterRead(1)), Do(Resp, CallLockRead)]

  /** The Write is let in, its end closes, the other end answers, the wait ends, and only then does the
      Write send: it succeeds, and the other end reports EOF without ever having seen its byte. */
  lemma LateWriteIsLost()
    ensures RouteMachine.Initial(Start) && Run(Start, LateActs, L8)
    ensures AtEOF(L8.groups.resp) && !L8.groups.resp.closeInitiated
    ensures L8.groups.init.closed == 1 && L8.groups.init.written == Byte && L8.groups.resp.readOut == []
  {
    LateSteps1();
    LateSteps2();
    var sts := [Start, L1, L2, L3, L4, L5, L6, L7, L8];
    hide Goes;
    PathRuns(sts, LateActs, 8);
    assert LateActs[..8] == LateActs;
  }

  lemma LateSteps1()
    ensures Goes(Start, Do(Init, CallEnterWrite(Byte)), L1) && Goes(L1, Do(Init, CallBeginClose), L2)
    ensures Goes(L2, Deliver(Init, 0), L3) && Goes(L3, Do(Init, CallFinishClose), L4)
  {
    Joins(Asking);
    assert ErrorOut(W1) + [Asking] == [Asking];
    assert [true, false][0 := false] == [false, false];
    CallGoes(Start, Init, CallEnterWrite(Byte), [], [true, true]);
    CallGoes(L1, Init, CallBeginClose, [], [true, true]);
    CallGoes(L3, Init, CallFinishClose, [], [true, false]);
    AskedDelivered();
  }

  lemma AskedDelivered()
    ensures Goes(L2, Deliver(Init, 0), L3)
  {
    var none: seq<Body> := [];
    Joins(Asking);
    PushOne(none, [Asking], [true, true]);
    assert Pop(Asked, 0) == OneHop;
    assert Drop(OneHop, 1) == Consumed;
    assert Drop(Asked, 0) == AskedAfter;
    var st1 := L2.(lanes := Pair(Consumed, OneHop), registered := HalfOff);
    assert HandlePacket(FreshGroup, Asking) == Effect(R1, [Asking], true, false);
    assert DeliverAt(L2, Init, 0) == Perform(st1, Resp, HandlePacket(FreshGroup, Asking));
  }

  lemma LateSteps2()
    ensures Goes(L4, Do(Init, CallLockWrite), L5) && Goes(L5, Do(Init, CallSendWrite), L6)
    ensures Goes(L6, Do(Resp, CallEnterRead(1)), L7) && Goes(L7, Do(Resp, CallLockRead), L8)
  {
    Joins(Asking);
    Joins(Data(Byte));
    var none: bytes := [];
    assert none + Byte == Byte;
    CallGoes(L4, Init, CallLockWrite, [], [false, false]);
    CallGoes(L5, Init, CallSendWrite, [], [false, false]);
    CallGoes(L6, Resp, CallEnterRead(1), [Asking], [false, true]);
    CallGoes(L7, Resp, CallLockRead, [Asking], [false, true]);
  }

  lemma Joins(b: Body)
    ensures [b][1..] == [] && [b] + [] == [b]
    ensures var none: seq<Body> := []; none + [b] == [b] && none + [] == []
  {
  }

  lemma PushOne(x: seq<Body>, out: seq<Body>, present: seq<bool>)
    ensures Push(Lane([x], present), 0, out) == Lane([x + out], present)
  {
    assert [x][0 := x + out] == [x + out];
  }

  /** A call on an end whose lane has one hop, holding x. */
  lemma CallGoes(st: State, s: Side, call: GroupCall, x: seq<Body>, present: seq<bool>)
    requires st.Shaped() && Callable(st.groups.At(s), call) && st.lanes.At(s) == Lane([x], present) && |present| == 2
    ensures var e := CallEffect(st.groups.At(s), call);
            var l := Lane([x + e.out], if e.dropForward then present[0 := false] else present);
            Goes(st, Do(s, call), st.(groups := st.groups.Put(s, e.group), lanes := st.lanes.Put(s, l)))
  {
    hide CallEffect;
    PushOne(x, CallEffect(st.groups.At(s), call).out, present);
  }

  // ---- a Read let in while its own end's Close waits ----

  const C1 := FreshGroup.(closeInitiated := true, waiting := true, closeDone := 1, closesSent := 1)
  const C2 := C1.(reading := Entered(1))
  const C3 := C2.(waiting := false, once := true, closed := 1, remoteClosed := 1, readChClosed := 1)
  const C4 := C3.(reading := Selecting(1))

  const O1 := State(Pair(C1, FreshGroup), Pair(true, true), Pair(Asked, OneHop))
  const O2 := State(Pair(C2, FreshGroup), Pair(true, true), Pair(Asked, OneHop))
  const O3 := State(Pair(C3, FreshGroup), Pair(true, true), Pair(AskedAfter, OneHop))
  const O4 := State(Pair(C4, FreshGroup), Pair(true, true), Pair(AskedAfter, OneHop))

  const OwnActs: seq<Action> :=
    [Do(Init, CallBeginClose), Do(Init, CallEnterRead(1)), Do(Init, CallFinishClose), Do(Init, CallLockRead)]

  /** After the wait has timed out, both cases of its select are ready: it may report EOF although the
      other end has not initiated anything and has not even received the Close. */
  lemma OwnCloseIsEOF()
    ensures RouteMachine.Initial(Start) && Run(Start, OwnActs, O4)
    ensures AtEOF(O4.groups.init) && Callable(O4.groups.init, CallSelectClosed)
    ensures O4.groups.init.closeInitiated && O4.groups.resp == FreshGroup
  {
    OwnSteps1();
    OwnSteps2();
    var sts := [Start, O1, O2, O3, O4];
    hide Goes;
    PathRuns(sts, OwnActs, 4);
    assert OwnActs[..4] == OwnActs;
  }

  lemma OwnSteps1()
    ensures Goes(Start, Do(Init, CallBeginClose), O1) && Goes(O1, Do(Init, CallEnterRead(1)), O2)
  {
    Joins(Asking);
    assert ErrorOut(FreshGroup) + [Asking] == [Asking];
    CallGoes(Start, Init, CallBeginClose, [], [true, true]);
    CallGoes(O1, Init, CallEnterRead(1), [Asking], [true, true]);
  }

  lemma OwnSteps2()
    ensures Goes(O2, Do(Init, CallFinishClose), O3) && Goes(O3, Do(Init, CallLockRead), O4)
  {
    Joins(Asking);
    assert [true, true][0 := false] == [false, true];
    CallGoes(O2, Init, CallFinishClose, [Asking], [true, true]);
    CallGoes(O3, Init, CallLockRead, [Asking], [false, true]);
  }
}
