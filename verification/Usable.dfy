/** An open route can be used: whatever an application wants to write can be written, delivered and read
    at the other end, and either end can close the route and have it cleaned up. */
module Usable {
  import opened Routing
  import opened RouteGroups
  import opened RouteMachine
  import opened RouteProofs
  import opened Drain
  import opened GroupAnswers

  /** Some run of the machine leads from st to st'. */
  ghost predicate Leads(st: State, st': State)
  {
    st.Shaped() && exists acts :: Run(st, acts, st')
  }

  lemma LeadsStep(st: State, mid: State, a: Action)
    requires Leads(st, mid) && mid.Shaped() && Enabled(mid, a)
    ensures Leads(st, Apply(mid, a)) && Apply(mid, a).Shaped()
  {
    var acts :| Run(st, acts, mid);
    ApplyShaped(mid, a);
    hide Apply, Enabled;
    RunExtend(st, acts, mid, a);
  }

  lemma {:induction false} LeadsOn(st: State, acts: seq<Action>, mid: State, more: seq<Action>, st': State)
    requires st.Shaped() && mid.Shaped() && Run(st, acts, mid) && Run(mid, more, st')
    ensures Leads(st, st')
    decreases |more|
  {
    if more == [] {
      assert Run(st, acts, st');
    } else {
      ApplyShaped(mid, more[0]);
      hide Apply, Enabled;
      RunExtend(st, acts, mid, more[0]);
      LeadsOn(st, acts + [more[0]], Apply(mid, more[0]), more[1..], st');
    }
  }

  /** An end that has sent no Close is open, and nobody holds its mutex. */
  lemma EndOpen(st: State, s: Side)
    requires Reachable(st) && st.groups.At(s).closesSent == 0
    ensures st.Shaped()
    ensures var g := st.groups.At(s); g.closed == 0 && g.remoteClosed == 0 && !g.waiting && !g.closeInitiated
  {
    var c := ReachableInv(st);
    Halves(st, c, s);
    hide Swept, Faithful, Calling;
  }

  /** The call of side s, seen on the whole state. */
  lemma CallOn(st: State, s: Side, call: GroupCall)
    requires Reachable(st) && st.Shaped() && Callable(st.groups.At(s), call)
    ensures Enabled(st, Do(s, call)) && Reachable(Apply(st, Do(s, call))) && Apply(st, Do(s, call)).Shaped()
    ensures Apply(st, Do(s, call)).groups.At(s) == CallEffect(st.groups.At(s), call).group
    ensures Apply(st, Do(s, call)).groups.At(s.Other()) == st.groups.At(s.Other())
  {
    ApplyShaped(st, Do(s, call));
    ReachableStep(st, Do(s, call));
    hide CallEffect, Callable;
  }

  /** From every open reachable state with no Write in progress, up to 65535 bytes can be written. */
  lemma CanWrite(st: State, s: Side, p: bytes) returns (st': State)
    requires Reachable(st) && Open(st) && st.groups.At(s).writing.NotWriting? && 0 < |p| <= 65535
    ensures Leads(st, st') && Reachable(st') && Open(st')
    ensures st'.groups.At(s).written == st.groups.At(s).written + p
    ensures st'.groups.At(s.Other()).written == st.groups.At(s.Other()).written
  {
    EndOpen(st, s);
    var g := st.groups.At(s);
    WriteSteps(g, p);
    assert Run(st, [], st);
    hide Run, CallEffect, Reachable, Leads;
    assert Leads(st, st) by { LeadsSelf(st); }
    CallOn(st, s, CallEnterWrite(p));
    LeadsStep(st, st, Do(s, CallEnterWrite(p)));
    var st1 := Apply(st, Do(s, CallEnterWrite(p)));
    CallOn(st1, s, CallLockWrite);
    LeadsStep(st, st1, Do(s, CallLockWrite));
    var st2 := Apply(st1, Do(s, CallLockWrite));
    CallOn(st2, s, CallSendWrite);
    LeadsStep(st, st2, Do(s, CallSendWrite));
    st' := Apply(st2, Do(s, CallSendWrite));
  }

  lemma LeadsSelf(st: State)
    requires st.Shaped()
    ensures Leads(st, st)
  {
    assert Run(st, [], st);
  }

  /** The three steps of a Write in a row. */
  lemma WriteSteps(g: Group, p: bytes)
    requires g.closed == 0 && !g.waiting && g.writing.NotWriting? && 0 < |p| <= 65535
    ensures Callable(g, CallEnterWrite(p))
    ensures var g1 := CallEffect(g, CallEnterWrite(p)).group;
            && Callable(g1, CallLockWrite)
            && var g2 := CallEffect(g1, CallLockWrite).group;
            && Callable(g2, CallSendWrite)
            && CallEffect(g2, CallSendWrite).group == Write(g, p).0.group
            && Write(g, p).0.group.written == g.written + p && Write(g, p).0.group.closesSent == g.closesSent
  {
    WriteAnswers(g, p);
  }

  /** So whatever has been written before, any p can be written at one end and read, behind all that, at the
      other. */
  lemma AnythingArrives(st: State, s: Side, p: bytes) returns (st': State)
    requires Reachable(st) && Open(st) && st.groups.At(s).writing.NotWriting? && 0 < |p| <= 65535
    ensures Leads(st, st')
    ensures st'.groups.At(s.Other()).readOut == st.groups.At(s).written + p
  {
    var mid := CanWrite(st, s, p);
    var acts1 :| Run(st, acts1, mid);
    var acts2;
    acts2, st' := EverythingArrives(mid);
    hide Reachable;
    LeadsOn(st, acts1, mid, acts2, st');
  }

  /** From every reachable state in which an end has sent no Close, it can close the route, and then the
      route can be cleaned up completely. */
  lemma CanClose(st: State, s: Side) returns (st': State)
    requires Reachable(st) && st.groups.At(s).closesSent == 0
    ensures Leads(st, st')
    ensures NoRules(st'.lanes.init) && NoRules(st'.lanes.resp) && st'.registered == Pair(false, false)
  {
    EndOpen(st, s);
    var g := st.groups.At(s);
    CloseAnswers(g);
    assert Callable(g, CallBeginClose) && CallEffect(g, CallBeginClose).group.closesSent == g.closesSent + 1;
    hide CallEffect, Callable, Reachable;
    CallOn(st, s, CallBeginClose);
    var mid := Apply(st, Do(s, CallBeginClose));
    var acts;
    acts, st' := TeardownCompletes(mid, s);
    RunFirst(st, Do(s, CallBeginClose), acts, st');
    assert Run(st, [Do(s, CallBeginClose)] + acts, st');
  }
}
