/** What every run of the route machine keeps, and the three results that follow from it: the byte
    stream is faithful, the close handshake is safe, and teardown leaves no rule behind. */
module RouteProofs {
  import opened Routing
  import opened Bytes
  import opened RouteGroups
  import opened RouteMachine

  // ---- reading a lane as one pipe ----

  /** Everything in flight on a lane, next to arrive first. */
  ghost function Pipe(segs: seq<seq<Body>>): seq<Body>
  {
    if segs == [] then [] else Pipe(segs[1..]) + segs[0]
  }

  ghost function DataOf(bs: seq<Body>): bytes
  {
    if bs == [] then [] else (if bs[0].Data? then bs[0].payload else []) + DataOf(bs[1..])
  }

  /** The part of a pipe ahead of its Close packet: what follows a Close is dropped on the way. */
  ghost function LiveOf(bs: seq<Body>): seq<Body>
  {
    if bs == [] || bs[0].Close? then [] else [bs[0]] + LiveOf(bs[1..])
  }

  ghost function Closes(bs: seq<Body>): nat
  {
    if bs == [] then 0 else (if bs[0].Close? then 1 else 0) + Closes(bs[1..])
  }

  lemma {:induction false} ClosesConcat(a: seq<Body>, b: seq<Body>)
    ensures Closes(a + b) == Closes(a) + Closes(b)
  {
    if a == [] {
      assert a + b == b;
    } else {
      assert (a + b)[1..] == a[1..] + b;
      ClosesConcat(a[1..], b);
    }
  }

  lemma {:induction false} DataConcat(a: seq<Body>, b: seq<Body>)
    ensures DataOf(a + b) == DataOf(a) + DataOf(b)
  {
    if a == [] {
      assert a + b == b;
    } else {
      assert (a + b)[1..] == a[1..] + b;
      DataConcat(a[1..], b);
    }
  }

  lemma LiveFirst(x: Body, xs: seq<Body>)
    ensures LiveOf([x] + xs) == if x.Close? then [] else [x] + LiveOf(xs)
    ensures Closes([x] + xs) == (if x.Close? then 1 else 0) + Closes(xs)
  {
    assert ([x] + xs)[1..] == xs;
  }

  lemma {:induction false} LiveConcat(a: seq<Body>, b: seq<Body>)
    ensures LiveOf(a + b) == if Closes(a) > 0 then LiveOf(a) else a + LiveOf(b)
  {
    if a == [] {
      assert a + b == b && a + LiveOf(b) == LiveOf(b);
    } else {
      var x, xs := a[0], a[1..];
      LiveConcat(xs, b);
      LiveFirst(x, xs);
      LiveFirst(x, xs + b);
      hide LiveOf, Closes;
      assert a == [x] + xs && a + b == [x] + (xs + b);
      assert [x] + (xs + LiveOf(b)) == [x] + xs + LiveOf(b);
    }
  }

  lemma {:induction false} FlatAppend(chunks: seq<bytes>, c: bytes)
    ensures Flat(chunks + [c]) == Flat(chunks) + c
  {
    if chunks == [] {
      assert chunks + [c] == [c];
    } else {
      assert (chunks + [c])[1..] == chunks[1..] + [c];
      FlatAppend(chunks[1..], c);
    }
  }

  /** Splitting the pipe at hop i: what is ahead of it, the hop itself, what is behind. */
  ghost function Ahead(segs: seq<seq<Body>>, i: nat): seq<Body>
    requires i < |segs|
  {
    Pipe(segs[i + 1..])
  }

  lemma {:induction false} PipeSplit(segs: seq<seq<Body>>, i: nat)
    requires i < |segs|
    ensures Pipe(segs) == Ahead(segs, i) + segs[i] + Pipe(segs[..i])
  {
    if i == 0 {
      assert segs[..0] == [];
    } else {
      PipeSplit(segs[1..], i - 1);
      assert segs[1..][i..] == segs[i + 1..];
      assert segs[1..][..i - 1] == segs[..i][1..];
    }
  }

  /** Replacing the contents of one hop leaves what is ahead and behind alone. */
  lemma PipeUpdate(segs: seq<seq<Body>>, i: nat, x: seq<Body>)
    requires i < |segs|
    ensures Pipe(segs[i := x]) == Ahead(segs, i) + x + Pipe(segs[..i])
  {
    var segs' := segs[i := x];
    PipeSplit(segs', i);
    assert segs'[i + 1..] == segs[i + 1..];
    assert segs'[..i] == segs[..i];
  }

  /** A forwarded packet moves between hops without changing the pipe. */
  lemma PipeForward(segs: seq<seq<Body>>, i: nat)
    requires i + 1 < |segs| && segs[i] != []
    ensures Pipe(segs[i := segs[i][1..]][i + 1 := segs[i + 1] + [segs[i][0]]]) == Pipe(segs)
  {
    var b := segs[i][0];
    var popped := segs[i := segs[i][1..]];
    PipeSplit(segs, i);
    PipeSplit(segs[i + 1..], 0);
    assert segs[i + 1..][1..] == segs[i + 2..];
    assert Ahead(segs, i) == Pipe(segs[i + 2..]) + segs[i + 1];
    PipeUpdate(popped, i + 1, segs[i + 1] + [b]);
    assert popped[i + 2..] == segs[i + 2..];
    PipeSplit(popped[..i + 1], i);
    assert popped[..i + 1][i + 1..] == [];
    assert popped[..i + 1][..i] == segs[..i];
    assert Pipe(popped[..i + 1]) == segs[i][1..] + Pipe(segs[..i]);
    assert segs[i] == [b] + segs[i][1..];
  }

  lemma {:induction false} PipeCloses(segs: seq<seq<Body>>, p: nat)
    requires forall j :: 0 <= j < |segs| ==> Closes(segs[j]) == if j == p then 1 else 0
    ensures Closes(Pipe(segs)) == if p < |segs| then 1 else 0
    decreases |segs|
  {
    if segs != [] {
      ClosesConcat(Pipe(segs[1..]), segs[0]);
      if p == 0 {
        PipeNoCloses(segs[1..]);
      } else {
        PipeCloses(segs[1..], p - 1);
      }
    }
  }

  lemma {:induction false} PipeNoCloses(segs: seq<seq<Body>>)
    requires forall j :: 0 <= j < |segs| ==> Closes(segs[j]) == 0
    ensures Closes(Pipe(segs)) == 0
  {
    if segs != [] {
      ClosesConcat(Pipe(segs[1..]), segs[0]);
      PipeNoCloses(segs[1..]);
    }
  }

  // ---- the invariant ----

  /** The Close packet of a lane sweeps its rules away in path order: visors 1..p have lost theirs, the
      others have not, and while p has not reached the end the Close packet is on hop p. */
  ghost predicate Swept(l: Lane, sent: nat, p: nat)
  {
    && l.Shaped() && p <= |l.segs|
    && (forall i :: 1 <= i < |l.present| ==> (l.present[i] <==> i > p))
    && sent <= 1 && (sent == 0 ==> p == 0)
    && (forall j :: 0 <= j < |l.segs| ==> Closes(l.segs[j]) == if sent == 1 && j == p then 1 else 0)
  }

  ghost function Held(g: Group): bytes { if g.reading.Holding? then g.reading.item else [] }

  /** Bytes that have reached a group, read or not. */
  ghost function Arrived(g: Group): bytes { g.readOut + g.readBuf + Held(g) + Flat(g.readCh) }

  /** What was written before the group initiated a close. */
  ghost function OnTime(g: Group): bytes
  {
    if g.late <= |g.written| then g.written[..|g.written| - g.late] else []
  }

  /** What the calls in progress keep. */
  ghost predicate Calling(g: Group)
  {
    && (g.reading.Selecting? || g.reading.Holding? ==> g.readBuf == []) && (g.reading.Entered? ==> g.reading.n > 0)
    && g.late <= |g.written| && (!g.closeInitiated ==> g.late == 0)
  }

  /** Writes no longer count once an end has initiated a close; one that only answers still can write. */
  ghost predicate Complete(g: Group) { g.closesSent == 0 || g.closeInitiated }

  /** Conservation of bytes on the lane from g to h: as long as h can still take them, what arrived
      plus what is live in the pipe is exactly what was written on time (a prefix, if g has answered a
      close); and when the Close of an initiator has reached an h that is none, all that has arrived. */
  ghost predicate Faithful(l: Lane, p: nat, g: Group, h: Group)
  {
    && Arrived(h) <= OnTime(g)
    && (p < |l.segs| && h.remoteClosed == 0 ==>
          var all := Arrived(h) + DataOf(LiveOf(Pipe(l.segs)));
          all <= OnTime(g) && (Complete(g) ==> all == OnTime(g)))
    && (p == |l.segs| && g.closeInitiated && !h.closeInitiated ==> Arrived(h) == OnTime(g))
  }

  /** The state of a group's close handshake; `answered` says that the other side's Close packet has
      been consumed here. */
  ghost predicate Handshaking(g: Group, answered: bool)
  {
    && g.closesSent <= 1 && (g.closesSent == 1 <==> g.closeInitiated || g.remoteClosed == 1)
    && g.closed <= 1 && g.remoteClosed <= 1 && g.readChClosed == g.remoteClosed
    && (g.once <==> g.remoteClosed == 1) && !g.sentOnClosed
    && (g.closed == 1 ==> g.remoteClosed == 1)
    && (g.waiting ==> g.closeInitiated && g.remoteClosed == 0)
    && (g.closeInitiated && !g.waiting ==> g.closed == 1)
    && 0 <= g.closeDone <= 1 && (!g.closeInitiated ==> g.closeDone == 0)
    && (g.closeInitiated && !answered ==> g.closeDone == 1)
    && (!g.closeInitiated ==> (g.remoteClosed == 1 <==> answered))
  }

  /** One end with the lane it sends on: g sends to h, the Close packets of the two lanes stand at p and
      q, and the other lane has n hops. */
  ghost predicate Half(l: Lane, n: nat, g: Group, h: Group, registered: bool, p: nat, q: nat)
  {
    && Swept(l, g.closesSent, p) && Faithful(l, p, g, h) && Handshaking(g, q == n) && Calling(g)
    && (registered <==> q != n)
    && (l.present[0] <==> g.closesSent == 0 || g.waiting)
  }

  ghost predicate SideInv(st: State, s: Side, c: Pair<nat>)
    requires st.Shaped()
  {
    Half(st.lanes.At(s), |st.lanes.At(s.Other()).segs|, st.groups.At(s), st.groups.At(s.Other()),
         st.registered.At(s), c.At(s), c.At(s.Other()))
  }

  /** The invariant, with the two sweep positions as witnesses. */
  ghost predicate Inv(st: State, c: Pair<nat>)
  {
    st.Shaped() && SideInv(st, Init, c) && SideInv(st, Resp, c) && Initiated(st)
  }

  /** Close packets start with an end that initiates. */
  ghost predicate Initiated(st: State)
  {
    st.groups.init.closesSent + st.groups.resp.closesSent > 0 ==>
      st.groups.init.closeInitiated || st.groups.resp.closeInitiated
  }

  lemma InitialInv(st: State)
    requires Initial(st)
    ensures Inv(st, Pair(0, 0))
  {
    FreshLaneKeeps(st.lanes.init);
    FreshLaneKeeps(st.lanes.resp);
    hide Swept, Faithful, FreshLane;
    assert SideInv(st, Init, Pair(0, 0)) && SideInv(st, Resp, Pair(0, 0));
  }

  lemma FreshLaneKeeps(l: Lane)
    requires FreshLane(l)
    ensures Swept(l, 0, 0) && Faithful(l, 0, FreshGroup, FreshGroup) && l.present[0]
  {
    EmptyPipe(l.segs);
  }

  lemma {:induction false} EmptyPipe(segs: seq<seq<Body>>)
    requires forall i :: 0 <= i < |segs| ==> segs[i] == []
    ensures Pipe(segs) == []
  {
    if segs != [] { EmptyPipe(segs[1..]); }
  }

  // ---- sending on a lane ----

  lemma PushPipe(l: Lane, out: seq<Body>)
    requires l.Shaped()
    ensures Pipe(Push(l, 0, out).segs) == Pipe(l.segs) + out && |Push(l, 0, out).segs| == |l.segs|
  {
    PipeSplit(l.segs, 0);
    PipeUpdate(l.segs, 0, l.segs[0] + out);
    assert l.segs[..0] == [];
  }

  lemma PushNothing(l: Lane)
    requires l.Shaped()
    ensures Push(l, 0, []) == l
  {
    assert l.segs[0] + [] == l.segs[0];
  }

  lemma PushSwept(l: Lane, sent: nat, p: nat, out: seq<Body>)
    requires Swept(l, sent, p)
    requires Closes(out) == 0 || (Closes(out) == 1 && sent == 0)
    ensures Swept(Push(l, 0, out), sent + Closes(out), p)
  {
    ClosesConcat(l.segs[0], out);
  }

  /** From g to g' the bytes d were written, if any: late ones change nothing. */
  ghost predicate Wrote(g: Group, g': Group, d: bytes)
  {
    OnTime(g') == OnTime(g) + if g.closeInitiated then [] else d
  }

  lemma PushFaithful(l: Lane, p: nat, g: Group, h: Group, out: seq<Body>, g': Group)
    requires Swept(l, g.closesSent, p) && Faithful(l, p, g, h)
    requires Closes(out) == 0 && g'.closesSent == g.closesSent && Wrote(g, g', DataOf(out))
    requires g'.closeInitiated == g.closeInitiated && (g.closeInitiated ==> g.closesSent == 1)
    ensures Faithful(Push(l, 0, out), p, g', h)
  {
    SweptPipe(l, g.closesSent, p);
    PushPipe(l, out);
    LiveConcat(Pipe(l.segs), out);
    hide Swept, Pipe, LiveOf, Closes, DataOf, Flat, Arrived, Push, OnTime;
    PrefixGrows(Arrived(h), OnTime(g), DataOf(out));
    if g.closeInitiated {
      assert OnTime(g) + [] == OnTime(g);
    } else if p < |l.segs| && g.closesSent == 1 {
      PrefixGrows(Arrived(h) + DataOf(LiveOf(Pipe(l.segs))), OnTime(g), DataOf(out));
    } else if p < |l.segs| {
      NoCloseIsLive(Pipe(l.segs));
      NoCloseIsLive(out);
      DataConcat(Pipe(l.segs), out);
      Assoc(Arrived(h), DataOf(Pipe(l.segs)), DataOf(out));
    }
  }

  lemma Assoc(a: bytes, b: bytes, c: bytes)
    ensures a + (b + c) == a + b + c
  {
  }

  lemma PrefixGrows(a: bytes, b: bytes, c: bytes)
    ensures a <= b ==> a <= b + c
  {
  }

  lemma SweptPipe(l: Lane, sent: nat, p: nat)
    requires Swept(l, sent, p)
    ensures sent <= 1 && (p < |l.segs| ==> Closes(Pipe(l.segs)) == sent)
  {
    if sent == 1 { PipeCloses(l.segs, p); } else { PipeNoCloses(l.segs); }
  }

  lemma PushCloseFaithful(l: Lane, p: nat, g: Group, h: Group, out: seq<Body>, g': Group)
    requires Swept(l, g.closesSent, p) && Faithful(l, p, g, h)
    requires g.closesSent == 0 && g'.closesSent == 1 && OnTime(g') == OnTime(g) && DataOf(LiveOf(out)) == []
    ensures Faithful(Push(l, 0, out), p, g', h)
  {
    hide OnTime, Arrived;
    PushPipe(l, out);
    LiveConcat(Pipe(l.segs), out);
    PipeNoCloses(l.segs);
    NoCloseIsLive(Pipe(l.segs));
    DataConcat(Pipe(l.segs), LiveOf(out));
  }

  lemma {:induction false} NoCloseIsLive(bs: seq<Body>)
    requires Closes(bs) == 0
    ensures LiveOf(bs) == bs
  {
    if bs != [] { NoCloseIsLive(bs[1..]); }
  }

  // ---- moving along a lane ----

  /** A packet that finds no rule is behind the Close packet, so dropping it loses nothing live. */
  lemma DroppedIsDead(l: Lane, p: nat, g: Group, h: Group, i: nat)
    requires Swept(l, g.closesSent, p) && Faithful(l, p, g, h)
    requires i < |l.segs| && l.segs[i] != [] && !l.present[i + 1]
    ensures Swept(Pop(l, i), g.closesSent, p) && Faithful(Pop(l, i), p, g, h)
  {
    assert p > i && Closes(l.segs[i]) == 0;
    if p < |l.segs| {
      assert Closes(l.segs[p]) == 1;
      DropPipe(l.segs, i, p);
    }
  }

  lemma DropPipe(segs: seq<seq<Body>>, i: nat, p: nat)
    requires i < p < |segs| && segs[i] != []
    requires forall j :: 0 <= j < |segs| ==> Closes(segs[j]) == if j == p then 1 else 0
    ensures LiveOf(Pipe(segs[i := segs[i][1..]])) == LiveOf(Pipe(segs))
  {
    var a, behind := Ahead(segs, i), Pipe(segs[..i]);
    PipeSplit(segs, i);
    PipeUpdate(segs, i, segs[i][1..]);
    PipeCloses(segs[i + 1..], p - i - 1);
    assert a + segs[i] + behind == a + (segs[i] + behind);
    assert a + segs[i][1..] + behind == a + (segs[i][1..] + behind);
    LiveConcat(a, segs[i] + behind);
    LiveConcat(a, segs[i][1..] + behind);
  }

  /** Where a lane's Close packet can be: at the front of hop i only if the sweep stands at i. */
  lemma FrontCloses(l: Lane, sent: nat, p: nat, i: nat)
    requires Swept(l, sent, p) && i < |l.segs| && l.segs[i] != []
    ensures Closes(l.segs[i]) == (if l.segs[i][0].Close? then 1 else 0) + Closes(l.segs[i][1..])
    ensures l.segs[i][0].Close? ==> sent == 1 && p == i && Closes(l.segs[i][1..]) == 0
  {
  }

  ghost function Forwarded(l: Lane, i: nat): Lane
    requires l.Shaped() && i + 1 < |l.segs| && l.segs[i] != []
  {
    var l' := Push(Pop(l, i), i + 1, [l.segs[i][0]]);
    if l.segs[i][0].Close? then Drop(l', i + 1) else l'
  }

  lemma ForwardKeeps(l: Lane, p: nat, g: Group, h: Group, i: nat)
    requires Swept(l, g.closesSent, p) && Faithful(l, p, g, h)
    requires i + 1 < |l.segs| && l.segs[i] != [] && l.present[i + 1]
    ensures var p' := if l.segs[i][0].Close? then p + 1 else p;
            Swept(Forwarded(l, i), g.closesSent, p') && Faithful(Forwarded(l, i), p', g, h)
    ensures Forwarded(l, i).present[0] == l.present[0]
  {
    var b := l.segs[i][0];
    FrontCloses(l, g.closesSent, p, i);
    ClosesConcat(l.segs[i + 1], [b]);
    assert Closes([b]) == if b.Close? then 1 else 0;
    PipeForward(l.segs, i);
    assert Forwarded(l, i).segs == l.segs[i := l.segs[i][1..]][i + 1 := l.segs[i + 1] + [b]];
  }

  /** Taking the packet at the far end off the pipe. */
  lemma LastHop(l: Lane, i: nat)
    requires l.Shaped() && i + 1 == |l.segs| && l.segs[i] != []
    ensures Pipe(l.segs) == [l.segs[i][0]] + Pipe(Pop(l, i).segs)
  {
    PipeSplit(l.segs, i);
    PipeUpdate(l.segs, i, l.segs[i][1..]);
    assert l.segs[i + 1..] == [];
    assert l.segs[i] == [l.segs[i][0]] + l.segs[i][1..];
  }

  /** Consuming anything but a Close: the receiver gains exactly the payload of a data packet. */
  lemma ConsumeKeeps(l: Lane, p: nat, g: Group, h: Group, h': Group, i: nat)
    requires Swept(l, g.closesSent, p) && Faithful(l, p, g, h)
    requires i + 1 == |l.segs| && l.segs[i] != [] && l.present[i + 1] && !l.segs[i][0].Close?
    requires h'.remoteClosed == h.remoteClosed && h'.closeInitiated == h.closeInitiated
    requires var b := l.segs[i][0];
             Arrived(h') == Arrived(h) + if b.Data? && h.remoteClosed == 0 then b.payload else []
    ensures Swept(Pop(l, i), g.closesSent, p) && Faithful(Pop(l, i), p, g, h')
  {
    FrontCloses(l, g.closesSent, p, i);
    assert Swept(Pop(l, i), g.closesSent, p) && p < |l.segs|;
    LastHop(l, i);
    var b, rest := l.segs[i][0], Pipe(Pop(l, i).segs);
    FrontData(b, rest);
    hide Swept, Pipe, LiveOf, DataOf, Closes, Arrived, OnTime;
    Assoc(Arrived(h), if b.Data? then b.payload else [], DataOf(LiveOf(rest)));
    if h.remoteClosed != 0 { assert Arrived(h) + [] == Arrived(h); }
    PrefixShrinks(Arrived(h'), DataOf(LiveOf(rest)), OnTime(g));
  }

  lemma PrefixShrinks(a: bytes, b: bytes, c: bytes)
    ensures a + b <= c ==> a <= c
  {
  }

  lemma FrontData(b: Body, rest: seq<Body>)
    requires !b.Close?
    ensures DataOf(LiveOf([b] + rest)) == (if b.Data? then b.payload else []) + DataOf(LiveOf(rest))
  {
    assert ([b] + rest)[1..] == rest;
    assert ([b] + LiveOf(rest))[1..] == LiveOf(rest);
  }

  /** Consuming the Close completes the sweep. */
  lemma ConsumeCloseKeeps(l: Lane, p: nat, g: Group, h: Group, i: nat)
    requires Swept(l, g.closesSent, p) && Faithful(l, p, g, h)
    requires i + 1 == |l.segs| && l.segs[i] != [] && l.segs[i][0].Close?
    requires !h.closeInitiated ==> h.remoteClosed == 0
    ensures Swept(Drop(Pop(l, i), i + 1), g.closesSent, |l.segs|)
    ensures Faithful(Drop(Pop(l, i), i + 1), |l.segs|, g, h)
  {
    FrontCloses(l, g.closesSent, p, i);
    LastHop(l, i);
    assert LiveOf(Pipe(l.segs)) == [];
  }

  // ---- every step keeps the invariant ----

  /** The three kinds of delivery, without the case analysis. */
  lemma Deliveries(st: State, s: Side, i: nat)
    requires st.Shaped() && i < |st.lanes.At(s).segs| && st.lanes.At(s).segs[i] != []
    ensures var l, t := st.lanes.At(s), s.Other();
            var b, st1 := l.segs[i][0], st.(lanes := st.lanes.Put(s, Pop(l, i)));
            && (!l.present[i + 1] ==> DeliverAt(st, s, i) == st1)
            && (l.present[i + 1] && i + 1 < |l.segs| ==>
                  DeliverAt(st, s, i) == st.(lanes := st.lanes.Put(s, Forwarded(l, i))))
            && (l.present[i + 1] && i + 1 == |l.segs| && !b.Close? && st.registered.At(t) ==>
                  DeliverAt(st, s, i) == Perform(st1, t, HandlePacket(st.groups.At(t), b)))
            && (l.present[i + 1] && i + 1 == |l.segs| && b.Close? && st.registered.At(t) ==>
                  var st2 := st.(lanes := st.lanes.Put(s, Drop(Pop(l, i), i + 1)),
                                 registered := st.registered.Put(t, false));
                  DeliverAt(st, s, i) ==
                    if st.groups.At(t).closed > 0 then st2 else Perform(st2, t, HandlePacket(st.groups.At(t), b)))
  {
    hide HandlePacket;
  }

  /** On the way a packet of any kind moves on unchanged and in order, and nothing else happens but that a
      Close takes the rule with it. */
  lemma Travels(st: State, s: Side, i: nat)
    requires st.Shaped() && Enabled(st, Deliver(s, i)) && st.lanes.At(s).present[i + 1] && i + 1 < |st.lanes.At(s).segs|
    ensures var st', l := DeliverAt(st, s, i), st.lanes.At(s);
            && Pipe(st'.lanes.At(s).segs) == Pipe(l.segs) && |st'.lanes.At(s).segs| == |l.segs|
            && st'.lanes.At(s).present == (if l.segs[i][0].Close? then l.present[i + 1 := false] else l.present)
            && st'.lanes.At(s.Other()) == st.lanes.At(s.Other())
            && st'.groups == st.groups && st'.registered == st.registered
  {
    Deliveries(st, s, i);
    var l := st.lanes.At(s);
    PipeForward(l.segs, i);
    hide DeliverAt, Pipe;
    assert Forwarded(l, i).segs == l.segs[i := l.segs[i][1..]][i + 1 := l.segs[i + 1] + [l.segs[i][0]]];
  }

  /** At the end of the lane a Ping is answered on the way back with its own timestamp. */
  lemma PingEchoed(st: State, s: Side, i: nat)
    requires st.Shaped() && Enabled(st, Deliver(s, i)) && i + 1 == |st.lanes.At(s).segs|
    requires st.lanes.At(s).present[i + 1] && st.lanes.At(s).segs[i][0].Ping? && st.registered.At(s.Other())
    ensures var l, back := st.lanes.At(s), st.lanes.At(s.Other());
            var st' := DeliverAt(st, s, i);
            && Pipe(st'.lanes.At(s.Other()).segs) == Pipe(back.segs) + [Pong(l.segs[i][0].timestamp)]
            && Pipe(l.segs) == [l.segs[i][0]] + Pipe(st'.lanes.At(s).segs)
  {
    Deliveries(st, s, i);
    LastHop(st.lanes.At(s), i);
    PushPipe(st.lanes.At(s.Other()), [Pong(st.lanes.At(s).segs[i][0].timestamp)]);
    hide DeliverAt, Pipe;
  }

  /** A lane keeps its bytes when neither its queues nor what was written or has arrived changes;
      closing either end only weakens what is promised. */
  lemma FaithfulStays(l: Lane, p: nat, g: Group, h: Group, l': Lane, g': Group, h': Group)
    requires Faithful(l, p, g, h)
    requires l'.segs == l.segs && OnTime(g') == OnTime(g) && Arrived(h') == Arrived(h)
    requires g'.closesSent >= g.closesSent && h'.remoteClosed >= h.remoteClosed
    requires g'.closeInitiated == g.closeInitiated && (h.closeInitiated ==> h'.closeInitiated)
    ensures Faithful(l', p, g', h')
  {
  }

  /** Closing touches none of the bytes. */
  lemma CloseKeepsBytes(g: Group, g': Group)
    requires g' == g.(closeInitiated := g'.closeInitiated, waiting := g'.waiting, closeDone := g'.closeDone,
                      once := g'.once,
                      closed := g'.closed, remoteClosed := g'.remoteClosed, readChClosed := g'.readChClosed,
                      closesSent := g'.closesSent)
    requires g.closeInitiated ==> g'.closeInitiated
    ensures Arrived(g') == Arrived(g) && OnTime(g') == OnTime(g) && (Calling(g) ==> Calling(g'))
  {
  }

  ghost predicate SameHandshake(g: Group, g': Group)
  {
    g' == g.(readCh := g'.readCh, readBuf := g'.readBuf, closeError := g'.closeError, writing := g'.writing,
             reading := g'.reading, written := g'.written, late := g'.late, readOut := g'.readOut)
  }

  /** An effect keeps the invariant if it keeps the two halves. */
  lemma PerformHalves(st: State, c: Pair<nat>, s: Side, e: Effect)
    requires st.Shaped()
    requires var h, l, back := st.groups.At(s.Other()), st.lanes.At(s), st.lanes.At(s.Other());
             var l1 := Push(l, 0, e.out);
             && Half(if e.dropForward then Drop(l1, 0) else l1, |back.segs|, e.group, h, st.registered.At(s),
                     c.At(s), c.At(s.Other()))
             && Half(back, |l.segs|, h, e.group, st.registered.At(s.Other()), c.At(s.Other()), c.At(s))
             && (e.group.closesSent + h.closesSent > 0 ==> e.group.closeInitiated || h.closeInitiated)
    ensures Inv(Perform(st, s, e), c)
  {
    hide Half;
    var st' := Perform(st, s, e);
    assert SideInv(st', s, c) && SideInv(st', s.Other(), c);
  }

  /** So does a change of one lane. */
  lemma LaneHalves(st: State, c: Pair<nat>, s: Side, l: Lane)
    requires st.Shaped() && l.Shaped() && Initiated(st)
    requires var g, h, back := st.groups.At(s), st.groups.At(s.Other()), st.lanes.At(s.Other());
             && Half(l, |back.segs|, g, h, st.registered.At(s), c.At(s), c.At(s.Other()))
             && Half(back, |l.segs|, h, g, st.registered.At(s.Other()), c.At(s.Other()), c.At(s))
    ensures Inv(st.(lanes := st.lanes.Put(s, l)), c)
  {
    hide Half;
    var st' := st.(lanes := st.lanes.Put(s, l));
    assert SideInv(st', s, c) && SideInv(st', s.Other(), c);
  }

  lemma Halves(st: State, c: Pair<nat>, s: Side)
    requires Inv(st, c)
    ensures SideInv(st, s, c) && SideInv(st, s.Other(), c)
    ensures var g, h := st.groups.At(s), st.groups.At(s.Other());
            g.closesSent + h.closesSent > 0 ==> g.closeInitiated || h.closeInitiated
  {
    hide Half;
  }

  /** A group takes on a new state, with the handshake as it was, and sends no Close. */
  lemma EffectHalf(l: Lane, n: nat, g: Group, h: Group, e: Effect, registered: bool, p: nat, q: nat)
    requires Half(l, n, g, h, registered, p, q)
    requires SameHandshake(g, e.group) && Calling(e.group) && Wrote(g, e.group, DataOf(e.out)) && Closes(e.out) == 0
    ensures Half(Push(l, 0, e.out), n, e.group, h, registered, p, q)
  {
    hide Faithful, Swept, Calling, Wrote;
    PushSwept(l, g.closesSent, p, e.out);
    PushFaithful(l, p, g, h, e.out, e.group);
  }

  /** The other end has all the bytes it had, and may have begun to close. */
  lemma HalfStays(l: Lane, n: nat, g: Group, h: Group, h': Group, registered: bool, p: nat, q: nat)
    requires Half(l, n, g, h, registered, p, q) && Arrived(h') == Arrived(h)
    requires h'.remoteClosed >= h.remoteClosed && (h.closeInitiated ==> h'.closeInitiated)
    ensures Half(l, n, g, h', registered, p, q)
  {
    hide Faithful, Swept, Calling, Arrived, Handshaking;
    FaithfulStays(l, p, g, h, l, g, h');
  }

  /** A group call that neither closes nor takes in new bytes. */
  lemma QuietCall(st: State, c: Pair<nat>, s: Side, e: Effect)
    requires Inv(st, c)
    requires SameHandshake(st.groups.At(s), e.group) && Arrived(e.group) == Arrived(st.groups.At(s))
    requires !e.dropForward && Closes(e.out) == 0
    requires Calling(e.group) && Wrote(st.groups.At(s), e.group, DataOf(e.out))
    ensures Inv(Perform(st, s, e), c)
  {
    hide Half, Calling, Wrote, Arrived;
    var t := s.Other();
    var g, h, l, back := st.groups.At(s), st.groups.At(t), st.lanes.At(s), st.lanes.At(t);
    Halves(st, c, s);
    EffectHalf(l, |back.segs|, g, h, e, st.registered.At(s), c.At(s), c.At(t));
    HalfStays(back, |l.segs|, h, g, e.group, st.registered.At(t), c.At(t), c.At(s));
    PerformHalves(st, c, s, e);
  }

  // ---- calls in progress ----

  /** A step of a call that sends nothing and loses nothing. */
  ghost predicate Silent(g: Group, e: Effect)
  {
    && SameHandshake(g, e.group) && e.out == [] && !e.dropForward
    && Arrived(e.group) == Arrived(g) && e.group.written == g.written && e.group.late == g.late
    && (Calling(g) ==> Calling(e.group))
  }

  lemma Reassemble(out: bytes, d: bytes, k: nat, rest: bytes)
    requires k <= |d|
    ensures out + d[..k] + d[k..] + [] + rest == out + d + [] + rest
    ensures out + d[..k] + ([] + d[k..]) + [] + rest == out + [] + d + rest
  {
    assert d == d[..k] + d[k..];
  }

  lemma LockReadSilent(g: Group)
    requires g.reading.Entered?
    ensures Silent(g, LockRead(g).0)
  {
    Reassemble(g.readOut, g.readBuf, Min(g.reading.n, |g.readBuf|), Flat(g.readCh));
  }

  lemma SelectItemSilent(g: Group)
    requires g.reading.Selecting? && Calling(g)
    ensures Silent(g, SelectItem(g).0)
  {
    if g.readCh != [] {
      var d, rest := g.readCh[0], Flat(g.readCh[1..]);
      assert Flat(g.readCh) == d + rest;
      assert g.readOut + [] + d + rest == g.readOut + [] + [] + (d + rest);
      if d == [] { assert d + rest == rest; }
    }
  }

  lemma FinishReadSilent(g: Group)
    requires g.reading.Holding? && Calling(g)
    ensures Silent(g, FinishRead(g).0)
  {
    Reassemble(g.readOut, g.reading.item, Min(g.reading.n, |g.reading.item|), Flat(g.readCh));
  }

  /** Every step of a Read or Write but the sending itself. */
  lemma CallSilent(g: Group, call: GroupCall)
    requires AtStep(g, call) && Calling(g)
    requires !(call.CallSendWrite? || call.CallService? || call.CallBeginClose? || call.CallFinishClose?)
    ensures Silent(g, CallEffect(g, call))
  {
    hide Arrived, Calling, LockRead, SelectItem, FinishRead;
    match call
    case CallLockRead => LockReadSilent(g);
    case CallSelectItem => SelectItemSilent(g);
    case CallFinishRead => FinishReadSilent(g);
    case CallEnterWrite(_) => PhaseSilent(g, CallEffect(g, call).group);
    case CallLockWrite => PhaseSilent(g, CallEffect(g, call).group);
    case CallEnterRead(_) => PhaseSilent(g, CallEffect(g, call).group);
    case CallSelectClosed => PhaseSilent(g, CallEffect(g, call).group);
    case CallSetError(_) => PhaseSilent(g, CallEffect(g, call).group);
  }

  lemma PhaseSilent(g: Group, g': Group)
    requires g' == g.(writing := g'.writing, reading := g'.reading, closeError := g'.closeError)
    requires g'.reading == g.reading || (!g.reading.Holding? && !g'.reading.Holding? && !g'.reading.Selecting?)
    requires g'.reading == g.reading || (g'.reading.Entered? ==> g'.reading.n > 0)
    ensures Arrived(g') == Arrived(g) && (Calling(g) ==> Calling(g'))
  {
  }

  /** The sending: the bytes count as written, and as late ones once a close has been initiated. */
  lemma SendWriteWrote(g: Group)
    requires g.writing.Sending? && Calling(g)
    ensures var e := SendWrite(g).0;
            && SameHandshake(g, e.group) && Calling(e.group) && Arrived(e.group) == Arrived(g) && !e.dropForward
            && Closes(e.out) == 0 && Wrote(g, e.group, DataOf(e.out))
  {
    var e, p := SendWrite(g).0, g.writing.data;
    hide Arrived, OnTime;
    PhaseSilent(g, g.(writing := NotWriting));
    if e.out != [] {
      assert DataOf(e.out) == p + DataOf([]) == p;
      SentOnTime(g, p);
      SentArrived(g, e.group);
    } else {
      SameOnTime(g, e.group);
      assert OnTime(g) + [] == OnTime(g);
    }
  }

  lemma SentOnTime(g: Group, p: bytes)
    requires Calling(g)
    ensures var g' := g.(writing := NotWriting, written := g.written + p,
                         late := if g.closeInitiated then g.late + |p| else g.late);
            OnTime(g') == OnTime(g) + if g.closeInitiated then [] else p
  {
  }

  lemma SameOnTime(g: Group, g': Group)
    requires g'.written == g.written && g'.late == g.late
    ensures OnTime(g') == OnTime(g)
  {
  }

  lemma SentArrived(g: Group, g': Group)
    requires g' == g.(writing := g'.writing, written := g'.written, late := g'.late)
    ensures Arrived(g') == Arrived(g)
  {
  }

  lemma CloseLast(before: seq<Body>, code: byte)
    requires before == [] || (|before| == 1 && before[0].Error?)
    ensures Closes(before + [Close(code)]) == 1 && DataOf(LiveOf(before + [Close(code)])) == []
  {
    ClosesConcat(before, [Close(code)]);
    LiveConcat(before, [Close(code)]);
    assert Closes([Close(code)]) == 1 && LiveOf([Close(code)]) == [];
  }

  lemma BeginHalf(l: Lane, n: nat, g: Group, h: Group, registered: bool, p: nat, q: nat)
    requires Half(l, n, g, h, registered, p, q)
    ensures var e := RouteGroups.BeginClose(g).0;
            Half(Push(l, 0, e.out), n, e.group, h, registered, p, q) && Arrived(e.group) == Arrived(g)
  {
    var e := RouteGroups.BeginClose(g).0;
    hide Faithful, Swept, Calling, OnTime, Arrived;
    CloseKeepsBytes(g, e.group);
    if e.out != [] {
      CloseLast(ErrorOut(g), CLOSE_REQUESTED);
      PushSwept(l, g.closesSent, p, e.out);
      PushCloseFaithful(l, p, g, h, e.out, e.group);
    } else {
      SweptShaped(l, g.closesSent, p);
      PushNothing(l);
      FaithfulStays(l, p, g, h, l, e.group, h);
    }
  }

  lemma SweptShaped(l: Lane, sent: nat, p: nat)
    requires Swept(l, sent, p)
    ensures l.Shaped()
  {
  }

  lemma BeginCloseKeeps(st: State, c: Pair<nat>, s: Side)
    requires Inv(st, c)
    ensures Inv(Perform(st, s, RouteGroups.BeginClose(st.groups.At(s)).0), c)
  {
    hide Half, Arrived;
    var t := s.Other();
    var g, h, l, back := st.groups.At(s), st.groups.At(t), st.lanes.At(s), st.lanes.At(t);
    var e := RouteGroups.BeginClose(g).0;
    Halves(st, c, s);
    BeginHalf(l, |back.segs|, g, h, st.registered.At(s), c.At(s), c.At(t));
    HalfStays(back, |l.segs|, h, g, e.group, st.registered.At(t), c.At(t), c.At(s));
    PerformHalves(st, c, s, e);
  }

  lemma FinishHalf(l: Lane, n: nat, g: Group, h: Group, registered: bool, p: nat, q: nat)
    requires Half(l, n, g, h, registered, p, q) && g.waiting && l.Shaped()
    ensures var g' := RouteGroups.FinishClose(g).group;
            Half(Drop(Push(l, 0, []), 0), n, g', h, registered, p, q) && Arrived(g') == Arrived(g)
  {
    var g' := RouteGroups.FinishClose(g).group;
    PushNothing(l);
    assert Swept(Drop(l, 0), g.closesSent, p);
    hide Faithful, Swept, Calling, OnTime, Arrived;
    CloseKeepsBytes(g, g');
    FaithfulStays(l, p, g, h, Drop(l, 0), g', h);
  }

  lemma FinishCloseKeeps(st: State, c: Pair<nat>, s: Side)
    requires Inv(st, c) && st.groups.At(s).waiting
    ensures Inv(Perform(st, s, RouteGroups.FinishClose(st.groups.At(s))), c)
  {
    hide Half, Arrived;
    var t := s.Other();
    var g, h, l, back := st.groups.At(s), st.groups.At(t), st.lanes.At(s), st.lanes.At(t);
    var e := RouteGroups.FinishClose(g);
    Halves(st, c, s);
    FinishHalf(l, |back.segs|, g, h, st.registered.At(s), c.At(s), c.At(t));
    HalfStays(back, |l.segs|, h, g, e.group, st.registered.At(t), c.At(t), c.At(s));
    PerformHalves(st, c, s, e);
  }

  lemma CallKeeps(st: State, c: Pair<nat>, s: Side, call: GroupCall)
    requires Inv(st, c) && Callable(st.groups.At(s), call)
    ensures Inv(Perform(st, s, CallEffect(st.groups.At(s), call)), c)
  {
    var g := st.groups.At(s);
    Halves(st, c, s);
    assert Calling(g);
    hide SideInv, Perform, Calling, SendWrite;
    match call
    case CallSendWrite =>
      SendWriteWrote(g);
      QuietCall(st, c, s, CallEffect(g, call));
    case CallService(b) => ServiceKeeps(st, c, s, b);
    case CallBeginClose => BeginCloseKeeps(st, c, s);
    case CallFinishClose => FinishCloseKeeps(st, c, s);
    case _ =>
      CallSilent(g, call);
      hide CallEffect;
      SilentKeeps(st, c, s, CallEffect(g, call));
  }

  lemma SilentKeeps(st: State, c: Pair<nat>, s: Side, e: Effect)
    requires Inv(st, c) && Silent(st.groups.At(s), e)
    ensures Inv(Perform(st, s, e), c)
  {
    Halves(st, c, s);
    assert OnTime(st.groups.At(s)) + [] == OnTime(st.groups.At(s));
    hide SideInv, Perform;
    QuietCall(st, c, s, e);
  }

  lemma ServiceKeeps(st: State, c: Pair<nat>, s: Side, b: Body)
    requires Inv(st, c) && Callable(st.groups.At(s), CallService(b))
    ensures Inv(Perform(st, s, SendService(st.groups.At(s), b)), c)
  {
    Halves(st, c, s);
    assert OnTime(st.groups.At(s)) + [] == OnTime(st.groups.At(s));
    hide SideInv, Perform;
    QuietCall(st, c, s, SendService(st.groups.At(s), b));
  }

  lemma HandleQuiet(h: Group, b: Body)
    requires !b.Close? && !HandlePacket(h, b).blocked && !h.sentOnClosed
    requires h.readChClosed == h.remoteClosed && (h.closed > 0 ==> h.remoteClosed > 0)
    ensures var e := HandlePacket(h, b);
            && SameHandshake(h, e.group) && !e.dropForward && Closes(e.out) == 0 && DataOf(e.out) == []
            && e.group.written == h.written && e.group.late == h.late && (Calling(h) ==> Calling(e.group))
            && Arrived(e.group) == Arrived(h) + if b.Data? && h.remoteClosed == 0 then b.payload else []
  {
    if b.Data? && h.remoteClosed == 0 {
      FlatAppend(h.readCh, b.payload);
      Assoc(h.readOut + h.readBuf + Held(h), Flat(h.readCh), b.payload);
    }
  }

  lemma ConsumeHalf(l: Lane, n: nat, g: Group, h: Group, registered: bool, p: nat, q: nat, i: nat, h': Group)
    requires Half(l, n, g, h, registered, p, q)
    requires i + 1 == |l.segs| && l.segs[i] != [] && l.Shaped() && l.present[i + 1] && !l.segs[i][0].Close?
    requires h'.remoteClosed == h.remoteClosed && h'.closeInitiated == h.closeInitiated
    requires Arrived(h') == Arrived(h) + if l.segs[i][0].Data? && h.remoteClosed == 0 then l.segs[i][0].payload else []
    ensures Half(Pop(l, i), n, g, h', registered, p, q)
  {
    hide Faithful, Swept, Calling, Arrived, Handshaking;
    ConsumeKeeps(l, p, g, h, h', i);
  }

  /** What the receiving end makes of anything but a Close. */
  lemma TakeHalf(l: Lane, n: nat, g: Group, h: Group, registered: bool, p: nat, q: nat, b: Body)
    requires Half(l, n, g, h, registered, p, q) && !b.Close? && !HandlePacket(g, b).blocked
    ensures var e := HandlePacket(g, b);
            && Half(Push(l, 0, e.out), n, e.group, h, registered, p, q) && !e.dropForward
            && SameHandshake(g, e.group)
            && Arrived(e.group) == Arrived(g) + if b.Data? && g.remoteClosed == 0 then b.payload else []
  {
    hide HandlePacket, Faithful, Swept, Arrived;
    HandleQuiet(g, b);
    assert OnTime(g) + [] == OnTime(g);
    EffectHalf(l, n, g, h, HandlePacket(g, b), registered, p, q);
  }

  lemma ConsumeStep(st: State, c: Pair<nat>, s: Side, i: nat)
    requires Inv(st, c) && Enabled(st, Deliver(s, i))
    requires st.lanes.At(s).present[i + 1] && i + 1 == |st.lanes.At(s).segs| && !st.lanes.At(s).segs[i][0].Close?
    ensures Inv(DeliverAt(st, s, i), c)
  {
    hide Half, HandlePacket, DeliverAt, Arrived;
    var t := s.Other();
    var g, h, l, back := st.groups.At(s), st.groups.At(t), st.lanes.At(s), st.lanes.At(t);
    Halves(st, c, s);
    Receives(st, c, s, i);
    var e := HandlePacket(h, l.segs[i][0]);
    TakeHalf(back, |l.segs|, h, g, st.registered.At(t), c.At(t), c.At(s), l.segs[i][0]);
    ConsumeHalf(l, |back.segs|, g, h, st.registered.At(s), c.At(s), c.At(t), i, e.group);
    Deliveries(st, s, i);
    PerformHalves(st.(lanes := st.lanes.Put(s, Pop(l, i))), c, t, e);
  }

  /** A lane whose far end still has its rule leads to a registered group. */
  lemma Receives(st: State, c: Pair<nat>, s: Side, i: nat)
    requires Inv(st, c) && i + 1 == |st.lanes.At(s).segs| && st.lanes.At(s).present[i + 1]
    ensures st.registered.At(s.Other()) && c.At(s) != |st.lanes.At(s).segs|
  {
    Halves(st, c, s);
    hide Faithful, Handshaking, Calling;
  }

  /** A Close reaches a group that did not start to close: it answers with its own. */
  lemma AnswerHalf(l: Lane, n: nat, g: Group, h: Group, p: nat, q: nat, code: byte)
    requires Half(l, n, g, h, true, p, q) && g.closed == 0 && !g.closeInitiated && l.Shaped()
    ensures var e := OnClose(g, code);
            && Half(Drop(Push(l, 0, e.out), 0), n, e.group, h, false, p, n) && Arrived(e.group) == Arrived(g)
            && e.dropForward && g.remoteClosed == 0
  {
    var e := OnClose(g, code);
    var pushed := Push(l, 0, [Close(code)]);
    CloseLast([], code);
    assert [] + [Close(code)] == [Close(code)];
    PushSwept(l, g.closesSent, p, [Close(code)]);
    assert Swept(Drop(pushed, 0), e.group.closesSent, p);
    hide Faithful, Swept, Calling, OnTime, Arrived;
    CloseKeepsBytes(g, e.group);
    PushCloseFaithful(l, p, g, h, [Close(code)], e.group);
    FaithfulStays(pushed, p, e.group, h, Drop(pushed, 0), e.group, h);
  }

  /** The Close has been consumed by h, which becomes h'. */
  lemma ConsumeCloseHalf(l: Lane, n: nat, g: Group, h: Group, h': Group, registered: bool, p: nat, q: nat, i: nat)
    requires Half(l, n, g, h, registered, p, q) && l.Shaped()
    requires i + 1 == |l.segs| && l.segs[i] != [] && l.segs[i][0].Close? && (!h.closeInitiated ==> h.remoteClosed == 0)
    requires Arrived(h') == Arrived(h) && h'.remoteClosed >= h.remoteClosed && h'.closeInitiated == h.closeInitiated
    ensures Half(Drop(Pop(l, i), i + 1), n, g, h', registered, |l.segs|, q)
  {
    var l' := Drop(Pop(l, i), i + 1);
    hide Faithful, Swept, Calling, Arrived, Handshaking;
    ConsumeCloseKeeps(l, p, g, h, i);
    FaithfulStays(l', |l.segs|, g, h, l', g, h');
  }

  lemma AnswerClose(st: State, c: Pair<nat>, s: Side, i: nat)
    requires Inv(st, c) && Enabled(st, Deliver(s, i))
    requires st.lanes.At(s).present[i + 1] && i + 1 == |st.lanes.At(s).segs| && st.lanes.At(s).segs[i][0].Close?
    requires st.groups.At(s.Other()).closed == 0 && !st.groups.At(s.Other()).closeInitiated
    ensures Inv(DeliverAt(st, s, i), c.Put(s, i + 1))
  {
    hide Half, DeliverAt, Arrived;
    var t := s.Other();
    var g, h, l, back := st.groups.At(s), st.groups.At(t), st.lanes.At(s), st.lanes.At(t);
    Halves(st, c, s);
    Receives(st, c, s, i);
    var e, l' := OnClose(h, l.segs[i][0].code), Drop(Pop(l, i), i + 1);
    AnswerHalf(back, |l.segs|, h, g, c.At(t), c.At(s), l.segs[i][0].code);
    ConsumeCloseHalf(l, |back.segs|, g, h, e.group, st.registered.At(s), c.At(s), c.At(t), i);
    HalfCloses(l, |back.segs|, g, h, st.registered.At(s), c.At(s), c.At(t), i);
    Deliveries(st, s, i);
    var st2 := st.(lanes := st.lanes.Put(s, l'), registered := st.registered.Put(t, false));
    PerformHalves(st2, c.Put(s, i + 1), t, e);
  }

  lemma HalfCloses(l: Lane, n: nat, g: Group, h: Group, registered: bool, p: nat, q: nat, i: nat)
    requires Half(l, n, g, h, registered, p, q) && i < |l.segs| && l.segs[i] != [] && l.segs[i][0].Close?
    ensures g.closesSent == 1
  {
    FrontCloses(l, g.closesSent, p, i);
  }

  /** A Close reaches a group that has sent its own: it is counted, or ignored after a timeout. */
  lemma AbsorbHalf(l: Lane, n: nat, g: Group, h: Group, p: nat, q: nat, g': Group)
    requires Half(l, n, g, h, true, p, q) && g.closeInitiated
    requires g' == g || (g.closed == 0 && g' == g.(closeDone := g.closeDone - 1))
    requires g.closed == 0 ==> g' != g
    ensures Half(l, n, g', h, false, p, n) && Arrived(g') == Arrived(g)
  {
    hide Faithful, Swept, Calling, OnTime, Arrived;
    CloseKeepsBytes(g, g');
    FaithfulStays(l, p, g, h, l, g', h);
  }

  lemma HalfInitiated(l: Lane, n: nat, g: Group, h: Group, p: nat, q: nat)
    requires Half(l, n, g, h, true, p, q)
    ensures g.closed > 0 ==> g.closeInitiated
  {
    hide Faithful, Swept, Calling;
  }

  lemma AbsorbClose(st: State, c: Pair<nat>, s: Side, i: nat)
    requires Inv(st, c) && Enabled(st, Deliver(s, i))
    requires st.lanes.At(s).present[i + 1] && i + 1 == |st.lanes.At(s).segs| && st.lanes.At(s).segs[i][0].Close?
    requires st.groups.At(s.Other()).closed > 0 || st.groups.At(s.Other()).closeInitiated
    ensures Inv(DeliverAt(st, s, i), c.Put(s, i + 1))
  {
    hide Half, DeliverAt, Arrived;
    var t := s.Other();
    var g, h, l, back := st.groups.At(s), st.groups.At(t), st.lanes.At(s), st.lanes.At(t);
    Halves(st, c, s);
    Receives(st, c, s, i);
    HalfInitiated(back, |l.segs|, h, g, c.At(t), c.At(s));
    var h', l' := if h.closed > 0 then h else h.(closeDone := h.closeDone - 1), Drop(Pop(l, i), i + 1);
    AbsorbHalf(back, |l.segs|, h, g, c.At(t), c.At(s), h');
    ConsumeCloseHalf(l, |back.segs|, g, h, h', st.registered.At(s), c.At(s), c.At(t), i);
    Deliveries(st, s, i);
    PushNothing(back);
    var st2 := st.(lanes := st.lanes.Put(s, l'), registered := st.registered.Put(t, false));
    PerformNothing(st2, t);
    PerformHalves(st2, c.Put(s, i + 1), t, Stay(h'));
  }

  lemma LostHalf(l: Lane, n: nat, g: Group, h: Group, registered: bool, p: nat, q: nat, i: nat)
    requires Half(l, n, g, h, registered, p, q) && l.Shaped() && i < |l.segs| && l.segs[i] != [] && !l.present[i + 1]
    ensures Half(Pop(l, i), n, g, h, registered, p, q)
  {
    hide Faithful, Swept, Calling, Handshaking;
    DroppedIsDead(l, p, g, h, i);
  }

  lemma LostStep(st: State, c: Pair<nat>, s: Side, i: nat)
    requires Inv(st, c) && Enabled(st, Deliver(s, i)) && !st.lanes.At(s).present[i + 1]
    ensures Inv(DeliverAt(st, s, i), c)
  {
    hide Half, DeliverAt;
    var t, l := s.Other(), st.lanes.At(s);
    Halves(st, c, s);
    LostHalf(l, |st.lanes.At(t).segs|, st.groups.At(s), st.groups.At(t), st.registered.At(s), c.At(s), c.At(t), i);
    Deliveries(st, s, i);
    LaneHalves(st, c, s, Pop(l, i));
  }

  /** A packet moves on by one hop; a Close takes the sweep with it. */
  lemma ForwardHalf(l: Lane, n: nat, g: Group, h: Group, registered: bool, p: nat, q: nat, i: nat)
    requires Half(l, n, g, h, registered, p, q) && l.Shaped() && i + 1 < |l.segs| && l.segs[i] != [] && l.present[i + 1]
    ensures l.segs[i][0].Close? ==> p == i
    ensures Half(Forwarded(l, i), n, g, h, registered, if l.segs[i][0].Close? then i + 1 else p, q)
  {
    FrontCloses(l, g.closesSent, p, i);
    hide Faithful, Swept, Calling, Handshaking;
    ForwardKeeps(l, p, g, h, i);
  }

  /** The end that receives does not notice how far a Close has come, until it is there. */
  lemma HalfBehind(l: Lane, n: nat, g: Group, h: Group, registered: bool, p: nat, q: nat, q': nat)
    requires Half(l, n, g, h, registered, p, q) && q < n && q' < n
    ensures Half(l, n, g, h, registered, p, q')
  {
    hide Faithful, Swept, Calling, Handshaking;
  }

  lemma ForwardStep(st: State, c: Pair<nat>, s: Side, i: nat)
    requires Inv(st, c) && Enabled(st, Deliver(s, i))
    requires st.lanes.At(s).present[i + 1] && i + 1 < |st.lanes.At(s).segs|
    ensures Inv(DeliverAt(st, s, i), if st.lanes.At(s).segs[i][0].Close? then c.Put(s, i + 1) else c)
  {
    hide Half, DeliverAt;
    var t := s.Other();
    var g, h, l, back := st.groups.At(s), st.groups.At(t), st.lanes.At(s), st.lanes.At(t);
    var c' := if l.segs[i][0].Close? then c.Put(s, i + 1) else c;
    Halves(st, c, s);
    ForwardHalf(l, |back.segs|, g, h, st.registered.At(s), c.At(s), c.At(t), i);
    if l.segs[i][0].Close? { HalfBehind(back, |l.segs|, h, g, st.registered.At(t), c.At(t), i, i + 1); }
    Deliveries(st, s, i);
    LaneHalves(st, c', s, Forwarded(l, i));
  }

  lemma StepKeeps(st: State, c: Pair<nat>, a: Action)
    requires Inv(st, c) && Enabled(st, a)
    ensures exists c' :: Inv(Apply(st, a), c')
  {
    hide SideInv;
    if a.Do? {
      CallKeeps(st, c, a.s, a.call);
      assert Inv(Apply(st, a), c);
    } else {
      var l := st.lanes.At(a.s);
      if !l.present[a.i + 1] {
        LostStep(st, c, a.s, a.i);
        assert Inv(Apply(st, a), c);
      } else if a.i + 1 < |l.segs| {
        ForwardStep(st, c, a.s, a.i);
        assert Inv(Apply(st, a), if l.segs[a.i][0].Close? then c.Put(a.s, a.i + 1) else c);
      } else if l.segs[a.i][0].Close? {
        var h := st.groups.At(a.s.Other());
        if h.closed == 0 && !h.closeInitiated {
          AnswerClose(st, c, a.s, a.i);
        } else {
          AbsorbClose(st, c, a.s, a.i);
        }
        assert Inv(Apply(st, a), c.Put(a.s, a.i + 1));
      } else {
        ConsumeStep(st, c, a.s, a.i);
        assert Inv(Apply(st, a), c);
      }
    }
  }

  lemma {:induction false} RunKeeps(st: State, c: Pair<nat>, acts: seq<Action>, st': State)
    requires Inv(st, c) && Run(st, acts, st')
    ensures exists c' :: Inv(st', c')
    decreases |acts|
  {
    if acts != [] {
      StepKeeps(st, c, acts[0]);
      var c1 :| Inv(Apply(st, acts[0]), c1);
      RunKeeps(Apply(st, acts[0]), c1, acts[1..], st');
    }
  }

  // ---- the results ----

  ghost predicate Reachable(st: State)
  {
    exists st0, acts :: Initial(st0) && Run(st0, acts, st)
  }

  lemma ReachableStep(st: State, a: Action)
    requires Reachable(st) && st.Shaped() && Enabled(st, a)
    ensures Reachable(Apply(st, a))
  {
    var st0, acts :| Initial(st0) && Run(st0, acts, st);
    hide Apply, Enabled;
    RunExtend(st0, acts, st, a);
  }

  lemma InitialReachable(st: State)
    requires Initial(st)
    ensures Reachable(st)
  {
    assert Run(st, [], st);
  }

  lemma ReachableInv(st: State) returns (c: Pair<nat>)
    requires Reachable(st)
    ensures Inv(st, c)
  {
    var st0, acts :| Initial(st0) && Run(st0, acts, st);
    InitialInv(st0);
    RunKeeps(st0, Pair(0, 0), acts, st);
    c :| Inv(st, c);
  }

  /** The bytes read at either end are a prefix of the bytes written at the other, whatever the route
      lengths, buffer sizes and interleaving; and while neither end has started to close nothing is
      lost: the bytes written are those read, those waiting to be read and those in flight. */
  lemma ByteStream(st: State, s: Side)
    requires Reachable(st)
    ensures st.groups.At(s.Other()).readOut <= OnTime(st.groups.At(s)) <= st.groups.At(s).written
    ensures st.groups.At(s).closesSent == 0 && st.groups.At(s.Other()).closesSent == 0 ==>
              st.groups.At(s).written == Arrived(st.groups.At(s.Other())) + DataOf(Pipe(st.lanes.At(s).segs))
  {
    var c := ReachableInv(st);
    var t := s.Other();
    Halves(st, c, s);
    StreamHalf(st.lanes.At(s), |st.lanes.At(t).segs|, st.groups.At(s), st.groups.At(t), st.registered.At(s),
               c.At(s), c.At(t));
    if st.groups.At(t).closesSent == 0 {
      OpenHalf(st.lanes.At(t), |st.lanes.At(s).segs|, st.groups.At(t), st.groups.At(s), st.registered.At(t),
               c.At(t), c.At(s));
    }
  }

  lemma OpenHalf(l: Lane, n: nat, g: Group, h: Group, registered: bool, p: nat, q: nat)
    requires Half(l, n, g, h, registered, p, q) && g.closesSent == 0
    ensures g.remoteClosed == 0
  {
    hide Swept, Faithful, Calling;
  }

  lemma StreamHalf(l: Lane, n: nat, g: Group, h: Group, registered: bool, p: nat, q: nat)
    requires Half(l, n, g, h, registered, p, q)
    ensures h.readOut <= OnTime(g) <= g.written
    ensures g.closesSent == 0 && h.remoteClosed == 0 ==> g.written == Arrived(h) + DataOf(Pipe(l.segs))
  {
    assert h.readOut <= Arrived(h);
    if g.closesSent == 0 {
      SweptPipe(l, 0, p);
      hide Swept;
      NoCloseIsLive(Pipe(l.segs));
    }
    hide Arrived, Pipe, LiveOf, DataOf;
  }

  /** No channel is closed twice, nothing is sent on a closed channel, the wait counter stays
      non-negative and each end sends at most one Close packet. */
  lemma CloseSafety(st: State, s: Side)
    requires Reachable(st)
    ensures var g := st.groups.At(s);
            && g.closed <= 1 && g.remoteClosed <= 1 && g.readChClosed <= 1 && g.closesSent <= 1
            && g.closeDone >= 0 && !g.sentOnClosed
  {
    var c := ReachableInv(st);
    assert SideInv(st, s, c);
  }

  ghost predicate Idle(l: Lane) { forall i :: 0 <= i < |l.segs| ==> l.segs[i] == [] }
  ghost predicate NoRules(l: Lane) { forall i :: 0 <= i < |l.present| ==> !l.present[i] }

  /** Once an end has started to close, nothing is in flight and no end is still waiting, every visor
      of both paths has lost its rule and both routers have forgotten their group. */
  lemma Teardown(st: State, s: Side)
    requires Reachable(st)
    requires st.groups.At(s).closesSent > 0
    requires Idle(st.lanes.init) && Idle(st.lanes.resp)
    requires !st.groups.init.waiting && !st.groups.resp.waiting
    ensures NoRules(st.lanes.init) && NoRules(st.lanes.resp)
    ensures st.registered == Pair(false, false)
  {
    var c := ReachableInv(st);
    SweptAtRest(st, c, s);
  }

  lemma SweptAtRest(st: State, c: Pair<nat>, s: Side)
    requires Inv(st, c) && st.groups.At(s).closesSent > 0
    requires Idle(st.lanes.init) && Idle(st.lanes.resp)
    requires !st.groups.init.waiting && !st.groups.resp.waiting
    ensures NoRules(st.lanes.init) && NoRules(st.lanes.resp)
    ensures st.registered == Pair(false, false)
  {
    var t := s.Other();
    assert SideInv(st, s, c) && SideInv(st, t, c);
    IdleSwept(st.lanes.At(s), st.groups.At(s).closesSent, c.At(s));
    IdleSwept(st.lanes.At(t), st.groups.At(t).closesSent, c.At(t));
    assert NoRules(st.lanes.At(s)) && NoRules(st.lanes.At(t));
  }

  /** With the Close packet sent and nothing in flight, the sweep is complete. */
  lemma IdleSwept(l: Lane, sent: nat, p: nat)
    requires Swept(l, sent, p) && Idle(l)
    ensures sent == 1 ==> p == |l.segs|
  {
    assert p < |l.segs| ==> l.segs[p] == [];
  }
}
