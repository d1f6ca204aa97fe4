/** RouteGroup as an object that its methods change, proved against the functions of RouteGroups. */
module RouteGroupObject {
  import opened Routing
  import opened RouteGroups
  import opened Routers
  import Table
  import KeepAlives

  /** What a group shares with its visor: the rule table (without expiry, see Table) and what has been
      handed to the transports, in order. */
  class Backend {
    var nextID: nat
    var rules: map<RouteID, Rule>
    var sent: seq<(UUID, Packet)>

    constructor ()
      ensures nextID == 0 && rules == map[] && sent == []
    {
      nextID, rules, sent := 0, map[], [];
    }

    method WritePacket(tp: UUID, p: Packet)
      modifies this`sent
      ensures sent == old(sent) + [(tp, p)]
    {
      sent := sent + [(tp, p)];
    }

    method DelRules(keys: seq<RouteID>)
      modifies this`rules
      ensures rules == old(rules) - (set k | k in keys)
    {
      for i := 0 to |keys|
        invariant rules == old(rules) - (set k | k in keys[..i])
      {
        rules := rules - {keys[i]};
        assert keys[..i + 1] == keys[..i] + [keys[i]];
      }
      assert keys[..|keys|] == keys;
    }
  }

  function Posted(tp: UUID, ps: seq<Packet>): (r: seq<(UUID, Packet)>)
    ensures |r| == |ps| && forall i :: 0 <= i < |ps| ==> r[i] == (tp, ps[i])
  {
    seq(|ps|, i requires 0 <= i < |ps| => (tp, ps[i]))
  }

  /** From one table and record to another, a group with forward rule `fwd` has had effect e. */
  ghost predicate Carried(rules: map<RouteID, Rule>, rules': map<RouteID, Rule>,
                          sent: seq<(UUID, Packet)>, sent': seq<(UUID, Packet)>, fwd: Rule, e: Effect)
  {
    && fwd.Forward?
    && rules' == (if e.dropForward then rules - {fwd.key} else rules)
    && sent' == sent + Posted(fwd.tp, Addressed(fwd.next, e.out))
  }

  class RouteGroup {
    const be: Backend
    var fwd: seq<Rule>
    var rvs: seq<Rule>
    var tps: seq<UUID>
    var readCh: seq<bytes>
    var readBuf: bytes
    var closeInitiated: bool
    var waiting: bool
    var closeDone: int
    var once: bool
    var closed: nat
    var remoteClosed: nat
    var readChClosed: nat
    var closeError: Option<bytes>
    var lastSent: Table.Time
    /** Where the Write and the Read in progress stand. */
    var writing: Writing
    var reading: Reading
    ghost var closesSent: nat
    ghost var sentOnClosed: bool
    ghost var written: bytes
    ghost var late: nat
    ghost var readOut: bytes

    ghost function Model(): Group
      reads this
    {
      Group(readCh, readBuf, closeInitiated, waiting, closeDone, once, closed, remoteClosed, readChClosed,
            closesSent, sentOnClosed, closeError, writing, reading, written, late, readOut)
    }

    /** How the router builds a group: one forward rule with its transport. */
    ghost predicate Valid()
      reads this
    {
      |fwd| == |tps| == 1 && fwd[0].Forward? && fwd[0].tp == tps[0]
    }

    constructor (be: Backend)
      ensures this.be == be && Model() == FreshGroup && fwd == [] && rvs == [] && tps == [] && lastSent == 0
    {
      this.be, fwd, rvs, tps := be, [], [], [];
      readCh, readBuf, closeInitiated, waiting, closeDone, once := [], [], false, false, 0, false;
      closed, remoteClosed, readChClosed, closeError, lastSent := 0, 0, 0, None, 0;
      writing, reading := NotWriting, NotReading;
      closesSent, sentOnClosed, written, late, readOut := 0, false, [], 0, [];
    }

    method AppendRules(forward: Rule, reverse: Rule, tp: UUID)
      modifies this`fwd, this`rvs, this`tps
      ensures fwd == old(fwd) + [forward] && rvs == old(rvs) + [reverse] && tps == old(tps) + [tp]
      ensures Model() == old(Model())
    {
      fwd, rvs, tps := fwd + [forward], rvs + [reverse], tps + [tp];
    }

    // ---- Write ----

    method EnterWrite(p: bytes) returns (r: IOResult)
      requires Valid() && writing.NotWriting?
      modifies this`writing
      ensures Valid()
      ensures var x := RouteGroups.EnterWrite(old(Model()), p); Model() == x.0.group && r == x.1 && !x.0.blocked
    {
      if closed > 0 { return ErrClosedPipe; }
      if p == [] { return Done(0); }
      writing := AtLock(p);
      return LetIn;
    }

    method LockWrite()
      requires Valid() && writing.AtLock? && !waiting
      modifies this`writing
      ensures Valid() && Model() == RouteGroups.LockWrite(old(Model())).group
    {
      writing := Sending(writing.data);
    }

    /** Uses the rule and the transport whatever has happened since, and sets lastSent only on success. */
    method SendWrite(now: Table.Time) returns (r: IOResult)
      requires Valid() && writing.Sending?
      modifies this`writing, this`written, this`late, this`lastSent, be`sent
      ensures Valid()
      ensures var w := RouteGroups.SendWrite(old(Model()));
              && Model() == w.0.group && r == w.1
              && Carried(old(be.rules), be.rules, old(be.sent), be.sent, fwd[0], w.0)
      ensures lastSent == if r.Done? then now else old(lastSent)
    {
      NothingPosted(fwd[0], be.sent);
      var p := writing.data;
      writing := NotWriting;
      if |p| > MAX_UINT16 { return ErrPayloadTooBig; }
      be.WritePacket(tps[0], Packet(fwd[0].next, Data(p)));
      OnePosted(fwd[0], Data(p));
      lastSent := now;
      written := written + p;
      if closeInitiated { late := late + |p|; }
      return Done(|p|);
    }

    /** The whole call, as far as it gets: with the mutex held by Close it is let in and goes on later. */
    method Write(p: bytes, now: Table.Time) returns (r: IOResult)
      requires Valid() && writing.NotWriting?
      modifies this`writing, this`written, this`late, this`lastSent, be`sent
      ensures Valid()
      ensures var w := RouteGroups.Write(old(Model()), p);
              && Model() == w.0.group && r == w.1
              && Carried(old(be.rules), be.rules, old(be.sent), be.sent, fwd[0], w.0)
    {
      hide Carried, RouteGroups.SendWrite;
      NoEffect(fwd[0], be.rules, be.sent);
      r := EnterWrite(p);
      if !r.LetIn? || waiting { return; }
      LockWrite();
      r := SendWrite(now);
    }

    // ---- Read ----

    method EnterRead(n: nat) returns (r: IOResult)
      requires Valid() && reading.NotReading?
      modifies this`reading
      ensures Valid()
      ensures var x := RouteGroups.EnterRead(old(Model()), n); Model() == x.0.group && r == x.1 && !x.0.blocked
    {
      if closed > 0 { return ErrClosedPipe; }
      if n == 0 { return Done(0); }
      reading := Entered(n);
      return LetIn;
    }

    method LockRead() returns (b: bytes, r: IOResult)
      requires Valid() && reading.Entered? && !waiting
      modifies this`reading, this`readBuf, this`readOut
      ensures Valid()
      ensures var x := RouteGroups.LockRead(old(Model())); Model() == x.0.group && b == x.1 && r == x.2
    {
      var n := reading.n;
      if |readBuf| > 0 {
        var k := if n < |readBuf| then n else |readBuf|;
        b, r := readBuf[..k], Done(k);
        readBuf, readOut, reading := readBuf[k..], readOut + readBuf[..k], NotReading;
        return;
      }
      reading := Selecting(n);
      return [], LetIn;
    }

    /** One case of the select that is ready; `onClosed` resolves the choice between the two. */
    method Select(onClosed: bool) returns (r: IOResult)
      requires Valid() && reading.Selecting?
      requires if onClosed then closed > 0 else readCh != [] || readChClosed > 0
      modifies this`reading, this`readCh
      ensures Valid()
      ensures var x := if onClosed then RouteGroups.SelectClosed(old(Model()))
                       else RouteGroups.SelectItem(old(Model()));
              Model() == x.0.group && r == x.1 && !x.0.blocked
    {
      var n := reading.n;
      reading := NotReading;
      if onClosed { return ErrClosedPipe; }
      if |readCh| == 0 { return EOF; }
      var data := readCh[0];
      readCh := readCh[1..];
      if |data| == 0 { return EOF; }
      reading := Holding(n, data);
      return LetIn;
    }

    /** BufRead: hand out what fits, put the rest behind what is buffered. */
    method BufRead(data: bytes, n: nat) returns (b: bytes)
      modifies this`readBuf
      ensures b == data[..Min(n, |data|)] && readBuf == old(readBuf) + data[Min(n, |data|)..]
    {
      var k := if n < |data| then n else |data|;
      b := data[..k];
      if k < |data| { readBuf := readBuf + data[k..]; }
    }

    method FinishRead() returns (b: bytes, r: IOResult)
      requires Valid() && reading.Holding? && !waiting
      modifies this`reading, this`readBuf, this`readOut
      ensures Valid()
      ensures var x := RouteGroups.FinishRead(old(Model())); Model() == x.0.group && b == x.1 && r == x.2
    {
      var n, data := reading.n, reading.item;
      b := BufRead(data, n);
      r := Done(|b|);
      readOut, reading := readOut + b, NotReading;
    }

    /** The whole call, as far as it gets: it is let in if the mutex is held or nothing is ready. */
    method Read(n: nat) returns (b: bytes, r: IOResult)
      requires Valid() && reading.NotReading?
      modifies this`reading, this`readBuf, this`readCh, this`readOut
      ensures Valid()
      ensures var x := RouteGroups.Read(old(Model()), n); Model() == x.0.group && b == x.1 && r == x.2
    {
      b := [];
      r := EnterRead(n);
      if !r.LetIn? || waiting { return; }
      b, r := LockRead();
      if r.Done? || (readCh == [] && readChClosed == 0) { return; }
      r := Select(false);
      if !r.LetIn? { return; }
      b, r := FinishRead();
    }

    // ---- Close ----

    /** The error packet goes first, and only from the end that initiates the close. */
    method BroadcastClosePackets(code: byte)
      requires Valid()
      modifies this`closesSent, be`sent
      ensures closesSent == old(closesSent) + 1
      ensures var out := (if closeInitiated then ErrorOut(old(Model())) else []) + [Close(code)];
              be.sent == old(be.sent) + Posted(fwd[0].tp, Addressed(fwd[0].next, out))
    {
      ghost var out := (if closeInitiated then ErrorOut(Model()) else []) + [Close(code)];
      for i := 0 to |tps|
        invariant closesSent == old(closesSent) && (i == 0 ==> be.sent == old(be.sent))
        invariant i == 1 ==> be.sent == old(be.sent) + Posted(fwd[0].tp, Addressed(fwd[0].next, out))
      {
        assert i == 0;
        if closeError.Some? && closeInitiated && |closeError.value| <= MAX_UINT16 {
          be.WritePacket(tps[i], Packet(fwd[i].next, Error(closeError.value)));
        }
        be.WritePacket(tps[i], Packet(fwd[i].next, Close(code)));
        assert Posted(fwd[0].tp, Addressed(fwd[0].next, out)) == be.sent[|old(be.sent)|..];
      }
      closesSent := closesSent + 1;
    }

    method DropForwardRules()
      requires Valid()
      modifies be`rules
      ensures be.rules == old(be.rules) - {fwd[0].key}
    {
      var keys: seq<RouteID> := [];
      for i := 0 to |fwd|
        invariant keys == if i == 0 then [] else [fwd[0].key]
      {
        keys := keys + [fwd[i].key];
      }
      assert (set k | k in keys) == {fwd[0].key};
      be.DelRules(keys);
    }

    method ShutOnce()
      modifies this`once, this`closed, this`remoteClosed, this`readChClosed
      ensures Model() == ShutChannels(old(Model()))
    {
      if !once {
        once := true;
        if closeInitiated { closed := closed + 1; }
        if remoteClosed == 0 { remoteClosed := remoteClosed + 1; }
        readChClosed := readChClosed + 1;
      }
    }

    method CloseRest()
      requires Valid()
      modifies this`once, this`closed, this`remoteClosed, this`readChClosed, be`rules
      ensures Model() == ShutChannels(old(Model())) && be.rules == old(be.rules) - {fwd[0].key}
    {
      hide ShutChannels;
      DropForwardRules();
      ShutOnce();
    }

    /** Close, up to the wait for the other end's answer. */
    method BeginClose() returns (r: IOResult)
      requires Valid()
      modifies this`closed, this`closeInitiated, this`waiting, this`closeDone, this`closesSent, be`sent
      ensures Valid()
      ensures var x := RouteGroups.BeginClose(old(Model()));
              && Model() == x.0.group && r == x.1
              && Carried(old(be.rules), be.rules, old(be.sent), be.sent, fwd[0], x.0)
    {
      NothingPosted(fwd[0], be.sent);
      if closed > 0 { return ErrClosedPipe; }
      if remoteClosed > 0 {
        closed := closed + 1;
        return Done(0);
      }
      if waiting { return Done(0); }
      Initiate();
      return Done(0);
    }

    method Initiate()
      requires Valid()
      modifies this`closeInitiated, this`waiting, this`closeDone, this`closesSent, be`sent
      ensures Model() == old(Model()).(closeInitiated := true, waiting := true, closeDone := old(closeDone) + 1,
                                       closesSent := old(closesSent) + 1)
      ensures var out := ErrorOut(old(Model())) + [Close(CLOSE_REQUESTED)];
              be.sent == old(be.sent) + Posted(fwd[0].tp, Addressed(fwd[0].next, out))
    {
      closeInitiated := true;
      closeDone := closeDone + |tps|;
      BroadcastClosePackets(CLOSE_REQUESTED);
      waiting := true;
    }

    /** The rest of Close, once the answer is there or the timeout has passed. */
    method FinishClose()
      requires Valid() && waiting
      modifies this, be`rules
      ensures Valid() && fwd == old(fwd)
      ensures var e := RouteGroups.FinishClose(old(Model()));
              Model() == e.group && Carried(old(be.rules), be.rules, old(be.sent), be.sent, fwd[0], e)
    {
      NothingPosted(fwd[0], be.sent);
      waiting := false;
      CloseRest();
    }

    method HandleClosePacket(code: byte)
      requires Valid()
      modifies this, be`rules, be`sent
      ensures Valid() && fwd == old(fwd)
      ensures var e := OnClose(old(Model()), code);
              Model() == e.group && Carried(old(be.rules), be.rules, old(be.sent), be.sent, fwd[0], e)
    {
      NothingPosted(fwd[0], be.sent);
      if closeInitiated {
        closeDone := closeDone - 1;
        return;
      }
      if closed > 0 { return; }
      BroadcastClosePackets(code);
      assert [] + [Close(code)] == [Close(code)];
      CloseRest();
    }

    /** Answers whether the packet was handled; a blocked one waits in front of the group. */
    method HandlePacket(b: Body) returns (handled: bool)
      requires Valid()
      modifies this, be`rules, be`sent
      ensures Valid() && fwd == old(fwd)
      ensures var e := RouteGroups.HandlePacket(old(Model()), b);
              && handled == !e.blocked && Model() == e.group
              && (handled ==> Carried(old(be.rules), be.rules, old(be.sent), be.sent, fwd[0], e))
              && (!handled ==> be.rules == old(be.rules) && be.sent == old(be.sent))
    {
      NothingPosted(fwd[0], be.sent);
      handled := true;
      match b {
        case Close(code) => HandleClosePacket(code);
        case Data(payload) =>
          if remoteClosed > 0 || closed > 0 { return; }
          if |readCh| >= READ_CH_BUF_SIZE { return false; }
          sentOnClosed := sentOnClosed || readChClosed > 0;
          readCh := readCh + [payload];
        case Ping(timestamp, _) =>
          if waiting { return false; }
          OnePosted(fwd[0], Pong(timestamp));
          be.WritePacket(tps[0], Packet(fwd[0].next, Pong(timestamp)));
        case Error(message) =>
          if remoteClosed > 0 { return; }
          closeError := Some(message);
        case KeepAlive =>
        case Handshake(_) =>
        case Pong(_) =>
      }
    }

    /** Under the mutex, on every transport; lastSent stays as it is. */
    method SendKeepAlive()
      requires Valid() && !waiting
      modifies be`sent
      ensures Carried(old(be.rules), be.rules, old(be.sent), be.sent, fwd[0], SendService(Model(), KeepAlive))
      ensures be.sent == old(be.sent) + [(fwd[0].tp, Packet(fwd[0].next, KeepAlive))]
    {
      for i := 0 to |tps|
        invariant be.sent == old(be.sent) + if i == 0 then [] else [(tps[0], Packet(fwd[0].next, KeepAlive))]
      {
        be.WritePacket(tps[i], Packet(fwd[i].next, KeepAlive));
      }
      OnePosted(fwd[0], KeepAlive);
    }

    /** A keep-alive is due unless data went out less than an interval ago; with the mutex held by Close
        it is let in, and goes out with SendKeepAlive when the mutex is free. */
    method KeepAliveServiceFn(interval: Duration, now: Table.Time) returns (r: ServiceResult)
      requires Valid()
      modifies be`sent
      ensures r.NotDue? <==> now - lastSent < interval && interval != -0x8000_0000_0000_0000
      ensures !r.NotDue? ==> (r.ServiceLetIn? <==> waiting)
      ensures r.Served? ==>
        Carried(old(be.rules), be.rules, old(be.sent), be.sent, fwd[0], SendService(Model(), KeepAlive))
      ensures !r.Served? ==> be.sent == old(be.sent)
    {
      KeepAlives.DueIff(lastSent, now, interval);
      if Table.Since(now, lastSent) < interval { return NotDue; }
      if waiting { return ServiceLetIn; }
      SendKeepAlive();
      return Served;
    }
  }

  datatype ServiceResult = NotDue | ServiceLetIn | Served

  lemma NoEffect(fwd: Rule, rules: map<RouteID, Rule>, sent: seq<(UUID, Packet)>)
    requires fwd.Forward?
    ensures forall g, blocked :: Carried(rules, rules, sent, sent, fwd, Effect(g, [], false, blocked))
  {
    NothingPosted(fwd, sent);
  }

  lemma NothingPosted(fwd: Rule, sent: seq<(UUID, Packet)>)
    requires fwd.Forward?
    ensures sent + Posted(fwd.tp, Addressed(fwd.next, [])) == sent
  {
  }

  lemma OnePosted(fwd: Rule, b: Body)
    requires fwd.Forward?
    ensures Posted(fwd.tp, Addressed(fwd.next, [b])) == [(fwd.tp, Packet(fwd.next, b))]
  {
  }
}
