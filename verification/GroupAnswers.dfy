/** What the calls of a group answer, case by case, in terms of what the caller sees. */
module GroupAnswers {
  import opened Routing
  import opened Bytes
  import opened RouteGroups

  /** A closed group refuses everything and does nothing. */
  lemma ClosedRefuses(g: Group, p: bytes, n: nat)
    requires g.closed > 0
    ensures Write(g, p) == (Effect(g, [], false, false), ErrClosedPipe)
    ensures Read(g, n) == (Effect(g, [], false, false), [], ErrClosedPipe)
    ensures BeginClose(g) == (Effect(g, [], false, false), ErrClosedPipe)
  {
  }

  /** A Write on a group that is not closed, with no other Write in progress and the mutex free: it fails
      exactly for more than 65535 bytes, and else sends and records exactly the bytes it was given. */
  lemma WriteAnswers(g: Group, p: bytes)
    requires g.closed == 0 && !g.waiting && g.writing.NotWriting?
    ensures var (e, r) := Write(g, p);
            && !e.blocked && !e.dropForward && e.group.writing.NotWriting?
            && (r.ErrPayloadTooBig? <==> |p| > 65535)
            && (!r.ErrPayloadTooBig? ==> r == Done(|p|) && e.group.written == g.written + p)
            && e.out == (if 0 < |p| <= 65535 then [Data(p)] else [])
            && (|p| > 65535 ==> e.group.written == g.written)
            && e.group.closesSent == g.closesSent && e.group.readOut == g.readOut && e.group.readCh == g.readCh
  {
  }

  /** While Close holds the mutex the Write is let in; from then on nothing stops it. */
  lemma LetInWriteAnswers(g: Group, p: bytes)
    requires g.closed == 0 && g.waiting && g.writing.NotWriting? && 0 < |p| <= 65535
    ensures Write(g, p) == (Effect(g.(writing := AtLock(p)), [], false, false), LetIn)
    ensures forall g': Group :: g'.writing == AtLock(p) && !g'.waiting ==>
      var (e, r) := SendWrite(LockWrite(g').group);
      e.out == [Data(p)] && r == Done(|p|) && e.group.written == g'.written + p && e.group.writing.NotWriting?
  {
  }

  /** Service packets go out as they are; only a keep-alive waits for the mutex. */
  lemma ServiceAnswers(g: Group, b: Body)
    requires b.KeepAlive? || b.Ping?
    ensures SendService(g, b).blocked <==> g.waiting && b.KeepAlive?
    ensures !SendService(g, b).blocked ==> SendService(g, b) == Effect(g, [b], false, false)
  {
  }

  /** When a group can take the steps of a Write; */
  lemma OffersWrite(g: Group, p: bytes)
    ensures Callable(g, CallEnterWrite(p)) <==> g.closed > 0 || p == [] || g.writing.NotWriting?
    ensures Callable(g, CallLockWrite) <==> g.writing.AtLock? && !g.waiting
    ensures Callable(g, CallSendWrite) <==> g.writing.Sending?
  {
  }

  /** of a Read; */
  lemma OffersRead(g: Group, n: nat)
    ensures Callable(g, CallEnterRead(n)) <==> g.closed > 0 || n == 0 || g.reading.NotReading?
    ensures Callable(g, CallLockRead) <==> g.reading.Entered? && !g.waiting
    ensures Callable(g, CallSelectClosed) <==> g.reading.Selecting? && g.closed > 0
    ensures Callable(g, CallSelectItem) <==> g.reading.Selecting? && (g.readCh != [] || g.readChClosed > 0)
    ensures Callable(g, CallFinishRead) <==> g.reading.Holding? && !g.waiting
  {
  }

  /** and the others. */
  lemma OffersOther(g: Group, message: bytes, b: Body)
    ensures Callable(g, CallBeginClose) && (Callable(g, CallFinishClose) <==> g.waiting)
    ensures Callable(g, CallSetError(message))
    ensures CallEffect(g, CallSetError(message)) == Effect(g.(closeError := Some(message)), [], false, false)
    ensures Callable(g, CallService(b)) <==> (b.KeepAlive? && !g.waiting) || b.Ping?
  {
  }

  /** What a Read can hand out next: the overflow of the last item, or else the first item. */
  function Available(g: Group): bytes
  {
    if g.readBuf != [] then g.readBuf else if g.readCh != [] then g.readCh[0] else []
  }

  /** A Read on a group that is not closed, with no other Read in progress and the mutex free: as many
      bytes of what is available as fit. */
  lemma ReadAnswers(g: Group, n: nat)
    requires g.closed == 0 && !g.waiting && g.reading.NotReading? && n > 0
    ensures var (e, b, r) := Read(g, n);
            && !e.blocked && e.out == [] && !e.dropForward
            && b == Available(g)[..|b|] && |b| == (if n < |Available(g)| then n else |Available(g)|)
            && (Available(g) != [] ==> r == Done(|b|))
  {
  }

  /** EOF exactly on an empty item or at the end of a closed channel; let in exactly if there is nothing yet. */
  lemma ReadEnds(g: Group, n: nat)
    requires g.closed == 0 && !g.waiting && g.reading.NotReading? && n > 0
    ensures Read(g, n).2 == EOF <==> g.readBuf == [] && if g.readCh == [] then g.readChClosed > 0 else g.readCh[0] == []
    ensures Read(g, n).2 == LetIn <==> g.readBuf == [] && g.readCh == [] && g.readChClosed == 0
  {
  }

  /** What is handed out is ahead of what is left for later, and nothing is lost. */
  lemma ReadLeaves(g: Group, n: nat)
    requires g.closed == 0 && !g.waiting && g.reading.NotReading? && n > 0 && Available(g) != []
    ensures var (e, b, r) := Read(g, n);
            b + e.group.readBuf + Flat(e.group.readCh) == g.readBuf + Flat(g.readCh)
  {
    var a := Available(g);
    var k := if n < |a| then n else |a|;
    assert a == a[..k] + a[k..];
    if g.readBuf == [] && g.readCh != [] {
      assert Flat(g.readCh) == a + Flat(g.readCh[1..]);
      assert a[..k] + ([] + a[k..]) + Flat(g.readCh[1..]) == [] + (a + Flat(g.readCh[1..]));
    } else {
      assert a[..k] + a[k..] + Flat(g.readCh) == a + Flat(g.readCh);
    }
  }

  /** A Read that was let in: past the mutex it takes any case of its select that is ready, whether or not
      the group has been closed since, and hands out the item it holds as soon as the mutex is free. */
  lemma LetInReadAnswers(g: Group, n: nat)
    ensures g.reading == Selecting(n) && g.closed > 0 ==> SelectClosed(g).1 == ErrClosedPipe
    ensures g.reading == Selecting(n) && g.readCh == [] ==>
      (SelectItem(g).0.blocked <==> g.readChClosed == 0) && (g.readChClosed > 0 ==> SelectItem(g).1 == EOF)
    ensures g.reading == Selecting(n) && g.readCh != [] && g.readCh[0] != [] ==>
      SelectItem(g).0 == Effect(g.(reading := Holding(n, g.readCh[0]), readCh := g.readCh[1..]), [], false, false)
    ensures g.reading.Holding? && g.reading.n == n && !g.waiting ==>
      var d, (e, b, r) := g.reading.item, FinishRead(g);
      r == Done(|b|) && b + (e.group.readBuf[|g.readBuf|..]) == d && |b| == if n < |d| then n else |d|
  {
    if g.reading.Holding? && g.reading.n == n && !g.waiting {
      var d := g.reading.item;
      var k := if n < |d| then n else |d|;
      assert (g.readBuf + d[k..])[|g.readBuf|..] == d[k..] && d == d[..k] + d[k..];
    }
  }

  /** Close on a group that neither end has closed: one Close packet with code 0, behind the error that was
      set if it fits a packet, and the wait for one answer. */
  lemma CloseAnswers(g: Group)
    requires g.closed == 0 && g.remoteClosed == 0 && !g.waiting
    ensures var (e, r) := BeginClose(g);
            && r == Done(0) && !e.blocked && !e.dropForward && e.group.closeInitiated && e.group.waiting
            && e.group.closeDone == g.closeDone + 1
            && e.out == if g.closeError.Some? && |g.closeError.value| <= 65535
                        then [Error(g.closeError.value), Close(0)] else [Close(0)]
  {
  }

  /** After a remote close, Close only marks the group closed; during its own wait a second Close does
      nothing. */
  lemma CloseAgainAnswers(g: Group)
    requires g.closed == 0 && (g.remoteClosed > 0 || g.waiting)
    ensures BeginClose(g).1 == Done(0) && BeginClose(g).0.out == []
    ensures BeginClose(g).0.group == if g.remoteClosed > 0 then g.(closed := 1) else g
  {
  }

  /** Packets that arrive: data joins what can be read, in order, unless the route is closed, and waits
      exactly while 1024 items are unread; a Ping is answered with its own timestamp; an error is kept. */
  lemma PacketAnswers(g: Group, payload: bytes, timestamp: Duration, throughput: Duration, message: bytes)
    ensures var e := HandlePacket(g, Data(payload));
            && (e.blocked <==> g.remoteClosed == 0 && g.closed == 0 && |g.readCh| >= 1024)
            && e.out == [] && e.group.readBuf == g.readBuf
            && e.group.readCh ==
               (if !e.blocked && g.remoteClosed == 0 && g.closed == 0 then g.readCh + [payload] else g.readCh)
    ensures var e := HandlePacket(g, Ping(timestamp, throughput));
            e.blocked == g.waiting && e.group == g && e.out == if g.waiting then [] else [Pong(timestamp)]
    ensures var e := HandlePacket(g, Error(message));
            && !e.blocked && e.out == []
            && e.group.closeError == if g.remoteClosed > 0 then g.closeError else Some(message)
  {
  }

  /** A Close that arrives: the initiator takes it as the answer it waits for; any other group that is open
      answers with the same code, once, and then ends its read channel and drops its forward rule. */
  lemma CloseArrives(g: Group, code: byte)
    requires g.closed == 0 && !g.once
    ensures var e := HandlePacket(g, Close(code));
            && !e.blocked
            && (g.closeInitiated ==> e.out == [] && e.group.closeDone == g.closeDone - 1 && !e.dropForward)
            && (!g.closeInitiated ==> e.out == [Close(code)] && e.dropForward && e.group.remoteClosed > 0)
            && (!g.closeInitiated ==> e.group.readChClosed == g.readChClosed + 1 && e.group.closed == 0)
            && e.group.readCh == g.readCh
  {
  }
}
