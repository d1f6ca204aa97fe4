/** The local half of a route group: what each entry point of a group does to the group itself and
    which packets it sends on its forward rule.  Groups have one forward rule and one transport,
    which is how the router builds them. */
module RouteGroups {
  import opened Routing

  const READ_CH_BUF_SIZE := 1024
  const CLOSE_REQUESTED: byte := 0

  /** A Write past its closed check: before the mutex, and behind it with rule and transport in hand. */
  datatype Writing = NotWriting | AtLock(data: bytes) | Sending(data: bytes)

  /** A Read past its closed check: before the mutex, in the select, and with an item that waits for the
      mutex again. */
  datatype Reading = NotReading | Entered(n: nat) | Selecting(n: nat) | Holding(n: nat, item: bytes)

  /** `closed`, `remoteClosed` and `readChClosed` count the calls of close() on each channel, so that
      closing a channel twice is a state that can be expressed (and is proved unreachable);
      `sentOnClosed` records a send on the closed read channel, `closesSent` counts Close packets.
      `waiting` is the interval in which Close holds the group's mutex; `writing` and `reading` are the
      calls in progress, of one writer and one reader.  `written` and `readOut` are the bytes of all
      successful Writes and Reads so far, the last `late` bytes of `written` being those written after
      the group initiated its close. */
  datatype Group = Group(
    readCh: seq<bytes>, readBuf: bytes,
    closeInitiated: bool, waiting: bool, closeDone: int, once: bool,
    closed: nat, remoteClosed: nat, readChClosed: nat,
    closesSent: nat, sentOnClosed: bool, closeError: Option<bytes>,
    writing: Writing, reading: Reading, written: bytes, late: nat, readOut: bytes)

  const FreshGroup :=
    Group([], [], false, false, 0, false, 0, 0, 0, 0, false, None, NotWriting, NotReading, [], 0, [])

  /** The new group, the packets to send on the forward rule in order, and whether the forward rule
      is deleted from the routing table.  `blocked` calls have no effect until they can proceed. */
  datatype Effect = Effect(group: Group, out: seq<Body>, dropForward: bool, blocked: bool)

  /** LetIn: the call has not returned yet and goes on later. */
  datatype IOResult = Done(n: nat) | ErrClosedPipe | EOF | ErrPayloadTooBig | LetIn

  function Stay(g: Group): Effect { Effect(g, [], false, false) }
  function Block(g: Group): Effect { Effect(g, [], false, true) }

  function Min(a: nat, b: nat): nat { if a < b then a else b }

  // ---- Write, step by step ----

  function EnterWrite(g: Group, p: bytes): (r: (Effect, IOResult))
  {
    if g.closed > 0 then (Stay(g), ErrClosedPipe)
    else if p == [] then (Stay(g), Done(0))
    else if !g.writing.NotWriting? then (Block(g), LetIn)
    else (Stay(g.(writing := AtLock(p))), LetIn)
  }

  /** Take the mutex, fetch rule and transport, release the mutex. */
  function LockWrite(g: Group): Effect
    requires g.writing.AtLock?
  {
    if g.waiting then Block(g) else Stay(g.(writing := Sending(g.writing.data)))
  }

  /** Nothing is checked any more, and no lock is held: the packet goes out. */
  function SendWrite(g: Group): (r: (Effect, IOResult))
    requires g.writing.Sending?
    ensures r.0.group.written == if r.1.Done? then g.written + g.writing.data else g.written
    ensures r.1.Done? ==> r.0.out == [Data(g.writing.data)] && r.1.n == |g.writing.data|
  {
    var p, g' := g.writing.data, g.(writing := NotWriting);
    if |p| > MAX_UINT16 then (Stay(g'), ErrPayloadTooBig)
    else
      var late := if g.closeInitiated then g.late + |p| else g.late;
      (Effect(g'.(written := g.written + p, late := late), [Data(p)], false, false), Done(|p|))
  }

  /** A Write that nobody overtakes, as far as it gets: it is let in if Close holds the mutex. */
  function Write(g: Group, p: bytes): (r: (Effect, IOResult))
    ensures r.0.group.written == if r.1.Done? then g.written + p else g.written
    ensures r.1.Done? ==> r.1.n == |p|
  {
    var (e, r) := EnterWrite(g, p);
    if !r.LetIn? || e.blocked || g.waiting then (e, r) else SendWrite(LockWrite(e.group).group)
  }

  // ---- Read, step by step ----

  function EnterRead(g: Group, n: nat): (r: (Effect, IOResult))
  {
    if g.closed > 0 then (Stay(g), ErrClosedPipe)
    else if n == 0 then (Stay(g), Done(0))
    else if !g.reading.NotReading? then (Block(g), LetIn)
    else (Stay(g.(reading := Entered(n))), LetIn)
  }

  /** Under the mutex: hand out what the buffer has, or go on to the select. */
  function LockRead(g: Group): (r: (Effect, bytes, IOResult))
    requires g.reading.Entered?
    ensures r.0.group.readOut == g.readOut + r.1 && |r.1| <= g.reading.n
  {
    var n := g.reading.n;
    var k := Min(n, |g.readBuf|);
    if g.waiting then (Block(g), [], LetIn)
    else if g.readBuf == [] then (Stay(g.(reading := Selecting(n))), [], LetIn)
    else
      (Stay(g.(reading := NotReading, readBuf := g.readBuf[k..], readOut := g.readOut + g.readBuf[..k])),
       g.readBuf[..k], Done(k))
  }

  /** The select holds no lock, and takes any case that is ready. */
  function SelectClosed(g: Group): (r: (Effect, IOResult))
    requires g.reading.Selecting? && g.closed > 0
  {
    (Stay(g.(reading := NotReading)), ErrClosedPipe)
  }

  function SelectItem(g: Group): (r: (Effect, IOResult))
    requires g.reading.Selecting?
  {
    if g.readCh == [] then
      if g.readChClosed > 0 then (Stay(g.(reading := NotReading)), EOF) else (Block(g), LetIn)
    else if g.readCh[0] == [] then (Stay(g.(reading := NotReading, readCh := g.readCh[1..])), EOF)
    else (Stay(g.(reading := Holding(g.reading.n, g.readCh[0]), readCh := g.readCh[1..])), LetIn)
  }

  /** Under the mutex again: hand out what fits and put the rest behind what is buffered. */
  function FinishRead(g: Group): (r: (Effect, bytes, IOResult))
    requires g.reading.Holding?
    ensures r.0.group.readOut == g.readOut + r.1 && |r.1| <= g.reading.n
  {
    var d := g.reading.item;
    var k := Min(g.reading.n, |d|);
    if g.waiting then (Block(g), [], LetIn)
    else
      (Stay(g.(reading := NotReading, readBuf := g.readBuf + d[k..], readOut := g.readOut + d[..k])),
       d[..k], Done(k))
  }

  /** A Read that nobody overtakes, as far as it gets.  The bytes handed out are recorded in order. */
  function Read(g: Group, n: nat): (r: (Effect, bytes, IOResult))
    ensures r.0.group.readOut == g.readOut + r.1 && |r.1| <= n
    ensures if r.2.Done? then r.2.n == |r.1| else r.1 == []
  {
    var (e, r) := EnterRead(g, n);
    if !r.LetIn? || e.blocked || g.waiting then (e, [], r)
    else
      var (e1, b, r1) := LockRead(e.group);
      if r1.Done? then (e1, b, r1)
      else
        var (e2, r2) := SelectItem(e1.group);
        if e2.blocked then (e1, [], LetIn)
        else if !r2.LetIn? then (e2, [], r2)
        else FinishRead(e2.group)
  }

  // ---- Close ----

  /** The error packet an initiator sends ahead of its Close packet. */
  function ErrorOut(g: Group): seq<Body>
  {
    if g.closeError.Some? && |g.closeError.value| <= MAX_UINT16 then [Error(g.closeError.value)] else []
  }

  /** Close up to the point where it waits for the answer.  A second Close that comes while the first
      one waits returns without error, and without effect, once the first has ended. */
  function BeginClose(g: Group): (r: (Effect, IOResult))
  {
    if g.closed > 0 then (Stay(g), ErrClosedPipe)
    else if g.remoteClosed > 0 then (Stay(g.(closed := g.closed + 1)), Done(0))
    else if g.waiting then (Stay(g), Done(0))
    else (Effect(g.(closeInitiated := true, waiting := true, closeDone := g.closeDone + 1,
                    closesSent := g.closesSent + 1),
                 ErrorOut(g) + [Close(CLOSE_REQUESTED)], false, false), Done(0))
  }

  /** The once-only part of close: signal channels, then the read channel. */
  function ShutChannels(g: Group): Group
  {
    if g.once then g
    else g.(once := true,
            closed := if g.closeInitiated then g.closed + 1 else g.closed,
            remoteClosed := if g.remoteClosed > 0 then g.remoteClosed else g.remoteClosed + 1,
            readChClosed := g.readChClosed + 1)
  }

  /** The rest of Close, after the counter reached zero or the timeout expired. */
  function FinishClose(g: Group): Effect
    requires g.waiting
  {
    Effect(ShutChannels(g.(waiting := false)), [], true, false)
  }

  function OnClose(g: Group, code: byte): Effect
  {
    if g.closeInitiated then Stay(g.(closeDone := g.closeDone - 1))
    else if g.closed > 0 then Stay(g)
    else Effect(ShutChannels(g.(closesSent := g.closesSent + 1)), [Close(code)], true, false)
  }

  function OnData(g: Group, payload: bytes): Effect
  {
    if g.remoteClosed > 0 || g.closed > 0 then Stay(g)
    else if |g.readCh| < READ_CH_BUF_SIZE then
      Stay(g.(readCh := g.readCh + [payload], sentOnClosed := g.sentOnClosed || g.readChClosed > 0))
    else Block(g)
  }

  /** Every packet kind as a group handles it. */
  function HandlePacket(g: Group, b: Body): Effect
  {
    match b
    case Close(code) => OnClose(g, code)
    case Data(payload) => OnData(g, payload)
    case Ping(timestamp, _) => if g.waiting then Block(g) else Effect(g, [Pong(timestamp)], false, false)
    case Error(message) => if g.remoteClosed > 0 then Stay(g) else Stay(g.(closeError := Some(message)))
    case KeepAlive => Stay(g)
    case Handshake(_) => Stay(g)
    case Pong(_) => Stay(g)
  }

  /** Keep-alive and ping service packets.  A keep-alive is sent under the mutex; a ping takes rule and
      transport under it and is sent afterwards, so that it may go out while Close waits. */
  function SendService(g: Group, b: Body): Effect
    requires b.KeepAlive? || b.Ping?
  {
    if g.waiting && b.KeepAlive? then Block(g) else Effect(g, [b], false, false)
  }

  /** Steps of the calls made on a group by its application and by its service loops. */
  datatype GroupCall =
    | CallEnterWrite(data: bytes)
    | CallLockWrite
    | CallSendWrite
    | CallEnterRead(n: nat)
    | CallLockRead
    | CallSelectClosed
    | CallSelectItem
    | CallFinishRead
    | CallService(b: Body)
    | CallSetError(error: bytes)
    | CallBeginClose
    | CallFinishClose

  /** The call in progress is where this step begins. */
  predicate AtStep(g: Group, c: GroupCall)
  {
    match c
    case CallLockWrite => g.writing.AtLock?
    case CallSendWrite => g.writing.Sending?
    case CallLockRead => g.reading.Entered?
    case CallSelectClosed => g.reading.Selecting? && g.closed > 0
    case CallSelectItem => g.reading.Selecting?
    case CallFinishRead => g.reading.Holding?
    case CallService(b) => b.KeepAlive? || b.Ping?
    case CallFinishClose => g.waiting
    case _ => true
  }

  predicate Callable(g: Group, c: GroupCall) { AtStep(g, c) && !CallEffect(g, c).blocked }

  function CallEffect(g: Group, c: GroupCall): Effect
    requires AtStep(g, c)
  {
    match c
    case CallEnterWrite(data) => EnterWrite(g, data).0
    case CallLockWrite => LockWrite(g)
    case CallSendWrite => SendWrite(g).0
    case CallEnterRead(n) => EnterRead(g, n).0
    case CallLockRead => LockRead(g).0
    case CallSelectClosed => SelectClosed(g).0
    case CallSelectItem => SelectItem(g).0
    case CallFinishRead => FinishRead(g).0
    case CallService(b) => SendService(g, b)
    case CallSetError(e) => Stay(g.(closeError := Some(e)))
    case CallBeginClose => BeginClose(g).0
    case CallFinishClose => FinishClose(g)
  }

  lemma CloseNotBlocked(g: Group, b: Body)
    requires b.Close?
    ensures !HandlePacket(g, b).blocked
  {
  }
}
