/** The VPN server's allocator of /29 blocks: four nested loops over octets with 8-bit counters. */
module Subnet {
  import opened Routing

  const STEP: byte := 8

  datatype IP = IP(a: byte, b: byte, c: byte, d: byte)

  /** uint8 addition. */
  function Plus(x: byte, y: byte): byte { if x + y < 0x100 then x + y else x + y - 0x100 }

  datatype Range = Range(lower: IP, border: IP) {
    ghost predicate Sound()
    {
      && lower.a <= border.a && lower.b <= border.b && lower.c <= border.c
      && lower.d == 0 && border.d == 255
    }
    predicate Contains(ip: IP)
    {
      lower.a <= ip.a <= border.a && lower.b <= ip.b <= border.b && lower.c <= ip.c <= border.c
      && lower.d <= ip.d <= border.d
    }
  }

  /** The configured ranges: the private networks, without the addresses most used in local ones. */
  const Range192 := Range(IP(192, 168, 2, 0), IP(192, 168, 255, 255))
  const Range172 := Range(IP(172, 16, 0, 0), IP(172, 31, 255, 255))
  const Range10 := Range(IP(10, 0, 0, 0), IP(10, 255, 255, 255))

  datatype Inc = Inc(range: Range, octets: IP, reserved: set<IP>) {
    ghost predicate Valid() { range.Sound() && range.Contains(octets) && octets.d % 8 == 0 }
  }

  // ---- one scan ----

  /** The source's scan of a block, whose bound wraps: for 248 it looks at no address at all. */
  predicate Blocked(reserved: set<IP>, ip: IP)
  {
    exists i: byte :: ip.d <= i < Plus(ip.d, STEP) && ip.(d := i) in reserved
  }

  function Left(from: byte, d: byte): nat { if d <= from then from - d else from - d + 0x100 }

  /** The first block that is not blocked among d, d + 8, ..., in the same /24, up to `from`. */
  function Pick(reserved: set<IP>, base: IP, from: byte, d: byte): Option<byte>
    requires from % 8 == 0 && d % 8 == 0
    decreases Left(from, d)
  {
    if d == from then None
    else if !Blocked(reserved, base.(d := d)) then Some(d)
    else Pick(reserved, base, from, Plus(d, STEP))
  }

  /** It is the first, and there is none exactly when all are blocked. */
  lemma {:induction false} PickIsFirst(reserved: set<IP>, base: IP, from: byte, d: byte)
    requires from % 8 == 0 && d % 8 == 0
    ensures var p := Pick(reserved, base, from, d);
            && (p.Some? ==> p.value % 8 == 0 && p.value != from && !Blocked(reserved, base.(d := p.value))
                            && Left(from, p.value) <= Left(from, d))
            && var end := if p.Some? then Left(from, p.value) else 0;
               forall e: byte :: e % 8 == 0 && end < Left(from, e) <= Left(from, d) ==> Blocked(reserved, base.(d := e))
    decreases Left(from, d)
  {
    if d != from && Blocked(reserved, base.(d := d)) {
      PickIsFirst(reserved, base, from, Plus(d, STEP));
      LeftStep(from, d);
    }
    hide Blocked;
    forall e: byte | e % 8 == 0 && Left(from, e) == Left(from, d) ensures e == d { LeftInjective(from, d, e); }
  }

  lemma LeftStep(from: byte, d: byte)
    requires from % 8 == 0 && d % 8 == 0 && d != from
    ensures Plus(d, STEP) % 8 == 0 && Left(from, Plus(d, STEP)) == Left(from, d) - 8
    ensures forall e: byte :: e % 8 == 0 && Left(from, e) < Left(from, d) ==> Left(from, e) <= Left(from, d) - 8
  {
  }

  lemma LeftInjective(from: byte, d: byte, e: byte)
    requires Left(from, d) == Left(from, e)
    ensures d == e
  {
  }

  /** The last block of a /24 is never blocked, so a whole scan finds something unless it starts there. */
  lemma WholeScan(reserved: set<IP>, base: IP, from: byte)
    requires from % 8 == 0
    ensures Pick(reserved, base, from, Plus(from, STEP)).None? ==> from == 248
  {
    PickIsFirst(reserved, base, from, Plus(from, STEP));
    assert !Blocked(reserved, base.(d := 248));
    if from != 248 { assert 0 < Left(from, 248) <= Left(from, Plus(from, STEP)); }
  }

  // ---- one call ----

  function Succ(x: byte, lower: byte, border: byte): byte { if x == border then lower else Plus(x, 1) }

  /** The /24 that follows the current one; None if the range has only one. */
  function Turn(s: Inc): Option<IP>
  {
    var o, l, r := s.octets, s.range.lower, s.range.border;
    if l.c != r.c then Some(IP(o.a, o.b, Succ(o.c, l.c, r.c), 0))
    else if l.b != r.b then Some(IP(o.a, Succ(o.b, l.b, r.b), o.c, 0))
    else if l.a != r.a then Some(IP(Succ(o.a, l.a, r.a), o.b, o.c, 0))
    else None
  }

  /** The block that next issues: the first one not blocked after the last issued in its /24, else the
      first one in the /24 that follows. */
  function Next(s: Inc): (ip: Option<IP>)
    requires s.Valid()
  {
    match Pick(s.reserved, s.octets, s.octets.d, Plus(s.octets.d, STEP))
    case Some(d) => Some(s.octets.(d := d))
    case None =>
      if Turn(s).None? then None
      else
        WholeScan(s.reserved, Turn(s).value, 0);
        Some(Turn(s).value.(d := Pick(s.reserved, Turn(s).value, 0, STEP).value))
  }

  function After(s: Inc): Inc
    requires s.Valid()
  {
    match Next(s)
    case Some(ip) => s.(octets := ip, reserved := s.reserved + {ip})
    case None => s.(octets := s.octets.(d := 0))
  }

  function ReserveIP(s: Inc, ip: IP): Inc { s.(reserved := s.reserved + {ip}) }

  /** Every issued block is 8-aligned, in range and, if its last octet is at most 240, holds no address
      that was issued or reserved before; a range with more than one /24 never runs out. */
  lemma IssuedBlock(s: Inc)
    requires s.Valid()
    ensures After(s).Valid()
    ensures Next(s).Some? ==> s.range.Contains(Next(s).value) && Next(s).value.d % 8 == 0
    ensures Next(s).Some? && Next(s).value.d <= 240 ==>
      forall i: byte :: Next(s).value.d <= i < Next(s).value.d + 8 ==> Next(s).value.(d := i) !in s.reserved
    ensures Next(s).None? ==> Turn(s).None? && s.octets.d == 248
  {
    hide Pick;
    var o := s.octets;
    PickIsFirst(s.reserved, o, o.d, Plus(o.d, STEP));
    WholeScan(s.reserved, o, o.d);
    if Turn(s).Some? {
      PickIsFirst(s.reserved, Turn(s).value, 0, STEP);
      WholeScan(s.reserved, Turn(s).value, 0);
    }
    if Next(s).Some? && Next(s).value.d <= 240 {
      var ip := Next(s).value;
      assert !Blocked(s.reserved, ip);
      assert Plus(ip.d, STEP) == ip.d + 8;
    }
  }

  lemma ConfiguredNeverFail(s: Inc)
    requires s.Valid() && s.range in {Range192, Range172, Range10}
    ensures Next(s).Some?
  {
    IssuedBlock(s);
  }

  /** The server's four addresses lie in the block: a /29 is what agrees on all but the last 3 bits. */
  lemma ServerAddresses(s: Inc, k: byte)
    requires s.Valid() && Next(s).Some? && 1 <= k <= 4
    ensures var ip := Next(s).value;
            Plus(ip.d, k) == ip.d + k && Plus(ip.d, k) / 8 == ip.d / 8
  {
    IssuedBlock(s);
  }

  // ---- when a block is issued that is taken already ----

  /** An address of the block is reserved. */
  ghost predicate Taken(reserved: set<IP>, ip: IP)
  {
    exists i: byte :: ip.d <= i < ip.d + 8 && ip.(d := i) in reserved
  }

  ghost predicate RowBlocked(reserved: set<IP>, base: IP, lo: nat, hi: nat)
  {
    forall e: byte :: e % 8 == 0 && lo <= e <= hi ==> Blocked(reserved, base.(d := e))
  }

  /** In the /24 that the call will get to, every block ahead of the last is blocked and the last one is
      taken: the call can only issue the last. */
  ghost predicate Clash(s: Inc)
  {
    var o, last := s.octets, (ip: IP) => ip.(d := 248);
    if o.d != 248 then RowBlocked(s.reserved, o, o.d + 8, 240) && Taken(s.reserved, last(o))
    else
      && Turn(s).Some? && RowBlocked(s.reserved, o, 0, 240)
      && RowBlocked(s.reserved, Turn(s).value, 8, 240) && Taken(s.reserved, last(Turn(s).value))
  }

  lemma BlockedIsTaken(reserved: set<IP>, ip: IP)
    requires ip.d <= 240
    ensures Blocked(reserved, ip) <==> Taken(reserved, ip)
  {
    assert Plus(ip.d, STEP) == ip.d + 8;
  }

  /** A scan that does not start at the last block finds one ahead of it, or the last. */
  lemma ScanClash(reserved: set<IP>, base: IP, from: byte)
    requires from % 8 == 0 && from != 248
    ensures var p := Pick(reserved, base, from, Plus(from, STEP));
            && p.Some?
            && (Taken(reserved, base.(d := p.value)) <==>
                  RowBlocked(reserved, base, from + 8, 240) && Taken(reserved, base.(d := 248)))
  {
    PickIsFirst(reserved, base, from, Plus(from, STEP));
    WholeScan(reserved, base, from);
    assert !Blocked(reserved, base.(d := 248));
    var p := Pick(reserved, base, from, Plus(from, STEP)).value;
    hide Pick, Blocked, Taken;
    assert from < p <= 248;
    if p < 248 {
      BlockedIsTaken(reserved, base.(d := p));
      assert !RowBlocked(reserved, base, from + 8, 240);
    } else {
      assert RowBlocked(reserved, base, from + 8, 240);
    }
  }

  /** A call issues a block that is taken if and only if its state is a clash. */
  lemma TakenIff(s: Inc)
    requires s.Valid()
    ensures Next(s).Some? && Taken(s.reserved, Next(s).value) <==> Clash(s)
  {
    var o := s.octets;
    hide Blocked, Taken, Pick;
    if o.d != 248 {
      ScanClash(s.reserved, o, o.d);
    } else {
      PickIsFirst(s.reserved, o, 248, 0);
      FromLast(s.reserved, o);
      if Turn(s).Some? { ScanClash(s.reserved, Turn(s).value, 0); }
    }
  }

  /** From the last block the scan covers the others. */
  lemma FromLast(reserved: set<IP>, o: IP)
    ensures var p := Pick(reserved, o, 248, 0);
            && (p.None? <==> RowBlocked(reserved, o, 0, 240))
            && (p.Some? ==> !Taken(reserved, o.(d := p.value)))
  {
    PickIsFirst(reserved, o, 248, 0);
    hide Pick, Blocked, Taken;
    var p := Pick(reserved, o, 248, 0);
    if p.Some? { BlockedIsTaken(reserved, o.(d := p.value)); }
  }

  // ---- from one /24 to the next ----

  /** In a range with more than one third octet, such as the configured ones, a call stays in its /24 until
      the last block has been issued and all others are blocked; then it goes on to the next third
      octet, from the border back to the lowest.  The first two octets never change. */
  lemma NextRow(s: Inc)
    requires s.Valid() && s.range.lower.c < s.range.border.c
    ensures Next(s).Some?
    ensures var o, ip := s.octets, Next(s).value;
            && ip.a == o.a && ip.b == o.b
            && ip.c == if !(o.d == 248 && RowBlocked(s.reserved, o, 0, 240)) then o.c
                       else if o.c == s.range.border.c then s.range.lower.c else o.c + 1
  {
    var o := s.octets;
    hide Blocked, Pick;
    if o.d != 248 { ScanClash(s.reserved, o, o.d); } else { FromLast(s.reserved, o); }
  }

  lemma PrivateRanges(ip: IP)
    ensures Range10.Contains(ip) <==> ip.a == 10
    ensures Range172.Contains(ip) <==> ip.a == 172 && ip.b / 16 == 1
    ensures Range192.Contains(ip) <==> ip.a == 192 && ip.b == 168 && ip.c >= 2
  {
  }
}
