/** subnetIPIncrementer itself, and what its runs can issue. */
module SubnetAllocator {
  import opened Routing
  import opened Subnet

  class Incrementer {
    const range: Range
    const octets: array<byte>
    var reserved: set<IP>

    ghost predicate Valid()
      reads this, octets
    {
      octets.Length == 4 && Model().Valid()
    }

    ghost function Model(): Inc
      requires octets.Length == 4
      reads this, octets
    {
      Inc(range, IP(octets[0], octets[1], octets[2], octets[3]), reserved)
    }

    constructor (range: Range)
      requires range.Sound()
      ensures Valid() && fresh(octets) && Model() == Inc(range, range.lower, {})
    {
      this.range := range;
      octets := new byte[4];
      reserved := {};
      new;
      octets[0], octets[1], octets[2], octets[3] := range.lower.a, range.lower.b, range.lower.c, range.lower.d;
    }

    method Reserve(ip: IP)
      requires Valid()
      modifies this`reserved
      ensures Valid() && Model() == ReserveIP(old(Model()), ip)
    {
      reserved := reserved + {ip};
    }

    /** Any address of the block reserved?  The bound is an 8-bit sum. */
    method IsReserved(ip: IP) returns (r: bool)
      ensures r == Blocked(reserved, ip)
    {
      r := false;
      var i: byte := ip.d;
      while i < Plus(ip.d, STEP)
        invariant ip.d <= i && (i <= Plus(ip.d, STEP) || i == ip.d)
        invariant forall k: byte :: ip.d <= k < i ==> ip.(d := k) !in reserved
        decreases Plus(ip.d, STEP) - i
      {
        if ip.(d := i) in reserved { return true; }
        i := Plus(i, 1);
      }
    }

    /** One pass over the blocks of the current /24. */
    method Scan() returns (found: Option<byte>)
      requires Valid()
      ensures found == Pick(reserved, Model().octets, octets[3], Plus(octets[3], STEP))
    {
      var o4: byte := Plus(octets[3], STEP);
      while o4 != octets[3]
        invariant o4 % 8 == 0
        invariant Pick(reserved, Model().octets, octets[3], Plus(octets[3], STEP)) ==
                  Pick(reserved, Model().octets, octets[3], o4)
        decreases Left(octets[3], o4)
      {
        if o4 >= range.border.d {
          o4 := range.lower.d;
        } else {
          var used := IsReserved(IP(octets[0], octets[1], octets[2], o4));
          if !used { return Some(o4); }
        }
        LeftStep(octets[3], o4);
        o4 := Plus(o4, STEP);
      }
      return None;
    }

    /** The nested loops return the block that Next specifies; at most one /24 is left without success,
        because the scan of any other starts at its first block. */
    method NextIP() returns (r: Option<IP>)
      requires Valid()
      modifies this`reserved, octets
      ensures Valid() && r == Next(old(Model())) && Model() == After(old(Model()))
    {
      ghost var s := Model();
      IssuedBlock(s);
      if Turn(s).Some? { WholeScan(reserved, Turn(s).value, 0); }
      hide Pick, Blocked;
      var o1, o2, o3 := octets[0], octets[1], octets[2];
      ghost var turned := false;
      while true
        invariant Valid() && reserved == s.reserved
        invariant !turned ==> Model() == s
        invariant turned ==> Missed(s) && Turn(s) == Some(Model().octets)
        decreases !turned
      {
        while true
          invariant Valid() && reserved == s.reserved
          invariant !turned ==> Model() == s
          invariant turned ==> Missed(s) && Turn(s) == Some(Model().octets)
          decreases !turned
        {
          while true
            invariant Valid() && reserved == s.reserved
            invariant !turned ==> Model() == s
            invariant turned ==> Missed(s) && Turn(s) == Some(Model().octets)
            decreases !turned
          {
            var o4 := Scan();
            if o4.Some? {
              octets[3] := o4.value;
              var ip := IP(octets[0], octets[1], octets[2], o4.value);
              reserved := reserved + {ip};
              return Some(ip);
            }
            octets[3] := range.lower.d;
            if octets[2] == range.border.c { octets[2] := range.lower.c; } else { octets[2] := Plus(octets[2], 1); }
            if octets[2] == o3 {
              octets[2] := range.lower.c;
              break;
            }
            turned := true;
          }
          if octets[1] == range.border.b { octets[1] := range.lower.b; } else { octets[1] := Plus(octets[1], 1); }
          if octets[1] == o2 {
            octets[1] := range.lower.b;
            break;
          }
          turned := true;
        }
        if octets[0] == range.border.a { octets[0] := range.lower.a; } else { octets[0] := Plus(octets[0], 1); }
        if octets[0] == o1 {
          octets[0] := range.lower.a;
          break;
        }
        turned := true;
      }
      return None;
    }
  }

  /** The /24 of the last issued block has nothing left. */
  ghost predicate Missed(s: Inc)
    requires s.Valid()
  {
    Pick(s.reserved, s.octets, s.octets.d, Plus(s.octets.d, STEP)).None?
  }

  // ---- runs ----

  datatype Op = OpNext | OpReserve(ip: IP)

  function Step(s: Inc, op: Op): Inc
    requires s.Valid()
  {
    if op.OpNext? then After(s) else ReserveIP(s, op.ip)
  }

  /** The state after a sequence of calls on a new incrementer. */
  ghost function Replay(range: Range, ops: seq<Op>): (s: Inc)
    requires range.Sound()
    ensures s.Valid() && s.range == range
  {
    if ops == [] then Inc(range, range.lower, {})
    else
      var s := Replay(range, ops[..|ops| - 1]);
      IssuedBlock(s);
      Step(s, ops[|ops| - 1])
  }

  /** What call number i issues. */
  ghost function Issue(range: Range, ops: seq<Op>, i: nat): Option<IP>
    requires range.Sound() && i < |ops| && ops[i].OpNext?
  {
    Next(Replay(range, ops[..i]))
  }

  lemma {:induction false} ReservedGrows(range: Range, ops: seq<Op>, i: nat)
    requires range.Sound() && i <= |ops|
    ensures Replay(range, ops[..i]).reserved <= Replay(range, ops).reserved
  {
    if i == |ops| {
      assert ops[..i] == ops;
    } else {
      var ops' := ops[..|ops| - 1];
      assert ops'[..i] == ops[..i];
      ReservedGrows(range, ops', i);
    }
  }

  ghost predicate InBlock(ip: IP, block: IP) { ip == block.(d := ip.d) && block.d <= ip.d < block.d + 8 }

  /** Over every run, a block whose last octet is at most 240 is issued at most once and contains no
      address reserved before. */
  lemma NeverReissued(range: Range, ops: seq<Op>, i: nat, j: nat)
    requires range.Sound() && i < j < |ops| && ops[j].OpNext?
    ensures var block := Issue(range, ops, j);
            block.Some? && block.value.d <= 240 ==>
              && (ops[i].OpNext? ==> Issue(range, ops, i) != block)
              && (ops[i].OpReserve? ==> !InBlock(ops[i].ip, block.value))
  {
    var si, sj := Replay(range, ops[..i]), Replay(range, ops[..j]);
    assert ops[..i + 1][..i] == ops[..i] && ops[..j][..i + 1] == ops[..i + 1];
    assert Replay(range, ops[..i + 1]) == Step(si, ops[i]);
    ReservedGrows(range, ops[..j], i + 1);
    IssuedBlock(sj);
    hide Next, Replay;
    assert ops[i].OpNext? && Next(si).Some? ==> Next(si).value in sj.reserved;
    assert ops[i].OpReserve? ==> ops[i].ip in sj.reserved;
    assert Next(sj).Some? ==> Next(sj).value == Next(sj).value.(d := Next(sj).value.d);
    assert forall ip, block :: InBlock(ip, block) ==> ip == block.(d := ip.d);
  }

  /** Call number i issues or reserves this address. */
  ghost predicate Uses(range: Range, ops: seq<Op>, i: nat, ip: IP)
    requires range.Sound() && i < |ops|
  {
    if ops[i].OpNext? then Issue(range, ops, i) == Some(ip) else ops[i].ip == ip
  }

  lemma {:induction false} ReservedIs(range: Range, ops: seq<Op>, ip: IP)
    requires range.Sound()
    ensures ip in Replay(range, ops).reserved <==> exists i :: 0 <= i < |ops| && Uses(range, ops, i, ip)
  {
    if ops != [] {
      var n := |ops| - 1;
      var ops' := ops[..n];
      ReservedIs(range, ops', ip);
      hide Replay, Next;
      forall i | 0 <= i < n ensures Uses(range, ops, i, ip) <==> Uses(range, ops', i, ip) {
        assert ops'[..i] == ops[..i] && ops'[i] == ops[i];
      }
      LastUses(range, ops, ip);
      if i :| 0 <= i < n && Uses(range, ops', i, ip) { assert Uses(range, ops, i, ip); }
    }
  }

  lemma LastUses(range: Range, ops: seq<Op>, ip: IP)
    requires range.Sound() && ops != []
    ensures ip in Replay(range, ops).reserved <==>
      ip in Replay(range, ops[..|ops| - 1]).reserved || Uses(range, ops, |ops| - 1, ip)
  {
    hide Next;
  }

  /** Over every run, a call issues a block with an address that an earlier call issued or reserved if and
      only if its state before the call is a clash. */
  lemma ReissuedIff(range: Range, ops: seq<Op>, j: nat)
    requires range.Sound() && j < |ops| && ops[j].OpNext?
    ensures (exists i, ip :: 0 <= i < j && Uses(range, ops, i, ip)
               && Issue(range, ops, j).Some? && InBlock(ip, Issue(range, ops, j).value))
            <==> Clash(Replay(range, ops[..j]))
  {
    var s, before := Replay(range, ops[..j]), ops[..j];
    TakenIff(s);
    forall i, ip | 0 <= i < j ensures Uses(range, ops, i, ip) <==> Uses(range, before, i, ip) {
      assert before[..i] == ops[..i] && before[i] == ops[i];
    }
    hide Replay, Next, Clash, Uses;
    var block := Next(s);
    if i, ip :| 0 <= i < j && Uses(range, ops, i, ip) && block.Some? && InBlock(ip, block.value) {
      assert Uses(range, before, i, ip);
      ReservedIs(range, before, ip);
      assert block.value.(d := ip.d) == ip;
      assert Taken(s.reserved, block.value);
    }
    if block.Some? && Taken(s.reserved, block.value) {
      var d: byte :| block.value.d <= d < block.value.d + 8 && block.value.(d := d) in s.reserved;
      var ip := block.value.(d := d);
      ReservedIs(range, before, ip);
      var i :| 0 <= i < |before| && Uses(range, before, i, ip);
      assert Uses(range, ops, i, ip) && InBlock(ip, block.value);
    }
  }

  // ---- the last block of a /24 ----

  function Nexts(k: nat): (ops: seq<Op>)
    ensures |ops| == k && forall i :: 0 <= i < k ==> ops[i] == OpNext
  {
    seq(k, _ => OpNext)
  }

  lemma ReplayNext(range: Range, k: nat)
    requires range.Sound()
    ensures Replay(range, Nexts(k + 1)) == After(Replay(range, Nexts(k)))
  {
    assert Nexts(k + 1)[..k] == Nexts(k);
  }

  /** The blocks 8, 16, ..., 8 * k. */
  ghost function Row(range: Range, k: nat): set<IP>
    requires k <= 31
  {
    if k == 0 then {} else Row(range, k - 1) + {range.lower.(d := 8 * k)}
  }

  lemma {:induction false} RowIs(range: Range, k: nat)
    requires k <= 31
    ensures forall ip :: ip in Row(range, k) ==> 8 <= ip.d <= 8 * k
    ensures forall j: nat :: 1 <= j <= k ==> range.lower.(d := 8 * j) in Row(range, k)
  {
    if k > 0 { RowIs(range, k - 1); }
  }

  /** They come first. */
  lemma {:induction false} FirstRound(range: Range, k: nat)
    requires range.Sound() && k <= 31
    ensures var s := Replay(range, Nexts(k)); s.octets == range.lower.(d := 8 * k) && s.reserved == Row(range, k)
  {
    if k > 0 {
      ReplayNext(range, k - 1);
      FirstRound(range, k - 1);
      var s := Replay(range, Nexts(k - 1));
      hide Replay, Next;
      RowIs(range, k - 1);
      NotBlockedAbove(s.reserved, s.octets.(d := 8 * k));
      NextIs(s, 8 * k);
    }
  }

  lemma NotBlockedAbove(reserved: set<IP>, ip: IP)
    requires forall x :: x in reserved ==> x.d < ip.d
    ensures !Blocked(reserved, ip)
  {
  }

  /** Calls 31 and 33 on a new incrementer issue the same block, x.y.z.248. */
  lemma LastBlockReissued(range: Range)
    requires range.Sound()
    ensures Issue(range, Nexts(33), 30) == Issue(range, Nexts(33), 32) == Some(range.lower.(d := 248))
  {
    assert Nexts(33)[..30] == Nexts(30) && Nexts(33)[..32] == Nexts(32);
    var s30, s31, s32 := Replay(range, Nexts(30)), Replay(range, Nexts(31)), Replay(range, Nexts(32));
    FirstRound(range, 30);
    FirstRound(range, 31);
    ReplayNext(range, 31);
    RowIs(range, 30);
    RowIs(range, 31);
    hide Replay, Next, Row;
    NotBlockedAbove(s30.reserved, range.lower.(d := 248));
    NextIs(s30, 248);
    assert !Blocked(s31.reserved, range.lower.(d := 0));
    NextIs(s31, 0);
    SecondRound(s32);
  }

  /** With all of 8, ..., 240 taken, the scan from 0 ends at 248, whether or not that is taken too. */
  lemma SecondRound(s: Inc)
    requires s.Valid() && s.octets.d == 0 && (forall j: nat :: 1 <= j <= 30 ==> s.octets.(d := 8 * j) in s.reserved)
    ensures Next(s) == Some(s.octets.(d := 248))
  {
    PickIsFirst(s.reserved, s.octets, 0, STEP);
    WholeScan(s.reserved, s.octets, 0);
    var d := Pick(s.reserved, s.octets, 0, STEP).value;
    hide Pick;
    forall j: nat | 1 <= j <= 30 ensures Blocked(s.reserved, s.octets.(d := 8 * j)) {
      assert s.octets.(d := 8 * j).(d := 8 * j) in s.reserved;
    }
    hide Blocked;
    assert d == 8 * (d / 8);
  }

  lemma NextIs(s: Inc, d: byte)
    requires s.Valid() && d == Plus(s.octets.d, STEP) != s.octets.d && !Blocked(s.reserved, s.octets.(d := d))
    ensures Next(s) == Some(s.octets.(d := d))
  {
  }
}
