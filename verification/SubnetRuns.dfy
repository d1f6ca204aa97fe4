/** Exactly which addresses a new incrementer issues, call by call. */
module SubnetRuns {
  import opened Routing
  import opened Subnet
  import opened SubnetAllocator

  /** Ranges with more than one third octet; the three configured ones are. */
  ghost predicate Wide(range: Range) { range.Sound() && range.lower.c < range.border.c }

  lemma ConfiguredWide()
    ensures Wide(Range192) && Wide(Range172) && Wide(Range10)
  {
  }

  lemma {:induction false} CursorOctets(range: Range, ops: seq<Op>)
    requires Wide(range)
    ensures Replay(range, ops).octets.a == range.lower.a && Replay(range, ops).octets.b == range.lower.b
  {
    hide Next, RowBlocked;
    if ops != [] {
      CursorOctets(range, ops[..|ops| - 1]);
      NextRow(Replay(range, ops[..|ops| - 1]));
    }
  }

  /** Over every run, also with reservations, only the third and fourth octet ever change: of 172.16.0.0/12
      and 10.0.0.0/8 just the first /16 is used. */
  lemma OneSixteen(range: Range, ops: seq<Op>, j: nat)
    requires Wide(range) && j < |ops| && ops[j].OpNext?
    ensures var ip := Issue(range, ops, j); ip.Some? && ip.value.a == range.lower.a && ip.value.b == range.lower.b
  {
    hide Next, RowBlocked, Replay;
    CursorOctets(range, ops[..j]);
    NextRow(Replay(range, ops[..j]));
  }

  // ---- the order of issue ----

  /** Last octets of the 33 calls that a /24 takes: all blocks but the first, the first, the last again. */
  function Octet(j: nat): byte
    requires j < 33
  {
    if j < 31 then 8 * (j + 1) else if j == 31 then 0 else 248
  }

  function At(range: Range, q: nat, d: byte): IP
    requires range.lower.c + q < 256
  {
    range.lower.(c := range.lower.c + q, d := d)
  }

  /** The block has been issued once rows 0..q-1 are done, and j calls of row q. */
  ghost predicate Has(range: Range, q: nat, j: nat, ip: IP)
  {
    && ip == range.lower.(c := ip.c, d := ip.d) && ip.d % 8 == 0 && range.lower.c <= ip.c
    && (ip.c < range.lower.c + q || (ip.c == range.lower.c + q && InRow(j, ip.d)))
  }

  predicate InRow(j: nat, d: byte) { if d == 0 then j >= 32 else d <= 8 * j }

  ghost predicate Holds(s: Inc, range: Range, q: nat, j: nat)
  {
    s.Valid() && s.range == range && forall ip :: ip in s.reserved <==> Has(range, q, j, ip)
  }

  /** Where the cursor stands then. */
  ghost predicate Stands(s: Inc, range: Range, q: nat, j: nat)
    requires range.lower.c + q < 256 && j < 33
  {
    if j > 0 then s.octets == At(range, q, Octet(j - 1))
    else if q > 0 then s.octets == At(range, q - 1, 248)
    else s.octets == range.lower
  }

  lemma RowFree(s: Inc, range: Range, q: nat, j: nat, d: byte)
    requires Holds(s, range, q, j) && range.lower.c + q < 256 && d % 8 == 0 && !InRow(j, d)
    ensures !Blocked(s.reserved, At(range, q, d))
  {
    forall i: byte | d <= i < Plus(d, STEP) ensures At(range, q, d).(d := i) !in s.reserved {
      if i % 8 == 0 { assert i == d; }
    }
  }

  lemma RowTaken(s: Inc, range: Range, q: nat, j: nat, p: nat, d: byte)
    requires Holds(s, range, q, j) && range.lower.c + p < 256 && d % 8 == 0 && d <= 240
    requires p < q || (p == q && InRow(j, d))
    ensures At(range, p, d) in s.reserved && Blocked(s.reserved, At(range, p, d))
  {
    assert At(range, p, d).(d := d) == At(range, p, d);
    assert At(range, p, d) in s.reserved;
    assert Plus(d, STEP) == d + 8;
  }

  /** A whole row behind the cursor is blocked. */
  lemma RowFull(s: Inc, range: Range, q: nat, j: nat, p: nat)
    requires Holds(s, range, q, j) && range.lower.c + p < 256 && p < q
    ensures RowBlocked(s.reserved, At(range, p, 248), 0, 240)
  {
    forall e: byte | e % 8 == 0 && 0 <= e <= 240 ensures Blocked(s.reserved, At(range, p, 248).(d := e)) {
      RowTaken(s, range, q, j, p, e);
      assert At(range, p, 248).(d := e) == At(range, p, e);
    }
  }

  /** One call of the first round. */
  lemma CallOf(s: Inc, range: Range, q: nat, j: nat)
    requires Wide(range) && range.lower.c + q <= range.border.c && j < 33
    requires Holds(s, range, q, j) && Stands(s, range, q, j)
    ensures Next(s) == Some(At(range, q, Octet(j)))
  {
    hide Blocked, Pick;
    if j == 32 {
      forall i: nat | 1 <= i <= 30 ensures s.octets.(d := 8 * i) in s.reserved {
        RowTaken(s, range, q, j, q, 8 * i);
        assert s.octets.(d := 8 * i) == At(range, q, 8 * i);
      }
      SecondRound(s);
    } else if j == 0 && q > 0 {
      RowFull(s, range, q, 0, q - 1);
      FromLast(s.reserved, s.octets);
      RowFree(s, range, q, 0, 8);
      TurnsTo(s, At(range, q, 0));
    } else {
      RowFree(s, range, q, j, Octet(j));
      assert s.octets.(d := Octet(j)) == At(range, q, Octet(j));
      NextIs(s, Octet(j));
    }
  }

  /** After a fruitless scan the first block of the next /24 that is not blocked, if that is block 8. */
  lemma TurnsTo(s: Inc, base: IP)
    requires s.Valid() && s.octets.d == 248 && RowBlocked(s.reserved, s.octets, 0, 240)
    requires Turn(s) == Some(base) && !Blocked(s.reserved, base.(d := 8))
    ensures Next(s) == Some(base.(d := 8))
  {
    hide Blocked;
    FromLast(s.reserved, s.octets);
  }

  /** What the call leaves behind. */
  lemma CallKeeps(s: Inc, range: Range, q: nat, j: nat)
    requires Wide(range) && range.lower.c + q <= range.border.c && j < 33
    requires Holds(s, range, q, j) && Stands(s, range, q, j)
    ensures Holds(After(s), range, q, j + 1) && After(s).octets == At(range, q, Octet(j))
  {
    CallOf(s, range, q, j);
    IssuedBlock(s);
    hide Next;
    forall ip ensures ip in After(s).reserved <==> Has(range, q, j + 1, ip) {
      assert Has(range, q, j + 1, ip) <==> Has(range, q, j, ip) || ip == At(range, q, Octet(j));
    }
  }

  lemma RowDone(s: Inc, range: Range, q: nat)
    requires Holds(s, range, q, 33)
    ensures Holds(s, range, q + 1, 0)
  {
    forall ip ensures Has(range, q, 33, ip) <==> Has(range, q + 1, 0, ip) {}
  }

  lemma {:induction false} FirstCalls(range: Range, q: nat, j: nat)
    requires Wide(range) && range.lower.c + q <= range.border.c && j < 33
    ensures var s := Replay(range, Nexts(33 * q + j)); Holds(s, range, q, j) && Stands(s, range, q, j)
    decreases q, j
  {
    hide Replay, Holds, After, Nexts;
    if j > 0 {
      FirstCalls(range, q, j - 1);
      ReplayNext(range, 33 * q + j - 1);
      CallKeeps(Replay(range, Nexts(33 * q + j - 1)), range, q, j - 1);
    } else if q > 0 {
      FirstCalls(range, q - 1, 32);
      ReplayNext(range, 33 * q - 1);
      CallKeeps(Replay(range, Nexts(33 * q - 1)), range, q - 1, 32);
      RowDone(Replay(range, Nexts(33 * q)), range, q - 1);
    } else {
      NoCalls(range);
    }
  }

  lemma NoCalls(range: Range)
    requires Wide(range)
    ensures var s := Replay(range, Nexts(0)); Holds(s, range, 0, 0) && s.octets == range.lower
  {
  }

  // ---- after that ----

  /** How many /24s the range has. */
  function Rows(range: Range): nat
    requires range.lower.c <= range.border.c
  {
    range.border.c - range.lower.c + 1
  }

  /** The row after row p, in a circle. */
  function Succeeding(p: nat, n: nat): nat { if p + 1 < n then p + 1 else 0 }

  /** With everything issued, a call goes on to the next /24 and issues its last block once more. */
  lemma CallAgain(s: Inc, range: Range, p: nat, p': nat)
    requires Wide(range) && p < Rows(range) && p' == Succeeding(p, Rows(range))
    requires Holds(s, range, Rows(range), 0) && s.octets == At(range, p, 248)
    ensures Next(s) == Some(At(range, p', 248))
  {
    var n := Rows(range);
    assert Turn(s) == Some(At(range, p', 0));
    RowFull(s, range, n, 0, p);
    RowFull(s, range, n, 0, p');
    hide Blocked, Pick, Holds, RowBlocked;
    FromLast(s.reserved, s.octets);
    assert At(range, p', 0).(d := 248) == At(range, p', 248);
    LastOnly(s.reserved, At(range, p', 0));
    assert Plus(s.octets.d, STEP) == 0;
  }

  lemma LastOnly(reserved: set<IP>, base: IP)
    requires RowBlocked(reserved, base.(d := 248), 0, 240)
    ensures Pick(reserved, base, 0, STEP) == Some(248)
  {
    PickIsFirst(reserved, base, 0, STEP);
    WholeScan(reserved, base, 0);
    hide Pick, Blocked;
    forall e: byte | e % 8 == 0 && e <= 240 ensures Blocked(reserved, base.(d := e)) {
      assert base.(d := 248).(d := e) == base.(d := e);
    }
    assert Pick(reserved, base, 0, STEP).value == 248;
  }

  lemma AgainKeeps(s: Inc, range: Range, p: nat, p': nat)
    requires Wide(range) && p < Rows(range) && p' == Succeeding(p, Rows(range))
    requires Holds(s, range, Rows(range), 0) && s.octets == At(range, p, 248)
    ensures Holds(After(s), range, Rows(range), 0) && After(s).octets == At(range, p', 248)
  {
    CallAgain(s, range, p, p');
    IssuedBlock(s);
    assert Has(range, Rows(range), 0, At(range, p', 248));
    hide Next;
    assert After(s).reserved == s.reserved;
  }

  /** The row of later call number i. */
  function Turns(n: nat, i: nat): (p: nat)
    requires n > 0
    ensures p < n
  {
    if i == 0 then 0 else Succeeding(Turns(n, i - 1), n)
  }

  lemma {:induction false} TurnsIsMod(n: nat, i: nat)
    requires n > 0
    ensures Turns(n, i) == i % n
  {
    if i > 0 {
      TurnsIsMod(n, i - 1);
      SucceedingMod(n, i - 1);
    }
  }

  lemma SucceedingMod(n: nat, i: nat)
    requires n > 0
    ensures (i + 1) % n == Succeeding(i % n, n)
  {
    var q, r := i / n, i % n;
    if r + 1 < n {
      ModUnique(i + 1, n, q, r + 1);
    } else {
      assert n * (q + 1) == n * q + n;
      ModUnique(i + 1, n, q + 1, 0);
    }
  }

  lemma ModUnique(x: nat, n: nat, q: nat, r: nat)
    requires r < n && x == n * q + r
    ensures x % n == r && x / n == q
  {
    var d: int := x / n - q;
    assert n * d == r - x % n;
    assert d >= 1 ==> n * d >= n;
    assert d <= -1 ==> n * d + n <= 0;
  }

  /** The row the cursor stands in before that call. */
  function Before(n: nat, i: nat): (p: nat)
    requires n > 0
    ensures p < n && Succeeding(p, n) == Turns(n, i)
  {
    if i == 0 then n - 1 else Turns(n, i - 1)
  }

  lemma {:induction false} LaterCalls(range: Range, i: nat)
    requires Wide(range)
    ensures var n := Rows(range);
            var s := Replay(range, Nexts(33 * n + i));
            Holds(s, range, n, 0) && s.octets == At(range, Before(n, i), 248)
  {
    hide Replay, Holds, After, Nexts;
    var n := Rows(range);
    if i == 0 {
      FirstCalls(range, n - 1, 32);
      ReplayNext(range, 33 * n - 1);
      CallKeeps(Replay(range, Nexts(33 * n - 1)), range, n - 1, 32);
      RowDone(Replay(range, Nexts(33 * n)), range, n - 1);
    } else {
      LaterCalls(range, i - 1);
      ReplayNext(range, 33 * n + i - 1);
      AgainKeeps(Replay(range, Nexts(33 * n + i - 1)), range, Before(n, i - 1), Turns(n, i - 1));
    }
  }

  // ---- the result ----

  /** Call number k, counted from 0, on a new incrementer: 33 calls for each /24 in turn, which issue every
      block of it once and the last one twice; after the last /24 the last blocks over and over. */
  function Expected(range: Range, k: nat): IP
    requires range.lower.c < range.border.c
  {
    var n := Rows(range);
    if k < 33 * n then (RowOf(k, n); At(range, k / 33, Octet(k % 33)))
    else At(range, (k - 33 * n) % n, 248)
  }

  lemma RowOf(k: nat, n: nat)
    requires k < 33 * n
    ensures k / 33 < n && k == 33 * (k / 33) + k % 33
  {
  }

  lemma KthCall(range: Range, ops: seq<Op>, k: nat)
    requires Wide(range) && k < |ops| && ops == Nexts(|ops|)
    ensures ops[k].OpNext? && Issue(range, ops, k) == Some(Expected(range, k))
  {
    assert ops[..k] == Nexts(k);
    var n := Rows(range);
    if k < 33 * n {
      RowOf(k, n);
      FirstCall(range, k / 33, k % 33);
    } else {
      LaterCall(range, k - 33 * n);
      TurnsIsMod(n, k - 33 * n);
    }
  }

  lemma FirstCall(range: Range, q: nat, j: nat)
    requires Wide(range) && q < Rows(range) && j < 33
    ensures Next(Replay(range, Nexts(33 * q + j))) == Some(At(range, q, Octet(j)))
  {
    hide Replay, Holds, Next, Nexts;
    FirstCalls(range, q, j);
    CallOf(Replay(range, Nexts(33 * q + j)), range, q, j);
  }

  lemma LaterCall(range: Range, i: nat)
    requires Wide(range)
    ensures Next(Replay(range, Nexts(33 * Rows(range) + i))) == Some(At(range, Turns(Rows(range), i), 248))
  {
    hide Replay, Holds, Next, Nexts;
    var n := Rows(range);
    LaterCalls(range, i);
    CallAgain(Replay(range, Nexts(33 * n + i)), range, Before(n, i), Turns(n, i));
  }
}
