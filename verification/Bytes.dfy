/** Big-endian integers and buffers laid out as consecutive fields. */
module Bytes {
  import opened Routing

  function Power(n: nat): (p: nat)
    ensures p > 0
  {
    if n == 0 then 1 else 0x100 * Power(n - 1)
  }

  /** The n-byte big-endian form of x; higher digits are cut off. */
  function BE(n: nat, x: nat): (bs: bytes)
    ensures |bs| == n
  {
    if n == 0 then [] else BE(n - 1, x / 0x100) + [x % 0x100]
  }

  function FromBE(bs: bytes): (x: nat)
    ensures x < Power(|bs|)
  {
    if bs == [] then 0 else 0x100 * FromBE(bs[..|bs| - 1]) + bs[|bs| - 1]
  }

  lemma {:induction false} DecodeEncode(n: nat, x: nat)
    requires x < Power(n)
    ensures FromBE(BE(n, x)) == x
  {
    if n > 0 {
      DecodeEncode(n - 1, x / 0x100);
      assert BE(n, x)[..n - 1] == BE(n - 1, x / 0x100);
    }
  }

  lemma {:induction false} EncodeDecode(bs: bytes)
    ensures BE(|bs|, FromBE(bs)) == bs
  {
    if bs != [] {
      EncodeDecode(bs[..|bs| - 1]);
      assert bs == bs[..|bs| - 1] + [bs[|bs| - 1]];
    }
  }

  // ---- what the bytes are ----

  lemma DivDiv(x: nat, b: nat)
    requires b > 0
    ensures x / 0x100 / b == x / (0x100 * b)
  {
    var q, r := x / (0x100 * b), x % (0x100 * b);
    assert x == 0x100 * (b * q) + r;
    assert r / 0x100 < b;
    assert x / 0x100 == b * q + r / 0x100;
    DivUnique(x / 0x100, b, q, r / 0x100);
  }

  lemma DivUnique(x: nat, b: nat, q: nat, r: nat)
    requires r < b && x == b * q + r
    ensures x / b == q
  {
    var d: int := x / b - q;
    assert b * d == r - x % b;
    assert d >= 1 ==> b * d >= b;
    assert d <= -1 ==> b * d + b <= 0;
  }

  /** The most significant byte comes first. */
  lemma {:induction false} BigEndian(n: nat, x: nat, i: nat)
    requires i < n
    ensures BE(n, x)[i] == x / Power(n - 1 - i) % 0x100
  {
    if i < n - 1 {
      BigEndian(n - 1, x / 0x100, i);
      DivDiv(x, Power(n - 2 - i));
    }
  }

  /** And it is read as the most significant: each byte of a string is the digit of its number. */
  lemma FromBigEndian(bs: bytes, i: nat)
    requires i < |bs|
    ensures bs[i] == FromBE(bs) / Power(|bs| - 1 - i) % 0x100
  {
    EncodeDecode(bs);
    BigEndian(|bs|, FromBE(bs), i);
  }

  /** Sixteen and thirty-two bits spelled out. */
  lemma Bytes2(x: nat)
    ensures BE(2, x) == [x / 0x100 % 0x100, x % 0x100]
  {
    hide BE;
    Powers();
    BigEndian(2, x, 0);
    BigEndian(2, x, 1);
  }

  lemma Bytes4(x: nat)
    ensures BE(4, x) == [x / 0x100_0000 % 0x100, x / 0x1_0000 % 0x100, x / 0x100 % 0x100, x % 0x100]
  {
    hide BE;
    Powers();
    BigEndian(4, x, 0);
    BigEndian(4, x, 1);
    BigEndian(4, x, 2);
    BigEndian(4, x, 3);
  }

  lemma Number2(bs: bytes)
    requires |bs| == 2
    ensures FromBE(bs) == 0x100 * (bs[0] as int) + bs[1]
  {
    assert bs[..1][..0] == [];
    assert FromBE(bs[..1]) == bs[0];
  }

  lemma Number4(bs: bytes)
    requires |bs| == 4
    ensures FromBE(bs) ==
      0x100_0000 * (bs[0] as int) + 0x1_0000 * (bs[1] as int) + 0x100 * (bs[2] as int) + bs[3]
  {
    Number2(bs[..2]);
    assert bs[..3][..2] == bs[..2];
    assert FromBE(bs[..3]) == 0x100 * FromBE(bs[..2]) + bs[2];
  }

  lemma Powers()
    ensures Power(0) == 1 && Power(1) == 0x100 && Power(2) == 0x1_0000 && Power(3) == 0x100_0000
    ensures Power(4) == 0x1_0000_0000
    ensures Power(8) == 0x1_0000_0000_0000_0000
  {
    assert Power(3) == 0x100_0000 && Power(4) == 0x1_0000_0000;
    assert Power(5) == 0x100_0000_0000 && Power(6) == 0x1_0000_0000_0000 && Power(7) == 0x100_0000_0000_0000;
  }

  lemma ReadsBack2(x: nat)
    requires x < 0x1_0000
    ensures FromBE(BE(2, x)) == x
  {
    hide BE, FromBE;
    Powers();
    DecodeEncode(2, x);
  }

  lemma ReadsBack4(x: nat)
    requires x < 0x1_0000_0000
    ensures FromBE(BE(4, x)) == x
  {
    hide BE, FromBE;
    Powers();
    DecodeEncode(4, x);
  }

  lemma ReadsBack8(x: nat)
    requires x < 0x1_0000_0000_0000_0000
    ensures FromBE(BE(8, x)) == x
  {
    hide BE, FromBE;
    Powers();
    DecodeEncode(8, x);
  }

  /** int64(uint64): the upper half is negative. */
  function ToInt64(u: nat): Duration
    requires u < 0x1_0000_0000_0000_0000
  {
    if u < 0x8000_0000_0000_0000 then u else u - 0x1_0000_0000_0000_0000
  }

  function Zeros(n: nat): (bs: bytes)
    ensures |bs| == n && forall i :: 0 <= i < n ==> bs[i] == 0
  {
    seq(n, i => 0)
  }

  function Flat(chunks: seq<bytes>): bytes
  {
    if chunks == [] then [] else chunks[0] + Flat(chunks[1..])
  }

  lemma SliceOfSlice(b: bytes, i: nat, j: nat, x: nat, y: nat)
    requires i <= j <= |b| && x <= y <= j - i
    ensures b[i..j][x..y] == b[i + x..i + y]
  {
    forall k | 0 <= k < y - x ensures b[i..j][x..y][k] == b[i + x..i + y][k] {}
  }

  // ---- fields ----

  /** Overwrite part of a buffer. */
  function Splice(s: bytes, off: nat, bs: bytes): (r: bytes)
    requires off + |bs| <= |s|
    ensures |r| == |s|
  {
    s[..off] + bs + s[off + |bs|..]
  }

  function Offset(parts: seq<bytes>, i: nat): nat
    requires i <= |parts|
  {
    if i == 0 then 0 else Offset(parts, i - 1) + |parts[i - 1]|
  }

  /** The first k fields, one after the other. */
  function Join(parts: seq<bytes>, k: nat): (r: bytes)
    requires k <= |parts|
    ensures |r| == Offset(parts, k)
  {
    if k == 0 then [] else Join(parts, k - 1) + parts[k - 1]
  }

  lemma {:induction false} OffsetMonotone(parts: seq<bytes>, i: nat, k: nat)
    requires i < k <= |parts|
    ensures Offset(parts, i) + |parts[i]| <= Offset(parts, k)
  {
    if i < k - 1 { OffsetMonotone(parts, i, k - 1); }
  }

  /** Reading the bytes of field i gives field i. */
  lemma {:induction false} GetPart(parts: seq<bytes>, k: nat, i: nat)
    requires i < k <= |parts|
    ensures Offset(parts, i) + |parts[i]| <= Offset(parts, k)
    ensures Join(parts, k)[Offset(parts, i)..Offset(parts, i) + |parts[i]|] == parts[i]
  {
    OffsetMonotone(parts, i, k);
    if i < k - 1 { GetPart(parts, k - 1, i); }
  }

  lemma {:induction false} SameOffsets(parts: seq<bytes>, parts': seq<bytes>, k: nat)
    requires k <= |parts| == |parts'| && forall j :: 0 <= j < |parts| ==> |parts[j]| == |parts'[j]|
    ensures Offset(parts, k) == Offset(parts', k)
  {
    if k > 0 { SameOffsets(parts, parts', k - 1); }
  }

  /** Overwriting the bytes of field i replaces field i and no other. */
  lemma {:induction false} PutPart(parts: seq<bytes>, k: nat, i: nat, b: bytes)
    requires i < |parts| && k <= |parts| && |b| == |parts[i]| > 0
    ensures i >= k ==> Join(parts[i := b], k) == Join(parts, k)
    ensures i < k ==> Offset(parts, i) + |b| <= |Join(parts, k)|
                      && Join(parts[i := b], k) == Splice(Join(parts, k), Offset(parts, i), b)
  {
    if k > 0 {
      hide Splice;
      PutPart(parts, k - 1, i, b);
      if i < k {
        OffsetMonotone(parts, i, k);
        SpliceConcat(Join(parts, k - 1), parts[k - 1], Offset(parts, i), b);
      }
    }
  }

  lemma SpliceConcat(x: bytes, y: bytes, off: nat, b: bytes)
    requires b != [] && (off + |b| <= |x| || (off == |x| && |b| == |y|))
    ensures Splice(x + y, off, b) == if off + |b| <= |x| then Splice(x, off, b) + y else x + b
  {
  }

  /** r holds field i at its place. */
  ghost predicate Holds(r: bytes, parts: seq<bytes>, i: nat)
    requires i < |parts|
  {
    var o := Offset(parts, i);
    o + |parts[i]| <= |r| && r[o..o + |parts[i]|] == parts[i]
  }

  /** Fields that are the pieces of a buffer, joined, are the buffer. */
  lemma {:induction false} JoinCut(r: bytes, parts: seq<bytes>, k: nat)
    requires k <= |parts| && forall i :: 0 <= i < k ==> Holds(r, parts, i)
    ensures Offset(parts, k) <= |r| && Join(parts, k) == r[..Offset(parts, k)]
  {
    if k > 0 {
      JoinCut(r, parts, k - 1);
      assert Holds(r, parts, k - 1);
    }
  }

  // ---- layouts ----

  function At(widths: seq<nat>, i: nat): nat
    requires i <= |widths|
  {
    if i == 0 then 0 else At(widths, i - 1) + widths[i - 1]
  }

  /** r consists of the given fields, with the given widths. */
  ghost predicate Formed(r: bytes, parts: seq<bytes>, widths: seq<nat>)
  {
    && |parts| == |widths| && (forall i :: 0 <= i < |parts| ==> |parts[i]| == widths[i])
    && r == Join(parts, |parts|)
  }

  lemma {:induction false} OffsetIsAt(parts: seq<bytes>, widths: seq<nat>, i: nat)
    requires i <= |parts| == |widths| && forall j :: 0 <= j < |parts| ==> |parts[j]| == widths[j]
    ensures Offset(parts, i) == At(widths, i)
  {
    if i > 0 { OffsetIsAt(parts, widths, i - 1); }
  }

  lemma FormedSize(r: bytes, parts: seq<bytes>, widths: seq<nat>)
    requires Formed(r, parts, widths)
    ensures |r| == At(widths, |widths|)
  {
    OffsetIsAt(parts, widths, |parts|);
  }

  lemma GetField(r: bytes, parts: seq<bytes>, widths: seq<nat>, i: nat)
    requires Formed(r, parts, widths) && i < |widths|
    ensures At(widths, i) + widths[i] <= |r| && r[At(widths, i)..At(widths, i) + widths[i]] == parts[i]
  {
    GetPart(parts, |parts|, i);
    OffsetIsAt(parts, widths, i);
  }

  lemma SetField(r: bytes, r': bytes, parts: seq<bytes>, widths: seq<nat>, i: nat, b: bytes)
    requires Formed(r, parts, widths) && i < |widths| && |b| == widths[i] > 0
    requires At(widths, i) + |b| <= |r| && r' == Splice(r, At(widths, i), b)
    ensures Formed(r', parts[i := b], widths)
  {
    PutPart(parts, |parts|, i, b);
    OffsetIsAt(parts, widths, i);
  }

  function Blank(widths: seq<nat>): (parts: seq<bytes>)
    ensures |parts| == |widths| && forall i :: 0 <= i < |widths| ==> parts[i] == Zeros(widths[i])
  {
    seq(|widths|, i requires 0 <= i < |widths| => Zeros(widths[i]))
  }

  lemma {:induction false} BlankJoin(widths: seq<nat>, k: nat)
    requires k <= |widths|
    ensures Join(Blank(widths), k) == Zeros(At(widths, k))
  {
    if k > 0 { BlankJoin(widths, k - 1); }
  }

  /** A zeroed buffer is formed by zeroed fields. */
  lemma BlankFormed(r: bytes, widths: seq<nat>)
    requires r == Zeros(At(widths, |widths|))
    ensures Formed(r, Blank(widths), widths)
  {
    BlankJoin(widths, |widths|);
  }

  /** A buffer of the right size is formed by its pieces. */
  lemma PiecesForm(r: bytes, parts: seq<bytes>, widths: seq<nat>)
    requires |parts| == |widths| && |r| == At(widths, |widths|)
    requires forall i :: 0 <= i < |parts| ==> |parts[i]| == widths[i]
    requires forall i :: 0 <= i < |parts| ==>
      At(widths, i) + widths[i] <= |r| && parts[i] == r[At(widths, i)..At(widths, i) + widths[i]]
    ensures Formed(r, parts, widths)
  {
    hide Holds, Join, Offset, At;
    forall i | 0 <= i < |parts| ensures Holds(r, parts, i) { PieceHolds(r, parts, widths, i); }
    JoinCut(r, parts, |parts|);
    OffsetIsAt(parts, widths, |parts|);
    assert r[..|r|] == r;
  }

  lemma PieceHolds(r: bytes, parts: seq<bytes>, widths: seq<nat>, i: nat)
    requires i < |parts| == |widths| && forall j :: 0 <= j < |parts| ==> |parts[j]| == widths[j]
    requires At(widths, i) + widths[i] <= |r| && parts[i] == r[At(widths, i)..At(widths, i) + widths[i]]
    ensures Holds(r, parts, i)
  {
    OffsetIsAt(parts, widths, i);
  }

  /** copy: overwrite a buffer in place. */
  method Put(r: array<byte>, off: nat, bs: bytes)
    requires off + |bs| <= r.Length
    modifies r
    ensures r[..] == Splice(old(r[..]), off, bs)
  {
    for i := 0 to |bs|
      invariant forall j :: 0 <= j < r.Length ==>
        r[j] == if off <= j < off + i then bs[j - off] else old(r[j])
    {
      r[off + i] := bs[i];
    }
  }
}
