/** The server's digest is the one FIPS 180-4 defines. */
module Sha256Proofs {
  import opened Common
  import opened Fips180
  import opened Sha256

  // Bits of concatenations.

  lemma {:induction false} BytesBitsAppend(a: Bytes, b: Bytes)
    ensures BytesBits(a + b) == BytesBits(a) + BytesBits(b)
  {
    if b == [] {
      assert a + b == a;
    } else {
      BytesBitsAppend(a, b[..|b| - 1]);
      assert (a + b)[..|a + b| - 1] == a + b[..|b| - 1];
    }
  }

  function Shift(v: nat, k: nat): nat {
    if k == 0 then v else Shift(v / 2, k - 1)
  }

  lemma {:induction false} BitsSplit(v: nat, n: nat, k: nat)
    ensures Bits(v, n + k) == Bits(Shift(v, k), n) + Bits(v, k)
  {
    if k > 0 {
      BitsSplit(v / 2, n, k - 1);
    }
  }

  function Pow2(n: nat): nat { if n == 0 then 1 else 2 * Pow2(n - 1) }

  /** q doubled k times. */
  function Doubled(q: nat, k: nat): nat { if k == 0 then q else 2 * Doubled(q, k - 1) }

  lemma {:induction false} BitsAbove(q: nat, r: nat, k: nat)
    requires r < Pow2(k)
    ensures Shift(Doubled(q, k) + r, k) == q
    ensures Bits(Doubled(q, k) + r, k) == Bits(r, k)
  {
    if k > 0 {
      HalfOfDoubled(Doubled(q, k - 1), r);
      BitsAbove(q, r / 2, k - 1);
    }
  }

  lemma HalfOfDoubled(x: nat, r: nat)
    ensures (2 * x + r) / 2 == x + r / 2 && (2 * x + r) % 2 == r % 2
  {
  }

  lemma DoubledFour(q: nat, k: nat)
    ensures Doubled(q, k + 4) == 16 * Doubled(q, k) && Pow2(k + 4) == 16 * Pow2(k)
  {
    assert Doubled(q, k + 4) == 4 * Doubled(q, k + 2);
    assert Pow2(k + 4) == 4 * Pow2(k + 2);
  }

  lemma OctetBits(v: nat)
    ensures Shift(v, 8) == v / 256
    ensures Bits(v, 8) == Bits(v % 256, 8)
  {
    var q, r := v / 256, v % 256;
    DoubledFour(q, 4);
    DoubledFour(q, 0);
    assert v == Doubled(q, 8) + r;
    BitsAbove(q, r, 8);
  }

  lemma {:induction false} BitsOfZero(n: nat)
    ensures Bits(0, n) == Zeros(n)
  {
    if n > 0 {
      BitsOfZero(n - 1);
    }
  }

  lemma {:induction false} BeBytesBits(n: nat, k: nat)
    ensures BytesBits(BeBytes(n, k)) == Bits(n, 8 * k)
  {
    if k > 0 {
      BeBytesBits(n / 256, k - 1);
      BitsSplit(n, 8 * (k - 1), 8);
      OctetBits(n);
      assert BeBytes(n, k)[..k - 1] == BeBytes(n / 256, k - 1);
    }
  }

  lemma {:induction false} ZeroBytesBits(n: nat)
    ensures BytesBits(ZeroBytes(n)) == Zeros(8 * n)
  {
    if n > 0 {
      ZeroBytesBits(n - 1);
      assert ZeroBytes(n)[..n - 1] == ZeroBytes(n - 1);
      BitsOfZero(8);
      assert Zeros(8 * n) == Zeros(8 * (n - 1)) + Zeros(8);
    }
  }

  lemma MarkerBits()
    ensures BytesBits([0x80]) == [true] + Zeros(7)
  {
    DoubledFour(1, 3);
    assert Doubled(1, 3) == 8 && Doubled(1, 7) == 0x80 && Pow2(7) > 0;
    BitsAbove(1, 0, 7);
    BitsSplit(0x80, 1, 7);
    BitsOfZero(7);
    OneByte(0x80);
  }

  lemma OneByte(b: byte)
    ensures BytesBits([b]) == Bits(b, 8)
  {
    assert [b][..0] == [];
  }

  lemma ZeroCountIsLeast(n: nat, l: nat, k: nat)
    requires l == 8 * n && k == 7 + 8 * ZeroCount(n)
    ensures PadZeros(l, k)
  {
    var z, q := ZeroCount(n), (55 - n) / 64;
    assert l == 440 - 8 * z - 512 * q;
    FillsAt(l, k, q, 0);
    forall j: nat | j < k ensures !Fills(l, j) {
      FillsAt(l, j, q, k - j);
    }
  }

  lemma FillsAt(l: nat, j: nat, q: int, below: nat)
    requires l + 1 + j == 448 - 512 * q - below && below < 512
    ensures Fills(l, j) <==> below == 0
  {
  }

  /** The byte loop pads exactly as section 5.1.1 pads the message's bits. */
  lemma PadIsPadded(m: Bytes)
    requires |m| < 0x2000_0000_0000_0000
    ensures IsPadded(BytesBits(m), BytesBits(Pad(m)))
  {
    var z, l := PadParts(m);
    PadIsFramed(m, z, l);
  }

  lemma PadParts(m: Bytes) returns (z: nat, l: nat)
    requires |m| < 0x2000_0000_0000_0000
    ensures z == ZeroCount(|m|) && l == BitLength(m)
    ensures IsPadded(BytesBits(m), BytesBits(Framed(m, z, l)))
  {
    z, l := ZeroCount(|m|), |BytesBits(m)|;
    BitLengthFits(m);
    ZeroCountIsLeast(|m|, l, 7 + 8 * z);
    FramedIsPadded(m, z, l, 7 + 8 * z);
  }

  lemma PadIsFramed(m: Bytes, z: nat, l: nat)
    requires z == ZeroCount(|m|) && l == BitLength(m)
    ensures Pad(m) == Framed(m, z, l)
  {
  }

  lemma FramedIsPadded(m: Bytes, z: nat, l: nat, k: nat)
    requires l == |BytesBits(m)| && PadZeros(l, k) && k == 7 + 8 * z
    ensures IsPadded(BytesBits(m), BytesBits(Framed(m, z, l)))
  {
    MarkedBits(m, z, l);
    assert PaddedBy(BytesBits(m), k, BytesBits(Framed(m, z, l)));
  }

  lemma MarkedBits(m: Bytes, z: nat, n: nat)
    ensures BytesBits(Framed(m, z, n)) == BytesBits(m) + [true] + Zeros(7 + 8 * z) + Bits(n, 64)
  {
    FramedBits(m, z, n);
    ZerosAppend(7, 8 * z);
    Regroup(BytesBits(m), [true], Zeros(7), Zeros(8 * z), Bits(n, 64));
  }

  lemma ZerosAppend(j: nat, k: nat)
    ensures Zeros(j + k) == Zeros(j) + Zeros(k)
  {
  }

  lemma BitLengthFits(m: Bytes)
    requires |m| < 0x2000_0000_0000_0000
    ensures BitLength(m) == 8 * |m| < TWO64
  {
  }

  lemma FramedBits(m: Bytes, z: nat, n: nat)
    ensures BytesBits(Framed(m, z, n)) == BytesBits(m) + ([true] + Zeros(7)) + Zeros(8 * z) + Bits(n, 64)
  {
    BytesBitsAppend(m + [0x80] + ZeroBytes(z), BeBytes(n, 8));
    BytesBitsAppend(m + [0x80], ZeroBytes(z));
    BytesBitsAppend(m, [0x80]);
    MarkerBits();
    ZeroBytesBits(z);
    BeBytesBits(n, 8);
  }

  lemma Regroup(a: seq<bool>, b: seq<bool>, c: seq<bool>, d: seq<bool>, e: seq<bool>)
    ensures a + (b + c) + d + e == a + b + (c + d) + e
  {
  }

  /** The loops compute the digest of FIPS 180-4, sections 5.1.1 and 6.2.2, for every message below 2^61 bytes. */
  lemma DigestIsFips180(m: Bytes, digest: string)
    requires |m| < 0x2000_0000_0000_0000
    ensures digest == Digest(m) <==> IsDigest(m, digest)
  {
    PadIsPadded(m);
    PadIsAligned(m);
    assert IsDigest(m, Digest(m));
    forall padded: Bytes | IsPadded(BytesBits(m), BytesBits(padded)) ensures padded == Pad(m) {
      PaddedIsUnique(BytesBits(m), BytesBits(padded), BytesBits(Pad(m)));
      BytesBitsInjective(padded, Pad(m));
    }
  }

  lemma PaddedIsUnique(message: seq<bool>, p: seq<bool>, q: seq<bool>)
    requires IsPadded(message, p) && IsPadded(message, q)
    ensures p == q
  {
    var j: nat :| PaddedBy(message, j, p);
    var k: nat :| PaddedBy(message, k, q);
    assert !(j < k) && !(k < j);
  }

  lemma {:induction false} BytesBitsInjective(a: Bytes, b: Bytes)
    requires BytesBits(a) == BytesBits(b)
    ensures a == b
  {
    if a == [] || b == [] {
    } else {
      var x, y := a[|a| - 1], b[|b| - 1];
      var n := |BytesBits(a)| - 8;
      assert BytesBits(a)[n..] == Bits(x, 8) && BytesBits(b)[n..] == Bits(y, 8);
      assert BytesBits(a)[..n] == BytesBits(a[..|a| - 1]) && BytesBits(b)[..n] == BytesBits(b[..|b| - 1]);
      BytesBitsInjective(a[..|a| - 1], b[..|b| - 1]);
      BitsInjective(x, y, 8);
      assert a == a[..|a| - 1] + [x] && b == b[..|b| - 1] + [y];
    }
  }

  lemma {:induction false} BitsInjective(x: nat, y: nat, n: nat)
    requires x < Pow2(n) && y < Pow2(n) && Bits(x, n) == Bits(y, n)
    ensures x == y
  {
    if n > 0 {
      assert Bits(x, n)[n - 1] == Bits(y, n)[n - 1];
      assert Bits(x, n)[..n - 1] == Bits(x / 2, n - 1) && Bits(y, n)[..n - 1] == Bits(y / 2, n - 1);
      BitsInjective(x / 2, y / 2, n - 1);
    }
  }

  lemma {:induction false} BeBytesInjective(x: nat, y: nat, k: nat)
    requires x < Pow2(8 * k) && y < Pow2(8 * k) && BeBytes(x, k) == BeBytes(y, k)
    ensures x == y
  {
    BeBytesBits(x, k);
    BeBytesBits(y, k);
    BitsInjective(x, y, 8 * k);
  }

  /** Different messages pad differently. */
  lemma PadInjective(m: Bytes, n: Bytes)
    requires |m| < 0x2000_0000_0000_0000 && |n| < 0x2000_0000_0000_0000
    requires Pad(m) == Pad(n)
    ensures m == n
  {
    FramedEnds(m, ZeroCount(|m|), BitLength(m));
    FramedEnds(n, ZeroCount(|n|), BitLength(n));
    BitLengthFits(m);
    BitLengthFits(n);
    Pow2Of64();
    BeBytesInjective(8 * |m|, 8 * |n|, 8);
  }

  lemma FramedEnds(m: Bytes, z: nat, n: nat)
    ensures var r := Framed(m, z, n);
      |m| + 8 <= |r| && r[|r| - 8..] == BeBytes(n, 8) && r[..|m|] == m
  {
  }

  lemma Pow2Of64()
    ensures Pow2(64) == TWO64
  {
    Pow2Of16(0);
    Pow2Of16(16);
    Pow2Of16(32);
    Pow2Of16(48);
  }

  lemma Pow2Of16(n: nat)
    ensures Pow2(n + 16) == 0x1_0000 * Pow2(n)
  {
    Pow2Of4(n);
    Pow2Of4(n + 4);
    Pow2Of4(n + 8);
    Pow2Of4(n + 12);
  }

  lemma Pow2Of4(n: nat)
    ensures Pow2(n + 4) == 16 * Pow2(n)
  {
    assert Pow2(n + 4) == 4 * Pow2(n + 2);
  }

  predicate LowerHex(c: char) {
    '0' <= c <= '9' || 'a' <= c <= 'f'
  }

  lemma {:induction false} HexIsLower(value: nat, n: nat)
    ensures forall c | c in Hex(value, n) :: LowerHex(c)
  {
    if n > 0 {
      HexIsLower(value / 16, n - 1);
    }
  }

  /** Every digest is 64 lowercase hex digits. */
  lemma DigestIsLowerHex(m: Bytes)
    ensures |Digest(m)| == 64 && forall c | c in Digest(m) :: LowerHex(c)
  {
    var v := Chain(Pad(m), |Pad(m)| / 64);
    HexIsLower(v.a as nat, 8);
    HexIsLower(v.b as nat, 8);
    HexIsLower(v.c as nat, 8);
    HexIsLower(v.d as nat, 8);
    HexIsLower(v.e as nat, 8);
    HexIsLower(v.f as nat, 8);
    HexIsLower(v.g as nat, 8);
    HexIsLower(v.h as nat, 8);
  }
}
