/** SHA-256 as FIPS 180-4 defines it, for byte messages.  Sections are those of FIPS 180-4. */
module Fips180 {
  import opened Common

  type Word = bv32

  /** Addition modulo 2^32. */
  function Add(x: Word, y: Word): Word { x + y }

  // Section 3.2 and 4.1.2.  ROTR and SHR are written out at the distances used.

  function Sigma0(x: Word): Word { ((x >> 2) | (x << 30)) ^ ((x >> 13) | (x << 19)) ^ ((x >> 22) | (x << 10)) }
  function Sigma1(x: Word): Word { ((x >> 6) | (x << 26)) ^ ((x >> 11) | (x << 21)) ^ ((x >> 25) | (x << 7)) }
  function Mix0(x: Word): Word { ((x >> 7) | (x << 25)) ^ ((x >> 18) | (x << 14)) ^ (x >> 3) }
  function Mix1(x: Word): Word { ((x >> 17) | (x << 15)) ^ ((x >> 19) | (x << 13)) ^ (x >> 10) }
  function Ch(x: Word, y: Word, z: Word): Word { (x & y) ^ (!x & z) }
  function Maj(x: Word, y: Word, z: Word): Word { (x & y) ^ (x & z) ^ (y & z) }

  /** Section 4.2.2. */
  const K: seq<Word> := [
    0x428a2f98, 0x71374491, 0xb5c0fbcf, 0xe9b5dba5, 0x3956c25b, 0x59f111f1, 0x923f82a4, 0xab1c5ed5,
    0xd807aa98, 0x12835b01, 0x243185be, 0x550c7dc3, 0x72be5d74, 0x80deb1fe, 0x9bdc06a7, 0xc19bf174,
    0xe49b69c1, 0xefbe4786, 0x0fc19dc6, 0x240ca1cc, 0x2de92c6f, 0x4a7484aa, 0x5cb0a9dc, 0x76f988da,
    0x983e5152, 0xa831c66d, 0xb00327c8, 0xbf597fc7, 0xc6e00bf3, 0xd5a79147, 0x06ca6351, 0x14292967,
    0x27b70a85, 0x2e1b2138, 0x4d2c6dfc, 0x53380d13, 0x650a7354, 0x766a0abb, 0x81c2c92e, 0x92722c85,
    0xa2bfe8a1, 0xa81a664b, 0xc24b8b70, 0xc76c51a3, 0xd192e819, 0xd6990624, 0xf40e3585, 0x106aa070,
    0x19a4c116, 0x1e376c08, 0x2748774c, 0x34b0bcb5, 0x391c0cb3, 0x4ed8aa4a, 0x5b9cca4f, 0x682e6ff3,
    0x748f82ee, 0x78a5636f, 0x84c87814, 0x8cc70208, 0x90befffa, 0xa4506ceb, 0xbef9a3f7, 0xc67178f2]

  datatype Hash = Hash(a: Word, b: Word, c: Word, d: Word, e: Word, f: Word, g: Word, h: Word)

  /** Section 5.3.3. */
  const INITIAL := Hash(0x6a09e667, 0xbb67ae85, 0x3c6ef372, 0xa54ff53a, 0x510e527f, 0x9b05688c, 0x1f83d9ab, 0x5be0cd19)

  // Section 5.1.1: padding, on bits.

  function Zeros(n: nat): (r: seq<bool>)
    ensures |r| == n
  {
    seq(n, _ => false)
  }

  /** The low n bits of `value`, most significant first. */
  function Bits(value: nat, n: nat): (r: seq<bool>)
    ensures |r| == n
  {
    if n == 0 then [] else Bits(value / 2, n - 1) + [value % 2 == 1]
  }

  function BytesBits(m: Bytes): (r: seq<bool>)
    ensures |r| == 8 * |m|
  {
    if m == [] then [] else BytesBits(m[..|m| - 1]) + Bits(m[|m| - 1], 8)
  }

  predicate Fills(l: nat, k: nat) { (l + 1 + k) % 512 == 448 }

  /** k is the smallest solution of l + 1 + k = 448 modulo 512. */
  ghost predicate PadZeros(l: nat, k: nat) {
    Fills(l, k) && forall j: nat | j < k :: !Fills(l, j)
  }

  /** `padded` is the padded form of the message whose bits are `message`. */
  ghost predicate IsPadded(message: seq<bool>, padded: seq<bool>) {
    exists k: nat :: PaddedBy(message, k, padded)
  }

  ghost predicate PaddedBy(message: seq<bool>, k: nat, padded: seq<bool>) {
    PadZeros(|message|, k) && padded == message + [true] + Zeros(k) + Bits(|message|, 64)
  }

  // Section 5.2.1: a block of 64 bytes as sixteen words, big-endian (section 3.1).

  function BigEndian(a: byte, b: byte, c: byte, d: byte): Word {
    var n: int := d;
    var n := n + 0x100 * (c as int);
    var n := n + 0x1_0000 * (b as int);
    var n := n + 0x100_0000 * (a as int);
    n as bv32
  }

  function BlockWords(block: Bytes): (m: seq<Word>)
    requires |block| == 64
    ensures |m| == 16
  {
    seq(16, t requires 0 <= t < 16 => BigEndian(block[4 * t], block[4 * t + 1], block[4 * t + 2], block[4 * t + 3]))
  }

  // Section 6.2.2.

  /** sigma1(w2) + w7 + sigma0(w15) + w16, bracketed from the right. */
  function Expanded(w2: Word, w7: Word, w15: Word, w16: Word): Word {
    Add(Mix1(w2), Add(w7, Add(Mix0(w15), w16)))
  }

  /** Step 1: the message schedule of the block whose words are m. */
  function W(m: seq<Word>, t: nat): Word
    requires |m| == 16
  {
    if t < 16 then m[t]
    else Expanded(W(m, t - 2), W(m, t - 7), W(m, t - 15), W(m, t - 16))
  }

  /** Step 3, one t. */
  function Round(v: Hash, k: Word, w: Word): Hash {
    var t1 := Add(Add(Add(Add(v.h, Sigma1(v.e)), Ch(v.e, v.f, v.g)), k), w);
    var t2 := Add(Sigma0(v.a), Maj(v.a, v.b, v.c));
    Hash(Add(t1, t2), v.a, v.b, v.c, Add(v.d, t1), v.e, v.f, v.g)
  }

  /** Step 3 for the first t values. */
  function Rounds(v: Hash, m: seq<Word>, t: nat): Hash
    requires |m| == 16 && t <= 64
  {
    if t == 0 then v else Round(Rounds(v, m, t - 1), K[t - 1], W(m, t - 1))
  }

  /** Step 4. */
  function Sum(r: Hash, v: Hash): Hash {
    Hash(Add(r.a, v.a), Add(r.b, v.b), Add(r.c, v.c), Add(r.d, v.d),
         Add(r.e, v.e), Add(r.f, v.f), Add(r.g, v.g), Add(r.h, v.h))
  }

  /** Steps 2 to 4 for one block. */
  function Compress(v: Hash, m: seq<Word>): Hash
    requires |m| == 16
  {
    Sum(Rounds(v, m, 64), v)
  }

  /** The hash of the first n blocks. */
  function Chain(padded: Bytes, n: nat): Hash
    requires 64 * n <= |padded|
  {
    if n == 0 then INITIAL else Compress(Chain(padded, n - 1), BlockWords(padded[64 * (n - 1)..64 * n]))
  }

  function HexDigit(d: nat): char
    requires d < 16
  {
    if d < 10 then '0' + d as char else 'a' + (d - 10) as char
  }

  /** The low n hex digits of `value`, most significant first. */
  function Hex(value: nat, n: nat): (r: string)
    ensures |r| == n
  {
    if n == 0 then "" else Hex(value / 16, n - 1) + [HexDigit(value % 16)]
  }

  function WordHex(w: Word): (r: string)
    ensures |r| == 8
  {
    Hex(w as nat, 8)
  }

  function HashHex(v: Hash): (r: string)
    ensures |r| == 64
  {
    WordHex(v.a) + WordHex(v.b) + WordHex(v.c) + WordHex(v.d)
    + WordHex(v.e) + WordHex(v.f) + WordHex(v.g) + WordHex(v.h)
  }

  /** The digest of a message is the hash of its padded form, in hex. */
  ghost predicate IsDigest(m: Bytes, digest: string) {
    exists padded: Bytes :: IsPadded(BytesBits(m), BytesBits(padded)) && |padded| % 64 == 0
      && digest == HashHex(Chain(padded, |padded| / 64))
  }
}

/** The server's own digest: loops over a padded vector, a word buffer and eight registers. */
module Sha256 {
  import opened Common
  import opened Fips180

  /** `to_be_bytes`, k bytes. */
  function BeBytes(n: nat, k: nat): (r: Bytes)
    ensures |r| == k
  {
    if k == 0 then [] else BeBytes(n / 256, k - 1) + [n % 256]
  }

  function ZeroBytes(n: nat): (r: Bytes)
    ensures |r| == n
  {
    seq(n, _ => 0)
  }

  /** Zero bytes between the 0x80 and the length. */
  function ZeroCount(n: nat): nat { (55 - n) % 64 }

  const TWO64: nat := 0x1_0000_0000_0000_0000

  /** The bit count the code stores: `wrapping_mul` keeps 64 bits. */
  function BitLength(m: Bytes): nat { (8 * |m|) % TWO64 }

  function Framed(m: Bytes, zeros: nat, bits: nat): Bytes {
    m + [0x80] + ZeroBytes(zeros) + BeBytes(bits, 8)
  }

  function Pad(m: Bytes): Bytes { Framed(m, ZeroCount(|m|), BitLength(m)) }

  lemma PadIsAligned(m: Bytes)
    ensures |Pad(m)| % 64 == 0
  {
    ZerosUntilAligned(|m|, ZeroCount(|m|));
  }

  function Digest(m: Bytes): (r: string)
    ensures |r| == 64
  {
    HashHex(Chain(Pad(m), |Pad(m)| / 64))
  }

  method LoadWords(words: array<Word>, chunk: Bytes)
    requires |chunk| == 64 && words.Length == 64
    modifies words
    ensures words[..16] == BlockWords(chunk)
  {
    for index := 0 to 16
      invariant words[..index] == BlockWords(chunk)[..index]
    {
      words[index] := BigEndian(chunk[index * 4], chunk[index * 4 + 1], chunk[index * 4 + 2], chunk[index * 4 + 3]);
    }
  }

  method ExpandWords(words: array<Word>, ghost m: seq<Word>)
    requires |m| == 16 && words.Length == 64 && words[..16] == m
    modifies words
    ensures forall t | 0 <= t < 64 :: words[t] == W(m, t)
  {
    assert forall t | 0 <= t < 16 :: words[t] == words[..16][t];
    for index := 16 to 64
      invariant forall t | 0 <= t < index :: words[t] == W(m, t)
    {
      words[index] := ExpandWord(words[index - 2], words[index - 7], words[index - 15], words[index - 16]);
    }
  }

  method ExpandWord(w2: Word, w7: Word, w15: Word, w16: Word) returns (word: Word)
    ensures word == Expanded(w2, w7, w15, w16)
  {
    var s0 := SmallSigma0(w15);
    var s1 := SmallSigma1(w2);
    word := Add(Add(Add(w16, s0), w7), s1);
    AddCommutes(w16, s0);
    AddCommutes(Add(w16, s0), w7);
    AddCommutes(Add(Add(w16, s0), w7), s1);
  }

  method SmallSigma0(x: Word) returns (s: Word)
    ensures s == Mix0(x)
  {
    s := x.RotateRight(7) ^ x.RotateRight(18) ^ (x >> 3);
  }

  method SmallSigma1(x: Word) returns (s: Word)
    ensures s == Mix1(x)
  {
    s := x.RotateRight(17) ^ x.RotateRight(19) ^ (x >> 10);
  }

  method BigSigma0(x: Word) returns (s: Word)
    ensures s == Sigma0(x)
  {
    s := x.RotateRight(2) ^ x.RotateRight(13) ^ x.RotateRight(22);
  }

  method BigSigma1(x: Word) returns (s: Word)
    ensures s == Sigma1(x)
  {
    s := x.RotateRight(6) ^ x.RotateRight(11) ^ x.RotateRight(25);
  }

  /** One turn of the eight registers. */
  method RoundStep(a0: Word, b0: Word, c0: Word, d0: Word, e0: Word, f0: Word, g0: Word, h0: Word, k: Word, word: Word)
    returns (a: Word, b: Word, c: Word, d: Word, e: Word, f: Word, g: Word, h: Word)
    ensures Hash(a, b, c, d, e, f, g, h) == Round(Hash(a0, b0, c0, d0, e0, f0, g0, h0), k, word)
  {
    a, b, c, d, e, f, g, h := a0, b0, c0, d0, e0, f0, g0, h0;
    var s1 := BigSigma1(e);
    var choose := (e & f) ^ (!e & g);
    var temp1 := Add(Add(Add(Add(h, s1), choose), k), word);
    var s0 := BigSigma0(a);
    var majority := (a & b) ^ (a & c) ^ (b & c);
    var temp2 := Add(s0, majority);
    h := g;
    g := f;
    f := e;
    e := Add(d, temp1);
    d := c;
    c := b;
    b := a;
    a := Add(temp1, temp2);
  }

  method CompressBlock(hash: Hash, chunk: Bytes) returns (next: Hash)
    requires |chunk| == 64
    ensures next == Compress(hash, BlockWords(chunk))
  {
    ghost var m := BlockWords(chunk);
    var words := new Word[64](_ => 0);
    LoadWords(words, chunk);
    ExpandWords(words, m);
    next := RunRounds(hash, words, m);
    next := Combine(hash, next);
  }

  method RunRounds(hash: Hash, words: array<Word>, ghost m: seq<Word>) returns (next: Hash)
    requires |m| == 16 && words.Length == 64
    requires forall t | 0 <= t < 64 :: words[t] == W(m, t)
    ensures next == Rounds(hash, m, 64)
  {
    var a, b, c, d := hash.a, hash.b, hash.c, hash.d;
    var e, f, g, h := hash.e, hash.f, hash.g, hash.h;
    for index := 0 to 64
      invariant Hash(a, b, c, d, e, f, g, h) == Rounds(hash, m, index)
    {
      a, b, c, d, e, f, g, h := RoundStep(a, b, c, d, e, f, g, h, K[index], words[index]);
    }
    next := Hash(a, b, c, d, e, f, g, h);
  }

  method Combine(v: Hash, r: Hash) returns (next: Hash)
    ensures next == Sum(r, v)
  {
    next := Sum(v, r);
    AddCommutes(v.a, r.a); AddCommutes(v.b, r.b); AddCommutes(v.c, r.c); AddCommutes(v.d, r.d);
    AddCommutes(v.e, r.e); AddCommutes(v.f, r.f); AddCommutes(v.g, r.g); AddCommutes(v.h, r.h);
  }

  lemma AddCommutes(x: Word, y: Word)
    ensures Add(x, y) == Add(y, x)
  {
  }

  lemma ZerosUntilAligned(n: nat, i: nat)
    requires i <= ZeroCount(n)
    ensures (n + 9 + i) % 64 == 0 <==> i == ZeroCount(n)
  {
    var q := (55 - n) / 64;
    assert n + 9 + i == 64 * (1 - q) - (ZeroCount(n) - i);
  }

  method PadMessage(bytes: Bytes) returns (padded: Bytes)
    ensures padded == Pad(bytes)
  {
    var bitLen := BitLength(bytes);
    padded := bytes + [0x80];
    ghost var zeros := 0;
    ZerosUntilAligned(|bytes|, 0);
    while (|padded| + 8) % 64 != 0
      invariant zeros <= ZeroCount(|bytes|)
      invariant (|padded| + 8) % 64 == 0 <==> zeros == ZeroCount(|bytes|)
      invariant padded == bytes + [0x80] + ZeroBytes(zeros)
      decreases ZeroCount(|bytes|) - zeros
    {
      padded := padded + [0];
      zeros := zeros + 1;
      ZerosUntilAligned(|bytes|, zeros);
    }
    padded := padded + BeBytes(bitLen, 8);
  }

  method Sha256(bytes: Bytes) returns (digest: string)
    ensures digest == Digest(bytes)
  {
    var padded := PadMessage(bytes);
    var hash := INITIAL;
    for block := 0 to |padded| / 64
      invariant hash == Chain(padded, block)
    {
      hash := CompressBlock(hash, padded[64 * block..64 * (block + 1)]);
    }
    digest := HashHex(hash);
  }
}
