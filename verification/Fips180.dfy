/**
 SHA-256 as FIPS 180-4 defines it (sections 4.1.2, 4.2.2, 5.1.1, 5.3.3, 6.2.2), and
 HMAC as RFC 2104 section 2 defines it, over byte strings.
 */
module Fips180 {
  import opened Words

  function Rotr(x: Word, n: nat): Word
    requires n < 32
  {
    RotrBound(x, n);
    x / Pow2(n) + (x % Pow2(n)) * Pow2(32 - n)
  }

  lemma RotrBound(x: Word, n: nat)
    requires n < 32
    ensures 0 <= x / Pow2(n) + (x % Pow2(n)) * Pow2(32 - n) < TWO_32
  {
    WordSize();
    PowerSplit(n, 32 - n);
    RotationBound(x, Pow2(n), Pow2(32 - n));
  }

  lemma RotationBound(x: nat, d: nat, e: nat)
    requires d > 0 && x < d * e
    ensures 0 <= x / d + (x % d) * e < d * e
  {
    var q, r := x / d, x % d;
    assert d * q + r == x;
    QuotientBelow(q, d, e, x);
    Monotone(r, d - 1, e);
    assert (d - 1) * e == d * e - e;
  }

  lemma {:induction false} PowerSplit(a: nat, b: nat)
    ensures Pow2(a) * Pow2(b) == Pow2(a + b)
  {
    if a > 0 {
      PowerSplit(a - 1, b);
      assert Pow2(a) * Pow2(b) == 2 * (Pow2(a - 1) * Pow2(b));
    }
  }

  lemma Monotone(a: int, b: int, c: nat)
    requires a <= b
    ensures a * c <= b * c
  {
  }

  lemma QuotientBelow(q: int, d: nat, e: nat, x: nat)
    requires d > 0 && d * q <= x < d * e && x < d * q + d
    ensures 0 <= q < e
  {
    if q >= e { Monotone(e, q, d); }
    if q < 0 { Monotone(q + 1, 0, d); }
  }

  function Add(x: int, y: int): Word { (x + y) % TWO_32 }

  function Ch(x: Word, y: Word, z: Word): Word { XorWord(AndWord(x, y), AndWord(NotWord(x), z)) }
  function Maj(x: Word, y: Word, z: Word): Word {
    XorWord(XorWord(AndWord(x, y), AndWord(x, z)), AndWord(y, z))
  }
  function Rotations(x: Word, i: nat, j: nat, k: nat): Word
    requires i < 32 && j < 32 && k < 32
  {
    XorWord(XorWord(Rotr(x, i), Rotr(x, j)), Rotr(x, k))
  }
  function Shr(x: Word, n: nat): Word
    requires n < 32
  {
    QuotientBound(x, Pow2(n));
    x / Pow2(n)
  }
  function Shifted(x: Word, i: nat, j: nat, k: nat): Word
    requires i < 32 && j < 32 && k < 32
  {
    XorWord(XorWord(Rotr(x, i), Rotr(x, j)), Shr(x, k))
  }
  function BigSigma0(x: Word): Word { Rotations(x, 2, 13, 22) }
  function BigSigma1(x: Word): Word { Rotations(x, 6, 11, 25) }
  function SmallSigma0(x: Word): Word { Shifted(x, 7, 18, 3) }
  function SmallSigma1(x: Word): Word { Shifted(x, 17, 19, 10) }

  /** Section 4.2.2, row by row. */
  const K: seq<Word> :=
    [0x428a2f98, 0x71374491, 0xb5c0fbcf, 0xe9b5dba5, 0x3956c25b, 0x59f111f1, 0x923f82a4, 0xab1c5ed5]
    + [0xd807aa98, 0x12835b01, 0x243185be, 0x550c7dc3, 0x72be5d74, 0x80deb1fe, 0x9bdc06a7, 0xc19bf174]
    + [0xe49b69c1, 0xefbe4786, 0x0fc19dc6, 0x240ca1cc, 0x2de92c6f, 0x4a7484aa, 0x5cb0a9dc, 0x76f988da]
    + [0x983e5152, 0xa831c66d, 0xb00327c8, 0xbf597fc7, 0xc6e00bf3, 0xd5a79147, 0x06ca6351, 0x14292967]
    + [0x27b70a85, 0x2e1b2138, 0x4d2c6dfc, 0x53380d13, 0x650a7354, 0x766a0abb, 0x81c2c92e, 0x92722c85]
    + [0xa2bfe8a1, 0xa81a664b, 0xc24b8b70, 0xc76c51a3, 0xd192e819, 0xd6990624, 0xf40e3585, 0x106aa070]
    + [0x19a4c116, 0x1e376c08, 0x2748774c, 0x34b0bcb5, 0x391c0cb3, 0x4ed8aa4a, 0x5b9cca4f, 0x682e6ff3]
    + [0x748f82ee, 0x78a5636f, 0x84c87814, 0x8cc70208, 0x90befffa, 0xa4506ceb, 0xbef9a3f7, 0xc67178f2]

  datatype State = State(a: Word, b: Word, c: Word, d: Word, e: Word, f: Word, g: Word, h: Word)

  const INITIAL: State := State(0x6a09e667, 0xbb67ae85, 0x3c6ef372, 0xa54ff53a,
                                0x510e527f, 0x9b05688c, 0x1f83d9ab, 0x5be0cd19)

  // ---- big-endian numbers ----

  function WordAt(s: Bytes, i: nat): Word
    requires i + 4 <= |s|
  {
    0x100_0000 * s[i] as int + 0x1_0000 * s[i + 1] as int + 0x100 * s[i + 2] as int + s[i + 3] as int
  }

  function BytesOf(x: Word): (r: Bytes)
    ensures |r| == 4 && WordAt(r, 0) == x
  {
    [x / 0x100_0000, x / 0x1_0000 % 256, x / 256 % 256, x % 256]
  }

  // ---- 5.1.1 padding ----

  /** The least number of zero bytes that leaves 8 bytes of the last block for the length. */
  function ZeroBytes(length: nat): nat { (119 - length % 64) % 64 }

  function Zeros(n: nat): (r: Bytes)
    ensures |r| == n && forall i :: 0 <= i < n ==> r[i] == 0
  {
    seq(n, _ => 0)
  }

  function Pad(message: Bytes): Bytes
    requires |message| < 0x2000_0000_0000_0000
  {
    var bits := 8 * |message|;
    message + [0x80] + Zeros(ZeroBytes(|message|)) + BytesOf(bits / TWO_32) + BytesOf(bits % TWO_32)
  }

  // ---- 6.2.2 the computation ----

  function Schedule(block: Bytes, t: nat): Word
    requires |block| == 64 && t < 64
  {
    if t < 16 then WordAt(block, 4 * t)
    else (SmallSigma1(Schedule(block, t - 2)) + Schedule(block, t - 7)
          + SmallSigma0(Schedule(block, t - 15)) + Schedule(block, t - 16)) % TWO_32
  }

  function Round(s: State, k: Word, w: Word): State {
    var t1 := (s.h + BigSigma1(s.e) + Ch(s.e, s.f, s.g) + k + w) % TWO_32;
    var t2 := (BigSigma0(s.a) + Maj(s.a, s.b, s.c)) % TWO_32;
    State(Add(t1, t2), s.a, s.b, s.c, Add(s.d, t1), s.e, s.f, s.g)
  }

  function Rounds(s: State, block: Bytes, t: nat): State
    requires |block| == 64 && t <= 64
  {
    if t == 0 then s else Round(Rounds(s, block, t - 1), K[t - 1], Schedule(block, t - 1))
  }

  function Sum(x: State, y: State): State {
    State(Add(x.a, y.a), Add(x.b, y.b), Add(x.c, y.c), Add(x.d, y.d),
          Add(x.e, y.e), Add(x.f, y.f), Add(x.g, y.g), Add(x.h, y.h))
  }

  function Compress(s: State, block: Bytes): State
    requires |block| == 64
  {
    Sum(s, Rounds(s, block, 64))
  }

  /** The hash value after the first `n` blocks of a padded message. */
  function HashBlocks(padded: Bytes, n: nat): State
    requires 64 * n <= |padded|
  {
    if n == 0 then INITIAL else Compress(HashBlocks(padded, n - 1), padded[64 * (n - 1)..64 * n])
  }

  function Output(s: State): (r: Bytes)
    ensures |r| == 32
  {
    BytesOf(s.a) + BytesOf(s.b) + BytesOf(s.c) + BytesOf(s.d) + BytesOf(s.e) + BytesOf(s.f) + BytesOf(s.g) + BytesOf(s.h)
  }

  function Sha256(message: Bytes): (r: Bytes)
    requires |message| < 0x2000_0000_0000_0000
    ensures |r| == 32
  {
    Output(HashBlocks(Pad(message), |Pad(message)| / 64))
  }

  // ---- properties of the padding ----

  /** A whole number of blocks, and no shorter one holds the message, the mark and the length. */
  lemma PadIsMinimal(message: Bytes)
    requires |message| < 0x2000_0000_0000_0000
    ensures |Pad(message)| % 64 == 0
    ensures |message| + 9 <= |Pad(message)| < |message| + 9 + 64
    ensures forall n: nat :: n % 64 == 0 && n >= |message| + 9 ==> n >= |Pad(message)|
  {
    PadLength(|message|);
    forall n: nat | n % 64 == 0 && n >= |message| + 9 ensures n >= |Pad(message)| {
      MultipleAbove(n, |Pad(message)|);
    }
  }

  lemma PadLength(length: nat)
    ensures (length + 9 + ZeroBytes(length)) % 64 == 0 && ZeroBytes(length) < 64
  {
    var q, r := length / 64, length % 64;
    assert length == 64 * q + r;
    if r < 56 {
      assert length + 9 + ZeroBytes(length) == 64 * (q + 1);
    } else {
      assert length + 9 + ZeroBytes(length) == 64 * (q + 2);
    }
  }

  lemma MultipleAbove(n: nat, total: nat)
    requires n % 64 == 0 && total % 64 == 0 && n > total - 64
    ensures n >= total
  {
    assert n == 64 * (n / 64) && total == 64 * (total / 64);
  }

  function LengthOf(s: Bytes): nat
    requires |s| >= 8
  {
    WordAt(s, |s| - 8) * TWO_32 + WordAt(s, |s| - 4)
  }

  lemma PadRecordsLength(message: Bytes)
    requires |message| < 0x2000_0000_0000_0000
    ensures |Pad(message)| >= 8 && LengthOf(Pad(message)) == 8 * |message|
    ensures Pad(message)[..|message|] == message
  {
    var p := Pad(message);
    var bits := 8 * |message|;
    var high, low := BytesOf(bits / TWO_32), BytesOf(bits % TWO_32);
    var n := |p|;
    assert p[n - 8] == high[0] && p[n - 7] == high[1] && p[n - 6] == high[2] && p[n - 5] == high[3];
    assert p[n - 4] == low[0] && p[n - 3] == low[1] && p[n - 2] == low[2] && p[n - 1] == low[3];
  }

  /** Two messages are never padded to the same blocks. */
  lemma PadIsInjective(m1: Bytes, m2: Bytes)
    requires |m1| < 0x2000_0000_0000_0000 && |m2| < 0x2000_0000_0000_0000
    requires Pad(m1) == Pad(m2)
    ensures m1 == m2
  {
    PadRecordsLength(m1);
    PadRecordsLength(m2);
  }

  // ---- RFC 2104 section 2 ----

  function XorBytes(s: Bytes, mask: Byte): (r: Bytes)
    ensures |r| == |s|
  {
    seq(|s|, i requires 0 <= i < |s| => XorByte(s[i], mask))
  }

  function XorByte(x: Byte, y: Byte): Byte {
    ByteBound(x, y);
    Xor(x, y)
  }

  lemma ByteBound(x: Byte, y: Byte)
    ensures Xor(x, y) < 256
  {
    assert Pow2(8) == 256;
    BitwiseBound(x, y, 8);
  }

  /** The key as one block: a key longer than a block is hashed first, then padded with zeros. */
  function KeyBlock(key: Bytes): (r: Bytes)
    requires |key| < 0x2000_0000_0000_0000
    ensures |r| == 64
  {
    var k := if |key| > 64 then Sha256(key) else key;
    k + Zeros(64 - |k|)
  }

  function Hmac(key: Bytes, text: Bytes): (r: Bytes)
    requires |key| < 0x2000_0000_0000_0000 && |text| + 64 < 0x2000_0000_0000_0000
    ensures |r| == 32
  {
    var k := KeyBlock(key);
    Sha256(XorBytes(k, 0x5c) + Sha256(XorBytes(k, 0x36) + text))
  }
}
