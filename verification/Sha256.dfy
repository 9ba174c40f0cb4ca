/**
 The synchronous SHA-256 and HMAC of `src/lib/hmacSha256.ts`, in its own terms:
 typed arrays, signed 32-bit intermediate results and sums of doubles. Every
 sum is a `JsAdd`, whose precondition is that it is exact.
 */
module Sha256 {
  import opened Words
  import Fips180

  // ---- the signed expressions agree with the words of FIPS 180-4 ----

  function JsRotr(x: Word, n: nat): int
    requires 0 < n < 32
  {
    JsOr(JsShr(x, n), JsShl(x, 32 - n))
  }

  lemma ShiftedLeft(x: nat, d: nat, e: nat)
    requires d > 0 && e > 0 && d * e == TWO_32
    ensures (x * e) % TWO_32 == (x % d) * e
    ensures x < TWO_32 ==> 0 <= x / d < e
  {
    var q, r := x / d, x % d;
    assert x == d * q + r && 0 <= r < d;
    assert x * e == q * TWO_32 + r * e by {
      assert (d * q) * e == q * (d * e);
      assert (d * q + r) * e == (d * q) * e + r * e;
    }
    Fips180.Monotone(r, d - 1, e);
    assert (d - 1) * e == d * e - e;
    RemainderUnique(x * e, q, r * e);
    if x < TWO_32 { Fips180.QuotientBelow(q, d, e, x); }
  }

  lemma RemainderUnique(n: nat, q: int, r: nat)
    requires n == q * TWO_32 + r && r < TWO_32
    ensures n % TWO_32 == r
  {
  }

  lemma RotrAgrees(x: Word, n: nat)
    requires 0 < n < 32
    ensures ToUint32(JsRotr(x, n)) == Fips180.Rotr(x, n)
  {
    hide Pow2, JsRotr;
    WordSize();
    Fips180.PowerSplit(n, 32 - n);
    ShiftedLeft(x, Pow2(n), Pow2(32 - n));
    RotrOfParts(x, n, x / Pow2(n), x % Pow2(n));
  }

  lemma RotrOfParts(x: Word, n: nat, q: Word, r: nat)
    requires 0 < n < 32 && q == x / Pow2(n) < Pow2(32 - n) && r == x % Pow2(n)
    requires ToUint32(JsShl(x, 32 - n)) == r * Pow2(32 - n)
    ensures ToUint32(JsRotr(x, n)) == q + r * Pow2(32 - n)
  {
    hide JsShl, Pow2, JsOr, ToUint32;
    WordValue(x);
    OrOfParts(q, JsShl(x, 32 - n), r, 32 - n);
  }

  lemma OrOfParts(q: Word, shifted: int, r: nat, k: nat)
    requires q < Pow2(k) && ToUint32(shifted) == r * Pow2(k)
    ensures ToUint32(JsOr(q, shifted)) == q + r * Pow2(k)
  {
    hide Or, OrWord, Pow2, JsOr, ToUint32;
    WordValue(q);
    OrIsWord(q, ToUint32(shifted));
    JsBitwise(q, shifted);
    OrOfDisjoint(q, r, k);
  }

  lemma OrIsWord(x: Word, y: Word)
    ensures OrWord(x, y) == Or(x, y)
  {
    hide Or;
  }

  function JsRotations(x: Word, i: nat, j: nat, k: nat): (r: int)
    requires 0 < i < 32 && 0 < j < 32 && 0 < k < 32
    ensures -TWO_31 <= r < TWO_31
  {
    JsXor(JsXor(JsRotr(x, i), JsRotr(x, j)), JsRotr(x, k))
  }

  function JsShifted(x: Word, i: nat, j: nat, k: nat): (r: int)
    requires 0 < i < 32 && 0 < j < 32 && 0 < k < 32
    ensures -TWO_31 <= r < TWO_31
  {
    JsXor(JsXor(JsRotr(x, i), JsRotr(x, j)), JsShr(x, k))
  }

  function JsCh(e: Word, f: Word, g: Word): (r: int)
    ensures -TWO_31 <= r < TWO_31
  {
    JsXor(JsAnd(e, f), JsAnd(JsNot(e), g))
  }

  function JsMaj(a: Word, b: Word, c: Word): (r: int)
    ensures -TWO_31 <= r < TWO_31
  {
    JsXor(JsXor(JsAnd(a, b), JsAnd(a, c)), JsAnd(b, c))
  }

  lemma XorsAgree(x: int, y: int, z: int)
    ensures ToUint32(JsXor(JsXor(x, y), z)) == XorWord(XorWord(ToUint32(x), ToUint32(y)), ToUint32(z))
  {
    hide AndWord, OrWord, XorWord;
    JsBitwise(x, y);
    JsBitwise(JsXor(x, y), z);
  }

  lemma RotationsAgree(x: Word, i: nat, j: nat, k: nat)
    requires 0 < i < 32 && 0 < j < 32 && 0 < k < 32
    ensures ToUint32(JsRotations(x, i, j, k)) == Fips180.Rotations(x, i, j, k)
    ensures ToUint32(JsShifted(x, i, j, k)) == Fips180.Shifted(x, i, j, k)
  {
    hide AndWord, OrWord, XorWord, JsXor, JsRotr, JsShr, Fips180.Rotr;
    RotrAgrees(x, i);
    RotrAgrees(x, j);
    RotrAgrees(x, k);
    XorsAgree(JsRotr(x, i), JsRotr(x, j), JsRotr(x, k));
    XorsAgree(JsRotr(x, i), JsRotr(x, j), JsShr(x, k));
  }

  lemma ChoicesAgree(x: Word, y: Word, z: Word)
    ensures ToUint32(JsCh(x, y, z)) == Fips180.Ch(x, y, z)
    ensures ToUint32(JsMaj(x, y, z)) == Fips180.Maj(x, y, z)
  {
    hide AndWord, OrWord, XorWord, NotWord, JsXor, JsAnd, JsOr, JsNot, ToUint32;
    WordValue(x);
    WordValue(y);
    WordValue(z);
    JsBitwise(x, y);
    JsBitwise(x, z);
    JsBitwise(y, z);
    JsBitwise(JsNot(x), z);
    JsBitwise(JsAnd(x, y), JsAnd(JsNot(x), z));
    XorsAgree(JsAnd(x, y), JsAnd(x, z), JsAnd(y, z));
  }

  lemma WordValue(x: Word)
    ensures ToUint32(x) == x
  {
  }

  // ---- DataView and Uint32Array accesses ----

  method SetUint32(view: array<Byte>, at: nat, value: int)
    requires at + 4 <= view.Length
    modifies view
    ensures view[..] == old(view[..at]) + Fips180.BytesOf(ToUint32(value)) + old(view[at + 4..])
  {
    var b := Fips180.BytesOf(ToUint32(value));
    view[at], view[at + 1], view[at + 2], view[at + 3] := b[0], b[1], b[2], b[3];
  }

  ghost function StateOf(hash: array<Word>): Fips180.State
    requires hash.Length == 8
    reads hash
  {
    Fips180.State(hash[0], hash[1], hash[2], hash[3], hash[4], hash[5], hash[6], hash[7])
  }

  lemma LengthWords(length: nat)
    requires length < 0x2000_0000_0000_0000
    ensures ToUint32(length / 0x2000_0000) == 8 * length / TWO_32
    ensures ToUint32(JsShr(JsShl(length, 3), 0)) == 8 * length % TWO_32
  {
    LowWord(length);
    LengthQuotient(length);
  }

  lemma LengthQuotient(length: nat)
    requires length < 0x2000_0000_0000_0000
    ensures length / 0x2000_0000 == 8 * length / TWO_32 < TWO_32
  {
    var q, r := length / 0x2000_0000, length % 0x2000_0000;
    assert 8 * length == TWO_32 * q + 8 * r;
  }

  lemma LowWord(length: nat)
    ensures ToUint32(JsShr(JsShl(length, 3), 0)) == 8 * length % TWO_32
  {
    var u := ToUint32(length);
    assert Pow2(3) == 8;
    assert ToUint32(JsShl(length, 3)) == u * 8 % TWO_32;
    assert JsShr(JsShl(length, 3), 0) == u * 8 % TWO_32;
    EightTimes(length, u);
  }

  lemma EightTimes(length: nat, u: nat)
    requires u == length % TWO_32
    ensures u * 8 % TWO_32 == 8 * length % TWO_32
  {
    var k := 8 * (length / TWO_32);
    assert 8 * length == u * 8 + TWO_32 * k;
    SameRemainder(u * 8, k);
  }

  lemma SameRemainder(n: nat, k: nat)
    ensures (n + TWO_32 * k) % TWO_32 == n % TWO_32
  {
    assert (n + TWO_32 * k) / TWO_32 == n / TWO_32 + k;
  }

  lemma PaddedSize(length: nat)
    ensures (length + 9 + 63) / 64 * 64 == length + 9 + Fips180.ZeroBytes(length)
  {
    Fips180.PadLength(length);
    Fips180.MultipleAbove((length + 9 + 63) / 64 * 64, length + 9 + Fips180.ZeroBytes(length));
    Fips180.MultipleAbove(length + 9 + Fips180.ZeroBytes(length), (length + 9 + 63) / 64 * 64);
  }

  /** The message, then the bit 1, in a buffer of zeros: everything but the length. */
  method Marked(message: Bytes, size: nat) returns (padded: array<Byte>)
    requires |message| + 9 <= size
    ensures fresh(padded) && padded.Length == size
    ensures padded[..size - 8] == message + [0x80] + Fips180.Zeros(size - 9 - |message|)
  {
    padded := new Byte[size](_ => 0);
    forall i | 0 <= i < |message| { padded[i] := message[i]; }
    padded[|message|] := 0x80;
  }

  /** The padded message: 5.1.1 of FIPS 180-4, with the length split through doubles and `<< 3 >>> 0`. */
  method Padded(message: Bytes) returns (padded: array<Byte>)
    requires |message| <= MAX_SAFE - 72
    ensures fresh(padded) && padded[..] == Fips180.Pad(message)
  {
    hide JsShl, JsShr, ToUint32, Fips180.BytesOf, Fips180.Zeros, Fips180.ZeroBytes;
    var length := |message|;
    var size := (JsAdd(length, 9) + 63) / 64 * 64;
    PaddedSize(length);
    padded := Marked(message, size);
    ghost var front := padded[..size - 8];
    LengthWords(length);
    SetUint32(padded, size - 8, length / 0x2000_0000);
    assert padded[..size - 8] == front;
    ghost var high := padded[..size - 4];
    assert high == front + Fips180.BytesOf(8 * length / TWO_32);
    SetUint32(padded, size - 4, JsShr(JsShl(length, 3), 0));
    assert padded[..] == high + Fips180.BytesOf(8 * length % TWO_32);
  }

  /** The right-hand side of `w[i] = …` for `i >= 16`. */
  function JsScheduleWord(w16: Word, w15: Word, w7: Word, w2: Word): Word {
    var s0 := JsShifted(w15, 7, 18, 3);
    var s1 := JsShifted(w2, 17, 19, 10);
    JsShr(JsAdd(JsAdd(JsAdd(w16, s0), w7), s1), 0)
  }

  lemma ScheduleAgrees(w16: Word, w15: Word, w7: Word, w2: Word)
    ensures JsScheduleWord(w16, w15, w7, w2)
         == (Fips180.SmallSigma1(w2) + w7 + Fips180.SmallSigma0(w15) + w16) % TWO_32
  {
    hide JsShifted, Fips180.Shifted, ToUint32;
    RotationsAgree(w15, 7, 18, 3);
    RotationsAgree(w2, 17, 19, 10);
    ScheduleSum(w16, JsShifted(w15, 7, 18, 3), w7, JsShifted(w2, 17, 19, 10));
  }

  lemma ScheduleSum(a: Word, s0: int, b: Word, s1: int)
    requires -MAX_SAFE <= a + s0 + b + s1 <= MAX_SAFE
    ensures JsShr(a + s0 + b + s1, 0) == (ToUint32(s1) + b + ToUint32(s0) + a) % TWO_32
  {
    Absorb(a + b + s1, s0);
    Absorb(a + b + ToUint32(s0), s1);
  }

  lemma Absorb(x: int, s: int)
    ensures (x + s) % TWO_32 == (x + ToUint32(s)) % TWO_32
  {
    var q := s / TWO_32;
    assert x + s == (x + ToUint32(s)) + TWO_32 * q;
  }

  lemma ScheduleStep(block: Bytes, t: nat)
    requires |block| == 64 && t < 64
    ensures t < 16 ==> Fips180.Schedule(block, t) == Fips180.WordAt(block, 4 * t)
    ensures t >= 16 ==> (Fips180.Schedule(block, t) ==
      JsScheduleWord(Fips180.Schedule(block, t - 16), Fips180.Schedule(block, t - 15),
                     Fips180.Schedule(block, t - 7), Fips180.Schedule(block, t - 2)))
  {
    hide Fips180.WordAt, Fips180.SmallSigma0, Fips180.SmallSigma1, JsScheduleWord;
    if t >= 16 {
      ScheduleAgrees(Fips180.Schedule(block, t - 16), Fips180.Schedule(block, t - 15),
                     Fips180.Schedule(block, t - 7), Fips180.Schedule(block, t - 2));
    }
  }

  /** The message schedule of the block at `offset`. */
  method FillSchedule(padded: array<Byte>, offset: nat, w: array<Word>)
    requires offset + 64 <= padded.Length && w.Length == 64
    modifies w
    ensures forall t :: 0 <= t < 64 ==> w[t] == Fips180.Schedule(padded[offset..offset + 64], t)
  {
    hide Fips180.WordAt, Fips180.Schedule, JsScheduleWord;
    ghost var block := padded[offset..offset + 64];
    var i := 0;
    while i < 16
      invariant 0 <= i <= 16
      invariant forall t :: 0 <= t < i ==> w[t] == Fips180.Schedule(block, t)
    {
      ScheduleStep(block, i);
      w[i] := Fips180.WordAt(padded[offset..offset + 64], i * 4);
      i := i + 1;
    }
    while i < 64
      invariant 16 <= i <= 64
      invariant forall t :: 0 <= t < i ==> w[t] == Fips180.Schedule(block, t)
    {
      ScheduleStep(block, i);
      w[i] := JsScheduleWord(w[i - 16], w[i - 15], w[i - 7], w[i - 2]);
      i := i + 1;
    }
  }

  /** The two temporary words of a round. */
  function JsT1(e: Word, f: Word, g: Word, h: Word, k: Word, w: Word): Word {
    JsShr(JsAdd(JsAdd(JsAdd(JsAdd(h, JsRotations(e, 6, 11, 25)), JsCh(e, f, g)), k), w), 0)
  }

  function JsT2(a: Word, b: Word, c: Word): Word {
    JsShr(JsAdd(JsRotations(a, 2, 13, 22), JsMaj(a, b, c)), 0)
  }

  lemma TemporariesAgree(s: Fips180.State, k: Word, w: Word)
    ensures JsT1(s.e, s.f, s.g, s.h, k, w)
         == (s.h + Fips180.BigSigma1(s.e) + Fips180.Ch(s.e, s.f, s.g) + k + w) % TWO_32
    ensures JsT2(s.a, s.b, s.c) == (Fips180.BigSigma0(s.a) + Fips180.Maj(s.a, s.b, s.c)) % TWO_32
  {
    hide JsRotations, JsCh, JsMaj, Fips180.Rotations, Fips180.Ch, Fips180.Maj, ToUint32;
    RotationsAgree(s.e, 6, 11, 25);
    RotationsAgree(s.a, 2, 13, 22);
    ChoicesAgree(s.e, s.f, s.g);
    ChoicesAgree(s.a, s.b, s.c);
    RoundSums(s.h, JsRotations(s.e, 6, 11, 25), JsCh(s.e, s.f, s.g), k, w,
              JsRotations(s.a, 2, 13, 22), JsMaj(s.a, s.b, s.c));
  }

  lemma RoundSums(h: Word, sum1: int, ch: int, k: Word, w: Word, sum0: int, maj: int)
    ensures JsShr(h + sum1 + ch + k + w, 0) == (h + ToUint32(sum1) + ToUint32(ch) + k + w) % TWO_32
    ensures JsShr(sum0 + maj, 0) == (ToUint32(sum0) + ToUint32(maj)) % TWO_32
  {
    Absorb(h + ch + k + w, sum1);
    Absorb(h + ToUint32(sum1) + k + w, ch);
    Absorb(sum0, maj);
    Absorb(ToUint32(maj), sum0);
  }

  lemma RoundAgrees(s: Fips180.State, k: Word, w: Word)
    ensures var t1, t2 := JsT1(s.e, s.f, s.g, s.h, k, w), JsT2(s.a, s.b, s.c);
      Fips180.State(JsShr(JsAdd(t1, t2), 0), s.a, s.b, s.c, JsShr(JsAdd(s.d, t1), 0), s.e, s.f, s.g)
      == Fips180.Round(s, k, w)
  {
    hide JsT1, JsT2, Fips180.BigSigma0, Fips180.BigSigma1, Fips180.Ch, Fips180.Maj;
    TemporariesAgree(s, k, w);
  }

  /** The 64 rounds on `hash`, then the additions into it. */
  method CompressBlock(w: array<Word>, hash: array<Word>, ghost block: Bytes)
    requires w.Length == 64 && hash.Length == 8 && |block| == 64 && w != hash
    requires forall t :: 0 <= t < 64 ==> w[t] == Fips180.Schedule(block, t)
    modifies hash
    ensures StateOf(hash) == Fips180.Compress(old(StateOf(hash)), block)
  {
    hide JsT1, JsT2, JsShr, Fips180.Round, Fips180.Schedule;
    var a, b, c, d, e, f, g, h := hash[0], hash[1], hash[2], hash[3], hash[4], hash[5], hash[6], hash[7];
    ghost var start := StateOf(hash);
    var i := 0;
    while i < 64
      invariant 0 <= i <= 64 && StateOf(hash) == start
      invariant Fips180.State(a, b, c, d, e, f, g, h) == Fips180.Rounds(start, block, i)
    {
      RoundAgrees(Fips180.State(a, b, c, d, e, f, g, h), Fips180.K[i], w[i]);
      var t1 := JsT1(e, f, g, h, Fips180.K[i], w[i]);
      var t2 := JsT2(a, b, c);
      h := g;
      g := f;
      f := e;
      e := JsShr(JsAdd(d, t1), 0);
      d := c;
      c := b;
      b := a;
      a := JsShr(JsAdd(t1, t2), 0);
      i := i + 1;
    }
    AddInto(hash, Fips180.State(a, b, c, d, e, f, g, h));
  }

  /** `hash[0] += a` to `hash[7] += h`: a store into a Uint32Array keeps the sum modulo 2^32. */
  method AddInto(hash: array<Word>, s: Fips180.State)
    requires hash.Length == 8
    modifies hash
    ensures StateOf(hash) == Fips180.Sum(old(StateOf(hash)), s)
  {
    hide ToUint32, Fips180.Add;
    StoredSums(StateOf(hash), s);
    hash[0] := ToUint32(JsAdd(hash[0], s.a));
    hash[1] := ToUint32(JsAdd(hash[1], s.b));
    hash[2] := ToUint32(JsAdd(hash[2], s.c));
    hash[3] := ToUint32(JsAdd(hash[3], s.d));
    hash[4] := ToUint32(JsAdd(hash[4], s.e));
    hash[5] := ToUint32(JsAdd(hash[5], s.f));
    hash[6] := ToUint32(JsAdd(hash[6], s.g));
    hash[7] := ToUint32(JsAdd(hash[7], s.h));
  }

  lemma StoredSums(x: Fips180.State, y: Fips180.State)
    ensures ToUint32(x.a + y.a) == Fips180.Add(x.a, y.a) && ToUint32(x.b + y.b) == Fips180.Add(x.b, y.b)
    ensures ToUint32(x.c + y.c) == Fips180.Add(x.c, y.c) && ToUint32(x.d + y.d) == Fips180.Add(x.d, y.d)
    ensures ToUint32(x.e + y.e) == Fips180.Add(x.e, y.e) && ToUint32(x.f + y.f) == Fips180.Add(x.f, y.f)
    ensures ToUint32(x.g + y.g) == Fips180.Add(x.g, y.g) && ToUint32(x.h + y.h) == Fips180.Add(x.h, y.h)
  {
  }

  /** The digest computed over JavaScript numbers is the digest of FIPS 180-4. */
  method Sha256(message: Bytes) returns (out: Bytes)
    requires |message| <= MAX_SAFE - 72
    ensures out == Fips180.Sha256(message)
  {
    hide Fips180.Pad, Fips180.Compress, Fips180.Output;
    var padded := Padded(message);
    Fips180.PadIsMinimal(message);
    ghost var pad := padded[..];
    var hash := new Word[8][0x6a09e667, 0xbb67ae85, 0x3c6ef372, 0xa54ff53a, 0x510e527f, 0x9b05688c, 0x1f83d9ab, 0x5be0cd19];
    var w := new Word[64](_ => 0);
    var offset := 0;
    while offset < padded.Length
      invariant 0 <= offset <= padded.Length && offset % 64 == 0
      invariant padded[..] == pad
      invariant StateOf(hash) == Fips180.HashBlocks(pad, offset / 64)
    {
      FillSchedule(padded, offset, w);
      assert padded[offset..offset + 64] == pad[64 * (offset / 64)..64 * (offset / 64 + 1)];
      CompressBlock(w, hash, padded[offset..offset + 64]);
      offset := offset + 64;
    }
    out := WordsOut(hash);
  }

  method WordsOut(hash: array<Word>) returns (out: Bytes)
    requires hash.Length == 8
    ensures out == Fips180.Output(StateOf(hash))
  {
    hide Fips180.BytesOf, Fips180.Output, ToUint32;
    var bytes := new Byte[32](_ => 0);
    ghost var s := StateOf(hash);
    var index := 0;
    while index < 8
      invariant 0 <= index <= 8 && StateOf(hash) == s
      invariant bytes[..4 * index] == Fips180.Output(s)[..4 * index]
    {
      ghost var done := bytes[..4 * index];
      WordValue(hash[index]);
      SetUint32(bytes, index * 4, hash[index]);
      OutputWord(s, hash[..], index);
      assert bytes[..4 * index] == done;
      assert bytes[..4 * (index + 1)] == done + Fips180.BytesOf(hash[index]);
      index := index + 1;
    }
    out := bytes[..];
    assert bytes[..32] == bytes[..];
  }

  lemma OutputWord(s: Fips180.State, words: seq<Word>, i: nat)
    requires i < 8 && words == [s.a, s.b, s.c, s.d, s.e, s.f, s.g, s.h]
    ensures Fips180.Output(s)[4 * i..4 * i + 4] == Fips180.BytesOf(words[i])
  {
  }

  // ---- HMAC ----

  function HexDigit(n: nat): char
    requires n < 16
  {
    if n < 10 then (48 + n) as char else (87 + n) as char
  }

  function Hex(s: Bytes): (r: string)
    ensures |r| == 2 * |s|
    ensures forall i :: 0 <= i < |r| ==> '0' <= r[i] <= '9' || 'a' <= r[i] <= 'f'
  {
    if s == [] then "" else [HexDigit(s[0] / 16), HexDigit(s[0] % 16)] + Hex(s[1..])
  }

  lemma {:induction false} HexIsInjective(s: Bytes, t: Bytes)
    requires Hex(s) == Hex(t)
    ensures s == t
  {
    assert |s| == |t|;
    if s != [] {
      HexStep(s);
      HexStep(t);
      HexDigitIsInjective(s[0], t[0]);
      HexIsInjective(s[1..], t[1..]);
    }
  }

  lemma HexStep(s: Bytes)
    requires s != []
    ensures |Hex(s)| >= 2 && Hex(s)[0] == HexDigit(s[0] / 16) && Hex(s)[1] == HexDigit(s[0] % 16)
    ensures Hex(s)[2..] == Hex(s[1..])
  {
  }

  /** Two digits for each byte, the high one first, in lower case. */
  lemma {:induction false} HexIs(s: Bytes, i: nat)
    requires i < |s|
    ensures var digits := "0123456789abcdef";
      Hex(s)[2 * i] == digits[s[i] / 16] && Hex(s)[2 * i + 1] == digits[s[i] % 16]
  {
    if i > 0 {
      HexIs(s[1..], i - 1);
      HexStep(s);
      assert Hex(s)[2..][2 * (i - 1)] == Hex(s)[2 * i];
    } else {
      DigitIs(s[0] / 16);
      DigitIs(s[0] % 16);
    }
  }

  lemma DigitIs(n: nat)
    requires n < 16
    ensures HexDigit(n) == "0123456789abcdef"[n]
  {
  }

  lemma HexDigitIsInjective(x: Byte, y: Byte)
    requires HexDigit(x / 16) == HexDigit(y / 16) && HexDigit(x % 16) == HexDigit(y % 16)
    ensures x == y
  {
    assert x == 16 * (x / 16) + x % 16 && y == 16 * (y / 16) + y % 16;
  }

  /** `hmacSha256Hex` on the UTF-8 bytes of its arguments is the hex of RFC 2104's HMAC. */
  method HmacSha256Hex(key: Bytes, message: Bytes) returns (r: string)
    requires |key| <= MAX_SAFE - 72 && |message| + 64 <= MAX_SAFE - 72
    ensures r == Hex(Fips180.Hmac(key, message)) && |r| == 64
  {
    hide Fips180.Sha256, Fips180.XorBytes, Hex;
    var keyBytes := key;
    if |keyBytes| > 64 {
      keyBytes := Sha256(keyBytes);
    }
    var block := new Byte[64](_ => 0);
    forall i | 0 <= i < |keyBytes| { block[i] := keyBytes[i]; }
    assert block[..] == Fips180.KeyBlock(key);
    var inner := MaskedThen(block, 0x36, message);
    var digest := Sha256(inner);
    var outer := MaskedThen(block, 0x5c, digest);
    var code := Sha256(outer);
    r := Hex(code);
  }

  /** The block with every byte xored with `mask`, followed by `rest`. */
  method MaskedThen(block: array<Byte>, mask: Byte, rest: Bytes) returns (r: Bytes)
    requires block.Length == 64
    ensures r == Fips180.XorBytes(block[..], mask) + rest
  {
    var buffer := new Byte[64 + |rest|](_ => 0);
    forall i | 0 <= i < 64 { buffer[i] := Fips180.XorByte(block[i], mask); }
    forall i | 0 <= i < |rest| { buffer[64 + i] := rest[i]; }
    r := buffer[..];
  }
}
