/**
 The constants of SHA-256 are those of sections 4.2.2 and 5.3.3 of FIPS 180-4: the first 32 bits
 of the fractional parts of the cube roots of the first 64 primes, and of the square roots of the
 first eight, by exact integers.
 */
module Fips180Constants {
  import opened Words
  import opened Fips180

  const PRIMES: seq<nat> :=
    [2, 3, 5, 7, 11, 13, 17, 19]
    + [23, 29, 31, 37, 41, 43, 47, 53]
    + [59, 61, 67, 71, 73, 79, 83, 89]
    + [97, 101, 103, 107, 109, 113, 127, 131]
    + [137, 139, 149, 151, 157, 163, 167, 173]
    + [179, 181, 191, 193, 197, 199, 211, 223]
    + [227, 229, 233, 239, 241, 251, 257, 263]
    + [269, 271, 277, 281, 283, 293, 307, 311]

  // ---- the first primes ----

  predicate IsPrime(n: nat) { n >= 2 && forall d :: 2 <= d < n ==> n % d != 0 }

  /** Not divisible by a prime up to 17, unless it is that prime. */
  predicate Sieved(n: nat) {
    && (n % 2 != 0 || n == 2) && (n % 3 != 0 || n == 3) && (n % 5 != 0 || n == 5) && (n % 7 != 0 || n == 7)
    && (n % 11 != 0 || n == 11) && (n % 13 != 0 || n == 13) && (n % 17 != 0 || n == 17)
  }

  /** A number below 19 * 19 that is not prime has a divisor below 19. */
  lemma SmallDivisor(n: nat, d: nat) returns (e: nat)
    requires 2 <= d < n < 361 && n % d == 0
    ensures 2 <= e < 19 && e < n && n % e == 0
  {
    e := d;
    if d >= 19 {
      e := n / d;
      assert n == e * d;
      if e >= 19 { ProductBound(e, d); }
      AtLeastTwo(e, d);
      Divides(e, d);
    }
  }

  lemma AtLeastTwo(e: nat, d: nat)
    requires d < e * d
    ensures e >= 2
  {
    assert e == 0 ==> e * d == 0;
    assert e == 1 ==> e * d == d;
  }

  lemma ProductBound(e: nat, d: nat)
    requires e >= 19 && d >= 19
    ensures e * d >= 361
  {
    assert e * d >= 19 * d;
  }

  lemma {:induction false} Divides(e: nat, d: nat)
    requires e > 0
    ensures (e * d) % e == 0
  {
    if d > 0 {
      Divides(e, d - 1);
      assert e * d == e * (d - 1) + e;
      OneMore(e * (d - 1), e);
    }
  }

  lemma OneMore(x: nat, e: nat)
    requires e > 0 && x % e == 0
    ensures (x + e) % e == 0
  {
    var q := x / e;
    assert x == e * q && x + e == e * (q + 1);
    IsQuotient(x + e, e, q + 1);
  }

  lemma IsQuotient(x: nat, e: nat, q: nat)
    requires e > 0 && x == e * q
    ensures x % e == 0
  {
    var p, r := x / e, x % e;
    assert e * (q - p) == r;
    if q > p { ProductAtLeast(q - p, e); } else if q < p { ProductAtLeast(p - q, e); }
  }

  lemma SievedIsPrime(n: nat)
    requires 2 <= n < 361
    ensures Sieved(n) <==> IsPrime(n)
  {
    if Sieved(n) {
      forall d | 2 <= d < n ensures n % d != 0 {
        if n % d == 0 {
          var e := SmallDivisor(n, d);
          NotSieved(n, e);
        }
      }
    }
  }

  lemma NotSieved(n: nat, e: nat)
    requires 2 <= e < 19 && e < n && n % e == 0
    ensures !Sieved(n)
  {
    var q := SmallPrime(e);
    Through(n, e, q);
  }

  lemma SmallPrime(e: nat) returns (q: nat)
    requires 2 <= e < 19
    ensures q in {2, 3, 5, 7, 11, 13, 17} && q <= e && e % q == 0
  {
    q := if e % 2 == 0 then 2 else if e % 3 == 0 then 3 else if e % 5 == 0 then 5 else e;
  }

  /** What divides a divisor divides the number. */
  lemma Through(n: nat, e: nat, q: nat)
    requires e > 0 && q > 0 && n % e == 0 && e % q == 0
    ensures n % q == 0
  {
    var a, b := n / e, e / q;
    assert n == e * a && e == q * b;
    Regroup(q, b, a);
    IsQuotient(n, q, b * a);
  }

  lemma Regroup(q: nat, b: nat, a: nat)
    ensures (q * b) * a == q * (b * a)
  {
  }

  /** `q` comes next after `p` among the numbers that the sieve leaves. */
  predicate NextSieved(p: nat, q: nat) { p < q && Sieved(q) && NoneSieved(p + 1, q) }

  predicate NoneSieved(a: nat, b: nat)
    decreases b - a
  {
    a >= b || (!Sieved(a) && NoneSieved(a + 1, b))
  }

  lemma {:induction false} NoneBetween(a: nat, b: nat, n: nat)
    requires NoneSieved(a, b) && a <= n < b
    ensures !Sieved(n)
    decreases b - a
  {
    if a < n { NoneBetween(a + 1, b, n); }
  }

  lemma PrimesFrom0()
    ensures forall i :: 0 <= i < 8 ==> NextSieved(PRIMES[i], PRIMES[i + 1])
  {
    assert NextSieved(2, 3);
    assert NextSieved(3, 5);
    assert NextSieved(5, 7);
    assert NextSieved(7, 11);
    assert NextSieved(11, 13);
    assert NextSieved(13, 17);
    assert NextSieved(17, 19);
    assert NextSieved(19, 23);
  }

  lemma PrimesFrom8()
    ensures forall i :: 8 <= i < 16 ==> NextSieved(PRIMES[i], PRIMES[i + 1])
  {
    assert NextSieved(23, 29);
    assert NextSieved(29, 31);
    assert NextSieved(31, 37);
    assert NextSieved(37, 41);
    assert NextSieved(41, 43);
    assert NextSieved(43, 47);
    assert NextSieved(47, 53);
    assert NextSieved(53, 59);
  }

  lemma PrimesFrom16()
    ensures forall i :: 16 <= i < 24 ==> NextSieved(PRIMES[i], PRIMES[i + 1])
  {
    assert NextSieved(59, 61);
    assert NextSieved(61, 67);
    assert NextSieved(67, 71);
    assert NextSieved(71, 73);
    assert NextSieved(73, 79);
    assert NextSieved(79, 83);
    assert NextSieved(83, 89);
    assert NextSieved(89, 97);
  }

  lemma PrimesFrom24()
    ensures forall i :: 24 <= i < 32 ==> NextSieved(PRIMES[i], PRIMES[i + 1])
  {
    assert NextSieved(97, 101);
    assert NextSieved(101, 103);
    assert NextSieved(103, 107);
    assert NextSieved(107, 109);
    assert NextSieved(109, 113);
    assert NextSieved(113, 127);
    assert NextSieved(127, 131);
    assert NextSieved(131, 137);
  }

  lemma PrimesFrom32()
    ensures forall i :: 32 <= i < 40 ==> NextSieved(PRIMES[i], PRIMES[i + 1])
  {
    assert NextSieved(137, 139);
    assert NextSieved(139, 149);
    assert NextSieved(149, 151);
    assert NextSieved(151, 157);
    assert NextSieved(157, 163);
    assert NextSieved(163, 167);
    assert NextSieved(167, 173);
    assert NextSieved(173, 179);
  }

  lemma PrimesFrom40()
    ensures forall i :: 40 <= i < 48 ==> NextSieved(PRIMES[i], PRIMES[i + 1])
  {
    assert NextSieved(179, 181);
    assert NextSieved(181, 191);
    assert NextSieved(191, 193);
    assert NextSieved(193, 197);
    assert NextSieved(197, 199);
    assert NextSieved(199, 211);
    assert NextSieved(211, 223);
    assert NextSieved(223, 227);
  }

  lemma PrimesFrom48()
    ensures forall i :: 48 <= i < 56 ==> NextSieved(PRIMES[i], PRIMES[i + 1])
  {
    assert NextSieved(227, 229);
    assert NextSieved(229, 233);
    assert NextSieved(233, 239);
    assert NextSieved(239, 241);
    assert NextSieved(241, 251);
    assert NextSieved(251, 257);
    assert NextSieved(257, 263);
    assert NextSieved(263, 269);
  }

  lemma PrimesFrom56()
    ensures forall i :: 56 <= i < 63 ==> NextSieved(PRIMES[i], PRIMES[i + 1])
  {
    assert NextSieved(269, 271);
    assert NextSieved(271, 277);
    assert NextSieved(277, 281);
    assert NextSieved(281, 283);
    assert NextSieved(283, 293);
    assert NextSieved(293, 307);
    assert NextSieved(307, 311);
  }

  lemma PrimesFollow(i: nat)
    requires i < 63
    ensures NextSieved(PRIMES[i], PRIMES[i + 1])
  {
    PrimesFrom0();
    PrimesFrom8();
    PrimesFrom16();
    PrimesFrom24();
    PrimesFrom32();
    PrimesFrom40();
    PrimesFrom48();
    PrimesFrom56();
  }

  lemma {:induction false} PrimesUpTo(i: nat, n: nat)
    requires i < 64 && 2 <= n <= PRIMES[i]
    ensures Sieved(n) <==> n in PRIMES[..i + 1]
  {
    hide Sieved, NoneSieved;
    if i == 0 {
      TwoIsFirst();
    } else {
      PrimesFollow(i - 1);
      hide PRIMES;
      Increasing(i - 1);
      assert PRIMES[..i + 1] == PRIMES[..i] + [PRIMES[i]];
      if n <= PRIMES[i - 1] {
        PrimesUpTo(i - 1, n);
      } else {
        AboveAll(i - 1, n);
        if n < PRIMES[i] { NoneBetween(PRIMES[i - 1] + 1, PRIMES[i], n); }
      }
    }
  }

  lemma TwoIsFirst()
    ensures PRIMES[0] == 2 && Sieved(2) && PRIMES[..1] == [2]
  {
  }

  lemma Increasing(i: nat)
    requires i < 63
    ensures PRIMES[i] < PRIMES[i + 1] && |PRIMES| == 64
  {
    PrimesFollow(i);
  }

  lemma {:induction false} Sorted(i: nat, j: nat)
    requires i <= j < 64
    ensures PRIMES[i] <= PRIMES[j]
  {
    hide PRIMES;
    if i < j {
      Sorted(i, j - 1);
      Increasing(j - 1);
    }
  }

  lemma Length()
    ensures |PRIMES| == 64
  {
  }

  lemma AboveAll(i: nat, n: nat)
    requires i < 64 && n > PRIMES[i]
    ensures n !in PRIMES[..i + 1]
  {
    Length();
    hide PRIMES;
    forall j: nat | j <= i ensures PRIMES[j] < n { Sorted(j, i); }
  }

  /** They are the first 64 primes, in order: the primes up to the last of them are they. */
  lemma PrimesAreFirst(n: nat)
    ensures |PRIMES| == 64 && PRIMES[63] == 311
    ensures n <= 311 ==> (IsPrime(n) <==> n in PRIMES)
    ensures forall i :: 0 <= i < 63 ==> PRIMES[i] < PRIMES[i + 1]
  {
    hide Sieved, IsPrime;
    assert PRIMES[..64] == PRIMES;
    forall i: nat | i < 63 ensures PRIMES[i] < PRIMES[i + 1] { PrimesFollow(i); }
    if 2 <= n <= 311 {
      PrimesUpTo(63, n);
      SievedIsPrime(n);
    } else if n < 2 {
      SmallIsNoPrime(n);
    }
  }

  lemma SmallIsNoPrime(n: nat)
    requires n < 2
    ensures !IsPrime(n) && n !in PRIMES
  {
    forall i: nat | i < 64 ensures PRIMES[i] >= 2 { AtLeastTwoAt(i); }
  }

  lemma {:induction false} AtLeastTwoAt(i: nat)
    requires i < 64
    ensures PRIMES[i] >= 2
  {
    if i > 0 {
      AtLeastTwoAt(i - 1);
      PrimesFollow(i - 1);
    }
  }

  // ---- the roots ----

  const TWO_64: nat := 0x1_0000_0000_0000_0000
  const TWO_96: nat := 0x1_0000_0000_0000_0000_0000_0000

  predicate CubeRoot(r: nat, x: nat) { r * r * r <= x < (r + 1) * (r + 1) * (r + 1) }

  predicate SquareRoot(r: nat, x: nat) { r * r <= x < (r + 1) * (r + 1) }

  /** `k` is the first 32 bits of the fractional part of the cube root of `p`. */
  predicate IsCubeFraction(p: nat, r: nat, k: Word) { CubeRoot(r, p * TWO_96) && r % TWO_32 == k }

  predicate IsSquareFraction(p: nat, r: nat, h: Word) { SquareRoot(r, p * TWO_64) && r % TWO_32 == h }

  ghost predicate HasCubeRoot(t: nat)
    requires t < 64
  {
    |PRIMES| == |K| == 64 && exists r :: IsCubeFraction(PRIMES[t], r, K[t])
  }

  lemma CubeAt(t: nat, p: nat, r: nat, k: Word)
    requires t < 64 && |PRIMES| == |K| == 64 && PRIMES[t] == p && K[t] == k && IsCubeFraction(p, r, k)
    ensures HasCubeRoot(t)
  {
    hide PRIMES, K, CubeRoot;
    assert IsCubeFraction(PRIMES[t], r, K[t]);
  }

  ghost predicate HasSquareRoot(t: nat)
    requires t < 8
  {
    |PRIMES| == 64 && exists r :: IsSquareFraction(PRIMES[t], r, WordsOf(INITIAL)[t])
  }

  lemma Values0()
    ensures |PRIMES| == |K| == 64
    ensures PRIMES[0] == 2 && K[0] == 0x428a2f98
    ensures PRIMES[1] == 3 && K[1] == 0x71374491
    ensures PRIMES[2] == 5 && K[2] == 0xb5c0fbcf
    ensures PRIMES[3] == 7 && K[3] == 0xe9b5dba5
    ensures PRIMES[4] == 11 && K[4] == 0x3956c25b
    ensures PRIMES[5] == 13 && K[5] == 0x59f111f1
    ensures PRIMES[6] == 17 && K[6] == 0x923f82a4
    ensures PRIMES[7] == 19 && K[7] == 0xab1c5ed5
  {
  }

  lemma Constants0()
    ensures forall t :: 0 <= t < 8 ==> HasCubeRoot(t)
  {
    hide PRIMES, K, HasCubeRoot;
    Values0();
    CubeAt(0, 2, 5411319704, 0x428a2f98);
    CubeAt(1, 3, 6194414737, 0x71374491);
    CubeAt(2, 5, 7344290767, 0xb5c0fbcf);
    CubeAt(3, 7, 8215976869, 0xe9b5dba5);
    CubeAt(4, 11, 9551921755, 0x3956c25b);
    CubeAt(5, 13, 10098905585, 0x59f111f1);
    CubeAt(6, 17, 11043570340, 0x923f82a4);
    CubeAt(7, 19, 11460697813, 0xab1c5ed5);
  }

  lemma Values8()
    ensures |PRIMES| == |K| == 64
    ensures PRIMES[8] == 23 && K[8] == 0xd807aa98
    ensures PRIMES[9] == 29 && K[9] == 0x12835b01
    ensures PRIMES[10] == 31 && K[10] == 0x243185be
    ensures PRIMES[11] == 37 && K[11] == 0x550c7dc3
    ensures PRIMES[12] == 41 && K[12] == 0x72be5d74
    ensures PRIMES[13] == 43 && K[13] == 0x80deb1fe
    ensures PRIMES[14] == 47 && K[14] == 0x9bdc06a7
    ensures PRIMES[15] == 53 && K[15] == 0xc19bf174
  {
  }

  lemma Constants8()
    ensures forall t :: 8 <= t < 16 ==> HasCubeRoot(t)
  {
    hide PRIMES, K, HasCubeRoot;
    Values8();
    CubeAt(8, 23, 12214315672, 0xd807aa98);
    CubeAt(9, 29, 13195500289, 0x12835b01);
    CubeAt(10, 31, 13492127166, 0x243185be);
    CubeAt(11, 37, 14311783875, 0x550c7dc3);
    CubeAt(12, 41, 14809980276, 0x72be5d74);
    CubeAt(13, 43, 15046980094, 0x80deb1fe);
    CubeAt(14, 47, 15499789991, 0x9bdc06a7);
    CubeAt(15, 53, 16133124468, 0xc19bf174);
  }

  lemma Values16()
    ensures |PRIMES| == |K| == 64
    ensures PRIMES[16] == 59 && K[16] == 0xe49b69c1
    ensures PRIMES[17] == 61 && K[17] == 0xefbe4786
    ensures PRIMES[18] == 67 && K[18] == 0x0fc19dc6
    ensures PRIMES[19] == 71 && K[19] == 0x240ca1cc
    ensures PRIMES[20] == 73 && K[20] == 0x2de92c6f
    ensures PRIMES[21] == 79 && K[21] == 0x4a7484aa
    ensures PRIMES[22] == 83 && K[22] == 0x5cb0a9dc
    ensures PRIMES[23] == 89 && K[23] == 0x76f988da
  {
  }

  lemma Constants16()
    ensures forall t :: 16 <= t < 24 ==> HasCubeRoot(t)
  {
    hide PRIMES, K, HasCubeRoot;
    Values16();
    CubeAt(16, 59, 16720292289, 0xe49b69c1);
    CubeAt(17, 61, 16907126662, 0xefbe4786);
    CubeAt(18, 67, 17444216262, 0x0fc19dc6);
    CubeAt(19, 71, 17784676812, 0x240ca1cc);
    CubeAt(20, 73, 17950125167, 0x2de92c6f);
    CubeAt(21, 79, 18429019306, 0x4a7484aa);
    CubeAt(22, 83, 18734950876, 0x5cb0a9dc);
    CubeAt(23, 89, 19175934170, 0x76f988da);
  }

  lemma Values24()
    ensures |PRIMES| == |K| == 64
    ensures PRIMES[24] == 97 && K[24] == 0x983e5152
    ensures PRIMES[25] == 101 && K[25] == 0xa831c66d
    ensures PRIMES[26] == 103 && K[26] == 0xb00327c8
    ensures PRIMES[27] == 107 && K[27] == 0xbf597fc7
    ensures PRIMES[28] == 109 && K[28] == 0xc6e00bf3
    ensures PRIMES[29] == 113 && K[29] == 0xd5a79147
    ensures PRIMES[30] == 127 && K[30] == 0x06ca6351
    ensures PRIMES[31] == 131 && K[31] == 0x14292967
  {
  }

  lemma Constants24()
    ensures forall t :: 24 <= t < 32 ==> HasCubeRoot(t)
  {
    hide PRIMES, K, HasCubeRoot;
    Values24();
    CubeAt(24, 97, 19734090066, 0x983e5152);
    CubeAt(25, 101, 20001703533, 0xa831c66d);
    CubeAt(26, 103, 20132865992, 0xb00327c8);
    CubeAt(27, 107, 20390182855, 0xbf597fc7);
    CubeAt(28, 109, 20516441075, 0xc6e00bf3);
    CubeAt(29, 113, 20764397895, 0xd5a79147);
    CubeAt(30, 127, 21588763473, 0x06ca6351);
    CubeAt(31, 131, 21813078375, 0x14292967);
  }

  lemma Values32()
    ensures |PRIMES| == |K| == 64
    ensures PRIMES[32] == 137 && K[32] == 0x27b70a85
    ensures PRIMES[33] == 139 && K[33] == 0x2e1b2138
    ensures PRIMES[34] == 149 && K[34] == 0x4d2c6dfc
    ensures PRIMES[35] == 151 && K[35] == 0x53380d13
    ensures PRIMES[36] == 157 && K[36] == 0x650a7354
    ensures PRIMES[37] == 163 && K[37] == 0x766a0abb
    ensures PRIMES[38] == 167 && K[38] == 0x81c2c92e
    ensures PRIMES[39] == 173 && K[39] == 0x92722c85
  {
  }

  lemma Constants32()
    ensures forall t :: 32 <= t < 40 ==> HasCubeRoot(t)
  {
    hide PRIMES, K, HasCubeRoot;
    Values32();
    CubeAt(32, 137, 22141143685, 0x27b70a85);
    CubeAt(33, 139, 22248366392, 0x2e1b2138);
    CubeAt(34, 149, 22769593852, 0x4d2c6dfc);
    CubeAt(35, 151, 22871018771, 0x53380d13);
    CubeAt(36, 157, 23170020180, 0x650a7354);
    CubeAt(37, 163, 23461497531, 0x766a0abb);
    CubeAt(38, 167, 23651862830, 0x81c2c92e);
    CubeAt(39, 173, 23931792517, 0x92722c85);
  }

  lemma Values40()
    ensures |PRIMES| == |K| == 64
    ensures PRIMES[40] == 179 && K[40] == 0xa2bfe8a1
    ensures PRIMES[41] == 181 && K[41] == 0xa81a664b
    ensures PRIMES[42] == 191 && K[42] == 0xc24b8b70
    ensures PRIMES[43] == 193 && K[43] == 0xc76c51a3
    ensures PRIMES[44] == 197 && K[44] == 0xd192e819
    ensures PRIMES[45] == 199 && K[45] == 0xd6990624
    ensures PRIMES[46] == 211 && K[46] == 0xf40e3585
    ensures PRIMES[47] == 223 && K[47] == 0x106aa070
  {
  }

  lemma Constants40()
    ensures forall t :: 40 <= t < 48 ==> HasCubeRoot(t)
  {
    hide PRIMES, K, HasCubeRoot;
    Values40();
    CubeAt(40, 179, 24205322401, 0xa2bfe8a1);
    CubeAt(41, 181, 24295138891, 0xa81a664b);
    CubeAt(42, 191, 24734567280, 0xc24b8b70);
    CubeAt(43, 193, 24820601251, 0xc76c51a3);
    CubeAt(44, 197, 24990902297, 0xd192e819);
    CubeAt(45, 199, 25075189284, 0xd6990624);
    CubeAt(46, 211, 25569408389, 0xf40e3585);
    CubeAt(47, 223, 26045227120, 0x106aa070);
  }

  lemma Values48()
    ensures |PRIMES| == |K| == 64
    ensures PRIMES[48] == 227 && K[48] == 0x19a4c116
    ensures PRIMES[49] == 229 && K[49] == 0x1e376c08
    ensures PRIMES[50] == 233 && K[50] == 0x2748774c
    ensures PRIMES[51] == 239 && K[51] == 0x34b0bcb5
    ensures PRIMES[52] == 241 && K[52] == 0x391c0cb3
    ensures PRIMES[53] == 251 && K[53] == 0x4ed8aa4a
    ensures PRIMES[54] == 257 && K[54] == 0x5b9cca4f
    ensures PRIMES[55] == 263 && K[55] == 0x682e6ff3
  {
  }

  lemma Constants48()
    ensures forall t :: 48 <= t < 56 ==> HasCubeRoot(t)
  {
    hide PRIMES, K, HasCubeRoot;
    Values48();
    CubeAt(48, 227, 26200031510, 0x19a4c116);
    CubeAt(49, 229, 26276752392, 0x1e376c08);
    CubeAt(50, 233, 26428864332, 0x2748774c);
    CubeAt(51, 239, 26653801653, 0x34b0bcb5);
    CubeAt(52, 241, 26727943347, 0x391c0cb3);
    CubeAt(53, 251, 27092625994, 0x4ed8aa4a);
    CubeAt(54, 257, 27306805839, 0x5b9cca4f);
    CubeAt(55, 263, 27517677555, 0x682e6ff3);
  }

  lemma Values56()
    ensures |PRIMES| == |K| == 64
    ensures PRIMES[56] == 269 && K[56] == 0x748f82ee
    ensures PRIMES[57] == 271 && K[57] == 0x78a5636f
    ensures PRIMES[58] == 277 && K[58] == 0x84c87814
    ensures PRIMES[59] == 281 && K[59] == 0x8cc70208
    ensures PRIMES[60] == 283 && K[60] == 0x90befffa
    ensures PRIMES[61] == 293 && K[61] == 0xa4506ceb
    ensures PRIMES[62] == 307 && K[62] == 0xbef9a3f7
    ensures PRIMES[63] == 311 && K[63] == 0xc67178f2
  {
  }

  lemma Constants56()
    ensures forall t :: 56 <= t < 64 ==> HasCubeRoot(t)
  {
    hide PRIMES, K, HasCubeRoot;
    Values56();
    CubeAt(56, 269, 27725365998, 0x748f82ee);
    CubeAt(57, 271, 27793908591, 0x78a5636f);
    CubeAt(58, 277, 27997534228, 0x84c87814);
    CubeAt(59, 281, 28131656200, 0x8cc70208);
    CubeAt(60, 283, 28198240250, 0x90befffa);
    CubeAt(61, 293, 28526537963, 0xa4506ceb);
    CubeAt(62, 307, 28973835255, 0xbef9a3f7);
    CubeAt(63, 311, 29099129074, 0xc67178f2);
  }

  /** Section 4.2.2: each constant is the fraction of the cube root of its prime. */
  lemma ConstantsAreCubeRoots(t: nat)
    requires t < 64
    ensures exists r :: IsCubeFraction(PRIMES[t], r, K[t])
  {
    hide IsCubeFraction, PRIMES, K;
    Constants0();
    Constants8();
    Constants16();
    Constants24();
    Constants32();
    Constants40();
    Constants48();
    Constants56();
    assert HasCubeRoot(t);
  }

  function WordsOf(s: State): seq<Word> { [s.a, s.b, s.c, s.d, s.e, s.f, s.g, s.h] }

  lemma SquareAt(t: nat, r: nat)
    requires t < 8 && |PRIMES| == 64 && IsSquareFraction(PRIMES[t], r, WordsOf(INITIAL)[t])
    ensures HasSquareRoot(t)
  {
    hide PRIMES, SquareRoot;
  }

  lemma SquareIs(t: nat)
    requires t < 8 && HasSquareRoot(t)
    ensures exists r :: IsSquareFraction(PRIMES[t], r, WordsOf(INITIAL)[t])
  {
  }

  /** Section 5.3.3: each word of the initial state is the fraction of the square root of its prime. */
  lemma InitialAreSquareRoots(t: nat)
    requires t < 8
    ensures exists r :: IsSquareFraction(PRIMES[t], r, WordsOf(INITIAL)[t])
  {
    hide PRIMES, HasSquareRoot;
    Values0();
    SquareAt(0, 6074000999);
    SquareAt(1, 7439101573);
    SquareAt(2, 9603838834);
    SquareAt(3, 11363415354);
    SquareAt(4, 14244795007);
    SquareAt(5, 15485724812);
    SquareAt(6, 17708603819);
    SquareAt(7, 18721328409);
    hide IsSquareFraction;
    SquareIs(t);
  }
}
