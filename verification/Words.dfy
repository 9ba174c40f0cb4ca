/**
 Unsigned 32-bit words as integers, with the bitwise operations defined digit by
 digit, and the numbers of JavaScript: exact integers whose bitwise operators
 first reduce both operands to 32 bits and answer a signed 32-bit result.
 */
module Words {
  const TWO_32: int := 0x1_0000_0000
  const TWO_31: int := 0x8000_0000
  /** Number.MAX_SAFE_INTEGER: integers up to it are exact in a double. */
  const MAX_SAFE: int := 0x1F_FFFF_FFFF_FFFF

  type Byte = x: int | 0 <= x < 256
  type Word = x: int | 0 <= x < TWO_32
  type Bytes = seq<Byte>

  function Pow2(n: nat): (r: nat)
    ensures r > 0
  {
    if n == 0 then 1 else 2 * Pow2(n - 1)
  }

  // ---- bitwise operations on naturals ----

  function And(x: nat, y: nat): nat
  {
    if x == 0 || y == 0 then 0
    else 2 * And(x / 2, y / 2) + (if x % 2 == 1 && y % 2 == 1 then 1 else 0)
  }

  function Or(x: nat, y: nat): nat
    decreases x + y
  {
    if x == 0 then y else if y == 0 then x
    else 2 * Or(x / 2, y / 2) + (if x % 2 == 1 || y % 2 == 1 then 1 else 0)
  }

  function Xor(x: nat, y: nat): nat
    decreases x + y
  {
    if x == 0 then y else if y == 0 then x
    else 2 * Xor(x / 2, y / 2) + (if x % 2 == y % 2 then 0 else 1)
  }

  predicate Bit(x: nat, i: nat) {
    if i == 0 then x % 2 == 1 else Bit(x / 2, i - 1)
  }

  lemma {:induction false} ZeroBit(i: nat)
    ensures !Bit(0, i)
  {
    if i > 0 { ZeroBit(i - 1); }
  }

  /** The three operations are what their names say, on every binary digit. */
  lemma {:induction false} BitwiseDigits(x: nat, y: nat, i: nat)
    ensures Bit(And(x, y), i) <==> Bit(x, i) && Bit(y, i)
    ensures Bit(Or(x, y), i) <==> Bit(x, i) || Bit(y, i)
    ensures Bit(Xor(x, y), i) <==> (Bit(x, i) != Bit(y, i))
  {
    ZeroBit(i);
    if i > 0 && x != 0 && y != 0 {
      BitwiseDigits(x / 2, y / 2, i - 1);
      assert And(x, y) / 2 == And(x / 2, y / 2);
      assert Or(x, y) / 2 == Or(x / 2, y / 2);
      assert Xor(x, y) / 2 == Xor(x / 2, y / 2);
    }
  }

  lemma {:induction false} BitwiseBound(x: nat, y: nat, k: nat)
    requires x < Pow2(k) && y < Pow2(k)
    ensures And(x, y) < Pow2(k) && Or(x, y) < Pow2(k) && Xor(x, y) < Pow2(k)
  {
    if k > 0 { BitwiseBound(x / 2, y / 2, k - 1); }
  }

  lemma WordSize()
    ensures Pow2(32) == TWO_32
  {
    assert Pow2(8) == 256;
    assert Pow2(16) == 0x1_0000;
    assert Pow2(24) == 0x100_0000;
  }

  function AndWord(x: Word, y: Word): Word {
    WordSize(); BitwiseBound(x, y, 32);
    And(x, y)
  }

  function OrWord(x: Word, y: Word): Word {
    WordSize(); BitwiseBound(x, y, 32);
    Or(x, y)
  }

  function XorWord(x: Word, y: Word): Word {
    WordSize(); BitwiseBound(x, y, 32);
    Xor(x, y)
  }

  function NotWord(x: Word): Word {
    TWO_32 - 1 - x
  }

  lemma OrStep(low: nat, half: nat)
    ensures Or(low, 2 * half) == 2 * Or(low / 2, half) + low % 2
  {
    assert (2 * half) / 2 == half && (2 * half) % 2 == 0;
    assert Or(low / 2, 0) == low / 2;
  }

  lemma Doubled(high: nat, k: nat)
    requires k > 0
    ensures high * Pow2(k) == 2 * (high * Pow2(k - 1))
  {
  }

  /** Numbers whose digits do not overlap: `or` is addition. */
  lemma {:induction false} OrOfDisjoint(low: nat, high: nat, k: nat)
    requires low < Pow2(k)
    ensures Or(low, high * Pow2(k)) == low + high * Pow2(k)
    decreases k
  {
    if k > 0 {
      assert low / 2 < Pow2(k - 1);
      OrOfDisjoint(low / 2, high, k - 1);
      Doubled(high, k);
      hide Or, Pow2;
      OrStep(low, high * Pow2(k - 1));
    }
  }

  // ---- JavaScript numbers ----

  function ToUint32(x: int): Word { x % TWO_32 }

  function ToInt32(x: int): (r: int)
    ensures -TWO_31 <= r < TWO_31
    ensures ToUint32(r) == ToUint32(x)
  {
    var u := ToUint32(x);
    if u >= TWO_31 then u - TWO_32 else u
  }

  /** A sum that stays exact: JavaScript adds doubles. */
  function JsAdd(x: int, y: int): int
    requires -MAX_SAFE <= x + y <= MAX_SAFE
  {
    x + y
  }

  function JsAnd(x: int, y: int): (r: int)
    ensures -TWO_31 <= r < TWO_31
  {
    ToInt32(AndWord(ToUint32(x), ToUint32(y)))
  }

  function JsOr(x: int, y: int): (r: int)
    ensures -TWO_31 <= r < TWO_31
  {
    ToInt32(OrWord(ToUint32(x), ToUint32(y)))
  }

  function JsXor(x: int, y: int): (r: int)
    ensures -TWO_31 <= r < TWO_31
  {
    ToInt32(XorWord(ToUint32(x), ToUint32(y)))
  }

  function JsNot(x: int): (r: int)
    ensures -TWO_31 <= r < TWO_31
  {
    -1 - ToInt32(x)
  }

  /** `x << n`, signed. */
  function JsShl(x: int, n: nat): int
    requires n < 32
  {
    ToInt32(ToUint32(x) * Pow2(n))
  }
  /** `x >>> n`, unsigned. */
  function JsShr(x: int, n: nat): (r: Word)
    requires n < 32
    ensures r == ToUint32(x) / Pow2(n)
  {
    var u := ToUint32(x);
    QuotientBound(u, Pow2(n));
    u / Pow2(n)
  }

  lemma ProductAtLeast(a: nat, b: int)
    requires a > 0
    ensures b >= 0 ==> a * b >= b
  {
  }

  lemma QuotientBound(u: nat, d: nat)
    requires d > 0
    ensures 0 <= u / d <= u
  {
    var q, r := u / d, u % d;
    assert u == d * q + r && 0 <= r < d;
    ProductAtLeast(d, q);
  }

  /** Each signed operator agrees with its word operation modulo 2^32. */
  lemma JsBitwise(x: int, y: int)
    ensures ToUint32(JsAnd(x, y)) == AndWord(ToUint32(x), ToUint32(y))
    ensures ToUint32(JsOr(x, y)) == OrWord(ToUint32(x), ToUint32(y))
    ensures ToUint32(JsXor(x, y)) == XorWord(ToUint32(x), ToUint32(y))
    ensures ToUint32(JsNot(x)) == NotWord(ToUint32(x))
  {
  }
}
