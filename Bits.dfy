/**
 * Fixed-width unsigned integer arithmetic as the C++ sources use it, stated
 * on Dafny's unbounded integers:
 *   x >> n           is  x / Pow2(n)
 *   x & (2^n - 1)    is  x % Pow2(n)
 *   uint8_t(x)       is  Trunc8(x)
 *   x << n (uint32)  is  Shl32(x, n)
 *   x | y            is  BitOr(x, y)
 */
module Bits {

  const BYTE: nat := 0x100
  const WORD32: nat := 0x1_0000_0000

  type Byte = b: int | 0 <= b < 0x100
  type UInt16 = x: int | 0 <= x < 0x1_0000
  type UInt32 = x: int | 0 <= x < 0x1_0000_0000

  function Pow2(n: nat): (p: nat)
    ensures p >= 1
  {
    if n == 0 then 1 else 2 * Pow2(n - 1)
  }

  /** The conversion `uint8_t(x)` of a non-negative value: keep the low eight bits. */
  function Trunc8(x: int): (b: Byte)
    requires x >= 0
    ensures x < BYTE ==> b == x
    ensures (x - b) % BYTE == 0
  {
    x % BYTE
  }

  /** `x << n` on a `uint32_t` operand: the shifted value wraps modulo 2^32. */
  function Shl32(x: UInt32, n: nat): (r: UInt32)
    ensures x * Pow2(n) < WORD32 ==> r == x * Pow2(n)
  {
    (x * Pow2(n)) % WORD32
  }

  /** Bitwise OR of two non-negative integers, one bit at a time from the least significant end. */
  function BitOr(a: nat, b: nat): nat
    decreases a + b
  {
    if a == 0 then b
    else if b == 0 then a
    else 2 * BitOr(a / 2, b / 2) + (if a % 2 == 1 || b % 2 == 1 then 1 else 0)
  }

  /**
   * OR-ing a value whose bits all lie below bit k into `hi * 2^k + lo` only
   * touches the low part: the high part passes through unchanged.
   */
  lemma {:induction false} OrAboveLowBits(hi: nat, k: nat, lo: nat, m: nat)
    requires lo < Pow2(k) && m < Pow2(k)
    ensures BitOr(hi * Pow2(k) + lo, m) == hi * Pow2(k) + BitOr(lo, m)
  {
    var a := hi * Pow2(k) + lo;
    if k == 0 {
      assert lo == 0 && m == 0;
    } else if a == 0 {
      assert lo == 0;
    } else if m == 0 {
    } else {
      var h := Pow2(k - 1);
      assert Pow2(k) == 2 * h;
      assert a / 2 == hi * h + lo / 2 && a % 2 == lo % 2 by {
        assert a == 2 * (hi * h + lo / 2) + lo % 2;
      }
      OrAboveLowBits(hi, k - 1, lo / 2, m / 2);
      assert BitOr(lo, m) == 2 * BitOr(lo / 2, m / 2) + (if lo % 2 == 1 || m % 2 == 1 then 1 else 0) by {
        if lo == 0 {
          assert BitOr(0, m / 2) == m / 2;
        }
      }
    }
  }

  /** OR-ing a value below 2^k into a multiple of 2^k is addition. */
  lemma OrIntoClearLowBits(hi: nat, k: nat, m: nat)
    requires m < Pow2(k)
    ensures BitOr(hi * Pow2(k), m) == hi * Pow2(k) + m
  {
    OrAboveLowBits(hi, k, 0, m);
  }

  lemma {:induction false} OrCommutes(a: nat, b: nat)
    ensures BitOr(a, b) == BitOr(b, a)
    decreases a + b
  {
    if a != 0 && b != 0 {
      OrCommutes(a / 2, b / 2);
    }
  }

  /** Setting bit k of a value in which that bit is clear adds 2^k. */
  lemma SetClearBit(x: nat, k: nat)
    requires (x / Pow2(k)) % 2 == 0
    ensures BitOr(x, Pow2(k)) == x + Pow2(k)
  {
    var w := 2 * Pow2(k);
    var hi, lo := x / w, x % w;
    DivModUnique(x, w, hi, lo);
    assert x == hi * w + lo;
    ModSplit(x, Pow2(k), 2);
    assert lo < Pow2(k);
    OrAboveLowBits(hi, k + 1, lo, Pow2(k));
    OrAboveLowBits(1, k, 0, lo);
    OrCommutes(Pow2(k), lo);
  }

  /** `uint8_t(x << 3)` keeps the low five bits of x, shifted up by three. */
  lemma ShiftedByte3(x: nat)
    ensures Trunc8(x * 8) == (x % 32) * 8
  {
    assert x * 8 == (x / 32) * BYTE + (x % 32) * 8;
  }

  /** `uint8_t(x << 5)` keeps the low three bits of x, shifted up by five. */
  lemma ShiftedByte5(x: nat)
    ensures Trunc8(x * 32) == (x % 8) * 32
  {
    assert x * 32 == (x / 8) * BYTE + (x % 8) * 32;
  }

  /** Truncating to a byte after a 32-bit wrap is truncating to a byte. */
  lemma Trunc8AfterWrap(y: nat)
    ensures Trunc8(y % WORD32) == Trunc8(y)
  {
    ModSplit(y, BYTE, 0x100_0000);
    DivModUnique(y % WORD32, BYTE, (y / BYTE) % 0x100_0000, y % BYTE);
  }

  /** Splitting a remainder into digits: the digit above m, then the remainder below m. */
  lemma ModSplit(x: nat, m: nat, b: nat)
    requires m > 0 && b > 0
    ensures x % (b * m) == ((x / m) % b) * m + x % m
  {
    var q, r := x / (b * m), x % (b * m);
    assert x == q * (b * m) + r;
    var r1, r2 := r / m, r % m;
    assert r == r1 * m + r2;
    assert x == (q * b + r1) * m + r2;
    DivModUnique(x, m, q * b + r1, r2);
    assert r1 < b by {
      if r1 >= b {
        MulAtLeast(r1 - b + 1, m);
      }
    }
    DivModUnique(x / m, b, q, r1);
  }

  /** Quotient and remainder are the only pair that rebuilds x. */
  lemma DivModUnique(x: int, m: int, q: int, r: int)
    requires m > 0 && 0 <= r < m && x == q * m + r
    ensures x / m == q && x % m == r
  {
    var q', r' := x / m, x % m;
    assert (q - q') * m == r' - r;
    if q > q' {
      MulAtLeast(q - q', m);
    } else if q < q' {
      MulAtLeast(q' - q, m);
    }
  }

  lemma MulAtLeast(a: int, m: int)
    requires a >= 1 && m > 0
    ensures a * m >= m
  {
  }
}
