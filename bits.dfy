/**
 * Python integer bit operations on unbounded integers.
 *
 * Python's `<<` multiplies by a power of two, `>>` is floor division by a
 * power of two (also for negative operands), `//` is floor division (the
 * remainder takes the sign of the divisor), and `|` / `&` work bit by bit.
 * Dafny's `/` is Euclidean, which agrees with floor division only when the
 * divisor is positive, so floor division is written out here.
 */
module Bits {

  function Pow2(k: nat): (r: nat)
    ensures r >= 1
  {
    if k == 0 then 1 else 2 * Pow2(k - 1)
  }

  lemma {:induction false} Pow2Add(a: nat, b: nat)
    ensures Pow2(a + b) == Pow2(a) * Pow2(b)
  {
    if a > 0 {
      Pow2Add(a - 1, b);
      assert Pow2(a + b) == 2 * Pow2(a - 1 + b);
    }
  }

  /** The powers of two that the BME280 byte layouts use. */
  lemma Pow2Table()
    ensures Pow2(4) == 0x10 && Pow2(8) == 0x100 && Pow2(12) == 0x1000
    ensures Pow2(16) == 0x1_0000 && Pow2(20) == 0x10_0000
  {
    assert Pow2(4) == 0x10;
    Pow2Add(4, 4);
    Pow2Add(8, 4);
    Pow2Add(12, 4);
    Pow2Add(16, 4);
  }

  /** Python `x << k`. */
  function Shl(x: int, k: nat): int
  {
    x * Pow2(k)
  }

  /** Python `x >> k`: the largest integer `r` with `r * 2^k <= x`. */
  function Shr(x: int, k: nat): int
  {
    x / Pow2(k)
  }

  /** Python `a // b`: floor of the exact quotient; the remainder has the sign of `b`. */
  function FloorDiv(a: int, b: int): (q: int)
    requires b != 0
    ensures IsFloorQuotient(a, b, q)
  {
    if b > 0 then a / b else (-a) / (-b)
  }

  /** `q` is the floor of `a / b`: the remainder `a - b*q` lies between 0 and `b`, `b` excluded. */
  predicate IsFloorQuotient(a: int, b: int, q: int)
  {
    (b > 0 && b * q <= a < b * q + b) || (b < 0 && b * q + b < a <= b * q)
  }

  /** The floor quotient is unique, so `FloorDiv` is the only function with its contract. */
  lemma FloorQuotientUnique(a: int, b: int, q1: int, q2: int)
    requires IsFloorQuotient(a, b, q1) && IsFloorQuotient(a, b, q2)
    ensures q1 == q2
  {
    if b > 0 {
      DivModUnique(a, b, q1, a - b * q1);
      DivModUnique(a, b, q2, a - b * q2);
    } else {
      DivModUnique(-a, -b, q1, -a + b * q1);
      DivModUnique(-a, -b, q2, -a + b * q2);
    }
  }

  /** Shifting right by `k` is floor division by `2^k`: `r * 2^k <= x < (r + 1) * 2^k`. */
  lemma ShrIsFloorDiv(x: int, k: nat)
    ensures Shr(x, k) == FloorDiv(x, Pow2(k))
    ensures Pow2(k) * Shr(x, k) <= x < Pow2(k) * Shr(x, k) + Pow2(k)
  {
  }

  /** Python `a | b` on non-negative integers, bit by bit from the least significant bit. */
  function BitOr(a: nat, b: nat): nat
    decreases a + b
  {
    if a == 0 then b
    else if b == 0 then a
    else 2 * BitOr(a / 2, b / 2) + (if a % 2 == 1 || b % 2 == 1 then 1 else 0)
  }

  /** Python `a & b` on non-negative integers, bit by bit from the least significant bit. */
  function BitAnd(a: nat, b: nat): nat
    decreases a + b
  {
    if a == 0 || b == 0 then 0
    else 2 * BitAnd(a / 2, b / 2) + (if a % 2 == 1 && b % 2 == 1 then 1 else 0)
  }

  /** OR of `a << k` with a value below `2^k` is their sum: the bit ranges do not overlap. */
  lemma {:induction false} OrDisjoint(a: nat, b: nat, k: nat)
    requires b < Pow2(k)
    ensures BitOr(a * Pow2(k), b) == a * Pow2(k) + b
  {
    if k == 0 {
      assert b == 0;
    } else if a == 0 || b == 0 {
    } else {
      var h := Pow2(k - 1);
      assert Pow2(k) == 2 * h;
      assert a * Pow2(k) == 2 * (a * h);
      assert (a * Pow2(k)) / 2 == a * h;
      assert (a * Pow2(k)) % 2 == 0;
      assert b / 2 < h;
      OrDisjoint(a, b / 2, k - 1);
      assert BitOr(a * Pow2(k), b) == 2 * BitOr(a * h, b / 2) + b % 2;
    }
  }

  /** AND with the mask `2^k - 1` keeps the low `k` bits. */
  lemma {:induction false} AndMask(a: nat, k: nat)
    ensures BitAnd(a, Pow2(k) - 1) == a % Pow2(k)
  {
    if k == 0 {
    } else if a == 0 {
    } else {
      var h := Pow2(k - 1);
      assert Pow2(k) == 2 * h;
      assert (2 * h - 1) / 2 == h - 1 && (2 * h - 1) % 2 == 1;
      AndMask(a / 2, k - 1);
      ModHalves(a, h);
    }
  }

  /** `a & 0x0F` is the low nibble. */
  lemma AndNibble(a: nat)
    ensures BitAnd(a, 0x0F) == a % 16
  {
    Pow2Table();
    AndMask(a, 4);
  }

  /** A value below 16 passes the mask 0x0F unchanged. */
  lemma AndNibbleOfNibble(s: nat)
    requires s < 16
    ensures BitAnd(s, 0x0F) == s
  {
    AndNibble(s);
  }

  /** `a & 0xFF` is the low byte. */
  lemma AndByte(a: nat)
    ensures BitAnd(a, 0xFF) == a % 256
  {
    Pow2Table();
    AndMask(a, 8);
  }

  lemma ModHalves(a: nat, h: nat)
    requires h >= 1
    ensures a % (2 * h) == 2 * ((a / 2) % h) + a % 2
  {
    var q := (a / 2) / h;
    var r := (a / 2) % h;
    assert a / 2 == q * h + r;
    assert a == 2 * (a / 2) + a % 2;
    assert a == q * (2 * h) + (2 * r + a % 2);
    DivModUnique(a, 2 * h, q, 2 * r + a % 2);
  }

  /** Euclidean division is unique: a quotient and a remainder in range are the ones `/` and `%` give. */
  lemma DivModUnique(a: int, m: int, q: int, r: int)
    requires 0 <= r < m
    requires a == q * m + r
    ensures a / m == q && a % m == r
  {
    var q', r' := a / m, a % m;
    assert a == q' * m + r';
    assert (q - q') * m == r' - r;
    if q > q' {
      assert (q - q') * m >= m by { MulMono(q - q', m); }
    } else if q < q' {
      assert (q' - q) * m >= m by { MulMono(q' - q, m); }
    }
  }

  lemma MulMono(d: int, m: int)
    requires d >= 1 && m >= 0
    ensures d * m >= m
  {
  }
}
