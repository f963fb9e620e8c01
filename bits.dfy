/**
 * Bitwise operations on non-negative integers, as JavaScript's BigInt
 * performs them on non-negative operands: `a >> n` and `a & b`.
 * Both are defined bit by bit, and lemmas connect them to division and
 * remainder by powers of two.
 */
module Bits {

  /** 2^n */
  function Pow2(n: nat): (r: nat)
    ensures r >= 1
  {
    if n == 0 then 1 else 2 * Pow2(n - 1)
  }

  /** `a >> n`: drops the n lowest bits of a. */
  function ShiftRight(a: nat, n: nat): (r: nat)
    ensures r <= a
    ensures n > 0 ==> r <= a / 2
  {
    if n == 0 then a else ShiftRight(a / 2, n - 1)
  }

  /** `a & b`: bit i of the result is set iff bit i is set in both a and b. */
  function BitAnd(a: nat, b: nat): (r: nat)
    ensures r <= a && r <= b
  {
    if a == 0 || b == 0 then 0
    else 2 * BitAnd(a / 2, b / 2) + (if a % 2 == 1 && b % 2 == 1 then 1 else 0)
  }

  /** A mask of k one-bits starting at bit s: bits s .. s+k-1. */
  function FieldMask(s: nat, k: nat): nat
  {
    (Pow2(k) - 1) * Pow2(s)
  }

  lemma DivUnique(a: int, d: int, q: int, r: int)
    requires d > 0 && 0 <= r < d && a == d * q + r
    ensures a / d == q && a % d == r
  {
    var q', r' := a / d, a % d;
    assert d * q + r == d * q' + r';
    if q < q' {
      MulAtLeast(d, q' - q);
      assert false;
    } else if q > q' {
      MulAtLeast(d, q - q');
      assert false;
    }
  }

  lemma MulAtLeast(d: int, n: int)
    requires d > 0 && n >= 1
    ensures d * n >= d
  {
  }

  /** Halving and then dividing by p is dividing by 2p. */
  lemma HalfThenDiv(a: nat, p: nat)
    requires p > 0
    ensures (a / 2) / p == a / (2 * p)
  {
    var q, r := a / (2 * p), a % (2 * p);
    assert a == 2 * p * q + r;
    DivUnique(a, 2, p * q + r / 2, r % 2);
    DivUnique(a / 2, p, q, r / 2);
  }

  /** The remainder modulo 2p is made of the remainder of a/2 modulo p and the lowest bit. */
  lemma ModDouble(a: nat, p: nat)
    requires p > 0
    ensures a % (2 * p) == 2 * ((a / 2) % p) + a % 2
  {
    var q, r := (a / 2) / p, (a / 2) % p;
    assert a / 2 == p * q + r;
    assert a == (2 * p) * q + (2 * r + a % 2);
    DivUnique(a, 2 * p, q, 2 * r + a % 2);
  }

  /** Shifting right by n is division by 2^n. */
  lemma {:induction false} ShiftRightIsDiv(a: nat, n: nat)
    ensures ShiftRight(a, n) == a / Pow2(n)
  {
    if n > 0 {
      ShiftRightIsDiv(a / 2, n - 1);
      HalfThenDiv(a, Pow2(n - 1));
    }
  }

  /** Masking with the k lowest bits keeps a modulo 2^k. */
  lemma {:induction false} LowMask(x: nat, k: nat)
    ensures BitAnd(x, Pow2(k) - 1) == x % Pow2(k)
  {
    if k == 0 {
      assert Pow2(k) - 1 == 0;
    } else if x == 0 {
      assert BitAnd(x, Pow2(k) - 1) == 0;
    } else {
      var p := Pow2(k - 1);
      var m := Pow2(k) - 1;
      assert m == 2 * (p - 1) + 1;
      assert m / 2 == p - 1 && m % 2 == 1;
      assert BitAnd(x, m) == 2 * BitAnd(x / 2, p - 1) + x % 2;
      LowMask(x / 2, k - 1);
      ModDouble(x, p);
    }
  }

  /**
   * Masking with the k bits starting at bit s keeps exactly the field
   * (x >> s) mod 2^k, in place.
   */
  lemma {:induction false} MaskedField(x: nat, s: nat, k: nat)
    ensures BitAnd(x, FieldMask(s, k)) == (ShiftRight(x, s) % Pow2(k)) * Pow2(s)
  {
    if s == 0 {
      assert FieldMask(s, k) == Pow2(k) - 1;
      LowMask(x, k);
    } else if k == 0 {
      assert FieldMask(s, k) == 0;
    } else if x == 0 {
      ShiftRightIsDiv(0, s);
    } else {
      MaskedField(x / 2, s - 1, k);
      MaskedFieldStep(x, s, k);
    }
  }

  /** The inductive step of MaskedField: one bit lower on both sides. */
  lemma MaskedFieldStep(x: nat, s: nat, k: nat)
    requires x > 0 && s > 0 && k > 0
    requires BitAnd(x / 2, FieldMask(s - 1, k)) == (ShiftRight(x / 2, s - 1) % Pow2(k)) * Pow2(s - 1)
    ensures BitAnd(x, FieldMask(s, k)) == (ShiftRight(x, s) % Pow2(k)) * Pow2(s)
  {
    var m, m' := FieldMask(s, k), FieldMask(s - 1, k);
    MaskHalves(s, k);
    assert BitAnd(x, m) == 2 * BitAnd(x / 2, m');
    assert ShiftRight(x, s) == ShiftRight(x / 2, s - 1);
    Doubled(ShiftRight(x, s) % Pow2(k), Pow2(s - 1), Pow2(s));
  }

  lemma MaskHalves(s: nat, k: nat)
    requires s > 0
    ensures FieldMask(s, k) == 2 * FieldMask(s - 1, k)
  {
    assert Pow2(s) == 2 * Pow2(s - 1);
  }

  lemma Doubled(t: int, p: int, q: int)
    requires q == 2 * p
    ensures t * q == 2 * (t * p)
  {
  }

  /** Shifting a value placed at bit s back down by s recovers it. */
  lemma PlacedThenShifted(y: nat, s: nat)
    ensures ShiftRight(y * Pow2(s), s) == y
  {
    ShiftRightIsDiv(y * Pow2(s), s);
    DivUnique(y * Pow2(s), Pow2(s), y, 0);
  }

  /** Masking the field of k bits at bit s and shifting it down yields (x / 2^s) mod 2^k. */
  lemma ExtractField(x: nat, s: nat, k: nat)
    ensures ShiftRight(BitAnd(x, FieldMask(s, k)), s) == (x / Pow2(s)) % Pow2(k)
  {
    MaskedField(x, s, k);
    PlacedThenShifted(ShiftRight(x, s) % Pow2(k), s);
    ShiftRightIsDiv(x, s);
  }
}
