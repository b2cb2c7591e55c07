/**
  Python's integer bit operations on unbounded integers.

  Python ints are arbitrary precision and `|` behaves as if every integer had an
  infinite two's-complement sign extension; `<<` and `>>` are multiplication and
  floor division by a power of two.  The LED encoders build header bytes with
  `0xE0 | level` and the mock `Color.RGB` packs with `(r << 16) | (g << 8) | b`,
  so both are defined here once.
*/
module Bits {

  function Pow2(k: nat): (r: nat)
    ensures r >= 1
  {
    if k == 0 then 1 else 2 * Pow2(k - 1)
  }

  function Abs(x: int): nat
  {
    if x < 0 then -x else x
  }

  /** `a >> k`: floor division by 2^k (Dafny's `/` by a positive divisor floors). */
  function Shr(a: int, k: nat): (r: int)
    ensures Pow2(k) * r <= a < Pow2(k) * r + Pow2(k)
  {
    a / Pow2(k)
  }

  /** `a << k`: shifting back right by k gives a again. */
  function Shl(a: int, k: nat): (r: int)
    ensures Shr(r, k) == a
  {
    ShlShr(a, Pow2(k));
    a * Pow2(k)
  }

  lemma ShlShr(a: int, p: nat)
    requires p >= 1
    ensures (a * p) / p == a
  {
    var q := (a * p) / p;
    var r := (a * p) % p;
    assert (a - q) * p == r;
    if q < a {
      MulAtLeast(a - q, p);
    } else if a < q {
      MulAtLeast(q - a, p);
    }
  }

  lemma MulAtLeast(d: int, p: nat)
    requires d >= 1
    ensures d * p >= p
  {
    assert d * p == (d - 1) * p + p;
  }

  lemma HalvingShrinks(a: int)
    requires a != 0 && a != -1
    ensures Abs(a / 2) < Abs(a)
  {
  }

  /**
    Python's `a | b`, bit by bit from the least significant end. For non-negative operands
    every bit of either is set, so the result is at least each operand and at most their sum.
  */
  function Or(a: int, b: int): (r: int)
    ensures 0 <= a && 0 <= b ==> a <= r && b <= r && r <= a + b
    ensures a == -1 || b == -1 ==> r == -1
    decreases Abs(a) + Abs(b)
  {
    if a == 0 then b
    else if b == 0 then a
    else if a == -1 || b == -1 then -1
    else
      HalvingShrinks(a);
      HalvingShrinks(b);
      2 * Or(a / 2, b / 2) + (if a % 2 == 1 || b % 2 == 1 then 1 else 0)
  }

  /**
    OR-ing a value whose low k bits are clear with a value that fits in k bits
    is addition: the two operands occupy disjoint bit ranges.
  */
  lemma {:induction false} OrDisjoint(a: int, k: nat, b: int)
    requires 0 <= b < Pow2(k)
    ensures Or(a * Pow2(k), b) == a * Pow2(k) + b
  {
    if k == 0 {
      assert b == 0;
    } else {
      var high := a * Pow2(k);
      assert high == 2 * (a * Pow2(k - 1));
      if high != 0 && b != 0 {
        OrDisjoint(a, k - 1, b / 2);
        assert high / 2 == a * Pow2(k - 1);
        assert high % 2 == 0;
      }
    }
  }

  /** The same fact with the k-bit value on the left (`|` is symmetric on disjoint ranges). */
  lemma {:induction false} OrDisjointLowFirst(b: int, a: int, k: nat)
    requires 0 <= b < Pow2(k)
    ensures Or(b, a * Pow2(k)) == a * Pow2(k) + b
  {
    if k == 0 {
      assert b == 0;
    } else {
      var high := a * Pow2(k);
      assert high == 2 * (a * Pow2(k - 1));
      if high != 0 && b != 0 {
        OrDisjointLowFirst(b / 2, a, k - 1);
        assert high / 2 == a * Pow2(k - 1);
        assert high % 2 == 0;
      }
    }
  }
}
