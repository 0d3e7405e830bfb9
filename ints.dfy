/** Kotlin `Int` arithmetic the layout code relies on. */
module Ints {

  /** Kotlin `Int.MAX_VALUE + 1`. */
  const IntLimit: int := 0x8000_0000

  predicate IsPowerOfTwo(n: int)
    decreases if n < 0 then 0 else n
  {
    n == 1 || (n >= 2 && n % 2 == 0 && IsPowerOfTwo(n / 2))
  }

  function Max(a: int, b: int): (m: int)
    ensures m >= a && m >= b && (m == a || m == b)
  {
    if a >= b then a else b
  }

  /** No power of two lies strictly between `s` and `2 * s`. */
  lemma {:induction false} PowerOfTwoGap(s: int, p: int)
    requires IsPowerOfTwo(s) && IsPowerOfTwo(p) && s <= p < 2 * s
    ensures p == s
    decreases s
  {
    if s == 1 {
      assert p == 1;
    } else if p == 1 {
      assert false;
    } else {
      PowerOfTwoGap(s / 2, p / 2);
    }
  }

  /** Kotlin `/` on `Int`: rounds toward zero (Dafny's `/` is Euclidean). */
  function Quot(a: int, b: int): (q: int)
    requires b > 0
    ensures a >= 0 ==> q == a / b
    ensures a < 0 ==> q <= 0 && -q == (-a) / b
  {
    if a >= 0 then a / b else -((-a) / b)
  }

  /** A quotient of at least one means the divisor fits once. */
  lemma QuotientAtLeastOne(d: int, s: int)
    requires s >= 1 && d / s >= 1
    ensures s <= d
  {
    var q := d / s;
    assert d == s * q + d % s;
    assert s * q >= s;
  }

  /** A quotient above `m >= 1` means the divisor fits twice. */
  lemma QuotientAtLeastTwo(d: int, s: int, m: int)
    requires s >= 1 && m >= 1 && d / s > m
    ensures 2 * s <= d
  {
    var q := d / s;
    assert d == s * q + d % s;
    assert s * q >= s * 2;
  }
}
