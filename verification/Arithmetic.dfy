/** Powers and base-two logarithms: the units in which lookup counts and digit counts are stated. */
module Arithmetic {

  function Min(a: int, b: int): (m: int)
    ensures m <= a && m <= b && (m == a || m == b)
  {
    if a <= b then a else b
  }

  function Max(a: int, b: int): (m: int)
    ensures a <= m && b <= m && (m == a || m == b)
  {
    if a <= b then b else a
  }

  function Pow(base: nat, exponent: nat): nat {
    if exponent == 0 then 1 else base * Pow(base, exponent - 1)
  }

  /** The integer part of the base-two logarithm. */
  function Log2(n: nat): nat
    requires n > 0
  {
    if n == 1 then 0 else 1 + Log2(n / 2)
  }

  /** How many halvings empty a range of n elements. */
  function Halvings(n: nat): nat {
    if n == 0 then 0 else Log2(n) + 1
  }

  lemma {:induction false} Log2Monotone(a: nat, b: nat)
    requires 0 < a <= b
    ensures Log2(a) <= Log2(b)
  {
    if a == 1 {
    } else {
      Log2Monotone(a / 2, b / 2);
    }
  }

  lemma HalvingsMonotone(a: nat, b: nat)
    requires a <= b
    ensures Halvings(a) <= Halvings(b)
  {
    if a > 0 { Log2Monotone(a, b); }
  }

  /** One probe of a binary search leaves at most half of the range. */
  lemma HalvingsStep(n: nat, rest: nat)
    requires n > 0 && rest <= n / 2
    ensures Halvings(rest) + 1 <= Halvings(n)
  {
    HalvingsMonotone(rest, n / 2);
  }

  function Middle(left: int, right: int): (mid: int)
    requires left <= right
    ensures left <= mid <= right && (left < right ==> mid < right)
  {
    (left + right) / 2
  }

  /** The midpoint of left..right splits it into two sides, each at most half as long. */
  lemma ProbeHalves(left: int, right: int)
    requires left <= right
    ensures Halvings(Middle(left, right) - left) + 1 <= Halvings(right - left + 1)
    ensures Halvings(right - Middle(left, right)) + 1 <= Halvings(right - left + 1)
  {
    var mid := Middle(left, right);
    HalvingsStep(right - left + 1, mid - left);
    HalvingsStep(right - left + 1, right - mid);
  }

  /** Log2 is the inverse of doubling: it is at least k exactly from 2^k on. */
  lemma {:induction false} Log2Bound(k: nat, n: nat)
    requires n > 0
    ensures k <= Log2(n) <==> Pow(2, k) <= n
  {
    if k == 0 {
    } else if n == 1 {
      PowPositive(2, k - 1);
    } else {
      Log2Bound(k - 1, n / 2);
      assert Pow(2, k) == 2 * Pow(2, k - 1);
    }
  }

  lemma {:induction false} PowPositive(base: nat, exponent: nat)
    requires base > 0
    ensures Pow(base, exponent) > 0
  {
    if exponent == 0 {
    } else {
      PowPositive(base, exponent - 1);
    }
  }

  lemma {:induction false} PowAdd(base: nat, a: nat, b: nat)
    ensures Pow(base, a + b) == Pow(base, a) * Pow(base, b)
  {
    if a == 0 {
    } else {
      PowAdd(base, a - 1, b);
      MulAssociative(base, Pow(base, a - 1), Pow(base, b));
    }
  }

  lemma MulStep(a: int, b: int)
    ensures (a + 1) * b == a * b + b
  {
  }

  lemma MulAssociative(a: int, b: int, c: int)
    ensures a * (b * c) == (a * b) * c
  {
  }
}
