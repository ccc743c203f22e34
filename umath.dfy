/**
 * The integer helpers the a6xx layout code takes from Mesa's util headers:
 * DIV_ROUND_UP, align / util_align_npot, u_minify, util_next_power_of_two
 * and ffs.  Integers are unbounded here; 32-bit wrap-around is not modelled.
 *
 * The helpers are not recursive, so that a proof that mentions them sees
 * one expression each; the facts about them that need non-linear
 * arithmetic are lemmas, called where a proof needs them.
 */
module UMath {

  /** 2^k. */
  function Pow2(k: nat): (r: nat)
    ensures r >= 1
  {
    if k == 0 then 1 else 2 * Pow2(k - 1)
  }

  /** x is a power of two (1, 2, 4, ...). */
  predicate IsPow2(x: nat)
    decreases x
  {
    x == 1 || (x > 1 && x % 2 == 0 && IsPow2(x / 2))
  }

  /** a * b; a product of naturals is a natural. */
  function Mul(a: nat, b: nat): nat
  {
    MulIsNat(a, b);
    a * b
  }

  /** DIV_ROUND_UP(n, d). */
  function DivRoundUp(n: nat, d: nat): nat
    requires d > 0
  {
    (n + d - 1) / d
  }

  /**
   * Round v up to a multiple of a.  Mesa's align() does this with a bit mask
   * for power-of-two a, util_align_npot() with a division for any a; the two
   * agree on every alignment the layout code uses.
   */
  function AlignUp(v: nat, a: nat): (r: nat)
    requires a > 0
    ensures r % a == 0
    ensures v <= r < v + a
  {
    DivRoundUpBounds(v, a);
    DivModUnique(DivRoundUp(v, a) * a, a, DivRoundUp(v, a), 0);
    DivRoundUp(v, a) * a
  }

  /** u_minify(v, level) = MAX2(1, v >> level). */
  function Minify(v: nat, level: nat): (r: nat)
    ensures r >= 1
    ensures r <= v || r == 1
  {
    var s := v / Pow2(level);
    if s < 1 then 1 else s
  }

  /** util_next_power_of_two(x): 1 for x <= 1, else the least power of two >= x. */
  function NextPow2(x: nat): (r: nat)
    ensures IsPow2(r)
    ensures r >= x && r >= 1
    ensures r == 1 || r < 2 * x
  {
    NextPow2From(1, x)
  }

  function NextPow2From(p: nat, x: nat): (r: nat)
    requires IsPow2(p)
    requires p == 1 || p < 2 * x
    ensures IsPow2(r)
    ensures r >= x && r >= p
    ensures r == 1 || r < 2 * x
    decreases x - p
  {
    if p >= x then p
    else
      DoublePow2(p);
      NextPow2From(2 * p, x)
  }

  /** ffs(x): the 1-based index of the lowest set bit of x, 0 for x == 0. */
  function Ffs(x: nat): (r: nat)
    ensures x > 0 ==> r >= 1
    ensures x == 0 <==> r == 0
    decreases x
  {
    if x == 0 then 0
    else if x % 2 == 1 then 1
    else 1 + Ffs(x / 2)
  }

  /** For a power of two, ffs(x) - 1 is its base-2 logarithm. */
  lemma {:induction false} FfsOfPow2(x: nat)
    requires IsPow2(x)
    ensures Ffs(x) >= 1 && Pow2(Ffs(x) - 1) == x
    decreases x
  {
    if x > 1 {
      FfsOfPow2(x / 2);
    }
  }

  /** Powers of two are closed under doubling. */
  lemma DoublePow2(p: nat)
    requires IsPow2(p)
    ensures IsPow2(2 * p)
  {
  }

  /** Larger exponents give larger powers. */
  lemma {:induction false} Pow2Mono(i: nat, j: nat)
    requires i <= j
    ensures Pow2(i) <= Pow2(j)
    decreases j - i
  {
    if i < j {
      Pow2Mono(i, j - 1);
    }
  }

  /** DIV_ROUND_UP takes the least number of d-sized steps that covers n. */
  lemma DivRoundUpBounds(n: nat, d: nat)
    requires d > 0
    ensures DivRoundUp(n, d) * d >= n
    ensures DivRoundUp(n, d) * d < n + d
  {
    var q, m := (n + d - 1) / d, (n + d - 1) % d;
    assert n + d - 1 == q * d + m;
  }

  /** Dividing by a larger divisor gives a quotient no larger. */
  lemma DivByLarger(v: nat, a: nat, b: nat)
    requires 0 < a <= b
    ensures v / b <= v / a
  {
    var qa, qb := v / a, v / b;
    assert v == qa * a + v % a && v == qb * b + v % b;
    if qb > qa {
      MulMonoInt(qa + 1, qb, a);
      MulMonoInt(a, b, qb);
    }
  }

  /** u_minify never grows with the level. */
  lemma MinifyNonIncreasing(v: nat, i: nat, j: nat)
    requires i <= j
    ensures Minify(v, j) <= Minify(v, i)
  {
    Pow2Mono(i, j);
    DivByLarger(v, Pow2(i), Pow2(j));
  }

  /** Aligning is monotone. */
  lemma AlignUpMono(u: nat, v: nat, a: nat)
    requires a > 0 && u <= v
    ensures AlignUp(u, a) <= AlignUp(v, a)
  {
    var ru, rv := AlignUp(u, a), AlignUp(v, a);
    if ru > rv {
      MultiplesApart(rv, ru, a);
    }
  }

  /** Aligning a value leaves it unchanged exactly when it is already a multiple. */
  lemma AlignUpIdentity(v: nat, a: nat)
    requires a > 0
    ensures AlignUp(v, a) == v <==> v % a == 0
  {
    var r := AlignUp(v, a);
    if v % a == 0 && r != v {
      MultiplesApart(v, r, a);
    }
  }

  lemma MulIsNat(a: nat, b: nat)
    ensures a * b >= 0
  {
  }

  /** Division with remainder has exactly one answer. */
  lemma DivModUnique(n: int, d: int, q: int, r: int)
    requires d > 0 && 0 <= r < d && n == q * d + r
    ensures n / d == q && n % d == r
  {
    var q', r' := n / d, n % d;
    assert n == q' * d + r';
    if q' < q {
      assert (q' + 1) * d == q' * d + d;
      MulMonoInt(q' + 1, q, d);
    } else if q' > q {
      assert (q + 1) * d == q * d + d;
      MulMonoInt(q + 1, q', d);
    }
  }

  lemma MulMonoInt(x: int, y: int, k: int)
    requires x <= y && k >= 0
    ensures x * k <= y * k
  {
    assert y * k - x * k == (y - x) * k;
  }

  /** Two distinct multiples of a are at least a apart. */
  lemma MultiplesApart(x: nat, y: nat, a: nat)
    requires a > 0 && x % a == 0 && y % a == 0 && x < y
    ensures x + a <= y
  {
    var qx, qy := x / a, y / a;
    assert x == qx * a && y == qy * a;
    assert qx < qy by {
      if qx >= qy { MulMonoInt(qy, qx, a); }
    }
    MulMonoInt(qx + 1, qy, a);
  }

  /** A sum of multiples of m is a multiple of m. */
  lemma MultipleAdd(x: nat, y: nat, m: nat)
    requires m > 0 && x % m == 0 && y % m == 0
    ensures (x + y) % m == 0
  {
    DivModUnique(x, m, x / m, 0);
    DivModUnique(y, m, y / m, 0);
    assert x + y == (x / m + y / m) * m;
    DivModUnique(x + y, m, x / m + y / m, 0);
  }

  /** A multiple of m times anything is a multiple of m. */
  lemma MultipleMul(x: nat, k: nat, m: nat)
    requires m > 0 && x % m == 0
    ensures (x * k) % m == 0
  {
    var q := x / m;
    DivModUnique(x, m, q, 0);
    assert x * k == (q * m) * k == (q * k) * m;
    DivModUnique(x * k, m, q * k, 0);
  }
}
