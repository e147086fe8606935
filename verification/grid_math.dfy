/**
 * Integer rounding on the process grid.  The source writes floor division as
 * `a // b` and ceiling division as `-(-a // b)`, always with a positive
 * divisor; Dafny's `/` on a positive divisor is the same floor division.
 */
module GridMath {

  /** Python's two-argument `max` and `min`. */
  function Max(a: int, b: int): int { if a >= b then a else b }
  function Min(a: int, b: int): int { if a <= b then a else b }

  /** `a // b` for a positive divisor: the greatest q with q * b <= a. */
  function FloorDiv(a: int, b: int): (q: int)
    requires b > 0
    ensures q * b <= a < q * b + b
  {
    LemmaDivBounds(a, b);
    a / b
  }

  /** `-(-a // b)` for a positive divisor: the least q with q * b >= a. */
  function CeilDiv(a: int, b: int): (q: int)
    requires b > 0
    ensures q * b - b < a <= q * b
  {
    LemmaDivBounds(-a, b);
    -((-a) / b)
  }

  /** `-(-a // p) * p`: the least multiple of p that is at least a. */
  function RoundUp(a: int, p: int): (r: int)
    requires p > 0
    ensures r % p == 0
    ensures a <= r < a + p
  {
    var q := CeilDiv(a, p);
    LemmaMultipleMod(q, p);
    q * p
  }

  /** `a // p * p`: the greatest multiple of p that is at most a. */
  function RoundDown(a: int, p: int): (r: int)
    requires p > 0
    ensures r % p == 0
    ensures a - p < r <= a
  {
    var q := FloorDiv(a, p);
    LemmaMultipleMod(q, p);
    q * p
  }

  /** The least value >= a that is congruent to `off` modulo p. */
  function RoundUpOffset(a: int, p: int, off: int): (r: int)
    requires p > 0
    ensures (r - off) % p == 0
    ensures a <= r < a + p
  {
    RoundUp(a - off, p) + off
  }

  /** The greatest value <= a that is congruent to `off` modulo p. */
  function RoundDownOffset(a: int, p: int, off: int): (r: int)
    requires p > 0
    ensures (r - off) % p == 0
    ensures a - p < r <= a
  {
    RoundDown(a - off, p) + off
  }

  lemma LemmaDivBounds(a: int, b: int)
    requires b > 0
    ensures (a / b) * b <= a < (a / b) * b + b
  {
    assert a == (a / b) * b + a % b;
  }

  /** A non-zero multiple of a positive p is at least p away from zero. */
  lemma {:induction false} LemmaMulAtLeast(d: int, p: int)
    requires p > 0 && d >= 1
    ensures d * p >= p
    decreases d
  {
    if d > 1 {
      assert d * p == (d - 1) * p + p;
      LemmaMulAtLeast(d - 1, p);
    }
  }

  /** The only multiple of p strictly between -p and p is zero. */
  lemma LemmaSmallMultiple(d: int, p: int)
    requires p > 0
    requires -p < d * p < p
    ensures d == 0
  {
    if d >= 1 {
      LemmaMulAtLeast(d, p);
    } else if d <= -1 {
      assert (-d) * p == -(d * p);
      LemmaMulAtLeast(-d, p);
    }
  }

  /** Quotient and remainder are determined by a == q * p + r with 0 <= r < p. */
  lemma LemmaDivUnique(a: int, p: int, q: int, r: int)
    requires p > 0
    requires a == q * p + r && 0 <= r < p
    ensures a / p == q && a % p == r
  {
    assert a == (a / p) * p + a % p;
    assert (q - a / p) * p == a % p - r;
    LemmaSmallMultiple(q - a / p, p);
  }

  lemma LemmaMultipleMod(q: int, p: int)
    requires p > 0
    ensures (q * p) % p == 0
  {
    LemmaDivUnique(q * p, p, q, 0);
  }

  /** Two values with the same residue differ by a multiple of the pitch. */
  lemma LemmaSameResidue(a: int, b: int, p: int)
    requires p > 0
    requires a % p == b % p
    ensures (a - b) % p == 0
  {
    var qa, qb := a / p, b / p;
    assert a == qa * p + a % p;
    assert b == qb * p + b % p;
    assert a - b == (qa - qb) * p;
    LemmaMultipleMod(qa - qb, p);
  }

  /** Adding a multiple of the pitch does not change the residue. */
  lemma LemmaShiftResidue(a: int, k: int, p: int)
    requires p > 0
    ensures (a + k * p) % p == a % p
  {
    var q := a / p;
    assert a == q * p + a % p;
    assert a + k * p == (q + k) * p + a % p;
    LemmaDivUnique(a + k * p, p, q + k, a % p);
  }

  /** Floor division by a positive divisor is monotone. */
  lemma LemmaFloorDivMonotone(a: int, b: int, p: int)
    requires p > 0
    requires a <= b
    ensures FloorDiv(a, p) <= FloorDiv(b, p)
  {
    var qa, qb := FloorDiv(a, p), FloorDiv(b, p);
    if qa > qb {
      assert (qa - qb) * p == qa * p - qb * p;
      LemmaMulAtLeast(qa - qb, p);
    }
  }

  /** Ceiling division by a positive divisor is monotone. */
  lemma LemmaCeilDivMonotone(a: int, b: int, p: int)
    requires p > 0
    requires a <= b
    ensures CeilDiv(a, p) <= CeilDiv(b, p)
  {
    var qa, qb := CeilDiv(a, p), CeilDiv(b, p);
    if qa > qb {
      assert (qa - qb) * p == qa * p - qb * p;
      LemmaMulAtLeast(qa - qb, p);
    }
  }

  /** CeilDiv(a, p) is the least q whose multiple q * p reaches a. */
  lemma LemmaCeilDivLeast(a: int, p: int, q: int)
    requires p > 0
    requires q * p >= a
    ensures CeilDiv(a, p) <= q
  {
    var c := CeilDiv(a, p);
    if c > q {
      assert (c - q) * p == c * p - q * p;
      LemmaMulAtLeast(c - q, p);
    }
  }

  /** FloorDiv(a, p) is the greatest q whose multiple q * p stays at or below a. */
  lemma LemmaFloorDivGreatest(a: int, p: int, q: int)
    requires p > 0
    requires q * p <= a
    ensures q <= FloorDiv(a, p)
  {
    var f := FloorDiv(a, p);
    if q > f {
      assert (q - f) * p == q * p - f * p;
      LemmaMulAtLeast(q - f, p);
    }
  }

  predicate IsCommonMultiple(m: int, a: int, b: int)
    requires a > 0 && b > 0
  {
    m > 0 && m % a == 0 && m % b == 0
  }

  /**
   * The least common multiple of two positive pitches (the source calls an
   * external `lcm`); found by trying k * a for k = 1, 2, ... up to b.
   */
  function Lcm(a: int, b: int): (r: int)
    requires a > 0 && b > 0
    ensures IsCommonMultiple(r, a, b)
    ensures forall m :: 0 < m < r ==> !IsCommonMultiple(m, a, b)
  {
    LcmFrom(a, b, 1)
  }

  function LcmFrom(a: int, b: int, k: int): (r: int)
    requires a > 0 && b > 0
    requires 1 <= k <= b
    requires forall m :: 0 < m < k * a ==> !IsCommonMultiple(m, a, b)
    ensures IsCommonMultiple(r, a, b)
    ensures forall m :: 0 < m < r ==> !IsCommonMultiple(m, a, b)
    decreases b - k
  {
    LemmaMultipleMod(k, a);
    LemmaMulAtLeast(k, a);
    if (k * a) % b == 0 then
      k * a
    else
      assert k < b by {
        if k == b {
          assert k * a == a * b;
          LemmaMultipleMod(a, b);
        }
      }
      assert (k + 1) * a == k * a + a;
      forall m | 0 < m < (k + 1) * a
        ensures !IsCommonMultiple(m, a, b)
      {
        if m >= k * a && IsCommonMultiple(m, a, b) {
          LemmaMultiplesApart(m, k * a, a);
        }
      }
      LcmFrom(a, b, k + 1)
  }

  /** Two multiples of a less than a apart are equal. */
  lemma LemmaMultiplesApart(m: int, n: int, a: int)
    requires a > 0
    requires m % a == 0 && n % a == 0
    requires n <= m < n + a
    ensures m == n
  {
    assert m == (m / a) * a;
    assert n == (n / a) * a;
    var d := m / a - n / a;
    assert m - n == d * a;
    LemmaSmallMultiple(d, a);
  }
}
