/** Row-major (C order) layout of a three-dimensional array: the arithmetic
    behind np.unravel_index, np.ravel_multi_index and ndarray.reshape. */
module RowMajor {

  /** The shape of a 3-D array: axis 0 varies slowest, axis 2 fastest. */
  datatype Dims = Dims(d0: nat, d1: nat, d2: nat)

  /** A multi-index into a 3-D array. */
  datatype Cell = Cell(i0: nat, i1: nat, i2: nat)

  function Size(d: Dims): nat {
    d.d0 * (d.d1 * d.d2)
  }

  predicate InBounds(c: Cell, d: Dims) {
    c.i0 < d.d0 && c.i1 < d.d1 && c.i2 < d.d2
  }

  /** np.ravel_multi_index in C order. */
  function Ravel(c: Cell, d: Dims): int {
    c.i0 * (d.d1 * d.d2) + c.i1 * d.d2 + c.i2
  }

  /** m * b >= b for a positive multiplier, proved without nonlinear search. */
  lemma {:induction false} MulAtLeast(m: int, b: int)
    requires m >= 1 && b >= 0
    ensures m * b >= b
    decreases m
  {
    if m > 1 {
      MulAtLeast(m - 1, b);
      assert m * b == (m - 1) * b + b;
    }
  }

  /** Multiplication by a non-negative factor is monotone. */
  lemma {:induction false} MulMono(m: int, n: int, b: int)
    requires m <= n && b >= 0
    ensures m * b <= n * b
  {
    if m < n {
      MulAtLeast(n - m, b);
      assert n * b - m * b == (n - m) * b;
    }
  }

  /** Euclidean division is determined by any quotient/remainder pair. */
  lemma {:induction false} DivModUnique(a: int, b: int, q: int, r: int)
    requires b > 0 && 0 <= r < b && a == q * b + r
    ensures a / b == q && a % b == r
  {
    var q', r' := a / b, a % b;
    assert a == q' * b + r';
    if q' > q {
      MulAtLeast(q' - q, b);
    } else if q' < q {
      MulAtLeast(q - q', b);
    }
  }

  lemma {:induction false} PositiveFactors(d: Dims, k: nat)
    requires k < Size(d)
    ensures d.d0 > 0 && d.d1 > 0 && d.d2 > 0 && d.d1 * d.d2 > 0
  {
  }

  /** np.unravel_index in C order: the cell of flat position k. */
  function Unravel(k: nat, d: Dims): (c: Cell)
    requires k < Size(d)
    ensures InBounds(c, d) && Ravel(c, d) == k
  {
    PositiveFactors(d, k);
    var plane := d.d1 * d.d2;
    var q, r := k / plane, k % plane;
    UnravelFacts(k, d, q, r);
    Cell(q, r / d.d2, r % d.d2)
  }

  lemma {:induction false} UnravelFacts(k: nat, d: Dims, q: int, r: int)
    requires k < Size(d) && d.d1 > 0 && d.d2 > 0
    requires q == k / (d.d1 * d.d2) && r == k % (d.d1 * d.d2)
    ensures 0 <= q < d.d0 && 0 <= r / d.d2 < d.d1 && 0 <= r % d.d2
    ensures q * (d.d1 * d.d2) + (r / d.d2) * d.d2 + r % d.d2 == k
  {
    var plane := d.d1 * d.d2;
    QuotientBound(k, d.d0, plane);
    QuotientBound(r, d.d1, d.d2);
  }

  /** A position below n * b has quotient below n. */
  lemma {:induction false} QuotientBound(k: nat, n: nat, b: nat)
    requires b > 0 && k < n * b
    ensures 0 <= k / b < n && k == (k / b) * b + k % b
  {
    var q := k / b;
    if q >= n {
      MulMono(n, q, b);
    }
  }

  /** Unravelling undoes ravelling: in-bounds cells and flat positions
      below Size(d) are in one-to-one correspondence. */
  lemma {:induction false} UnravelRavel(c: Cell, d: Dims)
    requires InBounds(c, d)
    ensures 0 <= Ravel(c, d) < Size(d)
    ensures Unravel(Ravel(c, d), d) == c
  {
    var plane := d.d1 * d.d2;
    var low := c.i1 * d.d2 + c.i2;
    MulMono(c.i1, d.d1 - 1, d.d2);
    assert (d.d1 - 1) * d.d2 == plane - d.d2;
    assert low < plane;
    assert Ravel(c, d) == c.i0 * plane + low;
    MulMono(c.i0, d.d0 - 1, plane);
    assert (d.d0 - 1) * plane == d.d0 * plane - plane;
    DivModUnique(Ravel(c, d), plane, c.i0, low);
    DivModUnique(low, d.d2, c.i1, c.i2);
  }
}
