/**
 * The value-level meaning of every Matrix operation: functions on the
 * row-major buffer `data[M*N]`, and the algebraic laws they obey.
 * The class in module Matrices is proved to compute exactly these.
 */
module MatrixAlgebra {
  import opened RowMajor

  // ---------------------------------------------------------------------
  // Element-wise operations (loops over data[0 .. M*N) in the source)
  // ---------------------------------------------------------------------

  function Sum(a: seq<real>, b: seq<real>): (r: seq<real>)
    requires |a| == |b|
    ensures |r| == |a|
  {
    seq(|a|, k requires 0 <= k < |a| => a[k] + b[k])
  }

  function Difference(a: seq<real>, b: seq<real>): (r: seq<real>)
    requires |a| == |b|
    ensures |r| == |a|
  {
    seq(|a|, k requires 0 <= k < |a| => a[k] - b[k])
  }

  function Negation(a: seq<real>): (r: seq<real>)
    ensures |r| == |a|
  {
    seq(|a|, k requires 0 <= k < |a| => -a[k])
  }

  /** Every entry plus v (operator+(T)); operator-(T) is Shift(a, -v). */
  function Shift(a: seq<real>, v: real): (r: seq<real>)
    ensures |r| == |a|
  {
    seq(|a|, k requires 0 <= k < |a| => a[k] + v)
  }

  function Scaled(a: seq<real>, v: real): (r: seq<real>)
    ensures |r| == |a|
  {
    seq(|a|, k requires 0 <= k < |a| => a[k] * v)
  }

  function Quotient(a: seq<real>, v: real): (r: seq<real>)
    requires v != 0.0
    ensures |r| == |a|
  {
    seq(|a|, k requires 0 <= k < |a| => a[k] / v)
  }

  function Abs(x: real): real {
    if x < 0.0 then -x else x
  }

  /** A square is never negative. */
  lemma SquareNonNegative(x: real)
    ensures x * x >= 0.0
  {
  }

  function Magnitudes(a: seq<real>): (r: seq<real>)
    ensures |r| == |a|
  {
    seq(|a|, k requires 0 <= k < |a| => Abs(a[k]))
  }

  function Filled(len: nat, v: real): (r: seq<real>)
    ensures |r| == len
  {
    seq(len, k => v)
  }

  /** Every entry of a filled m-by-n buffer is the fill value. */
  lemma FilledAt(m: nat, n: nat, v: real)
    ensures forall i: nat, j: nat :: i < m && j < n ==> At(Filled(Size(m, n), v), m, n, i, j) == v
  {
    forall i: nat, j: nat | i < m && j < n
      ensures At(Filled(Size(m, n), v), m, n, i, j) == v
    {
      AtIdx(Filled(Size(m, n), v), m, n, i, j);
    }
  }

  /** Scaling, reading entry (i, j). */
  lemma AtScaled(a: seq<real>, m: nat, n: nat, i: nat, j: nat, v: real)
    requires |a| == Size(m, n) && i < m && j < n
    ensures At(Scaled(a, v), m, n, i, j) == At(a, m, n, i, j) * v
  {
    AtIdx(a, m, n, i, j);
    AtIdx(Scaled(a, v), m, n, i, j);
  }

  /** Dividing, reading entry (i, j). */
  lemma AtQuotient(a: seq<real>, m: nat, n: nat, i: nat, j: nat, v: real)
    requires |a| == Size(m, n) && i < m && j < n && v != 0.0
    ensures At(Quotient(a, v), m, n, i, j) == At(a, m, n, i, j) / v
  {
    AtIdx(a, m, n, i, j);
    AtIdx(Quotient(a, v), m, n, i, j);
  }

  // ---------------------------------------------------------------------
  // Index-based operations (loops over (i, j) through operator() in the source)
  // ---------------------------------------------------------------------

  /** The m-by-n matrix given row by row; entries missing from `values` read as 0. */
  function Grid(values: seq<seq<real>>, m: nat, n: nat): (r: seq<real>)
    ensures |r| == Size(m, n)
  {
    Tabulate(m, n, (i: nat, j: nat) => if i < |values| && j < |values[i]| then values[i][j] else 0.0)
  }

  /** a(i,0)*b(0,j) + ... + a(i,k-1)*b(k-1,j), summed in that order, for a m-by-n and b n-by-p. */
  function RowDot(a: seq<real>, m: nat, n: nat, b: seq<real>, p: nat, i: nat, j: nat, k: nat): real
    decreases k
  {
    if k == 0 then 0.0
    else RowDot(a, m, n, b, p, i, j, k - 1) + At(a, m, n, i, k - 1) * At(b, n, p, k - 1, j)
  }

  /** The matrix product of a (m-by-n) and b (n-by-p). */
  function Product(a: seq<real>, m: nat, n: nat, b: seq<real>, p: nat): (r: seq<real>)
    ensures |r| == Size(m, p)
  {
    Tabulate(m, p, (i: nat, j: nat) => RowDot(a, m, n, b, p, i, j, n))
  }

  /** The n-by-m transpose of the m-by-n matrix a. */
  function Transposed(a: seq<real>, m: nat, n: nat): (r: seq<real>)
    ensures |r| == Size(n, m)
  {
    Tabulate(n, m, (i: nat, j: nat) => At(a, m, n, j, i))
  }

  /** x with r1 and r2 exchanged. */
  function Swap(x: nat, r1: nat, r2: nat): nat {
    if x == r1 then r2 else if x == r2 then r1 else x
  }

  function RowsSwapped(a: seq<real>, m: nat, n: nat, r1: nat, r2: nat): (r: seq<real>)
    ensures |r| == Size(m, n)
  {
    Tabulate(m, n, (i: nat, j: nat) => At(a, m, n, Swap(i, r1, r2), j))
  }

  function ColsSwapped(a: seq<real>, m: nat, n: nat, c1: nat, c2: nat): (r: seq<real>)
    ensures |r| == Size(m, n)
  {
    Tabulate(m, n, (i: nat, j: nat) => At(a, m, n, i, Swap(j, c1, c2)))
  }

  /**
   * When submatrix<P,Q>(rowA, colA, rowB, colB) throws. The first check is P >= M or
   * Q >= N. The second is written `rowA >= M || rowB >= M || colA >= N, colB >= N`; the
   * comma operator discards everything before it, so only colB >= N counts. After that
   * the copy loop throws from a bounds-checked access as soon as it reaches a row
   * outside the source (rowB > M) or a cell outside the P-by-Q result, which can only
   * happen when both index ranges are non-empty.
   */
  predicate SubmatrixThrows(m: nat, n: nat, p: nat, q: nat, rowA: nat, colA: nat, rowB: nat, colB: nat) {
    || p >= m || q >= n
    || colB >= n
    || (rowA < rowB && colA < colB && (rowB > m || rowB - rowA > p || colB - colA > q))
  }

  /**
   * Two requests the range check was meant to refuse and, with the comma operator,
   * lets through: a start row past the end of a 3-by-3 matrix with an empty row
   * range (nothing is copied), and an end row equal to M.
   */
  lemma SubmatrixRangeCheckGaps()
    ensures !SubmatrixThrows(3, 3, 2, 2, 5, 0, 0, 1)
    ensures !SubmatrixThrows(3, 3, 2, 2, 1, 0, 3, 1)
  {
  }

  /** The p-by-q result of submatrix: block [rowA,rowB) x [colA,colB) of a moved to the top left, zeros elsewhere. */
  function Block(a: seq<real>, m: nat, n: nat, p: nat, q: nat, rowA: nat, colA: nat, rowB: nat, colB: nat): (r: seq<real>)
    ensures |r| == Size(p, q)
  {
    Tabulate(p, q, (i: nat, j: nat) =>
      if rowA + i < rowB && colA + j < colB then At(a, m, n, rowA + i, colA + j) else 0.0)
  }

  // ---------------------------------------------------------------------
  // Laws
  // ---------------------------------------------------------------------

  /** Element-wise subtraction undoes element-wise addition. */
  lemma DifferenceUndoesSum(a: seq<real>, b: seq<real>)
    requires |a| == |b|
    ensures Difference(Sum(a, b), b) == a
  {
  }

  lemma SumCommutes(a: seq<real>, b: seq<real>)
    requires |a| == |b|
    ensures Sum(a, b) == Sum(b, a)
  {
  }

  /** Unary minus is scaling by -1, and a matrix plus its negation is zero. */
  lemma NegationLaws(a: seq<real>)
    ensures Negation(a) == Scaled(a, -1.0)
    ensures Sum(a, Negation(a)) == Filled(|a|, 0.0)
  {
  }

  /** Subtracting a scalar undoes adding it. */
  lemma ShiftInverse(a: seq<real>, v: real)
    ensures Shift(Shift(a, v), -v) == a
  {
    assert forall k :: 0 <= k < |a| ==> Shift(Shift(a, v), -v)[k] == a[k];
  }

  /** Dividing by a non-zero scalar undoes multiplying by it, and conversely. */
  lemma QuotientUndoesScaled(a: seq<real>, v: real)
    requires v != 0.0
    ensures Quotient(Scaled(a, v), v) == a
    ensures Scaled(Quotient(a, v), v) == a
  {
    assert forall k :: 0 <= k < |a| ==> Quotient(Scaled(a, v), v)[k] == a[k];
    assert forall k :: 0 <= k < |a| ==> Scaled(Quotient(a, v), v)[k] == a[k];
  }

  /** abs() returns non-negative entries of the same magnitude. */
  lemma MagnitudesLaws(a: seq<real>)
    ensures forall k :: 0 <= k < |a| ==> Magnitudes(a)[k] >= 0.0
    ensures forall k :: 0 <= k < |a| ==> Magnitudes(a)[k] == a[k] || Magnitudes(a)[k] == -a[k]
    ensures Magnitudes(Magnitudes(a)) == Magnitudes(a)
  {
  }

  /** Transpose moves entry (i, j) to (j, i); transposing twice gives back the original. */
  lemma TransposeInvolution(a: seq<real>, m: nat, n: nat)
    requires |a| == Size(m, n)
    ensures forall i: nat, j: nat :: i < m && j < n ==> At(Transposed(a, m, n), n, m, j, i) == At(a, m, n, i, j)
    ensures Transposed(Transposed(a, m, n), n, m) == a
  {
    SameEntries(Transposed(Transposed(a, m, n), n, m), a, m, n);
  }

  lemma TransposedAt(a: seq<real>, m: nat, n: nat, i: nat, j: nat)
    requires i < m && j < n
    ensures At(Transposed(a, m, n), n, m, j, i) == At(a, m, n, i, j)
  {
  }

  /** One step of the sum: equal partial sums plus equal last terms (in either order) are equal. */
  lemma RowDotStep(c: seq<real>, d: seq<real>, a: seq<real>, b: seq<real>, m: nat, n: nat, p: nat, i: nat, j: nat, k: nat)
    requires k > 0
    requires RowDot(c, p, n, d, m, j, i, k - 1) == RowDot(a, m, n, b, p, i, j, k - 1)
    requires At(c, p, n, j, k - 1) == At(b, n, p, k - 1, j) && At(d, n, m, k - 1, i) == At(a, m, n, i, k - 1)
    ensures RowDot(c, p, n, d, m, j, i, k) == RowDot(a, m, n, b, p, i, j, k)
  {
  }

  lemma {:induction false} RowDotTransposed(a: seq<real>, m: nat, n: nat, b: seq<real>, p: nat, i: nat, j: nat, k: nat)
    requires i < m && j < p && k <= n
    ensures RowDot(Transposed(b, n, p), p, n, Transposed(a, m, n), m, j, i, k) == RowDot(a, m, n, b, p, i, j, k)
  {
    if k > 0 {
      RowDotTransposed(a, m, n, b, p, i, j, k - 1);
      TransposedAt(a, m, n, i, k - 1);
      TransposedAt(b, n, p, k - 1, j);
      RowDotStep(Transposed(b, n, p), Transposed(a, m, n), a, b, m, n, p, i, j, k);
    }
  }

  /** The transpose of a product is the product of the transposes in reverse order. */
  lemma TransposeOfProduct(a: seq<real>, m: nat, n: nat, b: seq<real>, p: nat)
    requires |a| == Size(m, n) && |b| == Size(n, p)
    ensures Transposed(Product(a, m, n, b, p), m, p) == Product(Transposed(b, n, p), p, n, Transposed(a, m, n), m)
  {
    var lhs := Transposed(Product(a, m, n, b, p), m, p);
    var rhs := Product(Transposed(b, n, p), p, n, Transposed(a, m, n), m);
    forall j: nat, i: nat | j < p && i < m
      ensures At(lhs, p, m, j, i) == At(rhs, p, m, j, i)
    {
      RowDotTransposed(a, m, n, b, p, i, j, n);
    }
    SameEntries(lhs, rhs, p, m);
  }

  /** swapRows(r1, r2) exchanges rows r1 and r2 and leaves every other entry where it was. */
  lemma RowsSwappedEntries(a: seq<real>, m: nat, n: nat, r1: nat, r2: nat)
    requires |a| == Size(m, n) && r1 < m && r2 < m
    ensures forall j: nat :: j < n ==> At(RowsSwapped(a, m, n, r1, r2), m, n, r1, j) == At(a, m, n, r2, j)
    ensures forall j: nat :: j < n ==> At(RowsSwapped(a, m, n, r1, r2), m, n, r2, j) == At(a, m, n, r1, j)
    ensures forall i: nat, j: nat :: i < m && j < n && i != r1 && i != r2 ==>
      At(RowsSwapped(a, m, n, r1, r2), m, n, i, j) == At(a, m, n, i, j)
  {
  }

  /** Swapping the same two rows twice restores the matrix. */
  lemma RowsSwappedTwice(a: seq<real>, m: nat, n: nat, r1: nat, r2: nat)
    requires |a| == Size(m, n) && r1 < m && r2 < m
    ensures RowsSwapped(RowsSwapped(a, m, n, r1, r2), m, n, r1, r2) == a
  {
    SameEntries(RowsSwapped(RowsSwapped(a, m, n, r1, r2), m, n, r1, r2), a, m, n);
  }

  /** swapCols(c1, c2) exchanges columns c1 and c2 and leaves every other entry where it was. */
  lemma ColsSwappedEntries(a: seq<real>, m: nat, n: nat, c1: nat, c2: nat)
    requires |a| == Size(m, n) && c1 < n && c2 < n
    ensures forall i: nat :: i < m ==> At(ColsSwapped(a, m, n, c1, c2), m, n, i, c1) == At(a, m, n, i, c2)
    ensures forall i: nat :: i < m ==> At(ColsSwapped(a, m, n, c1, c2), m, n, i, c2) == At(a, m, n, i, c1)
    ensures forall i: nat, j: nat :: i < m && j < n && j != c1 && j != c2 ==>
      At(ColsSwapped(a, m, n, c1, c2), m, n, i, j) == At(a, m, n, i, j)
  {
    var r := ColsSwapped(a, m, n, c1, c2);
    assert forall i: nat, j: nat :: i < m && j < n ==> At(r, m, n, i, j) == At(a, m, n, i, Swap(j, c1, c2));
  }

  /** Swapping the same two columns twice restores the matrix. */
  lemma ColsSwappedTwice(a: seq<real>, m: nat, n: nat, c1: nat, c2: nat)
    requires |a| == Size(m, n) && c1 < n && c2 < n
    ensures ColsSwapped(ColsSwapped(a, m, n, c1, c2), m, n, c1, c2) == a
  {
    SameEntries(ColsSwapped(ColsSwapped(a, m, n, c1, c2), m, n, c1, c2), a, m, n);
  }

  lemma GridAt(values: seq<seq<real>>, m: nat, n: nat, i: nat, j: nat)
    requires |values| == m && i < m && |values[i]| == n && j < n
    ensures At(Grid(values, m, n), m, n, i, j) == values[i][j]
  {
  }

  /** A 2-D initialiser stores row i, column j at position i*N + j. */
  lemma GridEntries(values: seq<seq<real>>, m: nat, n: nat)
    requires |values| == m && forall i :: 0 <= i < m ==> |values[i]| == n
    ensures forall i: nat, j: nat :: i < m && j < n ==> Idx(n, i, j) < Size(m, n) && Grid(values, m, n)[Idx(n, i, j)] == values[i][j]
  {
    forall i: nat, j: nat | i < m && j < n
      ensures Idx(n, i, j) < Size(m, n) && Grid(values, m, n)[Idx(n, i, j)] == values[i][j]
    {
      GridAt(values, m, n, i, j);
      AtIdx(Grid(values, m, n), m, n, i, j);
    }
  }

  /** A block copied out by submatrix keeps its entries, shifted to the top left. */
  lemma BlockEntries(a: seq<real>, m: nat, n: nat, p: nat, q: nat, rowA: nat, colA: nat, rowB: nat, colB: nat)
    requires |a| == Size(m, n) && !SubmatrixThrows(m, n, p, q, rowA, colA, rowB, colB)
    ensures forall i: nat, j: nat :: rowA <= i < rowB && colA <= j < colB ==>
      At(Block(a, m, n, p, q, rowA, colA, rowB, colB), p, q, i - rowA, j - colA) == At(a, m, n, i, j)
  {
  }

  /*
   * Small products are written through Dot2 and Dot3 so that every polynomial
   * identity of the closed forms below is proved once, over plain reals, and
   * then used by congruence.
   */

  /** x0*y0 + x1*y1. */
  function Dot2(x0: real, x1: real, y0: real, y1: real): real {
    x0 * y0 + x1 * y1
  }

  /** x0*y0 + x1*y1 + x2*y2. */
  function Dot3(x0: real, x1: real, x2: real, y0: real, y1: real, y2: real): real {
    x0 * y0 + x1 * y1 + x2 * y2
  }

  /** Dot3 of operands known to be equal to c and d is the sum of the products of c and d. */
  lemma Dot3OfEqual(a0: real, a1: real, a2: real, b0: real, b1: real, b2: real,
                    c0: real, c1: real, c2: real, d0: real, d1: real, d2: real)
    requires a0 == c0 && a1 == c1 && a2 == c2 && b0 == d0 && b1 == d1 && b2 == d2
    ensures Dot3(a0, a1, a2, b0, b1, b2) == c0 * d0 + c1 * d1 + c2 * d2
  {
  }

  /** A sum of three products, for generic operands. */
  lemma RowDot3(a: seq<real>, m: nat, b: seq<real>, p: nat, i: nat, j: nat)
    ensures RowDot(a, m, 3, b, p, i, j, 3)
         == Dot3(At(a, m, 3, i, 0), At(a, m, 3, i, 1), At(a, m, 3, i, 2), At(b, 3, p, 0, j), At(b, 3, p, 1, j), At(b, 3, p, 2, j))
  {
  }

  /** Entry (i, j) of a product is the dot product of row i and column j. */
  lemma ProductAt(a: seq<real>, m: nat, n: nat, b: seq<real>, p: nat, i: nat, j: nat)
    requires i < m && j < p
    ensures At(Product(a, m, n, b, p), m, p, i, j) == RowDot(a, m, n, b, p, i, j, n)
  {
  }

  /** Row i of a times column j of b, for 3-by-3 buffers, written out. */
  function Cell3(a: seq<real>, b: seq<real>, i: nat, j: nat): real {
    Dot3(At(a, 3, 3, i, 0), At(a, 3, 3, i, 1), At(a, 3, 3, i, 2), At(b, 3, 3, 0, j), At(b, 3, 3, 1, j), At(b, 3, 3, 2, j))
  }

  lemma ProductAt3(a: seq<real>, b: seq<real>, i: nat, j: nat)
    requires i < 3 && j < 3
    ensures At(Product(a, 3, 3, b, 3), 3, 3, i, j) == Cell3(a, b, i, j)
  {
    ProductAt(a, 3, 3, b, 3, i, j);
    RowDot3(a, 3, b, 3, i, j);
  }

  /** A 3-by-3 buffer is the display of its entries, row by row. */
  lemma Display9(r: seq<real>)
    requires |r| == Size(3, 3)
    ensures r == [At(r, 3, 3, 0, 0), At(r, 3, 3, 0, 1), At(r, 3, 3, 0, 2),
                  At(r, 3, 3, 1, 0), At(r, 3, 3, 1, 1), At(r, 3, 3, 1, 2),
                  At(r, 3, 3, 2, 0), At(r, 3, 3, 2, 1), At(r, 3, 3, 2, 2)]
  {
  }

  /** The 3-by-3 product, entry by entry. */
  lemma Product3(a: seq<real>, b: seq<real>)
    ensures Product(a, 3, 3, b, 3) ==
      [Cell3(a, b, 0, 0), Cell3(a, b, 0, 1), Cell3(a, b, 0, 2),
       Cell3(a, b, 1, 0), Cell3(a, b, 1, 1), Cell3(a, b, 1, 2),
       Cell3(a, b, 2, 0), Cell3(a, b, 2, 1), Cell3(a, b, 2, 2)]
  {
    Display9(Product(a, 3, 3, b, 3));
    ProductAt3(a, b, 0, 0); ProductAt3(a, b, 0, 1); ProductAt3(a, b, 0, 2);
    ProductAt3(a, b, 1, 0); ProductAt3(a, b, 1, 1); ProductAt3(a, b, 1, 2);
    ProductAt3(a, b, 2, 0); ProductAt3(a, b, 2, 1); ProductAt3(a, b, 2, 2);
  }

  /** A sum of two products, for generic operands. */
  lemma RowDot2(a: seq<real>, m: nat, b: seq<real>, p: nat, i: nat, j: nat)
    ensures RowDot(a, m, 2, b, p, i, j, 2) == Dot2(At(a, m, 2, i, 0), At(a, m, 2, i, 1), At(b, 2, p, 0, j), At(b, 2, p, 1, j))
  {
  }

  /** Row i of a times column j of b, for 2-by-2 buffers, written out. */
  function Cell2(a: seq<real>, b: seq<real>, i: nat, j: nat): real {
    Dot2(At(a, 2, 2, i, 0), At(a, 2, 2, i, 1), At(b, 2, 2, 0, j), At(b, 2, 2, 1, j))
  }

  lemma ProductAt2(a: seq<real>, b: seq<real>, i: nat, j: nat)
    requires i < 2 && j < 2
    ensures At(Product(a, 2, 2, b, 2), 2, 2, i, j) == Cell2(a, b, i, j)
  {
    ProductAt(a, 2, 2, b, 2, i, j);
    RowDot2(a, 2, b, 2, i, j);
  }

  /** The 3-by-3 product, position by position in the row-major buffers. */
  lemma Product3Flat(a: seq<real>, b: seq<real>)
    requires |a| == Size(3, 3) && |b| == Size(3, 3)
    ensures Product(a, 3, 3, b, 3) ==
      [Dot3(a[0], a[1], a[2], b[0], b[3], b[6]), Dot3(a[0], a[1], a[2], b[1], b[4], b[7]), Dot3(a[0], a[1], a[2], b[2], b[5], b[8]),
       Dot3(a[3], a[4], a[5], b[0], b[3], b[6]), Dot3(a[3], a[4], a[5], b[1], b[4], b[7]), Dot3(a[3], a[4], a[5], b[2], b[5], b[8]),
       Dot3(a[6], a[7], a[8], b[0], b[3], b[6]), Dot3(a[6], a[7], a[8], b[1], b[4], b[7]), Dot3(a[6], a[7], a[8], b[2], b[5], b[8])]
  {
    Product3(a, b);
    Display9(a);
    Display9(b);
  }

  /** A 2-by-2 buffer is the display of its entries, row by row. */
  lemma Display4(r: seq<real>)
    requires |r| == Size(2, 2)
    ensures r == [At(r, 2, 2, 0, 0), At(r, 2, 2, 0, 1), At(r, 2, 2, 1, 0), At(r, 2, 2, 1, 1)]
  {
  }

  /** The 2-by-2 product, entry by entry. */
  lemma Product2(a: seq<real>, b: seq<real>)
    ensures Product(a, 2, 2, b, 2) == [Cell2(a, b, 0, 0), Cell2(a, b, 0, 1), Cell2(a, b, 1, 0), Cell2(a, b, 1, 1)]
  {
    Display4(Product(a, 2, 2, b, 2));
    ProductAt2(a, b, 0, 0); ProductAt2(a, b, 0, 1);
    ProductAt2(a, b, 1, 0); ProductAt2(a, b, 1, 1);
  }

  /** The 3-by-3 transpose written out entry by entry. */
  lemma Transposed3(a: seq<real>)
    requires |a| == Size(3, 3)
    ensures Transposed(a, 3, 3) == [a[0], a[3], a[6], a[1], a[4], a[7], a[2], a[5], a[8]]
  {
    Display9(a);
    Display9(Transposed(a, 3, 3));
    TransposedAt(a, 3, 3, 0, 0);
    TransposedAt(a, 3, 3, 0, 1);
    TransposedAt(a, 3, 3, 0, 2);
    TransposedAt(a, 3, 3, 1, 0);
    TransposedAt(a, 3, 3, 1, 1);
    TransposedAt(a, 3, 3, 1, 2);
    TransposedAt(a, 3, 3, 2, 0);
    TransposedAt(a, 3, 3, 2, 1);
    TransposedAt(a, 3, 3, 2, 2);
  }

  /** The 3-by-3 integer product from the unit tests. */
  lemma ProductExample()
    ensures Product([1.0, 2.0, 3.0, 4.0, 5.0, 6.0, 7.0, 8.0, 9.0], 3, 3,
                    [2.0, -3.0, 4.0, 5.0, 6.0, 7.0, 8.0, 9.0, 10.0], 3)
         == [36.0, 36.0, 48.0, 81.0, 72.0, 111.0, 126.0, 108.0, 174.0]
  {
    Product3([1.0, 2.0, 3.0, 4.0, 5.0, 6.0, 7.0, 8.0, 9.0], [2.0, -3.0, 4.0, 5.0, 6.0, 7.0, 8.0, 9.0, 10.0]);
  }
}
