/**
 * Square-matrix utilities: identity, trace, the closed-form 2-by-2 and 3-by-3
 * determinants and the adjugate inverses with their singularity check. A
 * square matrix is a Matrix whose two dimensions agree.
 */
module SquareMatrices {
  import opened Errors
  import opened RowMajor
  import opened MatrixAlgebra
  import opened Matrices

  /** Determinants whose magnitude is below this bound count as singular. */
  const SingularBound: real := 0.000000001

  // ---------------------------------------------------------------------
  // Identity
  // ---------------------------------------------------------------------

  /** The m-by-m identity: ones on the diagonal, zeros elsewhere. */
  function IdentityOf(m: nat): (r: seq<real>)
    ensures |r| == Size(m, m)
    ensures forall i: nat, j: nat :: i < m && j < m ==> At(r, m, m, i, j) == if i == j then 1.0 else 0.0
  {
    Tabulate(m, m, (i: nat, j: nat) => if i == j then 1.0 else 0.0)
  }

  /** The diagonal entry (i, i) sits at i*(m+1), where identity() writes its ones. */
  lemma DiagonalPosition(m: nat, i: nat)
    ensures Idx(m, i, i) == i * (m + 1)
  {
    IdxIsRowMajor(m, i, i);
  }

  /**
   * SquareMatrix::identity(): zero the whole buffer, then write 1 at every
   * diagonal position. The result does not depend on the previous contents,
   * so applying it twice is the same as applying it once.
   */
  method MakeIdentity(A: Matrix)
    requires A.Valid() && A.M == A.N
    modifies A.data
    ensures A.Contents() == IdentityOf(A.M)
  {
    var m := A.M;
    var k := 0;
    while k < Size(m, m)
      invariant 0 <= k <= Size(m, m)
      invariant forall t :: 0 <= t < k ==> A.data[t] == 0.0
    {
      A.data[k] := 0.0;
      k := k + 1;
    }
    assert A.data[..] == Filled(Size(m, m), 0.0);
    FilledAt(m, m, 0.0);
    var i := 0;
    while i < m
      invariant 0 <= i <= m
      invariant forall i': nat, j': nat :: i' < m && j' < m ==>
        At(A.data[..], m, m, i', j') == if i' == j' && i' < i then 1.0 else 0.0
    {
      ghost var before := A.data[..];
      IdxBound(m, m, i, i);
      DiagonalPosition(m, i);
      A.data[i * (m + 1)] := 1.0;
      assert A.data[..] == Put(before, m, m, i, i, 1.0);
      AtPut(before, m, m, i, i, 1.0);
      i := i + 1;
    }
    SameEntries(A.data[..], IdentityOf(m), m, m);
  }

  /** The free identity<T,M>(): a fresh matrix made the identity. */
  method Identity(m: nat) returns (r: Matrix)
    ensures fresh(r) && fresh(r.data) && r.Valid() && r.M == m && r.N == m
    ensures r.Contents() == IdentityOf(m)
  {
    r := new Matrix.Zero(m, m);
    MakeIdentity(r);
  }

  /** (i, i) of the identity is 1 and everything else is 0, whatever the size: identity is a left unit. */
  lemma {:induction false} IdentityRowDot(m: nat, n: nat, a: seq<real>, i: nat, j: nat, k: nat)
    requires |a| == Size(m, n) && i < m && j < n && k <= m
    ensures RowDot(IdentityOf(m), m, m, a, n, i, j, k) == if i < k then At(a, m, n, i, j) else 0.0
  {
    if k > 0 {
      IdentityRowDot(m, n, a, i, j, k - 1);
    }
  }

  /** Multiplying by the identity on the left changes nothing. */
  lemma IdentityLeftUnit(a: seq<real>, m: nat, n: nat)
    requires |a| == Size(m, n)
    ensures Product(IdentityOf(m), m, m, a, n) == a
  {
    forall i: nat, j: nat | i < m && j < n
      ensures At(Product(IdentityOf(m), m, m, a, n), m, n, i, j) == At(a, m, n, i, j)
    {
      ProductAt(IdentityOf(m), m, m, a, n, i, j);
      IdentityRowDot(m, n, a, i, j, m);
    }
    SameEntries(Product(IdentityOf(m), m, m, a, n), a, m, n);
  }

  lemma {:induction false} RowDotIdentity(m: nat, n: nat, a: seq<real>, i: nat, j: nat, k: nat)
    requires |a| == Size(m, n) && i < m && j < n && k <= n
    ensures RowDot(a, m, n, IdentityOf(n), n, i, j, k) == if j < k then At(a, m, n, i, j) else 0.0
  {
    if k > 0 {
      RowDotIdentity(m, n, a, i, j, k - 1);
    }
  }

  /** Multiplying by the identity on the right changes nothing. */
  lemma IdentityRightUnit(a: seq<real>, m: nat, n: nat)
    requires |a| == Size(m, n)
    ensures Product(a, m, n, IdentityOf(n), n) == a
  {
    forall i: nat, j: nat | i < m && j < n
      ensures At(Product(a, m, n, IdentityOf(n), n), m, n, i, j) == At(a, m, n, i, j)
    {
      ProductAt(a, m, n, IdentityOf(n), n, i, j);
      RowDotIdentity(m, n, a, i, j, n);
    }
    SameEntries(Product(a, m, n, IdentityOf(n), n), a, m, n);
  }

  // ---------------------------------------------------------------------
  // Trace
  // ---------------------------------------------------------------------

  /** a(0,0) + ... + a(k-1,k-1) for the m-by-m matrix a. */
  function DiagonalSum(a: seq<real>, m: nat, k: nat): real
    decreases k
  {
    if k == 0 then 0.0 else DiagonalSum(a, m, k - 1) + At(a, m, m, k - 1, k - 1)
  }

  /** The trace: the sum of the whole diagonal. */
  function TraceOf(a: seq<real>, m: nat): (r: real)
    ensures r == DiagonalSum(Transposed(a, m, m), m, m)
  {
    DiagonalSumTransposed(a, m, m);
    DiagonalSum(a, m, m)
  }

  /** trace(): the accumulator loop over data[i*M + i]. */
  method Trace(A: Matrix) returns (tr: real)
    requires A.Valid() && A.M == A.N
    ensures tr == TraceOf(A.Contents(), A.M)
  {
    var m := A.M;
    tr := 0.0;
    var i := 0;
    while i < m
      invariant 0 <= i <= m
      invariant tr == DiagonalSum(A.Contents(), m, i)
    {
      AtIdx(A.Contents(), m, m, i, i);
      tr := tr + A.data[Idx(m, i, i)];
      i := i + 1;
    }
  }

  lemma {:induction false} DiagonalSumIdentity(m: nat, k: nat)
    requires k <= m
    ensures DiagonalSum(IdentityOf(m), m, k) == k as real
  {
    if k > 0 {
      DiagonalSumIdentity(m, k - 1);
    }
  }

  /** The trace of the m-by-m identity is m. */
  lemma TraceIdentity(m: nat)
    ensures TraceOf(IdentityOf(m), m) == m as real
  {
    DiagonalSumIdentity(m, m);
  }

  lemma {:induction false} DiagonalSumOfSum(a: seq<real>, b: seq<real>, m: nat, k: nat)
    requires |a| == Size(m, m) && |b| == Size(m, m) && k <= m
    ensures DiagonalSum(Sum(a, b), m, k) == DiagonalSum(a, m, k) + DiagonalSum(b, m, k)
  {
    if k > 0 {
      DiagonalSumOfSum(a, b, m, k - 1);
      AtIdx(a, m, m, k - 1, k - 1);
      AtIdx(b, m, m, k - 1, k - 1);
      AtIdx(Sum(a, b), m, m, k - 1, k - 1);
    }
  }

  /** The trace is additive. */
  lemma TraceOfSum(a: seq<real>, b: seq<real>, m: nat)
    requires |a| == Size(m, m) && |b| == Size(m, m)
    ensures TraceOf(Sum(a, b), m) == TraceOf(a, m) + TraceOf(b, m)
  {
    DiagonalSumOfSum(a, b, m, m);
  }

  lemma {:induction false} DiagonalSumTransposed(a: seq<real>, m: nat, k: nat)
    requires k <= m
    ensures DiagonalSum(Transposed(a, m, m), m, k) == DiagonalSum(a, m, k)
  {
    if k > 0 {
      DiagonalSumTransposed(a, m, k - 1);
      TransposedAt(a, m, m, k - 1, k - 1);
    }
  }

  // ---------------------------------------------------------------------
  // Determinants
  // ---------------------------------------------------------------------

  /** The determinant of the 2-by-2 matrix with rows (p, q) and (r, s). */
  function Det2Of(p: real, q: real, r: real, s: real): real {
    p * s - q * r
  }

  /** The 3-by-3 determinant of the given rows, expanded along the first row. */
  function Det3Of(a00: real, a01: real, a02: real, a10: real, a11: real, a12: real, a20: real, a21: real, a22: real): real {
    a00 * (a11 * a22 - a12 * a21) - a01 * (a10 * a22 - a12 * a20) + a02 * (a10 * a21 - a11 * a20)
  }

  /** The 3-by-3 determinant of a row-major buffer, in terms of its flat indices. */
  lemma Det3Flat(a: seq<real>)
    requires |a| == Size(3, 3)
    ensures Det3(a) == Det3Of(a[0], a[1], a[2], a[3], a[4], a[5], a[6], a[7], a[8])
  {
    Display9(a);
  }

  /** determinant(SquareMatrix<T,2>): a(0,0)*a(1,1) - a(0,1)*a(1,0). */
  function Det2(a: seq<real>): (r: real)
    ensures r == Det2Of(At(a, 2, 2, 0, 0), At(a, 2, 2, 1, 0), At(a, 2, 2, 0, 1), At(a, 2, 2, 1, 1))
  {
    Det2Of(At(a, 2, 2, 0, 0), At(a, 2, 2, 0, 1), At(a, 2, 2, 1, 0), At(a, 2, 2, 1, 1))
  }

  /** determinant(SquareMatrix<T,3>): cofactor expansion along the first row. */
  function Det3(a: seq<real>): (r: real)
    ensures r == Det3Of(At(a, 3, 3, 0, 0), At(a, 3, 3, 1, 0), At(a, 3, 3, 2, 0),
                        At(a, 3, 3, 0, 1), At(a, 3, 3, 1, 1), At(a, 3, 3, 2, 1),
                        At(a, 3, 3, 0, 2), At(a, 3, 3, 1, 2), At(a, 3, 3, 2, 2))
  {
    Det3OfTransposed(At(a, 3, 3, 0, 0), At(a, 3, 3, 0, 1), At(a, 3, 3, 0, 2),
                     At(a, 3, 3, 1, 0), At(a, 3, 3, 1, 1), At(a, 3, 3, 1, 2),
                     At(a, 3, 3, 2, 0), At(a, 3, 3, 2, 1), At(a, 3, 3, 2, 2));
    Det3Of(At(a, 3, 3, 0, 0), At(a, 3, 3, 0, 1), At(a, 3, 3, 0, 2),
           At(a, 3, 3, 1, 0), At(a, 3, 3, 1, 1), At(a, 3, 3, 1, 2),
           At(a, 3, 3, 2, 0), At(a, 3, 3, 2, 1), At(a, 3, 3, 2, 2))
  }

  lemma Identity2()
    ensures IdentityOf(2) == [1.0, 0.0, 0.0, 1.0]
  {
    Display4(IdentityOf(2));
  }

  lemma Identity3()
    ensures IdentityOf(3) == [1.0, 0.0, 0.0, 0.0, 1.0, 0.0, 0.0, 0.0, 1.0]
  {
    Display9(IdentityOf(3));
  }

  /** The determinant of the identity is 1, in both closed forms. */
  lemma DetIdentity()
    ensures Det2(IdentityOf(2)) == 1.0
    ensures Det3(IdentityOf(3)) == 1.0
  {
    Identity2();
    Identity3();
  }

  /** The 3-by-3 determinant of the transposed rows is the same. */
  lemma Det3OfTransposed(a00: real, a01: real, a02: real, a10: real, a11: real, a12: real, a20: real, a21: real, a22: real)
    ensures Det3Of(a00, a10, a20, a01, a11, a21, a02, a12, a22) == Det3Of(a00, a01, a02, a10, a11, a12, a20, a21, a22)
  {
  }

  /** Transposing does not change either closed-form determinant. */
  lemma DetTransposed(a: seq<real>, b: seq<real>)
    requires |a| == Size(2, 2) && |b| == Size(3, 3)
    ensures Det2(Transposed(a, 2, 2)) == Det2(a)
    ensures Det3(Transposed(b, 3, 3)) == Det3(b)
  {
    TransposedAt(a, 2, 2, 0, 1);
    TransposedAt(a, 2, 2, 1, 0);
    TransposedAt(a, 2, 2, 0, 0);
    TransposedAt(a, 2, 2, 1, 1);
    Transposed3(b);
    Display9(b);
    Det3OfTransposed(b[0], b[1], b[2], b[3], b[4], b[5], b[6], b[7], b[8]);
  }

  /** The two determinant examples of the unit tests. */
  lemma DetExamples()
    ensures Det2([1.0, 2.0, 3.0, 4.0]) == -2.0
    ensures Det3([5.0, -4.0, 2.0, 0.0, -7.0, 8.0, 4.0, -3.0, 5.0]) == -127.0
  {
  }

  /** The trace example of the unit tests. */
  lemma TraceExample()
    ensures TraceOf([2.0, -5.0, 3.0, 3.0, -3.0, 0.0, 4.0, 1.0, 6.0], 3) == 5.0
  {
  }

  // ---------------------------------------------------------------------
  // Inverses
  // ---------------------------------------------------------------------

  /** The 2-by-2 adjugate, as inverse() fills Ainv before dividing by det. */
  function Adjugate2(a: seq<real>): (r: seq<real>)
    ensures |r| == Size(2, 2)
  {
    [At(a, 2, 2, 1, 1), -At(a, 2, 2, 0, 1), -At(a, 2, 2, 1, 0), At(a, 2, 2, 0, 0)]
  }

  /** The 3-by-3 adjugate (transposed cofactors), as inverse() writes it before scaling. */
  function Adjugate3(a: seq<real>): (r: seq<real>)
    ensures |r| == Size(3, 3)
  {
    var a00, a01, a02 := At(a, 3, 3, 0, 0), At(a, 3, 3, 0, 1), At(a, 3, 3, 0, 2);
    var a10, a11, a12 := At(a, 3, 3, 1, 0), At(a, 3, 3, 1, 1), At(a, 3, 3, 1, 2);
    var a20, a21, a22 := At(a, 3, 3, 2, 0), At(a, 3, 3, 2, 1), At(a, 3, 3, 2, 2);
    [Det2Of(a11, a12, a21, a22), Det2Of(a02, a01, a22, a21), Det2Of(a01, a02, a11, a12),
     Det2Of(a12, a10, a22, a20), Det2Of(a00, a02, a20, a22), Det2Of(a02, a00, a12, a10),
     Det2Of(a10, a11, a20, a21), Det2Of(a01, a00, a21, a20), Det2Of(a00, a01, a10, a11)]
  }

  /** Row times column of a matrix and its adjugate, 2-by-2, over plain entries. */
  lemma Adjugate2Identity(p: real, q: real, r: real, s: real)
    ensures Dot2(p, q, s, -r) == Det2Of(p, q, r, s) && Dot2(p, q, -q, p) == 0.0
    ensures Dot2(r, s, s, -r) == 0.0 && Dot2(r, s, -q, p) == Det2Of(p, q, r, s)
    ensures Dot2(s, -q, p, r) == Det2Of(p, q, r, s) && Dot2(s, -q, q, s) == 0.0
    ensures Dot2(-r, p, p, r) == 0.0 && Dot2(-r, p, q, s) == Det2Of(p, q, r, s)
  {
  }

  /** a * adj(a) and adj(a) * a are det(a) times the identity, 2-by-2, entry by entry. */
  lemma Adjugate2Cells(a: seq<real>)
    requires |a| == Size(2, 2)
    ensures forall i: nat, j: nat :: i < 2 && j < 2 ==> Cell2(a, Adjugate2(a), i, j) == if i == j then Det2(a) else 0.0
    ensures forall i: nat, j: nat :: i < 2 && j < 2 ==> Cell2(Adjugate2(a), a, i, j) == if i == j then Det2(a) else 0.0
  {
    var p, q, r, s := At(a, 2, 2, 0, 0), At(a, 2, 2, 0, 1), At(a, 2, 2, 1, 0), At(a, 2, 2, 1, 1);
    var c := Adjugate2(a);
    assert c == [s, -q, -r, p];
    Display4(c);
    Adjugate2Identity(p, q, r, s);
  }

  /** Dividing one factor of a pair of products divides the sum. */
  lemma Dot2Quotient(x0: real, x1: real, c0: real, c1: real, y0: real, y1: real, v: real)
    requires v != 0.0 && y0 == c0 / v && y1 == c1 / v
    ensures Dot2(x0, x1, y0, y1) == Dot2(x0, x1, c0, c1) / v
    ensures Dot2(y0, y1, x0, x1) == Dot2(c0, c1, x0, x1) / v
  {
  }

  /** Dividing the right or the left factor of a 2-by-2 entry divides the entry. */
  lemma Cell2Quotient(a: seq<real>, c: seq<real>, v: real, i: nat, j: nat)
    requires |a| == Size(2, 2) && |c| == Size(2, 2) && v != 0.0 && i < 2 && j < 2
    ensures Cell2(a, Quotient(c, v), i, j) == Cell2(a, c, i, j) / v
    ensures Cell2(Quotient(c, v), a, i, j) == Cell2(c, a, i, j) / v
  {
    AtQuotient(c, 2, 2, 0, j, v);
    AtQuotient(c, 2, 2, 1, j, v);
    AtQuotient(c, 2, 2, i, 0, v);
    AtQuotient(c, 2, 2, i, 1, v);
    var q := Quotient(c, v);
    Dot2Quotient(At(a, 2, 2, i, 0), At(a, 2, 2, i, 1), At(c, 2, 2, 0, j), At(c, 2, 2, 1, j),
                 At(q, 2, 2, 0, j), At(q, 2, 2, 1, j), v);
    Dot2Quotient(At(a, 2, 2, 0, j), At(a, 2, 2, 1, j), At(c, 2, 2, i, 0), At(c, 2, 2, i, 1),
                 At(q, 2, 2, i, 0), At(q, 2, 2, i, 1), v);
  }

  /** An entry of det times the identity, divided by det, is the identity's entry. */
  lemma Divided(x: real, det: real, y: real, diagonal: bool)
    requires det != 0.0 && x == (if diagonal then det else 0.0) && y == x / det
    ensures y == if diagonal then 1.0 else 0.0
  {
    if diagonal {
      assert det / det == 1.0;
    } else {
      assert 0.0 / det == 0.0;
    }
  }

  /**
   * inverse(SquareMatrix<T,2>): RuntimeError when |det| < 1e-9; otherwise the
   * adjugate divided by det, a two-sided inverse.
   */
  function Inverse2Of(a: seq<real>): (r: Result<seq<real>>)
    requires |a| == Size(2, 2)
    ensures r.Err? <==> MatrixAlgebra.Abs(Det2(a)) < SingularBound
    ensures r.Err? ==> r.error == RuntimeError
    ensures r.Ok? ==> |r.value| == Size(2, 2)
  {
    var det := Det2(a);
    if MatrixAlgebra.Abs(det) < SingularBound then
      Err(RuntimeError)
    else
      Ok(Quotient(Adjugate2(a), Det2(a)))
  }

  /** When inverse() succeeds, its result is a two-sided inverse. */
  lemma Inverse2IsInverse(a: seq<real>)
    requires |a| == Size(2, 2) && Inverse2Of(a).Ok?
    ensures Product(a, 2, 2, Inverse2Of(a).value, 2) == IdentityOf(2)
    ensures Product(Inverse2Of(a).value, 2, 2, a, 2) == IdentityOf(2)
  {
    Inverse2Works(a, Det2(a), Inverse2Of(a).value);
  }

  lemma Inverse2Works(a: seq<real>, det: real, inv: seq<real>)
    requires |a| == Size(2, 2) && det == Det2(a) && det != 0.0 && inv == Quotient(Adjugate2(a), det)
    ensures Product(a, 2, 2, inv, 2) == IdentityOf(2) && Product(inv, 2, 2, a, 2) == IdentityOf(2)
  {
    Adjugate2Cells(a);
    forall i: nat, j: nat | i < 2 && j < 2
      ensures At(Product(a, 2, 2, inv, 2), 2, 2, i, j) == At(IdentityOf(2), 2, 2, i, j)
      ensures At(Product(inv, 2, 2, a, 2), 2, 2, i, j) == At(IdentityOf(2), 2, 2, i, j)
    {
      ProductAt2(a, inv, i, j);
      ProductAt2(inv, a, i, j);
      Cell2Quotient(a, Adjugate2(a), det, i, j);
      Divided(Cell2(a, Adjugate2(a), i, j), det, Cell2(a, inv, i, j), i == j);
      Divided(Cell2(Adjugate2(a), a, i, j), det, Cell2(inv, a, i, j), i == j);
    }
    SameEntries(Product(a, 2, 2, inv, 2), IdentityOf(2), 2, 2);
    SameEntries(Product(inv, 2, 2, a, 2), IdentityOf(2), 2, 2);
  }

  /*
   * Cofactor expansions over plain entries. The adjugate's column j is the
   * cofactors of row j, so row i of the matrix times column j of the adjugate
   * is the determinant when i == j and an expansion with alien cofactors,
   * which vanishes, otherwise; the same holds for the columns of the matrix
   * against the rows of the adjugate.
   */

  lemma ExpansionAlongRow0(a00: real, a01: real, a02: real, a10: real, a11: real, a12: real, a20: real, a21: real, a22: real)
    ensures Dot3(a00, a01, a02,
                 Det2Of(a11, a12, a21, a22), Det2Of(a12, a10, a22, a20), Det2Of(a10, a11, a20, a21)) == Det3Of(a00, a01, a02, a10, a11, a12, a20, a21, a22)
    ensures Dot3(a00, a01, a02,
                 Det2Of(a02, a01, a22, a21), Det2Of(a00, a02, a20, a22), Det2Of(a01, a00, a21, a20)) == 0.0
    ensures Dot3(a00, a01, a02,
                 Det2Of(a01, a02, a11, a12), Det2Of(a02, a00, a12, a10), Det2Of(a00, a01, a10, a11)) == 0.0
  {
  }

  lemma ExpansionAlongRow1(a00: real, a01: real, a02: real, a10: real, a11: real, a12: real, a20: real, a21: real, a22: real)
    ensures Dot3(a10, a11, a12,
                 Det2Of(a11, a12, a21, a22), Det2Of(a12, a10, a22, a20), Det2Of(a10, a11, a20, a21)) == 0.0
    ensures Dot3(a10, a11, a12,
                 Det2Of(a02, a01, a22, a21), Det2Of(a00, a02, a20, a22), Det2Of(a01, a00, a21, a20)) == Det3Of(a00, a01, a02, a10, a11, a12, a20, a21, a22)
    ensures Dot3(a10, a11, a12,
                 Det2Of(a01, a02, a11, a12), Det2Of(a02, a00, a12, a10), Det2Of(a00, a01, a10, a11)) == 0.0
  {
  }

  lemma ExpansionAlongRow2(a00: real, a01: real, a02: real, a10: real, a11: real, a12: real, a20: real, a21: real, a22: real)
    ensures Dot3(a20, a21, a22,
                 Det2Of(a11, a12, a21, a22), Det2Of(a12, a10, a22, a20), Det2Of(a10, a11, a20, a21)) == 0.0
    ensures Dot3(a20, a21, a22,
                 Det2Of(a02, a01, a22, a21), Det2Of(a00, a02, a20, a22), Det2Of(a01, a00, a21, a20)) == 0.0
    ensures Dot3(a20, a21, a22,
                 Det2Of(a01, a02, a11, a12), Det2Of(a02, a00, a12, a10), Det2Of(a00, a01, a10, a11)) == Det3Of(a00, a01, a02, a10, a11, a12, a20, a21, a22)
  {
    assert Det3Of(a00, a01, a02, a10, a11, a12, a20, a21, a22)
        == a20 * (a01 * a12 - a02 * a11) + a21 * (a02 * a10 - a00 * a12) + a22 * (a00 * a11 - a01 * a10);
  }

  lemma ExpansionAlongColumn0(a00: real, a01: real, a02: real, a10: real, a11: real, a12: real, a20: real, a21: real, a22: real)
    ensures Dot3(a00, a10, a20,
                 Det2Of(a11, a12, a21, a22), Det2Of(a02, a01, a22, a21), Det2Of(a01, a02, a11, a12)) == Det3Of(a00, a01, a02, a10, a11, a12, a20, a21, a22)
    ensures Dot3(a01, a11, a21,
                 Det2Of(a11, a12, a21, a22), Det2Of(a02, a01, a22, a21), Det2Of(a01, a02, a11, a12)) == 0.0
    ensures Dot3(a02, a12, a22,
                 Det2Of(a11, a12, a21, a22), Det2Of(a02, a01, a22, a21), Det2Of(a01, a02, a11, a12)) == 0.0
  {
  }

  lemma ExpansionAlongColumn1(a00: real, a01: real, a02: real, a10: real, a11: real, a12: real, a20: real, a21: real, a22: real)
    ensures Dot3(a00, a10, a20,
                 Det2Of(a12, a10, a22, a20), Det2Of(a00, a02, a20, a22), Det2Of(a02, a00, a12, a10)) == 0.0
    ensures Dot3(a01, a11, a21,
                 Det2Of(a12, a10, a22, a20), Det2Of(a00, a02, a20, a22), Det2Of(a02, a00, a12, a10)) == Det3Of(a00, a01, a02, a10, a11, a12, a20, a21, a22)
    ensures Dot3(a02, a12, a22,
                 Det2Of(a12, a10, a22, a20), Det2Of(a00, a02, a20, a22), Det2Of(a02, a00, a12, a10)) == 0.0
  {
  }

  lemma ExpansionAlongColumn2(a00: real, a01: real, a02: real, a10: real, a11: real, a12: real, a20: real, a21: real, a22: real)
    ensures Dot3(a00, a10, a20,
                 Det2Of(a10, a11, a20, a21), Det2Of(a01, a00, a21, a20), Det2Of(a00, a01, a10, a11)) == 0.0
    ensures Dot3(a01, a11, a21,
                 Det2Of(a10, a11, a20, a21), Det2Of(a01, a00, a21, a20), Det2Of(a00, a01, a10, a11)) == 0.0
    ensures Dot3(a02, a12, a22,
                 Det2Of(a10, a11, a20, a21), Det2Of(a01, a00, a21, a20), Det2Of(a00, a01, a10, a11)) == Det3Of(a00, a01, a02, a10, a11, a12, a20, a21, a22)
  {
  }

  /** Three products added up do not depend on which side each factor is on. */
  lemma Dot3Commutes(x0: real, x1: real, x2: real, y0: real, y1: real, y2: real)
    ensures Dot3(x0, x1, x2, y0, y1, y2) == Dot3(y0, y1, y2, x0, x1, x2)
  {
  }

  /** Scaling one factor of three products scales the sum. */
  lemma Dot3Scaled(x0: real, x1: real, x2: real, c0: real, c1: real, c2: real, y0: real, y1: real, y2: real, v: real)
    requires y0 == c0 * v && y1 == c1 * v && y2 == c2 * v
    ensures Dot3(x0, x1, x2, y0, y1, y2) == Dot3(x0, x1, x2, c0, c1, c2) * v
    ensures Dot3(y0, y1, y2, x0, x1, x2) == Dot3(c0, c1, c2, x0, x1, x2) * v
  {
  }

  /**
   * inverse(SquareMatrix<T,3>): RuntimeError when |det| < 1e-9; otherwise the
   * adjugate scaled by 1/det, a two-sided inverse.
   */
  function Inverse3Of(a: seq<real>): (r: Result<seq<real>>)
    requires |a| == Size(3, 3)
    ensures r.Err? <==> MatrixAlgebra.Abs(Det3(a)) < SingularBound
    ensures r.Err? ==> r.error == RuntimeError
    ensures r.Ok? ==> |r.value| == Size(3, 3)
  {
    var det := Det3(a);
    if MatrixAlgebra.Abs(det) < SingularBound then
      Err(RuntimeError)
    else
      Ok(Scaled(Adjugate3(a), 1.0 / Det3(a)))
  }

  /** When inverse() succeeds, its result is a two-sided inverse. */
  lemma Inverse3IsInverse(a: seq<real>)
    requires |a| == Size(3, 3) && Inverse3Of(a).Ok?
    ensures Product(a, 3, 3, Inverse3Of(a).value, 3) == IdentityOf(3)
    ensures Product(Inverse3Of(a).value, 3, 3, a, 3) == IdentityOf(3)
  {
    Inverse3Works(a, Det3(a), Inverse3Of(a).value);
  }

  /** y is the adjugate of the matrix with entries a, scaled by t. */
  predicate IsScaledAdjugate3(a00: real, a01: real, a02: real, a10: real, a11: real, a12: real, a20: real, a21: real, a22: real,
                              t: real, y00: real, y01: real, y02: real, y10: real, y11: real, y12: real, y20: real, y21: real, y22: real)
  {
    y00 == Det2Of(a11, a12, a21, a22) * t && y01 == Det2Of(a02, a01, a22, a21) * t && y02 == Det2Of(a01, a02, a11, a12) * t &&
    y10 == Det2Of(a12, a10, a22, a20) * t && y11 == Det2Of(a00, a02, a20, a22) * t && y12 == Det2Of(a02, a00, a12, a10) * t &&
    y20 == Det2Of(a10, a11, a20, a21) * t && y21 == Det2Of(a01, a00, a21, a20) * t && y22 == Det2Of(a00, a01, a10, a11) * t
  }

  /** Row 0 of a times the columns of its inverse y. */
  lemma InverseRow0(a00: real, a01: real, a02: real, a10: real, a11: real, a12: real, a20: real, a21: real, a22: real,
                    t: real, y00: real, y01: real, y02: real, y10: real, y11: real, y12: real, y20: real, y21: real, y22: real)
    requires Det3Of(a00, a01, a02, a10, a11, a12, a20, a21, a22) * t == 1.0 && IsScaledAdjugate3(a00, a01, a02, a10, a11, a12, a20, a21, a22, t, y00, y01, y02, y10, y11, y12, y20, y21, y22)
    ensures Dot3(a00, a01, a02, y00, y10, y20) == 1.0
    ensures Dot3(a00, a01, a02, y01, y11, y21) == 0.0
    ensures Dot3(a00, a01, a02, y02, y12, y22) == 0.0
  {
    ExpansionAlongRow0(a00, a01, a02, a10, a11, a12, a20, a21, a22);
    Dot3Scaled(a00, a01, a02, Det2Of(a11, a12, a21, a22), Det2Of(a12, a10, a22, a20), Det2Of(a10, a11, a20, a21),
               y00, y10, y20, t);
    Dot3Scaled(a00, a01, a02, Det2Of(a02, a01, a22, a21), Det2Of(a00, a02, a20, a22), Det2Of(a01, a00, a21, a20),
               y01, y11, y21, t);
    Dot3Scaled(a00, a01, a02, Det2Of(a01, a02, a11, a12), Det2Of(a02, a00, a12, a10), Det2Of(a00, a01, a10, a11),
               y02, y12, y22, t);
  }

  /** Row 1 of a times the columns of its inverse y. */
  lemma InverseRow1(a00: real, a01: real, a02: real, a10: real, a11: real, a12: real, a20: real, a21: real, a22: real,
                    t: real, y00: real, y01: real, y02: real, y10: real, y11: real, y12: real, y20: real, y21: real, y22: real)
    requires Det3Of(a00, a01, a02, a10, a11, a12, a20, a21, a22) * t == 1.0 && IsScaledAdjugate3(a00, a01, a02, a10, a11, a12, a20, a21, a22, t, y00, y01, y02, y10, y11, y12, y20, y21, y22)
    ensures Dot3(a10, a11, a12, y00, y10, y20) == 0.0
    ensures Dot3(a10, a11, a12, y01, y11, y21) == 1.0
    ensures Dot3(a10, a11, a12, y02, y12, y22) == 0.0
  {
    ExpansionAlongRow1(a00, a01, a02, a10, a11, a12, a20, a21, a22);
    Dot3Scaled(a10, a11, a12, Det2Of(a11, a12, a21, a22), Det2Of(a12, a10, a22, a20), Det2Of(a10, a11, a20, a21),
               y00, y10, y20, t);
    Dot3Scaled(a10, a11, a12, Det2Of(a02, a01, a22, a21), Det2Of(a00, a02, a20, a22), Det2Of(a01, a00, a21, a20),
               y01, y11, y21, t);
    Dot3Scaled(a10, a11, a12, Det2Of(a01, a02, a11, a12), Det2Of(a02, a00, a12, a10), Det2Of(a00, a01, a10, a11),
               y02, y12, y22, t);
  }

  /** Row 2 of a times the columns of its inverse y. */
  lemma InverseRow2(a00: real, a01: real, a02: real, a10: real, a11: real, a12: real, a20: real, a21: real, a22: real,
                    t: real, y00: real, y01: real, y02: real, y10: real, y11: real, y12: real, y20: real, y21: real, y22: real)
    requires Det3Of(a00, a01, a02, a10, a11, a12, a20, a21, a22) * t == 1.0 && IsScaledAdjugate3(a00, a01, a02, a10, a11, a12, a20, a21, a22, t, y00, y01, y02, y10, y11, y12, y20, y21, y22)
    ensures Dot3(a20, a21, a22, y00, y10, y20) == 0.0
    ensures Dot3(a20, a21, a22, y01, y11, y21) == 0.0
    ensures Dot3(a20, a21, a22, y02, y12, y22) == 1.0
  {
    ExpansionAlongRow2(a00, a01, a02, a10, a11, a12, a20, a21, a22);
    Dot3Scaled(a20, a21, a22, Det2Of(a11, a12, a21, a22), Det2Of(a12, a10, a22, a20), Det2Of(a10, a11, a20, a21),
               y00, y10, y20, t);
    Dot3Scaled(a20, a21, a22, Det2Of(a02, a01, a22, a21), Det2Of(a00, a02, a20, a22), Det2Of(a01, a00, a21, a20),
               y01, y11, y21, t);
    Dot3Scaled(a20, a21, a22, Det2Of(a01, a02, a11, a12), Det2Of(a02, a00, a12, a10), Det2Of(a00, a01, a10, a11),
               y02, y12, y22, t);
  }

  /** Row 0 of the inverse y times the columns of a. */
  lemma InverseColumn0(a00: real, a01: real, a02: real, a10: real, a11: real, a12: real, a20: real, a21: real, a22: real,
                       t: real, y00: real, y01: real, y02: real, y10: real, y11: real, y12: real, y20: real, y21: real, y22: real)
    requires Det3Of(a00, a01, a02, a10, a11, a12, a20, a21, a22) * t == 1.0 && IsScaledAdjugate3(a00, a01, a02, a10, a11, a12, a20, a21, a22, t, y00, y01, y02, y10, y11, y12, y20, y21, y22)
    ensures Dot3(y00, y01, y02, a00, a10, a20) == 1.0
    ensures Dot3(y00, y01, y02, a01, a11, a21) == 0.0
    ensures Dot3(y00, y01, y02, a02, a12, a22) == 0.0
  {
    ExpansionAlongColumn0(a00, a01, a02, a10, a11, a12, a20, a21, a22);
    Dot3Commutes(Det2Of(a11, a12, a21, a22), Det2Of(a02, a01, a22, a21), Det2Of(a01, a02, a11, a12),
                 a00, a10, a20);
    Dot3Scaled(a00, a10, a20, Det2Of(a11, a12, a21, a22), Det2Of(a02, a01, a22, a21), Det2Of(a01, a02, a11, a12),
               y00, y01, y02, t);
    Dot3Commutes(Det2Of(a11, a12, a21, a22), Det2Of(a02, a01, a22, a21), Det2Of(a01, a02, a11, a12),
                 a01, a11, a21);
    Dot3Scaled(a01, a11, a21, Det2Of(a11, a12, a21, a22), Det2Of(a02, a01, a22, a21), Det2Of(a01, a02, a11, a12),
               y00, y01, y02, t);
    Dot3Commutes(Det2Of(a11, a12, a21, a22), Det2Of(a02, a01, a22, a21), Det2Of(a01, a02, a11, a12),
                 a02, a12, a22);
    Dot3Scaled(a02, a12, a22, Det2Of(a11, a12, a21, a22), Det2Of(a02, a01, a22, a21), Det2Of(a01, a02, a11, a12),
               y00, y01, y02, t);
  }

  /** Row 1 of the inverse y times the columns of a. */
  lemma InverseColumn1(a00: real, a01: real, a02: real, a10: real, a11: real, a12: real, a20: real, a21: real, a22: real,
                       t: real, y00: real, y01: real, y02: real, y10: real, y11: real, y12: real, y20: real, y21: real, y22: real)
    requires Det3Of(a00, a01, a02, a10, a11, a12, a20, a21, a22) * t == 1.0 && IsScaledAdjugate3(a00, a01, a02, a10, a11, a12, a20, a21, a22, t, y00, y01, y02, y10, y11, y12, y20, y21, y22)
    ensures Dot3(y10, y11, y12, a00, a10, a20) == 0.0
    ensures Dot3(y10, y11, y12, a01, a11, a21) == 1.0
    ensures Dot3(y10, y11, y12, a02, a12, a22) == 0.0
  {
    ExpansionAlongColumn1(a00, a01, a02, a10, a11, a12, a20, a21, a22);
    Dot3Commutes(Det2Of(a12, a10, a22, a20), Det2Of(a00, a02, a20, a22), Det2Of(a02, a00, a12, a10),
                 a00, a10, a20);
    Dot3Scaled(a00, a10, a20, Det2Of(a12, a10, a22, a20), Det2Of(a00, a02, a20, a22), Det2Of(a02, a00, a12, a10),
               y10, y11, y12, t);
    Dot3Commutes(Det2Of(a12, a10, a22, a20), Det2Of(a00, a02, a20, a22), Det2Of(a02, a00, a12, a10),
                 a01, a11, a21);
    Dot3Scaled(a01, a11, a21, Det2Of(a12, a10, a22, a20), Det2Of(a00, a02, a20, a22), Det2Of(a02, a00, a12, a10),
               y10, y11, y12, t);
    Dot3Commutes(Det2Of(a12, a10, a22, a20), Det2Of(a00, a02, a20, a22), Det2Of(a02, a00, a12, a10),
                 a02, a12, a22);
    Dot3Scaled(a02, a12, a22, Det2Of(a12, a10, a22, a20), Det2Of(a00, a02, a20, a22), Det2Of(a02, a00, a12, a10),
               y10, y11, y12, t);
  }

  /** Row 2 of the inverse y times the columns of a. */
  lemma InverseColumn2(a00: real, a01: real, a02: real, a10: real, a11: real, a12: real, a20: real, a21: real, a22: real,
                       t: real, y00: real, y01: real, y02: real, y10: real, y11: real, y12: real, y20: real, y21: real, y22: real)
    requires Det3Of(a00, a01, a02, a10, a11, a12, a20, a21, a22) * t == 1.0 && IsScaledAdjugate3(a00, a01, a02, a10, a11, a12, a20, a21, a22, t, y00, y01, y02, y10, y11, y12, y20, y21, y22)
    ensures Dot3(y20, y21, y22, a00, a10, a20) == 0.0
    ensures Dot3(y20, y21, y22, a01, a11, a21) == 0.0
    ensures Dot3(y20, y21, y22, a02, a12, a22) == 1.0
  {
    ExpansionAlongColumn2(a00, a01, a02, a10, a11, a12, a20, a21, a22);
    Dot3Commutes(Det2Of(a10, a11, a20, a21), Det2Of(a01, a00, a21, a20), Det2Of(a00, a01, a10, a11),
                 a00, a10, a20);
    Dot3Scaled(a00, a10, a20, Det2Of(a10, a11, a20, a21), Det2Of(a01, a00, a21, a20), Det2Of(a00, a01, a10, a11),
               y20, y21, y22, t);
    Dot3Commutes(Det2Of(a10, a11, a20, a21), Det2Of(a01, a00, a21, a20), Det2Of(a00, a01, a10, a11),
                 a01, a11, a21);
    Dot3Scaled(a01, a11, a21, Det2Of(a10, a11, a20, a21), Det2Of(a01, a00, a21, a20), Det2Of(a00, a01, a10, a11),
               y20, y21, y22, t);
    Dot3Commutes(Det2Of(a10, a11, a20, a21), Det2Of(a01, a00, a21, a20), Det2Of(a00, a01, a10, a11),
                 a02, a12, a22);
    Dot3Scaled(a02, a12, a22, Det2Of(a10, a11, a20, a21), Det2Of(a01, a00, a21, a20), Det2Of(a00, a01, a10, a11),
               y20, y21, y22, t);
  }

  lemma Inverse3Works(a: seq<real>, det: real, inv: seq<real>)
    requires |a| == Size(3, 3) && det == Det3(a) && det != 0.0 && inv == Scaled(Adjugate3(a), 1.0 / det)
    ensures Product(a, 3, 3, inv, 3) == IdentityOf(3) && Product(inv, 3, 3, a, 3) == IdentityOf(3)
  {
    var t := 1.0 / det;
    Display9(a);
    assert det == Det3Of(a[0], a[1], a[2], a[3], a[4], a[5], a[6], a[7], a[8]);
    assert det * t == 1.0;
    ScaledAdjugate3(a, t);
    assert IsScaledAdjugate3(a[0], a[1], a[2], a[3], a[4], a[5], a[6], a[7], a[8], t, inv[0], inv[1], inv[2], inv[3], inv[4], inv[5], inv[6], inv[7], inv[8]);
    InverseRow0(a[0], a[1], a[2], a[3], a[4], a[5], a[6], a[7], a[8], t, inv[0], inv[1], inv[2], inv[3], inv[4], inv[5], inv[6], inv[7], inv[8]);
    InverseRow1(a[0], a[1], a[2], a[3], a[4], a[5], a[6], a[7], a[8], t, inv[0], inv[1], inv[2], inv[3], inv[4], inv[5], inv[6], inv[7], inv[8]);
    InverseRow2(a[0], a[1], a[2], a[3], a[4], a[5], a[6], a[7], a[8], t, inv[0], inv[1], inv[2], inv[3], inv[4], inv[5], inv[6], inv[7], inv[8]);
    InverseColumn0(a[0], a[1], a[2], a[3], a[4], a[5], a[6], a[7], a[8], t, inv[0], inv[1], inv[2], inv[3], inv[4], inv[5], inv[6], inv[7], inv[8]);
    InverseColumn1(a[0], a[1], a[2], a[3], a[4], a[5], a[6], a[7], a[8], t, inv[0], inv[1], inv[2], inv[3], inv[4], inv[5], inv[6], inv[7], inv[8]);
    InverseColumn2(a[0], a[1], a[2], a[3], a[4], a[5], a[6], a[7], a[8], t, inv[0], inv[1], inv[2], inv[3], inv[4], inv[5], inv[6], inv[7], inv[8]);
    Product3Flat(a, inv);
    Product3Flat(inv, a);
    Identity3();
  }

  /** The adjugate, position by position in the row-major buffer. */
  lemma Adjugate3Flat(a: seq<real>)
    requires |a| == Size(3, 3)
    ensures Adjugate3(a)
         == [Det2Of(a[4], a[5], a[7], a[8]),
            Det2Of(a[2], a[1], a[8], a[7]),
            Det2Of(a[1], a[2], a[4], a[5]),
            Det2Of(a[5], a[3], a[8], a[6]),
            Det2Of(a[0], a[2], a[6], a[8]),
            Det2Of(a[2], a[0], a[5], a[3]),
            Det2Of(a[3], a[4], a[6], a[7]),
            Det2Of(a[1], a[0], a[7], a[6]),
            Det2Of(a[0], a[1], a[3], a[4])]
  {
    Display9(a);
  }


  /** Equal factors give equal products. */
  lemma SameProduct(x: real, y: real, t: real)
    requires x == y
    ensures x * t == y * t
  {
  }

  /** The scaled adjugate, position by position in the row-major buffer. */
  lemma ScaledAdjugate3(a: seq<real>, t: real)
    requires |a| == Size(3, 3)
    ensures |Scaled(Adjugate3(a), t)| == 9 && Scaled(Adjugate3(a), t)[0] == Det2Of(a[4], a[5], a[7], a[8]) * t
    ensures |Scaled(Adjugate3(a), t)| == 9 && Scaled(Adjugate3(a), t)[1] == Det2Of(a[2], a[1], a[8], a[7]) * t
    ensures |Scaled(Adjugate3(a), t)| == 9 && Scaled(Adjugate3(a), t)[2] == Det2Of(a[1], a[2], a[4], a[5]) * t
    ensures |Scaled(Adjugate3(a), t)| == 9 && Scaled(Adjugate3(a), t)[3] == Det2Of(a[5], a[3], a[8], a[6]) * t
    ensures |Scaled(Adjugate3(a), t)| == 9 && Scaled(Adjugate3(a), t)[4] == Det2Of(a[0], a[2], a[6], a[8]) * t
    ensures |Scaled(Adjugate3(a), t)| == 9 && Scaled(Adjugate3(a), t)[5] == Det2Of(a[2], a[0], a[5], a[3]) * t
    ensures |Scaled(Adjugate3(a), t)| == 9 && Scaled(Adjugate3(a), t)[6] == Det2Of(a[3], a[4], a[6], a[7]) * t
    ensures |Scaled(Adjugate3(a), t)| == 9 && Scaled(Adjugate3(a), t)[7] == Det2Of(a[1], a[0], a[7], a[6]) * t
    ensures |Scaled(Adjugate3(a), t)| == 9 && Scaled(Adjugate3(a), t)[8] == Det2Of(a[0], a[1], a[3], a[4]) * t
  {
    Adjugate3Flat(a);
    var r := Scaled(Adjugate3(a), t);
    SameProduct(Adjugate3(a)[0], Det2Of(a[4], a[5], a[7], a[8]), t);
    SameProduct(Adjugate3(a)[1], Det2Of(a[2], a[1], a[8], a[7]), t);
    SameProduct(Adjugate3(a)[2], Det2Of(a[1], a[2], a[4], a[5]), t);
    SameProduct(Adjugate3(a)[3], Det2Of(a[5], a[3], a[8], a[6]), t);
    SameProduct(Adjugate3(a)[4], Det2Of(a[0], a[2], a[6], a[8]), t);
    SameProduct(Adjugate3(a)[5], Det2Of(a[2], a[0], a[5], a[3]), t);
    SameProduct(Adjugate3(a)[6], Det2Of(a[3], a[4], a[6], a[7]), t);
    SameProduct(Adjugate3(a)[7], Det2Of(a[1], a[0], a[7], a[6]), t);
    SameProduct(Adjugate3(a)[8], Det2Of(a[0], a[1], a[3], a[4]), t);
  }

  /** inverse(SquareMatrix<T,2>) on a matrix object: fill the adjugate, then divide it by det in place. */
  method Inverse2(A: Matrix) returns (r: Result<Matrix>)
    requires A.Valid() && A.M == 2 && A.N == 2
    ensures r.Err? <==> Inverse2Of(A.Contents()).Err?
    ensures r.Err? ==> r.error == RuntimeError
    ensures r.Ok? ==> fresh(r.value) && fresh(r.value.data) && r.value.Valid() && r.value.M == 2 && r.value.N == 2
    ensures r.Ok? ==> r.value.Contents() == Inverse2Of(A.Contents()).value
  {
    ghost var a := A.Contents();
    var d := A.data;
    var det := Det2Of(d[0], d[1], d[2], d[3]);
    Display4(a);
    assert det == Det2(a);
    if MatrixAlgebra.Abs(det) < SingularBound {
      return Err(RuntimeError);
    }
    var inv := new Matrix.Zero(2, 2);
    inv.data[0] := d[3];
    inv.data[1] := -d[1];
    inv.data[2] := -d[2];
    inv.data[3] := d[0];
    assert inv.Contents() == Adjugate2(a);
    inv.DivScalarAssign(det);
    return Ok(inv);
  }

  /** The determinant and the adjugate in terms of the nine entries read from the buffer. */
  lemma Entries3(a: seq<real>, a00: real, a01: real, a02: real, a10: real, a11: real, a12: real, a20: real, a21: real, a22: real)
    requires a == [a00, a01, a02, a10, a11, a12, a20, a21, a22]
    ensures Det3(a) == Det3Of(a00, a01, a02, a10, a11, a12, a20, a21, a22)
    ensures Adjugate3(a)
         == [Det2Of(a11, a12, a21, a22),
            Det2Of(a02, a01, a22, a21),
            Det2Of(a01, a02, a11, a12),
            Det2Of(a12, a10, a22, a20),
            Det2Of(a00, a02, a20, a22),
            Det2Of(a02, a00, a12, a10),
            Det2Of(a10, a11, a20, a21),
            Det2Of(a01, a00, a21, a20),
            Det2Of(a00, a01, a10, a11)]
  {
    Display9(a);
  }

  /** inverse(SquareMatrix<T,3>) on a matrix object: each entry is detinv times its cofactor. */
  method Inverse3(A: Matrix) returns (r: Result<Matrix>)
    requires A.Valid() && A.M == 3 && A.N == 3
    ensures r.Err? <==> Inverse3Of(A.Contents()).Err?
    ensures r.Err? ==> r.error == RuntimeError
    ensures r.Ok? ==> fresh(r.value) && fresh(r.value.data) && r.value.Valid() && r.value.M == 3 && r.value.N == 3
    ensures r.Ok? ==> r.value.Contents() == Inverse3Of(A.Contents()).value
  {
    var a00, a01, a02 := A.data[0], A.data[1], A.data[2];
    var a10, a11, a12 := A.data[3], A.data[4], A.data[5];
    var a20, a21, a22 := A.data[6], A.data[7], A.data[8];
    assert A.Contents() == [a00, a01, a02, a10, a11, a12, a20, a21, a22];
    Entries3(A.Contents(), a00, a01, a02, a10, a11, a12, a20, a21, a22);
    var det := Det3Of(a00, a01, a02, a10, a11, a12, a20, a21, a22);
    if MatrixAlgebra.Abs(det) < SingularBound {
      return Err(RuntimeError);
    }
    var inv := new Matrix.Zero(3, 3);
    var detinv := 1.0 / det;
    inv.data[0] := Det2Of(a11, a12, a21, a22);
    inv.data[1] := Det2Of(a02, a01, a22, a21);
    inv.data[2] := Det2Of(a01, a02, a11, a12);
    inv.data[3] := Det2Of(a12, a10, a22, a20);
    inv.data[4] := Det2Of(a00, a02, a20, a22);
    inv.data[5] := Det2Of(a02, a00, a12, a10);
    inv.data[6] := Det2Of(a10, a11, a20, a21);
    inv.data[7] := Det2Of(a01, a00, a21, a20);
    inv.data[8] := Det2Of(a00, a01, a10, a11);
    assert inv.Contents() == [Det2Of(a11, a12, a21, a22),
                       Det2Of(a02, a01, a22, a21),
                       Det2Of(a01, a02, a11, a12),
                       Det2Of(a12, a10, a22, a20),
                       Det2Of(a00, a02, a20, a22),
                       Det2Of(a02, a00, a12, a10),
                       Det2Of(a10, a11, a20, a21),
                       Det2Of(a01, a00, a21, a20),
                       Det2Of(a00, a01, a10, a11)];
    inv.MulScalarAssign(detinv);
    return Ok(inv);
  }




  /** The inverse examples of the unit tests: a singular matrix and an exact 2x2 inverse. */
  lemma SingularExample()
    ensures Inverse2Of([0.0, 0.0, 6.0, 5.0]) == Err(RuntimeError)
  {
  }

  lemma InverseExample()
    ensures Inverse2Of([3.0, -4.0, 2.0, 1.0]) == Ok([1.0 / 11.0, 4.0 / 11.0, -2.0 / 11.0, 3.0 / 11.0])
  {
    assert Adjugate2([3.0, -4.0, 2.0, 1.0]) == [1.0, 4.0, -2.0, 3.0];
    assert Quotient([1.0, 4.0, -2.0, 3.0], 11.0) == [1.0 / 11.0, 4.0 / 11.0, -2.0 / 11.0, 3.0 / 11.0];
  }
}
