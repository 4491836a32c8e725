/**
 * Column vectors: a Vector of size M is an M-by-1 Matrix, so entry i of the
 * vector is entry (i, 0) of the matrix and sits at buffer position i. The
 * constructors and operators below build or read such matrices; dot() is a
 * loop proved to compute DotOf, the sum of the pairwise products.
 */
module Vectors {
  import opened Errors
  import opened RowMajor
  import opened MatrixAlgebra
  import opened Matrices

  /** v is a well-formed vector of size m: an m-by-1 matrix. */
  ghost predicate IsVector(v: Matrix, m: nat)
    reads v
  {
    v.Valid() && v.M == m && v.N == 1 && v.data.Length == m
  }

  /** An m-by-1 buffer has m entries, and entry (i, 0) is position i. */
  lemma ColumnLayout(m: nat, i: nat)
    ensures Size(m, 1) == m
    ensures Idx(1, i, 0) == i
  {
    IdxIsRowMajor(1, m, 0);
    IdxIsRowMajor(1, i, 0);
  }

  // ---------------------------------------------------------------------
  // The value-level dot product
  // ---------------------------------------------------------------------

  /** a[0]*b[0] + a[1]*b[1] + ... , accumulated from the front as dot() does. */
  function DotOf(a: seq<real>, b: seq<real>): (r: real)
    requires |a| == |b|
    ensures a == b ==> r >= 0.0
    decreases |a|
  {
    if |a| == 0 then 0.0
    else
      SquareNonNegative(a[|a| - 1]);
      DotOf(a[..|a| - 1], b[..|b| - 1]) + a[|a| - 1] * b[|b| - 1]
  }

  /** The dot product does not depend on the order of its operands. */
  lemma {:induction false} DotSymmetric(a: seq<real>, b: seq<real>)
    requires |a| == |b|
    ensures DotOf(a, b) == DotOf(b, a)
    decreases |a|
  {
    if |a| > 0 {
      DotSymmetric(a[..|a| - 1], b[..|b| - 1]);
    }
  }

  /** The first k terms of the matrix product of the row a^T and the column b. */
  lemma {:induction false} RowDotIsDot(a: seq<real>, b: seq<real>, k: nat)
    requires |a| == |b| && k <= |a|
    ensures RowDot(a, 1, |a|, b, 1, 0, 0, k) == DotOf(a[..k], b[..k])
    decreases k
  {
    if k > 0 {
      RowDotIsDot(a, b, k - 1);
      assert a[..k][..k - 1] == a[..k - 1];
      assert b[..k][..k - 1] == b[..k - 1];
      ColumnLayout(|a|, k - 1);
      IdxIsRowMajor(|a|, 1, 0);
      IdxIsRowMajor(|a|, 0, k - 1);
      assert At(a, 1, |a|, 0, k - 1) == a[k - 1];
      assert At(b, |a|, 1, k - 1, 0) == b[k - 1];
    }
  }

  /**
   * The dot product is the 1-by-1 matrix product of a transposed (a 1-by-M row,
   * which has the same buffer as the M-by-1 column a) and b.
   */
  lemma DotIsProduct(a: seq<real>, b: seq<real>)
    requires |a| == |b|
    ensures |a| == Size(1, |a|) && |b| == Size(|b|, 1)
    ensures Product(a, 1, |a|, b, 1) == [DotOf(a, b)]
  {
    ColumnLayout(|b|, 0);
    IdxIsRowMajor(|a|, 1, 0);
    RowDotIsDot(a, b, |a|);
    assert a[..|a|] == a && b[..|b|] == b;
    var p := Product(a, 1, |a|, b, 1);
    IdxIsRowMajor(1, 1, 0);
    ProductAt(a, 1, |a|, b, 1, 0, 0);
    AtIdx(p, 1, 1, 0, 0);
    IdxIsRowMajor(1, 0, 0);
  }

  /** The two dot products checked by the library's tests. */
  lemma DotExamples()
    ensures DotOf([1.1, 2.2, 3.3, 4.4], [0.5, 7.2, 1.4, 3.3]) == 35.53
    ensures DotOf([0.5, 7.2, 1.4, 3.3], [1.1, 2.2, 3.3, 4.4]) == 35.53
    ensures DotOf([4.0, 5.0, 8.0], [3.0, 8.0, -7.0]) == -4.0
    ensures DotOf([3.0, 8.0, -7.0], [4.0, 5.0, 8.0]) == -4.0
  {
    var a, b := [1.1, 2.2, 3.3, 4.4], [0.5, 7.2, 1.4, 3.3];
    assert DotOf(a[..1], b[..1]) == 0.55 by { assert a[..1][..0] == [] && b[..1][..0] == []; }
    assert DotOf(a[..2], b[..2]) == 16.39 by { assert a[..2][..1] == a[..1] && b[..2][..1] == b[..1]; }
    assert DotOf(a[..3], b[..3]) == 21.01 by { assert a[..3][..2] == a[..2] && b[..3][..2] == b[..2]; }
    assert a[..3] == a[..|a| - 1] && b[..3] == b[..|b| - 1];
    DotSymmetric(a, b);
    var c, d := [4.0, 5.0, 8.0], [3.0, 8.0, -7.0];
    assert DotOf(c[..1], d[..1]) == 12.0 by { assert c[..1][..0] == [] && d[..1][..0] == []; }
    assert DotOf(c[..2], d[..2]) == 52.0 by { assert c[..2][..1] == c[..1] && d[..2][..1] == d[..1]; }
    assert c[..2] == c[..|c| - 1] && d[..2] == d[..|d| - 1];
    DotSymmetric(c, d);
  }

  // ---------------------------------------------------------------------
  // Constructors
  // ---------------------------------------------------------------------

  /** Vector(): m zeros. */
  method Zeros(m: nat) returns (v: Matrix)
    ensures fresh(v) && fresh(v.data) && IsVector(v, m)
    ensures v.Contents() == Filled(m, 0.0)
  {
    ColumnLayout(m, 0);
    v := new Matrix.Zero(m, 1);
  }

  /** Vector(values[M]): a copy of the m values. */
  method FromArray(m: nat, values: seq<real>) returns (v: Matrix)
    requires |values| == m
    ensures fresh(v) && fresh(v.data) && IsVector(v, m)
    ensures v.Contents() == values
  {
    ColumnLayout(m, 0);
    v := new Matrix.FromFlat(m, 1, values);
  }

  /**
   * Vector{...}: InvalidArgument unless the list has exactly m entries;
   * otherwise the entries are copied into the buffer one by one.
   */
  method FromList(m: nat, list: seq<real>) returns (r: Result<Matrix>)
    ensures r.Err? <==> |list| != m
    ensures r.Err? ==> r.error == InvalidArgument
    ensures r.Ok? ==> fresh(r.value) && fresh(r.value.data) && IsVector(r.value, m)
    ensures r.Ok? ==> r.value.Contents() == list
  {
    if |list| != m {
      return Err(InvalidArgument);
    }
    ColumnLayout(m, 0);
    var v := new Matrix.Zero(m, 1);
    var i := 0;
    while i < m
      invariant 0 <= i <= m
      invariant forall t :: 0 <= t < i ==> v.data[t] == list[t]
    {
      v.data[i] := list[i];
      i := i + 1;
    }
    return Ok(v);
  }

  /** Vector(other) for a vector or an m-by-1 matrix: a copy with its own buffer. */
  method FromMatrix(other: Matrix) returns (v: Matrix)
    requires other.Valid() && other.N == 1
    ensures fresh(v) && fresh(v.data) && IsVector(v, other.M)
    ensures v.Contents() == other.Contents()
  {
    ColumnLayout(other.M, 0);
    v := new Matrix.Copy(other);
  }

  // ---------------------------------------------------------------------
  // Access
  // ---------------------------------------------------------------------

  /** operator()(i) const: entry (i, 0) of the matrix; DomainError unless i < M. */
  function Element(v: Matrix, i: nat): (r: Result<real>)
    requires IsVector(v, v.M)
    reads v, v.data
    ensures r.Ok? <==> i < v.M
    ensures r.Err? ==> r.error == DomainError
    ensures r.Ok? ==> i < |v.Contents()| && r.value == v.Contents()[i]
  {
    ColumnLayout(v.M, i);
    v.Get(i, 0)
  }

  /** Assignment through operator()(i): entry i becomes x, or DomainError and no change. */
  method SetElement(v: Matrix, i: nat, x: real) returns (st: Status)
    requires IsVector(v, v.M)
    modifies v.data
    ensures i < v.M ==> st == Done && v.Contents() == old(v.Contents())[i := x]
    ensures i >= v.M ==> st == Failed(DomainError) && v.Contents() == old(v.Contents())
  {
    ColumnLayout(v.M, i);
    st := v.Set(i, 0, x);
  }

  /** size(): the number of entries, M. */
  function Dimension(v: Matrix): (r: nat)
    requires IsVector(v, v.M)
    reads v, v.data
    ensures r == |v.Contents()|
  {
    ColumnLayout(v.M, 0);
    v.M
  }

  // ---------------------------------------------------------------------
  // Products
  // ---------------------------------------------------------------------

  /** dot(b): the loop value += a(i) * b(i) for i = 0 .. M-1, starting from 0. */
  method Dot(a: Matrix, b: Matrix) returns (value: real)
    requires IsVector(a, a.M) && IsVector(b, a.M)
    ensures value == DotOf(a.Contents(), b.Contents())
  {
    ColumnLayout(a.M, 0);
    value := 0.0;
    var i := 0;
    while i < a.M
      invariant 0 <= i <= a.M
      invariant value == DotOf(a.data[..i], b.data[..i])
    {
      assert a.data[..i + 1][..i] == a.data[..i];
      assert b.data[..i + 1][..i] == b.data[..i];
      value := value + a.data[i] * b.data[i];
      i := i + 1;
    }
    assert a.data[..a.M] == a.Contents() && b.data[..a.M] == b.Contents();
  }

  /** operator*(b) between two vectors: the dot product, in either order. */
  method Times(a: Matrix, b: Matrix) returns (value: real)
    requires IsVector(a, a.M) && IsVector(b, a.M)
    ensures value == DotOf(a.Contents(), b.Contents())
    ensures value == DotOf(b.Contents(), a.Contents())
  {
    value := Dot(a, b);
    DotSymmetric(a.Contents(), b.Contents());
  }

  /** operator*(value): every entry multiplied by x, as a new vector. */
  method TimesScalar(a: Matrix, x: real) returns (r: Matrix)
    requires IsVector(a, a.M)
    ensures fresh(r) && fresh(r.data) && IsVector(r, a.M)
    ensures r.Contents() == Scaled(a.Contents(), x)
  {
    var m := a.MulScalar(x);
    r := FromMatrix(m);
  }

  /** The scalar products checked by the library's tests, v * 5 and 4.3 * v. */
  lemma ScaledExamples()
    ensures Scaled([4.4, 3.3, 2.2, 1.1], 5.0) == [22.0, 16.5, 11.0, 5.5]
    ensures Scaled([4.4, 3.3, 2.2, 1.1], 4.3) == [18.92, 14.19, 9.46, 4.73]
  {
  }

  /** Scaling by x scales the dot product by x. */
  lemma {:induction false} DotScaled(a: seq<real>, b: seq<real>, x: real)
    requires |a| == |b|
    ensures DotOf(Scaled(a, x), b) == x * DotOf(a, b)
    decreases |a|
  {
    if |a| > 0 {
      var n := |a| - 1;
      assert forall k :: 0 <= k < n ==> Scaled(a, x)[..n][k] == Scaled(a[..n], x)[k];
      assert Scaled(a, x)[..n] == Scaled(a[..n], x);
      DotScaled(a[..n], b[..n], x);
      var head, last := DotOf(a[..n], b[..n]), a[n] * b[n];
      assert Scaled(a, x)[n] * b[n] == x * last;
      assert x * (head + last) == x * head + x * last;
    }
  }

  /** The dot product distributes over the vector sum. */
  lemma {:induction false} DotSum(a: seq<real>, c: seq<real>, b: seq<real>)
    requires |a| == |b| && |c| == |b|
    ensures DotOf(Sum(a, c), b) == DotOf(a, b) + DotOf(c, b)
    decreases |a|
  {
    if |a| > 0 {
      var n := |a| - 1;
      assert Sum(a, c)[..n] == Sum(a[..n], c[..n]);
      DotSum(a[..n], c[..n], b[..n]);
      assert Sum(a, c)[n] * b[n] == a[n] * b[n] + c[n] * b[n];
    }
  }
}
