/**
 * The fixed-size matrix container: an M-by-N matrix owns a row-major buffer
 * `data` of M*N reals. Every method is proved to leave (or return) exactly the
 * buffer that the matching function of MatrixAlgebra describes.
 */
module Matrices {
  import opened Errors
  import opened RowMajor
  import opened MatrixAlgebra

  class Matrix {
    const M: nat
    const N: nat
    const data: array<real>

    ghost predicate Valid()
      reads this
    {
      data.Length == Size(M, N)
    }

    /** The abstract value of the matrix: its buffer, row by row. */
    function Contents(): seq<real>
      reads this, data
    {
      data[..]
    }

    /** The default constructor: every entry is zero. */
    constructor Zero(m: nat, n: nat)
      ensures M == m && N == n && Valid() && fresh(data)
      ensures Contents() == Filled(Size(m, n), 0.0)
    {
      var d := new real[Size(m, n)];
      var k := 0;
      while k < Size(m, n)
        invariant 0 <= k <= Size(m, n)
        invariant forall t :: 0 <= t < k ==> d[t] == 0.0
      {
        d[k] := 0.0;
        k := k + 1;
      }
      M, N, data := m, n, d;
    }

    /** The 2-D array constructor: values[i][j] is stored at i*N + j. */
    constructor FromGrid(m: nat, n: nat, values: seq<seq<real>>)
      requires |values| == m && forall i :: 0 <= i < m ==> |values[i]| == n
      ensures M == m && N == n && Valid() && fresh(data)
      ensures Contents() == Grid(values, m, n)
    {
      var d := new real[Size(m, n)];
      FillGrid(d, m, n, values);
      M, N, data := m, n, d;
    }

    /** The flat-array constructor: the buffer is a copy of values. */
    constructor FromFlat(m: nat, n: nat, values: seq<real>)
      requires |values| == Size(m, n)
      ensures M == m && N == n && Valid() && fresh(data)
      ensures Contents() == values
    {
      var d := new real[Size(m, n)];
      var k := 0;
      while k < Size(m, n)
        invariant 0 <= k <= Size(m, n)
        invariant forall t :: 0 <= t < k ==> d[t] == values[t]
      {
        d[k] := values[k];
        k := k + 1;
      }
      M, N, data := m, n, d;
    }

    /** The (defaulted) copy constructor: a new buffer holding the same entries. */
    constructor Copy(other: Matrix)
      requires other.Valid()
      ensures M == other.M && N == other.N && Valid() && fresh(data)
      ensures Contents() == other.Contents()
    {
      var d := new real[Size(other.M, other.N)];
      var k := 0;
      while k < Size(other.M, other.N)
        invariant 0 <= k <= Size(other.M, other.N)
        invariant forall t :: 0 <= t < k ==> d[t] == other.data[t]
      {
        d[k] := other.data[k];
        k := k + 1;
      }
      M, N, data := other.M, other.N, d;
    }

    /**
     * The nested initializer-list constructor. It rejects the list with
     * InvalidArgument unless it has m rows and its FIRST row has n entries; the
     * other rows are read up to column n without their lengths being checked.
     */
    static method FromList(m: nat, n: nat, list: seq<seq<real>>) returns (r: Result<Matrix>)
      requires |list| > 0
      requires |list| == m && |list[0]| == n ==> forall i :: 0 <= i < m ==> |list[i]| >= n
      ensures r.Err? <==> |list| != m || |list[0]| != n
      ensures r.Err? ==> r.error == InvalidArgument
      ensures r.Ok? ==> fresh(r.value) && fresh(r.value.data) && r.value.Valid()
      ensures r.Ok? ==> r.value.M == m && r.value.N == n && r.value.Contents() == Grid(list, m, n)
    {
      if |list| != m || |list[0]| != n {
        return Err(InvalidArgument);
      }
      var res := new Matrix.Zero(m, n);
      FillGrid(res.data, m, n, list);
      return Ok(res);
    }

    /** operator() const: entry (i, j), or DomainError outside the matrix. */
    function Get(i: nat, j: nat): (r: Result<real>)
      requires Valid()
      reads this, data
      ensures r.Ok? <==> i < M && j < N
      ensures r.Err? ==> r.error == DomainError
      ensures r.Ok? ==> Idx(N, i, j) < data.Length && r.value == data[Idx(N, i, j)] && r.value == At(Contents(), M, N, i, j)
    {
      if i >= M || j >= N then
        Err(DomainError)
      else
        IdxBound(M, N, i, j);
        Ok(data[Idx(N, i, j)])
    }

    /** Assignment through operator(): entry (i, j) becomes v, or DomainError and no change. */
    method Set(i: nat, j: nat, v: real) returns (st: Status)
      requires Valid()
      modifies data
      ensures i < M && j < N ==> st == Done && Contents() == Put(old(Contents()), M, N, i, j, v)
      ensures !(i < M && j < N) ==> st == Failed(DomainError) && Contents() == old(Contents())
    {
      if i >= M || j >= N {
        return Failed(DomainError);
      }
      IdxBound(M, N, i, j);
      data[Idx(N, i, j)] := v;
      return Done;
    }

    method Add(other: Matrix) returns (r: Matrix)
      requires Valid() && other.Valid() && other.M == M && other.N == N
      ensures fresh(r) && fresh(r.data) && r.Valid() && r.M == M && r.N == N
      ensures r.Contents() == Sum(Contents(), other.Contents())
    {
      r := new Matrix.Zero(M, N);
      var k := 0;
      while k < Size(M, N)
        invariant 0 <= k <= Size(M, N)
        invariant forall t :: 0 <= t < k ==> r.data[t] == data[t] + other.data[t]
      {
        r.data[k] := data[k] + other.data[k];
        k := k + 1;
      }
    }

    method Sub(other: Matrix) returns (r: Matrix)
      requires Valid() && other.Valid() && other.M == M && other.N == N
      ensures fresh(r) && fresh(r.data) && r.Valid() && r.M == M && r.N == N
      ensures r.Contents() == Difference(Contents(), other.Contents())
    {
      r := new Matrix.Zero(M, N);
      var k := 0;
      while k < Size(M, N)
        invariant 0 <= k <= Size(M, N)
        invariant forall t :: 0 <= t < k ==> r.data[t] == data[t] - other.data[t]
      {
        r.data[k] := data[k] - other.data[k];
        k := k + 1;
      }
    }

    /** The matrix product: result(i,j) accumulates this(i,k) * other(k,j) for k = 0 .. N-1. */
    method Mul(other: Matrix) returns (r: Matrix)
      requires Valid() && other.Valid() && other.M == N
      ensures fresh(r) && fresh(r.data) && r.Valid() && r.M == M && r.N == other.N
      ensures r.Contents() == Product(Contents(), M, N, other.Contents(), other.N)
    {
      var p := other.N;
      ghost var a, b := Contents(), other.Contents();
      r := new Matrix.Zero(M, p);
      FilledAt(M, p, 0.0);
      var i := 0;
      while i < M
        invariant 0 <= i <= M
        invariant forall i': nat, j': nat :: i' < M && j' < p ==>
          At(r.data[..], M, p, i', j') == if i' < i then RowDot(a, M, N, b, p, i', j', N) else 0.0
      {
        var j := 0;
        while j < p
          invariant 0 <= j <= p
          invariant forall i': nat, j': nat :: i' < M && j' < p ==>
            At(r.data[..], M, p, i', j') == if Before(i', j', i, j) then RowDot(a, M, N, b, p, i', j', N) else 0.0
        {
          var k := 0;
          while k < N
            invariant 0 <= k <= N
            invariant forall i': nat, j': nat :: i' < M && j' < p ==>
              At(r.data[..], M, p, i', j') ==
                if Before(i', j', i, j) then RowDot(a, M, N, b, p, i', j', N)
                else if i' == i && j' == j then RowDot(a, M, N, b, p, i, j, k)
                else 0.0
          {
            ghost var before := r.data[..];
            assert At(before, M, p, i, j) == RowDot(a, M, N, b, p, i, j, k);
            AtIdx(before, M, p, i, j);
            AtIdx(a, M, N, i, k);
            AtIdx(b, N, p, k, j);
            assert data[Idx(N, i, k)] == At(a, M, N, i, k);
            assert other.data[Idx(p, k, j)] == At(b, N, p, k, j);
            assert r.data[Idx(p, i, j)] + data[Idx(N, i, k)] * other.data[Idx(p, k, j)] == RowDot(a, M, N, b, p, i, j, k + 1);
            r.data[Idx(p, i, j)] := r.data[Idx(p, i, j)] + data[Idx(N, i, k)] * other.data[Idx(p, k, j)];
            assert r.data[..] == Put(before, M, p, i, j, RowDot(a, M, N, b, p, i, j, k + 1));
            AtPut(before, M, p, i, j, RowDot(a, M, N, b, p, i, j, k + 1));
            k := k + 1;
          }
          j := j + 1;
        }
        i := i + 1;
      }
      forall i': nat, j': nat | i' < M && j' < p
        ensures At(r.data[..], M, p, i', j') == At(Product(a, M, N, b, p), M, p, i', j')
      {
        ProductAt(a, M, N, b, p, i', j');
      }
      SameEntries(r.data[..], Product(a, M, N, b, p), M, p);
    }

    method AddAssign(other: Matrix)
      requires Valid() && other.Valid() && other.M == M && other.N == N
      modifies data
      ensures Contents() == Sum(old(Contents()), old(other.Contents()))
    {
      ghost var a, b := Contents(), other.Contents();
      var k := 0;
      while k < Size(M, N)
        invariant 0 <= k <= Size(M, N)
        invariant forall t :: 0 <= t < k ==> data[t] == a[t] + b[t]
        invariant forall t :: k <= t < Size(M, N) ==> data[t] == a[t] && other.data[t] == b[t]
      {
        data[k] := data[k] + other.data[k];
        k := k + 1;
      }
    }

    method SubAssign(other: Matrix)
      requires Valid() && other.Valid() && other.M == M && other.N == N
      modifies data
      ensures Contents() == Difference(old(Contents()), old(other.Contents()))
    {
      ghost var a, b := Contents(), other.Contents();
      var k := 0;
      while k < Size(M, N)
        invariant 0 <= k <= Size(M, N)
        invariant forall t :: 0 <= t < k ==> data[t] == a[t] - b[t]
        invariant forall t :: k <= t < Size(M, N) ==> data[t] == a[t] && other.data[t] == b[t]
      {
        data[k] := data[k] - other.data[k];
        k := k + 1;
      }
    }

    /** *= replaces this by this * other, which needs other to be N-by-N. */
    method MulAssign(other: Matrix)
      requires Valid() && other.Valid() && other.M == N && other.N == N
      modifies data
      ensures Contents() == Product(old(Contents()), M, N, old(other.Contents()), N)
    {
      var r := Mul(other);
      ghost var product := r.Contents();
      var k := 0;
      while k < Size(M, N)
        invariant 0 <= k <= Size(M, N)
        invariant r.data[..] == product
        invariant forall t :: 0 <= t < k ==> data[t] == r.data[t]
      {
        data[k] := r.data[k];
        k := k + 1;
      }
      assert data[..] == r.data[..];
    }

    method Neg() returns (r: Matrix)
      requires Valid()
      ensures fresh(r) && fresh(r.data) && r.Valid() && r.M == M && r.N == N
      ensures r.Contents() == Negation(Contents())
    {
      r := new Matrix.Zero(M, N);
      var k := 0;
      while k < Size(M, N)
        invariant 0 <= k <= Size(M, N)
        invariant forall t :: 0 <= t < k ==> r.data[t] == -data[t]
      {
        r.data[k] := -data[k];
        k := k + 1;
      }
    }

    method AddScalar(v: real) returns (r: Matrix)
      requires Valid()
      ensures fresh(r) && fresh(r.data) && r.Valid() && r.M == M && r.N == N
      ensures r.Contents() == Shift(Contents(), v)
    {
      r := new Matrix.Zero(M, N);
      var k := 0;
      while k < Size(M, N)
        invariant 0 <= k <= Size(M, N)
        invariant forall t :: 0 <= t < k ==> r.data[t] == data[t] + v
      {
        r.data[k] := data[k] + v;
        k := k + 1;
      }
    }

    method SubScalar(v: real) returns (r: Matrix)
      requires Valid()
      ensures fresh(r) && fresh(r.data) && r.Valid() && r.M == M && r.N == N
      ensures r.Contents() == Shift(Contents(), -v)
    {
      r := new Matrix.Zero(M, N);
      var k := 0;
      while k < Size(M, N)
        invariant 0 <= k <= Size(M, N)
        invariant forall t :: 0 <= t < k ==> r.data[t] == data[t] - v
      {
        r.data[k] := data[k] - v;
        k := k + 1;
      }
    }

    method MulScalar(v: real) returns (r: Matrix)
      requires Valid()
      ensures fresh(r) && fresh(r.data) && r.Valid() && r.M == M && r.N == N
      ensures r.Contents() == Scaled(Contents(), v)
    {
      r := new Matrix.Zero(M, N);
      var k := 0;
      while k < Size(M, N)
        invariant 0 <= k <= Size(M, N)
        invariant forall t :: 0 <= t < k ==> r.data[t] == data[t] * v
      {
        r.data[k] := data[k] * v;
        k := k + 1;
      }
      assert forall t :: 0 <= t < Size(M, N) ==> r.Contents()[t] == Scaled(Contents(), v)[t];
    }

    method DivScalar(v: real) returns (r: Matrix)
      requires Valid() && v != 0.0
      ensures fresh(r) && fresh(r.data) && r.Valid() && r.M == M && r.N == N
      ensures r.Contents() == Quotient(Contents(), v)
    {
      r := new Matrix.Zero(M, N);
      var k := 0;
      while k < Size(M, N)
        invariant 0 <= k <= Size(M, N)
        invariant forall t :: 0 <= t < k ==> r.data[t] == data[t] / v
      {
        r.data[k] := data[k] / v;
        k := k + 1;
      }
    }

    method AddScalarAssign(v: real)
      requires Valid()
      modifies data
      ensures Contents() == Shift(old(Contents()), v)
    {
      ghost var a := Contents();
      var k := 0;
      while k < Size(M, N)
        invariant 0 <= k <= Size(M, N)
        invariant forall t :: 0 <= t < k ==> data[t] == a[t] + v
        invariant forall t :: k <= t < Size(M, N) ==> data[t] == a[t]
      {
        data[k] := data[k] + v;
        k := k + 1;
      }
    }

    method SubScalarAssign(v: real)
      requires Valid()
      modifies data
      ensures Contents() == Shift(old(Contents()), -v)
    {
      ghost var a := Contents();
      var k := 0;
      while k < Size(M, N)
        invariant 0 <= k <= Size(M, N)
        invariant forall t :: 0 <= t < k ==> data[t] == a[t] - v
        invariant forall t :: k <= t < Size(M, N) ==> data[t] == a[t]
      {
        data[k] := data[k] - v;
        k := k + 1;
      }
    }

    method MulScalarAssign(v: real)
      requires Valid()
      modifies data
      ensures Contents() == Scaled(old(Contents()), v)
    {
      ghost var a := Contents();
      var k := 0;
      while k < Size(M, N)
        invariant 0 <= k <= Size(M, N)
        invariant forall t :: 0 <= t < k ==> data[t] == a[t] * v
        invariant forall t :: k <= t < Size(M, N) ==> data[t] == a[t]
      {
        data[k] := data[k] * v;
        k := k + 1;
      }
      assert forall t :: 0 <= t < Size(M, N) ==> Contents()[t] == Scaled(a, v)[t];
    }

    method DivScalarAssign(v: real)
      requires Valid() && v != 0.0
      modifies data
      ensures Contents() == Quotient(old(Contents()), v)
    {
      ghost var a := Contents();
      var k := 0;
      while k < Size(M, N)
        invariant 0 <= k <= Size(M, N)
        invariant forall t :: 0 <= t < k ==> data[t] == a[t] / v
        invariant forall t :: k <= t < Size(M, N) ==> data[t] == a[t]
      {
        data[k] := data[k] / v;
        k := k + 1;
      }
    }

    /** operator==: compares the buffers position by position and stops at the first difference. */
    method Equal(other: Matrix) returns (eq: bool)
      requires Valid() && other.Valid() && other.M == M && other.N == N
      ensures eq <==> Contents() == other.Contents()
    {
      var k := 0;
      while k < Size(M, N)
        invariant 0 <= k <= Size(M, N)
        invariant forall t :: 0 <= t < k ==> data[t] == other.data[t]
      {
        if data[k] != other.data[k] {
          assert Contents()[k] != other.Contents()[k];
          return false;
        }
        k := k + 1;
      }
      return true;
    }

    method NotEqual(other: Matrix) returns (ne: bool)
      requires Valid() && other.Valid() && other.M == M && other.N == N
      ensures ne <==> Contents() != other.Contents()
    {
      var eq := Equal(other);
      return !eq;
    }

    /** The N-by-M transpose, written as result(j,i) = this(i,j) over a double loop. */
    method Transpose() returns (r: Matrix)
      requires Valid()
      ensures fresh(r) && fresh(r.data) && r.Valid() && r.M == N && r.N == M
      ensures r.Contents() == Transposed(Contents(), M, N)
    {
      ghost var a := Contents();
      r := new Matrix.Zero(N, M);
      FilledAt(N, M, 0.0);
      var i := 0;
      while i < M
        invariant 0 <= i <= M
        invariant forall j': nat, i': nat :: j' < N && i' < M ==>
          At(r.data[..], N, M, j', i') == if i' < i then At(a, M, N, i', j') else 0.0
      {
        var j := 0;
        while j < N
          invariant 0 <= j <= N
          invariant forall j': nat, i': nat :: j' < N && i' < M ==>
            At(r.data[..], N, M, j', i') == if Before(i', j', i, j) then At(a, M, N, i', j') else 0.0
        {
          ghost var before := r.data[..];
          AtIdx(before, N, M, j, i);
          AtIdx(a, M, N, i, j);
          r.data[Idx(M, j, i)] := data[Idx(N, i, j)];
          assert r.data[..] == Put(before, N, M, j, i, At(a, M, N, i, j));
          AtPut(before, N, M, j, i, At(a, M, N, i, j));
          j := j + 1;
        }
        i := i + 1;
      }
      forall j': nat, i': nat | j' < N && i' < M
        ensures At(r.data[..], N, M, j', i') == At(Transposed(a, M, N), N, M, j', i')
      {
        TransposedAt(a, M, N, i', j');
      }
      SameEntries(r.data[..], Transposed(a, M, N), N, M);
    }

    /** swapRows: DomainError and no change unless both rows exist; otherwise rows rowA and rowB are exchanged. */
    method SwapRows(rowA: nat, rowB: nat) returns (st: Status)
      requires Valid()
      modifies data
      ensures rowA >= M || rowB >= M ==> st == Failed(DomainError) && Contents() == old(Contents())
      ensures rowA < M && rowB < M ==> st == Done && Contents() == RowsSwapped(old(Contents()), M, N, rowA, rowB)
    {
      if rowA >= M || rowB >= M {
        return Failed(DomainError);
      }
      ghost var a := Contents();
      var c := 0;
      while c < N
        invariant 0 <= c <= N
        invariant forall i': nat, j': nat :: i' < M && j' < N ==>
          At(data[..], M, N, i', j') == if j' < c then At(a, M, N, Swap(i', rowA, rowB), j') else At(a, M, N, i', j')
      {
        ghost var s0 := data[..];
        AtIdx(s0, M, N, rowA, c);
        AtIdx(s0, M, N, rowB, c);
        var temp := data[Idx(N, rowA, c)];
        data[Idx(N, rowA, c)] := data[Idx(N, rowB, c)];
        ghost var s1 := data[..];
        assert s1 == Put(s0, M, N, rowA, c, At(s0, M, N, rowB, c));
        AtPut(s0, M, N, rowA, c, At(s0, M, N, rowB, c));
        AtIdx(s1, M, N, rowB, c);
        data[Idx(N, rowB, c)] := temp;
        assert data[..] == Put(s1, M, N, rowB, c, temp);
        AtPut(s1, M, N, rowB, c, temp);
        c := c + 1;
      }
      SameEntries(data[..], RowsSwapped(a, M, N, rowA, rowB), M, N);
      return Done;
    }

    /** swapCols: DomainError and no change unless both columns exist; otherwise columns colA and colB are exchanged. */
    method SwapCols(colA: nat, colB: nat) returns (st: Status)
      requires Valid()
      modifies data
      ensures colA >= N || colB >= N ==> st == Failed(DomainError) && Contents() == old(Contents())
      ensures colA < N && colB < N ==> st == Done && Contents() == ColsSwapped(old(Contents()), M, N, colA, colB)
    {
      if colA >= N || colB >= N {
        return Failed(DomainError);
      }
      ghost var a := Contents();
      var r := 0;
      while r < M
        invariant 0 <= r <= M
        invariant forall i': nat, j': nat :: i' < M && j' < N ==>
          At(data[..], M, N, i', j') == if i' < r then At(a, M, N, i', Swap(j', colA, colB)) else At(a, M, N, i', j')
      {
        ghost var s0 := data[..];
        AtIdx(s0, M, N, r, colA);
        AtIdx(s0, M, N, r, colB);
        var temp := data[Idx(N, r, colA)];
        data[Idx(N, r, colA)] := data[Idx(N, r, colB)];
        ghost var s1 := data[..];
        assert s1 == Put(s0, M, N, r, colA, At(s0, M, N, r, colB));
        AtPut(s0, M, N, r, colA, At(s0, M, N, r, colB));
        AtIdx(s1, M, N, r, colB);
        data[Idx(N, r, colB)] := temp;
        assert data[..] == Put(s1, M, N, r, colB, temp);
        AtPut(s1, M, N, r, colB, temp);
        r := r + 1;
      }
      SameEntries(data[..], ColsSwapped(a, M, N, colA, colB), M, N);
      return Done;
    }

    /** setValue: every entry becomes v, written through (i, j) in row-major order. */
    method SetValue(v: real)
      requires Valid()
      modifies data
      ensures Contents() == Filled(Size(M, N), v)
    {
      var i := 0;
      while i < M
        invariant 0 <= i <= M
        invariant forall i': nat, j': nat :: i' < M && j' < N && i' < i ==> At(data[..], M, N, i', j') == v
      {
        var j := 0;
        while j < N
          invariant 0 <= j <= N
          invariant forall i': nat, j': nat :: i' < M && j' < N && Before(i', j', i, j) ==> At(data[..], M, N, i', j') == v
        {
          ghost var before := data[..];
          IdxBound(M, N, i, j);
          data[Idx(N, i, j)] := v;
          assert data[..] == Put(before, M, N, i, j, v);
          AtPut(before, M, N, i, j, v);
          j := j + 1;
        }
        i := i + 1;
      }
      FilledAt(M, N, v);
      SameEntries(data[..], Filled(Size(M, N), v), M, N);
    }

    method Abs() returns (r: Matrix)
      requires Valid()
      ensures fresh(r) && fresh(r.data) && r.Valid() && r.M == M && r.N == N
      ensures r.Contents() == Magnitudes(Contents())
    {
      r := new Matrix.Zero(M, N);
      var k := 0;
      while k < Size(M, N)
        invariant 0 <= k <= Size(M, N)
        invariant forall t :: 0 <= t < k ==> r.data[t] == MatrixAlgebra.Abs(data[t])
      {
        r.data[k] := if data[k] < 0.0 then -data[k] else data[k];
        k := k + 1;
      }
    }

    /**
     * submatrix<P,Q>(rowA, colA, rowB, colB), as the code is written: DomainError
     * exactly when SubmatrixThrows holds; otherwise a fresh P-by-Q matrix holding
     * Block. The object itself is never changed.
     */
    method Submatrix(p: nat, q: nat, rowA: nat, colA: nat, rowB: nat, colB: nat) returns (r: Result<Matrix>)
      requires Valid()
      ensures r.Err? <==> SubmatrixThrows(M, N, p, q, rowA, colA, rowB, colB)
      ensures r.Err? ==> r.error == DomainError
      ensures r.Ok? ==> fresh(r.value) && fresh(r.value.data) && r.value.Valid() && r.value.M == p && r.value.N == q
      ensures r.Ok? ==> r.value.Contents() == Block(Contents(), M, N, p, q, rowA, colA, rowB, colB)
    {
      if p >= M || q >= N {
        return Err(DomainError);
      }
      // the range check: its comma operator leaves only colB >= N in force
      if colB >= N {
        return Err(DomainError);
      }
      ghost var a := Contents();
      var res := new Matrix.Zero(p, q);
      FilledAt(p, q, 0.0);
      var i := rowA;
      while i < rowB
        invariant i == rowA || rowA < i <= rowB
        invariant rowA < i && colA < colB ==> i - 1 < M && i - 1 - rowA < p && colB - 1 - colA < q
        invariant forall i': nat, j': nat :: i' < p && j' < q ==>
          At(res.data[..], p, q, i', j') ==
            if rowA + i' < i && colA + j' < colB then At(a, M, N, rowA + i', colA + j') else 0.0
      {
        var j := colA;
        while j < colB
          invariant j == colA || colA < j <= colB
          invariant colA < j ==> i < M && i - rowA < p && j - 1 - colA < q
          invariant forall i': nat, j': nat :: i' < p && j' < q ==>
            At(res.data[..], p, q, i', j') ==
              if (rowA + i' < i && colA + j' < colB) || (rowA + i' == i && colA + j' < j) then At(a, M, N, rowA + i', colA + j')
              else 0.0
        {
          if i >= M || i - rowA >= p || j - colA >= q {
            return Err(DomainError);
          }
          ghost var before := res.data[..];
          AtIdx(before, p, q, i - rowA, j - colA);
          AtIdx(a, M, N, i, j);
          res.data[Idx(q, i - rowA, j - colA)] := data[Idx(N, i, j)];
          assert res.data[..] == Put(before, p, q, i - rowA, j - colA, At(a, M, N, i, j));
          AtPut(before, p, q, i - rowA, j - colA, At(a, M, N, i, j));
          j := j + 1;
        }
        i := i + 1;
      }
      SameEntries(res.data[..], Block(a, M, N, p, q, rowA, colA, rowB, colB), p, q);
      return Ok(res);
    }
  }

  /** Writes values[i][j] at i*n + j for every i < m, j < n (row lengths may exceed n). */
  method FillGrid(d: array<real>, m: nat, n: nat, values: seq<seq<real>>)
    requires d.Length == Size(m, n) && |values| == m && forall i :: 0 <= i < m ==> |values[i]| >= n
    modifies d
    ensures d[..] == Grid(values, m, n)
  {
    var i := 0;
    while i < m
      invariant 0 <= i <= m
      invariant forall i': nat, j': nat :: i' < m && j' < n && i' < i ==> At(d[..], m, n, i', j') == values[i'][j']
    {
      var j := 0;
      while j < n
        invariant 0 <= j <= n
        invariant forall i': nat, j': nat :: i' < m && j' < n && Before(i', j', i, j) ==> At(d[..], m, n, i', j') == values[i'][j']
      {
        ghost var before := d[..];
        IdxBound(m, n, i, j);
        d[Idx(n, i, j)] := values[i][j];
        assert d[..] == Put(before, m, n, i, j, values[i][j]);
        AtPut(before, m, n, i, j, values[i][j]);
        j := j + 1;
      }
      i := i + 1;
    }
    SameEntries(d[..], Grid(values, m, n), m, n);
  }

  /** The free operator*(T, Matrix): value * a is a * value. */
  method ScalarTimes(v: real, a: Matrix) returns (r: Matrix)
    requires a.Valid()
    ensures fresh(r) && fresh(r.data) && r.Valid() && r.M == a.M && r.N == a.N
    ensures r.Contents() == Scaled(a.Contents(), v)
  {
    r := a.MulScalar(v);
  }
}
