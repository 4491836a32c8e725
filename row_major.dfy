/**
 * Row-major indexing of an M-by-N buffer `data[M*N]`: entry (i, j) lives at
 * position i*N + j. Every matrix in the library stores its entries this way.
 */
module RowMajor {

  /**
   * The buffer position of entry (i, j) in a matrix with n columns, i*n + j,
   * defined by counting whole rows so that the verifier reasons about it linearly.
   */
  function Idx(n: nat, i: nat, j: nat): nat
    decreases i
  {
    if i == 0 then j else Idx(n, i - 1, j) + n
  }

  /** The length of an m-by-n buffer, m*n: the position just past its last row. */
  function Size(m: nat, n: nat): nat {
    Idx(n, m, 0)
  }

  /** Idx and Size are the usual row-major arithmetic. */
  lemma {:induction false} IdxIsRowMajor(n: nat, i: nat, j: nat)
    ensures Idx(n, i, j) == i * n + j
    ensures Size(i, n) == i * n
  {
    if i > 0 {
      IdxIsRowMajor(n, i - 1, j);
      IdxIsRowMajor(n, i - 1, 0);
    }
  }

  /** Entry (i, j) is j places after the start of row i. */
  lemma {:induction false} IdxRowStart(n: nat, i: nat, j: nat)
    ensures Idx(n, i, j) == Idx(n, i, 0) + j
  {
    if i > 0 {
      IdxRowStart(n, i - 1, j);
    }
  }

  /** Row starts grow with the row number. */
  lemma {:induction false} IdxRowMono(n: nat, i: nat, i': nat)
    requires i <= i'
    ensures Idx(n, i, 0) <= Idx(n, i', 0)
    decreases i' - i
  {
    if i < i' {
      IdxRowMono(n, i, i' - 1);
    }
  }

  /** Every entry of an m-by-n matrix lies inside its buffer. */
  lemma IdxBound(m: nat, n: nat, i: nat, j: nat)
    requires i < m && j < n
    ensures Idx(n, i, j) < Size(m, n)
  {
    IdxRowStart(n, i, j);
    IdxRowMono(n, i + 1, m);
  }

  /** Distinct entries have distinct positions. */
  lemma IdxInjective(n: nat, i: nat, j: nat, i': nat, j': nat)
    requires j < n && j' < n && Idx(n, i, j) == Idx(n, i', j')
    ensures i == i' && j == j'
  {
    IdxRowStart(n, i, j);
    IdxRowStart(n, i', j');

  }

  /** Every buffer position is the position of some entry. */
  lemma {:induction false} IdxOnto(m: nat, n: nat, k: nat) returns (i: nat, j: nat)
    requires k < Size(m, n)
    ensures i < m && j < n && Idx(n, i, j) == k
  {
    if k < Size(m - 1, n) {
      i, j := IdxOnto(m - 1, n, k);
    } else {
      i, j := m - 1, k - Size(m - 1, n);
      IdxRowStart(n, i, j);
    }
  }

  /** Entry (i, j) of the m-by-n matrix stored in s; 0 outside the matrix. */
  function At(s: seq<real>, m: nat, n: nat, i: nat, j: nat): real {
    if i < m && j < n && |s| == Size(m, n) then
      IdxBound(m, n, i, j);
      s[Idx(n, i, j)]
    else
      0.0
  }

  /** Inside the matrix, At reads the buffer at the row-major position. */
  lemma AtIdx(s: seq<real>, m: nat, n: nat, i: nat, j: nat)
    requires |s| == Size(m, n) && i < m && j < n
    ensures Idx(n, i, j) < |s| && At(s, m, n, i, j) == s[Idx(n, i, j)]
  {
    IdxBound(m, n, i, j);
  }

  /** The buffer s with entry (i, j) replaced by v. */
  function Put(s: seq<real>, m: nat, n: nat, i: nat, j: nat, v: real): (r: seq<real>)
    ensures |r| == |s|
  {
    if i < m && j < n && |s| == Size(m, n) then
      IdxBound(m, n, i, j);
      s[Idx(n, i, j) := v]
    else
      s
  }

  /** Writing entry (i, j) changes that entry and no other. */
  lemma AtPut(s: seq<real>, m: nat, n: nat, i: nat, j: nat, v: real)
    requires |s| == Size(m, n) && i < m && j < n
    ensures forall i': nat, j': nat :: i' < m && j' < n ==>
      At(Put(s, m, n, i, j, v), m, n, i', j') == if i' == i && j' == j then v else At(s, m, n, i', j')
  {
    forall i': nat, j': nat | i' < m && j' < n
      ensures At(Put(s, m, n, i, j, v), m, n, i', j') == if i' == i && j' == j then v else At(s, m, n, i', j')
    {
      IdxBound(m, n, i', j');
      if Idx(n, i, j) == Idx(n, i', j') {
        IdxInjective(n, i, j, i', j');
      }
    }
  }

  /** (i', j') comes before (i, j) in the row-major visiting order of a double loop. */
  predicate Before(i': nat, j': nat, i: nat, j: nat) {
    i' < i || (i' == i && j' < j)
  }

  /** The m-by-n matrix whose entry (i, j) is f(i, j), built row by row. */
  function Tabulate(m: nat, n: nat, f: (nat, nat) -> real): (s: seq<real>)
    ensures |s| == Size(m, n)
    ensures forall i: nat, j: nat :: i < m && j < n ==> At(s, m, n, i, j) == f(i, j)
    decreases m
  {
    if m == 0 then []
    else
      var top := Tabulate(m - 1, n, f);
      var s := top + seq(n, j requires 0 <= j < n => f(m - 1, j));
      TabulateRow(top, s, m, n, f);
      s
  }

  lemma TabulateRow(top: seq<real>, s: seq<real>, m: nat, n: nat, f: (nat, nat) -> real)
    requires m > 0 && |top| == Size(m - 1, n)
    requires forall i: nat, j: nat :: i < m - 1 && j < n ==> At(top, m - 1, n, i, j) == f(i, j)
    requires s == top + seq(n, j requires 0 <= j < n => f(m - 1, j))
    ensures |s| == Size(m, n)
    ensures forall i: nat, j: nat :: i < m && j < n ==> At(s, m, n, i, j) == f(i, j)
  {
    forall i: nat, j: nat | i < m && j < n
      ensures At(s, m, n, i, j) == f(i, j)
    {
      IdxBound(m, n, i, j);
      if i < m - 1 {
        IdxBound(m - 1, n, i, j);
        assert s[Idx(n, i, j)] == top[Idx(n, i, j)];
      } else {
        IdxRowStart(n, i, j);
      }
    }
  }

  /** Two m-by-n buffers with the same entries are equal. */
  lemma SameEntries(a: seq<real>, b: seq<real>, m: nat, n: nat)
    requires |a| == Size(m, n) && |b| == Size(m, n)
    requires forall i: nat, j: nat :: i < m && j < n ==> At(a, m, n, i, j) == At(b, m, n, i, j)
    ensures a == b
  {
    forall k | 0 <= k < |a|
      ensures a[k] == b[k]
    {
      var i, j := IdxOnto(m, n, k);
      assert At(a, m, n, i, j) == At(b, m, n, i, j);
    }
  }
}
