/**
 * Direction cosine matrices: 3-by-3 matrices whose default value is the
 * identity. DCM(q) writes the nine entries of the rotation that the quaternion
 * q describes (Stevens and Lewis, equation 1.8-18) into the buffer one by one.
 * DcmOf is that formula on a value; the laws below say that it turns the
 * quaternion product into the matrix product and a unit quaternion into a
 * rotation (orthogonal, determinant 1).
 */
module Dcms {
  import opened RowMajor
  import opened MatrixAlgebra
  import opened Matrices
  import opened SquareMatrices
  import opened Quaternions

  /** d is a well-formed direction cosine matrix object: a 3-by-3 matrix. */
  ghost predicate IsDcm(d: Matrix)
    reads d
  {
    d.Valid() && d.M == 3 && d.N == 3 && d.data.Length == 9
  }

  lemma NineEntries()
    ensures Size(3, 3) == 9
  {
    IdxIsRowMajor(3, 3, 0);
  }

  // ---------------------------------------------------------------------
  // The formula of DCM(q)
  // ---------------------------------------------------------------------

  /** The buffer DCM(q) fills, data[0] .. data[8], as a function of q. */
  function DcmOf(q: Quat): (r: seq<real>)
    ensures |r| == Size(3, 3)
  {
    NineEntries();
    [1.0 - 2.0 * (q.q2 * q.q2 + q.q3 * q.q3), 2.0 * (q.q1 * q.q2 - q.q3 * q.q0), 2.0 * (q.q1 * q.q3 + q.q2 * q.q0),
     2.0 * (q.q1 * q.q2 + q.q3 * q.q0), 1.0 - 2.0 * (q.q1 * q.q1 + q.q3 * q.q3), 2.0 * (q.q2 * q.q3 - q.q1 * q.q0),
     2.0 * (q.q1 * q.q3 - q.q2 * q.q0), 2.0 * (q.q2 * q.q3 + q.q1 * q.q0), 1.0 - 2.0 * (q.q1 * q.q1 + q.q2 * q.q2)]
  }

  // ---------------------------------------------------------------------
  // The homogeneous form: each constant 1 replaced by norm(q)
  // ---------------------------------------------------------------------

  function H00(a0: real, a1: real, a2: real, a3: real): real {
    a0 * a0 + a1 * a1 - a2 * a2 - a3 * a3
  }

  function H01(a0: real, a1: real, a2: real, a3: real): real {
    2.0 * (a1 * a2 - a3 * a0)
  }

  function H02(a0: real, a1: real, a2: real, a3: real): real {
    2.0 * (a1 * a3 + a2 * a0)
  }

  function H10(a0: real, a1: real, a2: real, a3: real): real {
    2.0 * (a1 * a2 + a3 * a0)
  }

  function H11(a0: real, a1: real, a2: real, a3: real): real {
    a0 * a0 - a1 * a1 + a2 * a2 - a3 * a3
  }

  function H12(a0: real, a1: real, a2: real, a3: real): real {
    2.0 * (a2 * a3 - a1 * a0)
  }

  function H20(a0: real, a1: real, a2: real, a3: real): real {
    2.0 * (a1 * a3 - a2 * a0)
  }

  function H21(a0: real, a1: real, a2: real, a3: real): real {
    2.0 * (a2 * a3 + a1 * a0)
  }

  function H22(a0: real, a1: real, a2: real, a3: real): real {
    a0 * a0 - a1 * a1 - a2 * a2 + a3 * a3
  }

  /**
   * The quadratic form that agrees with DcmOf on unit quaternions: each
   * 1 - 2(x^2 + y^2) on the diagonal is written q0^2 + ... with the signs it
   * has when q0^2 + q1^2 + q2^2 + q3^2 = 1.
   */
  function Homogeneous(q: Quat): (r: seq<real>)
    ensures |r| == Size(3, 3)
  {
    NineEntries();
    [H00(q.q0, q.q1, q.q2, q.q3), H01(q.q0, q.q1, q.q2, q.q3), H02(q.q0, q.q1, q.q2, q.q3),
     H10(q.q0, q.q1, q.q2, q.q3), H11(q.q0, q.q1, q.q2, q.q3), H12(q.q0, q.q1, q.q2, q.q3),
     H20(q.q0, q.q1, q.q2, q.q3), H21(q.q0, q.q1, q.q2, q.q3), H22(q.q0, q.q1, q.q2, q.q3)]
  }

  /** For a unit quaternion DCM(q) is the homogeneous form. */
  lemma UnitDcmIsHomogeneous(q: Quat)
    requires Norm(q) == 1.0
    ensures DcmOf(q) == Homogeneous(q)
  {
    DiagonalEntry0(q);
    DiagonalEntry4(q);
    DiagonalEntry8(q);
    OffDiagonalEntries(q);
    var d, h := DcmOf(q), Homogeneous(q);
    NineEntries();
    forall k | 0 <= k < 9
      ensures d[k] == h[k]
    {
    }
  }

  /** Diagonal entry 0 of DCM(q), 1 - 2(q.q2^2 + q.q3^2), is the homogeneous entry when norm(q) == 1. */
  lemma DiagonalEntry0(q: Quat)
    requires Norm(q) == 1.0
    ensures DcmOf(q)[0] == Homogeneous(q)[0]
  {
    NineEntries();
  }

  /** Diagonal entry 4 of DCM(q), 1 - 2(q.q1^2 + q.q3^2), is the homogeneous entry when norm(q) == 1. */
  lemma DiagonalEntry4(q: Quat)
    requires Norm(q) == 1.0
    ensures DcmOf(q)[4] == Homogeneous(q)[4]
  {
    NineEntries();
  }

  /** Diagonal entry 8 of DCM(q), 1 - 2(q.q1^2 + q.q2^2), is the homogeneous entry when norm(q) == 1. */
  lemma DiagonalEntry8(q: Quat)
    requires Norm(q) == 1.0
    ensures DcmOf(q)[8] == Homogeneous(q)[8]
  {
    NineEntries();
  }

  /** Off the diagonal DCM(q) and the homogeneous form agree for every q. */
  lemma OffDiagonalEntries(q: Quat)
    ensures DcmOf(q)[1] == Homogeneous(q)[1] && DcmOf(q)[2] == Homogeneous(q)[2]
    ensures DcmOf(q)[3] == Homogeneous(q)[3] && DcmOf(q)[5] == Homogeneous(q)[5]
    ensures DcmOf(q)[6] == Homogeneous(q)[6] && DcmOf(q)[7] == Homogeneous(q)[7]
  {
    NineEntries();
  }

  /** The polynomial identity behind entry (0, 0): the entry of p * q, expanded. */
  lemma EntryIdentity00(p: Quat, q: Quat)
    ensures var m := Mul(p, q);
      H00(m.q0, m.q1, m.q2, m.q3)
      == (p.q0 * p.q0 + p.q1 * p.q1 - p.q2 * p.q2 - p.q3 * p.q3) * (q.q0 * q.q0 + q.q1 * q.q1 - q.q2 * q.q2 - q.q3 * q.q3)
       + (2.0 * (p.q1 * p.q2 - p.q3 * p.q0)) * (2.0 * (q.q1 * q.q2 + q.q3 * q.q0))
       + (2.0 * (p.q1 * p.q3 + p.q2 * p.q0)) * (2.0 * (q.q1 * q.q3 - q.q2 * q.q0))
  {
    var m := Mul(p, q);
    EntryPolynomial00(p.q0, p.q1, p.q2, p.q3, q.q0, q.q1, q.q2, q.q3, m.q0, m.q1, m.q2, m.q3);
  }

  /** Entry (0, 0) of the product's homogeneous form, over the eight components. */
  lemma EntryPolynomial00(p0: real, p1: real, p2: real, p3: real, q0: real, q1: real, q2: real, q3: real,
                          m0: real, m1: real, m2: real, m3: real)
    requires m0 == p0 * q0 - p1 * q1 - p2 * q2 - p3 * q3 && m1 == p1 * q0 + p0 * q1 - p3 * q2 + p2 * q3
    requires m2 == p2 * q0 + p3 * q1 + p0 * q2 - p1 * q3 && m3 == p3 * q0 - p2 * q1 + p1 * q2 + p0 * q3
    ensures H00(m0, m1, m2, m3)
      == (p0 * p0 + p1 * p1 - p2 * p2 - p3 * p3) * (q0 * q0 + q1 * q1 - q2 * q2 - q3 * q3)
       + (2.0 * (p1 * p2 - p3 * p0)) * (2.0 * (q1 * q2 + q3 * q0))
       + (2.0 * (p1 * p3 + p2 * p0)) * (2.0 * (q1 * q3 - q2 * q0))
  {
  }

  /** The polynomial identity behind entry (0, 1): the entry of p * q, expanded. */
  lemma EntryIdentity01(p: Quat, q: Quat)
    ensures var m := Mul(p, q);
      H01(m.q0, m.q1, m.q2, m.q3)
      == (p.q0 * p.q0 + p.q1 * p.q1 - p.q2 * p.q2 - p.q3 * p.q3) * (2.0 * (q.q1 * q.q2 - q.q3 * q.q0))
       + (2.0 * (p.q1 * p.q2 - p.q3 * p.q0)) * (q.q0 * q.q0 - q.q1 * q.q1 + q.q2 * q.q2 - q.q3 * q.q3)
       + (2.0 * (p.q1 * p.q3 + p.q2 * p.q0)) * (2.0 * (q.q2 * q.q3 + q.q1 * q.q0))
  {
    var m := Mul(p, q);
    EntryPolynomial01(p.q0, p.q1, p.q2, p.q3, q.q0, q.q1, q.q2, q.q3, m.q0, m.q1, m.q2, m.q3);
  }

  /** Entry (0, 1) of the product's homogeneous form, over the eight components. */
  lemma EntryPolynomial01(p0: real, p1: real, p2: real, p3: real, q0: real, q1: real, q2: real, q3: real,
                          m0: real, m1: real, m2: real, m3: real)
    requires m0 == p0 * q0 - p1 * q1 - p2 * q2 - p3 * q3 && m1 == p1 * q0 + p0 * q1 - p3 * q2 + p2 * q3
    requires m2 == p2 * q0 + p3 * q1 + p0 * q2 - p1 * q3 && m3 == p3 * q0 - p2 * q1 + p1 * q2 + p0 * q3
    ensures H01(m0, m1, m2, m3)
      == (p0 * p0 + p1 * p1 - p2 * p2 - p3 * p3) * (2.0 * (q1 * q2 - q3 * q0))
       + (2.0 * (p1 * p2 - p3 * p0)) * (q0 * q0 - q1 * q1 + q2 * q2 - q3 * q3)
       + (2.0 * (p1 * p3 + p2 * p0)) * (2.0 * (q2 * q3 + q1 * q0))
  {
  }

  /** The polynomial identity behind entry (0, 2): the entry of p * q, expanded. */
  lemma EntryIdentity02(p: Quat, q: Quat)
    ensures var m := Mul(p, q);
      H02(m.q0, m.q1, m.q2, m.q3)
      == (p.q0 * p.q0 + p.q1 * p.q1 - p.q2 * p.q2 - p.q3 * p.q3) * (2.0 * (q.q1 * q.q3 + q.q2 * q.q0))
       + (2.0 * (p.q1 * p.q2 - p.q3 * p.q0)) * (2.0 * (q.q2 * q.q3 - q.q1 * q.q0))
       + (2.0 * (p.q1 * p.q3 + p.q2 * p.q0)) * (q.q0 * q.q0 - q.q1 * q.q1 - q.q2 * q.q2 + q.q3 * q.q3)
  {
    var m := Mul(p, q);
    EntryPolynomial02(p.q0, p.q1, p.q2, p.q3, q.q0, q.q1, q.q2, q.q3, m.q0, m.q1, m.q2, m.q3);
  }

  /** Entry (0, 2) of the product's homogeneous form, over the eight components. */
  lemma EntryPolynomial02(p0: real, p1: real, p2: real, p3: real, q0: real, q1: real, q2: real, q3: real,
                          m0: real, m1: real, m2: real, m3: real)
    requires m0 == p0 * q0 - p1 * q1 - p2 * q2 - p3 * q3 && m1 == p1 * q0 + p0 * q1 - p3 * q2 + p2 * q3
    requires m2 == p2 * q0 + p3 * q1 + p0 * q2 - p1 * q3 && m3 == p3 * q0 - p2 * q1 + p1 * q2 + p0 * q3
    ensures H02(m0, m1, m2, m3)
      == (p0 * p0 + p1 * p1 - p2 * p2 - p3 * p3) * (2.0 * (q1 * q3 + q2 * q0))
       + (2.0 * (p1 * p2 - p3 * p0)) * (2.0 * (q2 * q3 - q1 * q0))
       + (2.0 * (p1 * p3 + p2 * p0)) * (q0 * q0 - q1 * q1 - q2 * q2 + q3 * q3)
  {
  }

  /** The polynomial identity behind entry (1, 0): the entry of p * q, expanded. */
  lemma EntryIdentity10(p: Quat, q: Quat)
    ensures var m := Mul(p, q);
      H10(m.q0, m.q1, m.q2, m.q3)
      == (2.0 * (p.q1 * p.q2 + p.q3 * p.q0)) * (q.q0 * q.q0 + q.q1 * q.q1 - q.q2 * q.q2 - q.q3 * q.q3)
       + (p.q0 * p.q0 - p.q1 * p.q1 + p.q2 * p.q2 - p.q3 * p.q3) * (2.0 * (q.q1 * q.q2 + q.q3 * q.q0))
       + (2.0 * (p.q2 * p.q3 - p.q1 * p.q0)) * (2.0 * (q.q1 * q.q3 - q.q2 * q.q0))
  {
    var m := Mul(p, q);
    EntryPolynomial10(p.q0, p.q1, p.q2, p.q3, q.q0, q.q1, q.q2, q.q3, m.q0, m.q1, m.q2, m.q3);
  }

  /** Entry (1, 0) of the product's homogeneous form, over the eight components. */
  lemma EntryPolynomial10(p0: real, p1: real, p2: real, p3: real, q0: real, q1: real, q2: real, q3: real,
                          m0: real, m1: real, m2: real, m3: real)
    requires m0 == p0 * q0 - p1 * q1 - p2 * q2 - p3 * q3 && m1 == p1 * q0 + p0 * q1 - p3 * q2 + p2 * q3
    requires m2 == p2 * q0 + p3 * q1 + p0 * q2 - p1 * q3 && m3 == p3 * q0 - p2 * q1 + p1 * q2 + p0 * q3
    ensures H10(m0, m1, m2, m3)
      == (2.0 * (p1 * p2 + p3 * p0)) * (q0 * q0 + q1 * q1 - q2 * q2 - q3 * q3)
       + (p0 * p0 - p1 * p1 + p2 * p2 - p3 * p3) * (2.0 * (q1 * q2 + q3 * q0))
       + (2.0 * (p2 * p3 - p1 * p0)) * (2.0 * (q1 * q3 - q2 * q0))
  {
  }

  /** The polynomial identity behind entry (1, 1): the entry of p * q, expanded. */
  lemma EntryIdentity11(p: Quat, q: Quat)
    ensures var m := Mul(p, q);
      H11(m.q0, m.q1, m.q2, m.q3)
      == (2.0 * (p.q1 * p.q2 + p.q3 * p.q0)) * (2.0 * (q.q1 * q.q2 - q.q3 * q.q0))
       + (p.q0 * p.q0 - p.q1 * p.q1 + p.q2 * p.q2 - p.q3 * p.q3) * (q.q0 * q.q0 - q.q1 * q.q1 + q.q2 * q.q2 - q.q3 * q.q3)
       + (2.0 * (p.q2 * p.q3 - p.q1 * p.q0)) * (2.0 * (q.q2 * q.q3 + q.q1 * q.q0))
  {
    var m := Mul(p, q);
    EntryPolynomial11(p.q0, p.q1, p.q2, p.q3, q.q0, q.q1, q.q2, q.q3, m.q0, m.q1, m.q2, m.q3);
  }

  /** Entry (1, 1) of the product's homogeneous form, over the eight components. */
  lemma EntryPolynomial11(p0: real, p1: real, p2: real, p3: real, q0: real, q1: real, q2: real, q3: real,
                          m0: real, m1: real, m2: real, m3: real)
    requires m0 == p0 * q0 - p1 * q1 - p2 * q2 - p3 * q3 && m1 == p1 * q0 + p0 * q1 - p3 * q2 + p2 * q3
    requires m2 == p2 * q0 + p3 * q1 + p0 * q2 - p1 * q3 && m3 == p3 * q0 - p2 * q1 + p1 * q2 + p0 * q3
    ensures H11(m0, m1, m2, m3)
      == (2.0 * (p1 * p2 + p3 * p0)) * (2.0 * (q1 * q2 - q3 * q0))
       + (p0 * p0 - p1 * p1 + p2 * p2 - p3 * p3) * (q0 * q0 - q1 * q1 + q2 * q2 - q3 * q3)
       + (2.0 * (p2 * p3 - p1 * p0)) * (2.0 * (q2 * q3 + q1 * q0))
  {
  }

  /** The polynomial identity behind entry (1, 2): the entry of p * q, expanded. */
  lemma EntryIdentity12(p: Quat, q: Quat)
    ensures var m := Mul(p, q);
      H12(m.q0, m.q1, m.q2, m.q3)
      == (2.0 * (p.q1 * p.q2 + p.q3 * p.q0)) * (2.0 * (q.q1 * q.q3 + q.q2 * q.q0))
       + (p.q0 * p.q0 - p.q1 * p.q1 + p.q2 * p.q2 - p.q3 * p.q3) * (2.0 * (q.q2 * q.q3 - q.q1 * q.q0))
       + (2.0 * (p.q2 * p.q3 - p.q1 * p.q0)) * (q.q0 * q.q0 - q.q1 * q.q1 - q.q2 * q.q2 + q.q3 * q.q3)
  {
    var m := Mul(p, q);
    EntryPolynomial12(p.q0, p.q1, p.q2, p.q3, q.q0, q.q1, q.q2, q.q3, m.q0, m.q1, m.q2, m.q3);
  }

  /** Entry (1, 2) of the product's homogeneous form, over the eight components. */
  lemma EntryPolynomial12(p0: real, p1: real, p2: real, p3: real, q0: real, q1: real, q2: real, q3: real,
                          m0: real, m1: real, m2: real, m3: real)
    requires m0 == p0 * q0 - p1 * q1 - p2 * q2 - p3 * q3 && m1 == p1 * q0 + p0 * q1 - p3 * q2 + p2 * q3
    requires m2 == p2 * q0 + p3 * q1 + p0 * q2 - p1 * q3 && m3 == p3 * q0 - p2 * q1 + p1 * q2 + p0 * q3
    ensures H12(m0, m1, m2, m3)
      == (2.0 * (p1 * p2 + p3 * p0)) * (2.0 * (q1 * q3 + q2 * q0))
       + (p0 * p0 - p1 * p1 + p2 * p2 - p3 * p3) * (2.0 * (q2 * q3 - q1 * q0))
       + (2.0 * (p2 * p3 - p1 * p0)) * (q0 * q0 - q1 * q1 - q2 * q2 + q3 * q3)
  {
  }

  /** The polynomial identity behind entry (2, 0): the entry of p * q, expanded. */
  lemma EntryIdentity20(p: Quat, q: Quat)
    ensures var m := Mul(p, q);
      H20(m.q0, m.q1, m.q2, m.q3)
      == (2.0 * (p.q1 * p.q3 - p.q2 * p.q0)) * (q.q0 * q.q0 + q.q1 * q.q1 - q.q2 * q.q2 - q.q3 * q.q3)
       + (2.0 * (p.q2 * p.q3 + p.q1 * p.q0)) * (2.0 * (q.q1 * q.q2 + q.q3 * q.q0))
       + (p.q0 * p.q0 - p.q1 * p.q1 - p.q2 * p.q2 + p.q3 * p.q3) * (2.0 * (q.q1 * q.q3 - q.q2 * q.q0))
  {
    var m := Mul(p, q);
    EntryPolynomial20(p.q0, p.q1, p.q2, p.q3, q.q0, q.q1, q.q2, q.q3, m.q0, m.q1, m.q2, m.q3);
  }

  /** Entry (2, 0) of the product's homogeneous form, over the eight components. */
  lemma EntryPolynomial20(p0: real, p1: real, p2: real, p3: real, q0: real, q1: real, q2: real, q3: real,
                          m0: real, m1: real, m2: real, m3: real)
    requires m0 == p0 * q0 - p1 * q1 - p2 * q2 - p3 * q3 && m1 == p1 * q0 + p0 * q1 - p3 * q2 + p2 * q3
    requires m2 == p2 * q0 + p3 * q1 + p0 * q2 - p1 * q3 && m3 == p3 * q0 - p2 * q1 + p1 * q2 + p0 * q3
    ensures H20(m0, m1, m2, m3)
      == (2.0 * (p1 * p3 - p2 * p0)) * (q0 * q0 + q1 * q1 - q2 * q2 - q3 * q3)
       + (2.0 * (p2 * p3 + p1 * p0)) * (2.0 * (q1 * q2 + q3 * q0))
       + (p0 * p0 - p1 * p1 - p2 * p2 + p3 * p3) * (2.0 * (q1 * q3 - q2 * q0))
  {
  }

  /** The polynomial identity behind entry (2, 1): the entry of p * q, expanded. */
  lemma EntryIdentity21(p: Quat, q: Quat)
    ensures var m := Mul(p, q);
      H21(m.q0, m.q1, m.q2, m.q3)
      == (2.0 * (p.q1 * p.q3 - p.q2 * p.q0)) * (2.0 * (q.q1 * q.q2 - q.q3 * q.q0))
       + (2.0 * (p.q2 * p.q3 + p.q1 * p.q0)) * (q.q0 * q.q0 - q.q1 * q.q1 + q.q2 * q.q2 - q.q3 * q.q3)
       + (p.q0 * p.q0 - p.q1 * p.q1 - p.q2 * p.q2 + p.q3 * p.q3) * (2.0 * (q.q2 * q.q3 + q.q1 * q.q0))
  {
    var m := Mul(p, q);
    EntryPolynomial21(p.q0, p.q1, p.q2, p.q3, q.q0, q.q1, q.q2, q.q3, m.q0, m.q1, m.q2, m.q3);
  }

  /** Entry (2, 1) of the product's homogeneous form, over the eight components. */
  lemma EntryPolynomial21(p0: real, p1: real, p2: real, p3: real, q0: real, q1: real, q2: real, q3: real,
                          m0: real, m1: real, m2: real, m3: real)
    requires m0 == p0 * q0 - p1 * q1 - p2 * q2 - p3 * q3 && m1 == p1 * q0 + p0 * q1 - p3 * q2 + p2 * q3
    requires m2 == p2 * q0 + p3 * q1 + p0 * q2 - p1 * q3 && m3 == p3 * q0 - p2 * q1 + p1 * q2 + p0 * q3
    ensures H21(m0, m1, m2, m3)
      == (2.0 * (p1 * p3 - p2 * p0)) * (2.0 * (q1 * q2 - q3 * q0))
       + (2.0 * (p2 * p3 + p1 * p0)) * (q0 * q0 - q1 * q1 + q2 * q2 - q3 * q3)
       + (p0 * p0 - p1 * p1 - p2 * p2 + p3 * p3) * (2.0 * (q2 * q3 + q1 * q0))
  {
  }

  /** The polynomial identity behind entry (2, 2): the entry of p * q, expanded. */
  lemma EntryIdentity22(p: Quat, q: Quat)
    ensures var m := Mul(p, q);
      H22(m.q0, m.q1, m.q2, m.q3)
      == (2.0 * (p.q1 * p.q3 - p.q2 * p.q0)) * (2.0 * (q.q1 * q.q3 + q.q2 * q.q0))
       + (2.0 * (p.q2 * p.q3 + p.q1 * p.q0)) * (2.0 * (q.q2 * q.q3 - q.q1 * q.q0))
       + (p.q0 * p.q0 - p.q1 * p.q1 - p.q2 * p.q2 + p.q3 * p.q3) * (q.q0 * q.q0 - q.q1 * q.q1 - q.q2 * q.q2 + q.q3 * q.q3)
  {
    var m := Mul(p, q);
    EntryPolynomial22(p.q0, p.q1, p.q2, p.q3, q.q0, q.q1, q.q2, q.q3, m.q0, m.q1, m.q2, m.q3);
  }

  /** Entry (2, 2) of the product's homogeneous form, over the eight components. */
  lemma EntryPolynomial22(p0: real, p1: real, p2: real, p3: real, q0: real, q1: real, q2: real, q3: real,
                          m0: real, m1: real, m2: real, m3: real)
    requires m0 == p0 * q0 - p1 * q1 - p2 * q2 - p3 * q3 && m1 == p1 * q0 + p0 * q1 - p3 * q2 + p2 * q3
    requires m2 == p2 * q0 + p3 * q1 + p0 * q2 - p1 * q3 && m3 == p3 * q0 - p2 * q1 + p1 * q2 + p0 * q3
    ensures H22(m0, m1, m2, m3)
      == (2.0 * (p1 * p3 - p2 * p0)) * (2.0 * (q1 * q3 + q2 * q0))
       + (2.0 * (p2 * p3 + p1 * p0)) * (2.0 * (q2 * q3 - q1 * q0))
       + (p0 * p0 - p1 * p1 - p2 * p2 + p3 * p3) * (q0 * q0 - q1 * q1 - q2 * q2 + q3 * q3)
  {
  }

  /** Row 0 of p's homogeneous form times column 0 of q's, expanded. */
  lemma EntryFactors00(p: Quat, q: Quat)
    ensures Dot3(H00(p.q0, p.q1, p.q2, p.q3), H01(p.q0, p.q1, p.q2, p.q3), H02(p.q0, p.q1, p.q2, p.q3),
                 H00(q.q0, q.q1, q.q2, q.q3), H10(q.q0, q.q1, q.q2, q.q3), H20(q.q0, q.q1, q.q2, q.q3))
      == (p.q0 * p.q0 + p.q1 * p.q1 - p.q2 * p.q2 - p.q3 * p.q3) * (q.q0 * q.q0 + q.q1 * q.q1 - q.q2 * q.q2 - q.q3 * q.q3)
       + (2.0 * (p.q1 * p.q2 - p.q3 * p.q0)) * (2.0 * (q.q1 * q.q2 + q.q3 * q.q0))
       + (2.0 * (p.q1 * p.q3 + p.q2 * p.q0)) * (2.0 * (q.q1 * q.q3 - q.q2 * q.q0))
  {
    Dot3OfEqual(H00(p.q0, p.q1, p.q2, p.q3), H01(p.q0, p.q1, p.q2, p.q3), H02(p.q0, p.q1, p.q2, p.q3),
                H00(q.q0, q.q1, q.q2, q.q3), H10(q.q0, q.q1, q.q2, q.q3), H20(q.q0, q.q1, q.q2, q.q3),
                p.q0 * p.q0 + p.q1 * p.q1 - p.q2 * p.q2 - p.q3 * p.q3,
                2.0 * (p.q1 * p.q2 - p.q3 * p.q0),
                2.0 * (p.q1 * p.q3 + p.q2 * p.q0),
                q.q0 * q.q0 + q.q1 * q.q1 - q.q2 * q.q2 - q.q3 * q.q3,
                2.0 * (q.q1 * q.q2 + q.q3 * q.q0),
                2.0 * (q.q1 * q.q3 - q.q2 * q.q0));
  }

  /** Row 0 of p's homogeneous form times column 1 of q's, expanded. */
  lemma EntryFactors01(p: Quat, q: Quat)
    ensures Dot3(H00(p.q0, p.q1, p.q2, p.q3), H01(p.q0, p.q1, p.q2, p.q3), H02(p.q0, p.q1, p.q2, p.q3),
                 H01(q.q0, q.q1, q.q2, q.q3), H11(q.q0, q.q1, q.q2, q.q3), H21(q.q0, q.q1, q.q2, q.q3))
      == (p.q0 * p.q0 + p.q1 * p.q1 - p.q2 * p.q2 - p.q3 * p.q3) * (2.0 * (q.q1 * q.q2 - q.q3 * q.q0))
       + (2.0 * (p.q1 * p.q2 - p.q3 * p.q0)) * (q.q0 * q.q0 - q.q1 * q.q1 + q.q2 * q.q2 - q.q3 * q.q3)
       + (2.0 * (p.q1 * p.q3 + p.q2 * p.q0)) * (2.0 * (q.q2 * q.q3 + q.q1 * q.q0))
  {
    Dot3OfEqual(H00(p.q0, p.q1, p.q2, p.q3), H01(p.q0, p.q1, p.q2, p.q3), H02(p.q0, p.q1, p.q2, p.q3),
                H01(q.q0, q.q1, q.q2, q.q3), H11(q.q0, q.q1, q.q2, q.q3), H21(q.q0, q.q1, q.q2, q.q3),
                p.q0 * p.q0 + p.q1 * p.q1 - p.q2 * p.q2 - p.q3 * p.q3,
                2.0 * (p.q1 * p.q2 - p.q3 * p.q0),
                2.0 * (p.q1 * p.q3 + p.q2 * p.q0),
                2.0 * (q.q1 * q.q2 - q.q3 * q.q0),
                q.q0 * q.q0 - q.q1 * q.q1 + q.q2 * q.q2 - q.q3 * q.q3,
                2.0 * (q.q2 * q.q3 + q.q1 * q.q0));
  }

  /** Row 0 of p's homogeneous form times column 2 of q's, expanded. */
  lemma EntryFactors02(p: Quat, q: Quat)
    ensures Dot3(H00(p.q0, p.q1, p.q2, p.q3), H01(p.q0, p.q1, p.q2, p.q3), H02(p.q0, p.q1, p.q2, p.q3),
                 H02(q.q0, q.q1, q.q2, q.q3), H12(q.q0, q.q1, q.q2, q.q3), H22(q.q0, q.q1, q.q2, q.q3))
      == (p.q0 * p.q0 + p.q1 * p.q1 - p.q2 * p.q2 - p.q3 * p.q3) * (2.0 * (q.q1 * q.q3 + q.q2 * q.q0))
       + (2.0 * (p.q1 * p.q2 - p.q3 * p.q0)) * (2.0 * (q.q2 * q.q3 - q.q1 * q.q0))
       + (2.0 * (p.q1 * p.q3 + p.q2 * p.q0)) * (q.q0 * q.q0 - q.q1 * q.q1 - q.q2 * q.q2 + q.q3 * q.q3)
  {
    Dot3OfEqual(H00(p.q0, p.q1, p.q2, p.q3), H01(p.q0, p.q1, p.q2, p.q3), H02(p.q0, p.q1, p.q2, p.q3),
                H02(q.q0, q.q1, q.q2, q.q3), H12(q.q0, q.q1, q.q2, q.q3), H22(q.q0, q.q1, q.q2, q.q3),
                p.q0 * p.q0 + p.q1 * p.q1 - p.q2 * p.q2 - p.q3 * p.q3,
                2.0 * (p.q1 * p.q2 - p.q3 * p.q0),
                2.0 * (p.q1 * p.q3 + p.q2 * p.q0),
                2.0 * (q.q1 * q.q3 + q.q2 * q.q0),
                2.0 * (q.q2 * q.q3 - q.q1 * q.q0),
                q.q0 * q.q0 - q.q1 * q.q1 - q.q2 * q.q2 + q.q3 * q.q3);
  }

  /** Row 1 of p's homogeneous form times column 0 of q's, expanded. */
  lemma EntryFactors10(p: Quat, q: Quat)
    ensures Dot3(H10(p.q0, p.q1, p.q2, p.q3), H11(p.q0, p.q1, p.q2, p.q3), H12(p.q0, p.q1, p.q2, p.q3),
                 H00(q.q0, q.q1, q.q2, q.q3), H10(q.q0, q.q1, q.q2, q.q3), H20(q.q0, q.q1, q.q2, q.q3))
      == (2.0 * (p.q1 * p.q2 + p.q3 * p.q0)) * (q.q0 * q.q0 + q.q1 * q.q1 - q.q2 * q.q2 - q.q3 * q.q3)
       + (p.q0 * p.q0 - p.q1 * p.q1 + p.q2 * p.q2 - p.q3 * p.q3) * (2.0 * (q.q1 * q.q2 + q.q3 * q.q0))
       + (2.0 * (p.q2 * p.q3 - p.q1 * p.q0)) * (2.0 * (q.q1 * q.q3 - q.q2 * q.q0))
  {
    Dot3OfEqual(H10(p.q0, p.q1, p.q2, p.q3), H11(p.q0, p.q1, p.q2, p.q3), H12(p.q0, p.q1, p.q2, p.q3),
                H00(q.q0, q.q1, q.q2, q.q3), H10(q.q0, q.q1, q.q2, q.q3), H20(q.q0, q.q1, q.q2, q.q3),
                2.0 * (p.q1 * p.q2 + p.q3 * p.q0),
                p.q0 * p.q0 - p.q1 * p.q1 + p.q2 * p.q2 - p.q3 * p.q3,
                2.0 * (p.q2 * p.q3 - p.q1 * p.q0),
                q.q0 * q.q0 + q.q1 * q.q1 - q.q2 * q.q2 - q.q3 * q.q3,
                2.0 * (q.q1 * q.q2 + q.q3 * q.q0),
                2.0 * (q.q1 * q.q3 - q.q2 * q.q0));
  }

  /** Row 1 of p's homogeneous form times column 1 of q's, expanded. */
  lemma EntryFactors11(p: Quat, q: Quat)
    ensures Dot3(H10(p.q0, p.q1, p.q2, p.q3), H11(p.q0, p.q1, p.q2, p.q3), H12(p.q0, p.q1, p.q2, p.q3),
                 H01(q.q0, q.q1, q.q2, q.q3), H11(q.q0, q.q1, q.q2, q.q3), H21(q.q0, q.q1, q.q2, q.q3))
      == (2.0 * (p.q1 * p.q2 + p.q3 * p.q0)) * (2.0 * (q.q1 * q.q2 - q.q3 * q.q0))
       + (p.q0 * p.q0 - p.q1 * p.q1 + p.q2 * p.q2 - p.q3 * p.q3) * (q.q0 * q.q0 - q.q1 * q.q1 + q.q2 * q.q2 - q.q3 * q.q3)
       + (2.0 * (p.q2 * p.q3 - p.q1 * p.q0)) * (2.0 * (q.q2 * q.q3 + q.q1 * q.q0))
  {
    Dot3OfEqual(H10(p.q0, p.q1, p.q2, p.q3), H11(p.q0, p.q1, p.q2, p.q3), H12(p.q0, p.q1, p.q2, p.q3),
                H01(q.q0, q.q1, q.q2, q.q3), H11(q.q0, q.q1, q.q2, q.q3), H21(q.q0, q.q1, q.q2, q.q3),
                2.0 * (p.q1 * p.q2 + p.q3 * p.q0),
                p.q0 * p.q0 - p.q1 * p.q1 + p.q2 * p.q2 - p.q3 * p.q3,
                2.0 * (p.q2 * p.q3 - p.q1 * p.q0),
                2.0 * (q.q1 * q.q2 - q.q3 * q.q0),
                q.q0 * q.q0 - q.q1 * q.q1 + q.q2 * q.q2 - q.q3 * q.q3,
                2.0 * (q.q2 * q.q3 + q.q1 * q.q0));
  }

  /** Row 1 of p's homogeneous form times column 2 of q's, expanded. */
  lemma EntryFactors12(p: Quat, q: Quat)
    ensures Dot3(H10(p.q0, p.q1, p.q2, p.q3), H11(p.q0, p.q1, p.q2, p.q3), H12(p.q0, p.q1, p.q2, p.q3),
                 H02(q.q0, q.q1, q.q2, q.q3), H12(q.q0, q.q1, q.q2, q.q3), H22(q.q0, q.q1, q.q2, q.q3))
      == (2.0 * (p.q1 * p.q2 + p.q3 * p.q0)) * (2.0 * (q.q1 * q.q3 + q.q2 * q.q0))
       + (p.q0 * p.q0 - p.q1 * p.q1 + p.q2 * p.q2 - p.q3 * p.q3) * (2.0 * (q.q2 * q.q3 - q.q1 * q.q0))
       + (2.0 * (p.q2 * p.q3 - p.q1 * p.q0)) * (q.q0 * q.q0 - q.q1 * q.q1 - q.q2 * q.q2 + q.q3 * q.q3)
  {
    Dot3OfEqual(H10(p.q0, p.q1, p.q2, p.q3), H11(p.q0, p.q1, p.q2, p.q3), H12(p.q0, p.q1, p.q2, p.q3),
                H02(q.q0, q.q1, q.q2, q.q3), H12(q.q0, q.q1, q.q2, q.q3), H22(q.q0, q.q1, q.q2, q.q3),
                2.0 * (p.q1 * p.q2 + p.q3 * p.q0),
                p.q0 * p.q0 - p.q1 * p.q1 + p.q2 * p.q2 - p.q3 * p.q3,
                2.0 * (p.q2 * p.q3 - p.q1 * p.q0),
                2.0 * (q.q1 * q.q3 + q.q2 * q.q0),
                2.0 * (q.q2 * q.q3 - q.q1 * q.q0),
                q.q0 * q.q0 - q.q1 * q.q1 - q.q2 * q.q2 + q.q3 * q.q3);
  }

  /** Row 2 of p's homogeneous form times column 0 of q's, expanded. */
  lemma EntryFactors20(p: Quat, q: Quat)
    ensures Dot3(H20(p.q0, p.q1, p.q2, p.q3), H21(p.q0, p.q1, p.q2, p.q3), H22(p.q0, p.q1, p.q2, p.q3),
                 H00(q.q0, q.q1, q.q2, q.q3), H10(q.q0, q.q1, q.q2, q.q3), H20(q.q0, q.q1, q.q2, q.q3))
      == (2.0 * (p.q1 * p.q3 - p.q2 * p.q0)) * (q.q0 * q.q0 + q.q1 * q.q1 - q.q2 * q.q2 - q.q3 * q.q3)
       + (2.0 * (p.q2 * p.q3 + p.q1 * p.q0)) * (2.0 * (q.q1 * q.q2 + q.q3 * q.q0))
       + (p.q0 * p.q0 - p.q1 * p.q1 - p.q2 * p.q2 + p.q3 * p.q3) * (2.0 * (q.q1 * q.q3 - q.q2 * q.q0))
  {
    Dot3OfEqual(H20(p.q0, p.q1, p.q2, p.q3), H21(p.q0, p.q1, p.q2, p.q3), H22(p.q0, p.q1, p.q2, p.q3),
                H00(q.q0, q.q1, q.q2, q.q3), H10(q.q0, q.q1, q.q2, q.q3), H20(q.q0, q.q1, q.q2, q.q3),
                2.0 * (p.q1 * p.q3 - p.q2 * p.q0),
                2.0 * (p.q2 * p.q3 + p.q1 * p.q0),
                p.q0 * p.q0 - p.q1 * p.q1 - p.q2 * p.q2 + p.q3 * p.q3,
                q.q0 * q.q0 + q.q1 * q.q1 - q.q2 * q.q2 - q.q3 * q.q3,
                2.0 * (q.q1 * q.q2 + q.q3 * q.q0),
                2.0 * (q.q1 * q.q3 - q.q2 * q.q0));
  }

  /** Row 2 of p's homogeneous form times column 1 of q's, expanded. */
  lemma EntryFactors21(p: Quat, q: Quat)
    ensures Dot3(H20(p.q0, p.q1, p.q2, p.q3), H21(p.q0, p.q1, p.q2, p.q3), H22(p.q0, p.q1, p.q2, p.q3),
                 H01(q.q0, q.q1, q.q2, q.q3), H11(q.q0, q.q1, q.q2, q.q3), H21(q.q0, q.q1, q.q2, q.q3))
      == (2.0 * (p.q1 * p.q3 - p.q2 * p.q0)) * (2.0 * (q.q1 * q.q2 - q.q3 * q.q0))
       + (2.0 * (p.q2 * p.q3 + p.q1 * p.q0)) * (q.q0 * q.q0 - q.q1 * q.q1 + q.q2 * q.q2 - q.q3 * q.q3)
       + (p.q0 * p.q0 - p.q1 * p.q1 - p.q2 * p.q2 + p.q3 * p.q3) * (2.0 * (q.q2 * q.q3 + q.q1 * q.q0))
  {
    Dot3OfEqual(H20(p.q0, p.q1, p.q2, p.q3), H21(p.q0, p.q1, p.q2, p.q3), H22(p.q0, p.q1, p.q2, p.q3),
                H01(q.q0, q.q1, q.q2, q.q3), H11(q.q0, q.q1, q.q2, q.q3), H21(q.q0, q.q1, q.q2, q.q3),
                2.0 * (p.q1 * p.q3 - p.q2 * p.q0),
                2.0 * (p.q2 * p.q3 + p.q1 * p.q0),
                p.q0 * p.q0 - p.q1 * p.q1 - p.q2 * p.q2 + p.q3 * p.q3,
                2.0 * (q.q1 * q.q2 - q.q3 * q.q0),
                q.q0 * q.q0 - q.q1 * q.q1 + q.q2 * q.q2 - q.q3 * q.q3,
                2.0 * (q.q2 * q.q3 + q.q1 * q.q0));
  }

  /** Row 2 of p's homogeneous form times column 2 of q's, expanded. */
  lemma EntryFactors22(p: Quat, q: Quat)
    ensures Dot3(H20(p.q0, p.q1, p.q2, p.q3), H21(p.q0, p.q1, p.q2, p.q3), H22(p.q0, p.q1, p.q2, p.q3),
                 H02(q.q0, q.q1, q.q2, q.q3), H12(q.q0, q.q1, q.q2, q.q3), H22(q.q0, q.q1, q.q2, q.q3))
      == (2.0 * (p.q1 * p.q3 - p.q2 * p.q0)) * (2.0 * (q.q1 * q.q3 + q.q2 * q.q0))
       + (2.0 * (p.q2 * p.q3 + p.q1 * p.q0)) * (2.0 * (q.q2 * q.q3 - q.q1 * q.q0))
       + (p.q0 * p.q0 - p.q1 * p.q1 - p.q2 * p.q2 + p.q3 * p.q3) * (q.q0 * q.q0 - q.q1 * q.q1 - q.q2 * q.q2 + q.q3 * q.q3)
  {
    Dot3OfEqual(H20(p.q0, p.q1, p.q2, p.q3), H21(p.q0, p.q1, p.q2, p.q3), H22(p.q0, p.q1, p.q2, p.q3),
                H02(q.q0, q.q1, q.q2, q.q3), H12(q.q0, q.q1, q.q2, q.q3), H22(q.q0, q.q1, q.q2, q.q3),
                2.0 * (p.q1 * p.q3 - p.q2 * p.q0),
                2.0 * (p.q2 * p.q3 + p.q1 * p.q0),
                p.q0 * p.q0 - p.q1 * p.q1 - p.q2 * p.q2 + p.q3 * p.q3,
                2.0 * (q.q1 * q.q3 + q.q2 * q.q0),
                2.0 * (q.q2 * q.q3 - q.q1 * q.q0),
                q.q0 * q.q0 - q.q1 * q.q1 - q.q2 * q.q2 + q.q3 * q.q3);
  }

  /** Entry (0, 0) of the homogeneous form of p * q is row 0 of p's times column 0 of q's. */
  lemma HomogeneousEntry00(p: Quat, q: Quat)
    ensures var m := Mul(p, q);
      H00(m.q0, m.q1, m.q2, m.q3)
      == Dot3(H00(p.q0, p.q1, p.q2, p.q3), H01(p.q0, p.q1, p.q2, p.q3), H02(p.q0, p.q1, p.q2, p.q3),
              H00(q.q0, q.q1, q.q2, q.q3), H10(q.q0, q.q1, q.q2, q.q3), H20(q.q0, q.q1, q.q2, q.q3))
  {
    EntryIdentity00(p, q);
    EntryFactors00(p, q);
  }

  /** Entry (0, 1) of the homogeneous form of p * q is row 0 of p's times column 1 of q's. */
  lemma HomogeneousEntry01(p: Quat, q: Quat)
    ensures var m := Mul(p, q);
      H01(m.q0, m.q1, m.q2, m.q3)
      == Dot3(H00(p.q0, p.q1, p.q2, p.q3), H01(p.q0, p.q1, p.q2, p.q3), H02(p.q0, p.q1, p.q2, p.q3),
              H01(q.q0, q.q1, q.q2, q.q3), H11(q.q0, q.q1, q.q2, q.q3), H21(q.q0, q.q1, q.q2, q.q3))
  {
    EntryIdentity01(p, q);
    EntryFactors01(p, q);
  }

  /** Entry (0, 2) of the homogeneous form of p * q is row 0 of p's times column 2 of q's. */
  lemma HomogeneousEntry02(p: Quat, q: Quat)
    ensures var m := Mul(p, q);
      H02(m.q0, m.q1, m.q2, m.q3)
      == Dot3(H00(p.q0, p.q1, p.q2, p.q3), H01(p.q0, p.q1, p.q2, p.q3), H02(p.q0, p.q1, p.q2, p.q3),
              H02(q.q0, q.q1, q.q2, q.q3), H12(q.q0, q.q1, q.q2, q.q3), H22(q.q0, q.q1, q.q2, q.q3))
  {
    EntryIdentity02(p, q);
    EntryFactors02(p, q);
  }

  /** Entry (1, 0) of the homogeneous form of p * q is row 1 of p's times column 0 of q's. */
  lemma HomogeneousEntry10(p: Quat, q: Quat)
    ensures var m := Mul(p, q);
      H10(m.q0, m.q1, m.q2, m.q3)
      == Dot3(H10(p.q0, p.q1, p.q2, p.q3), H11(p.q0, p.q1, p.q2, p.q3), H12(p.q0, p.q1, p.q2, p.q3),
              H00(q.q0, q.q1, q.q2, q.q3), H10(q.q0, q.q1, q.q2, q.q3), H20(q.q0, q.q1, q.q2, q.q3))
  {
    EntryIdentity10(p, q);
    EntryFactors10(p, q);
  }

  /** Entry (1, 1) of the homogeneous form of p * q is row 1 of p's times column 1 of q's. */
  lemma HomogeneousEntry11(p: Quat, q: Quat)
    ensures var m := Mul(p, q);
      H11(m.q0, m.q1, m.q2, m.q3)
      == Dot3(H10(p.q0, p.q1, p.q2, p.q3), H11(p.q0, p.q1, p.q2, p.q3), H12(p.q0, p.q1, p.q2, p.q3),
              H01(q.q0, q.q1, q.q2, q.q3), H11(q.q0, q.q1, q.q2, q.q3), H21(q.q0, q.q1, q.q2, q.q3))
  {
    EntryIdentity11(p, q);
    EntryFactors11(p, q);
  }

  /** Entry (1, 2) of the homogeneous form of p * q is row 1 of p's times column 2 of q's. */
  lemma HomogeneousEntry12(p: Quat, q: Quat)
    ensures var m := Mul(p, q);
      H12(m.q0, m.q1, m.q2, m.q3)
      == Dot3(H10(p.q0, p.q1, p.q2, p.q3), H11(p.q0, p.q1, p.q2, p.q3), H12(p.q0, p.q1, p.q2, p.q3),
              H02(q.q0, q.q1, q.q2, q.q3), H12(q.q0, q.q1, q.q2, q.q3), H22(q.q0, q.q1, q.q2, q.q3))
  {
    EntryIdentity12(p, q);
    EntryFactors12(p, q);
  }

  /** Entry (2, 0) of the homogeneous form of p * q is row 2 of p's times column 0 of q's. */
  lemma HomogeneousEntry20(p: Quat, q: Quat)
    ensures var m := Mul(p, q);
      H20(m.q0, m.q1, m.q2, m.q3)
      == Dot3(H20(p.q0, p.q1, p.q2, p.q3), H21(p.q0, p.q1, p.q2, p.q3), H22(p.q0, p.q1, p.q2, p.q3),
              H00(q.q0, q.q1, q.q2, q.q3), H10(q.q0, q.q1, q.q2, q.q3), H20(q.q0, q.q1, q.q2, q.q3))
  {
    EntryIdentity20(p, q);
    EntryFactors20(p, q);
  }

  /** Entry (2, 1) of the homogeneous form of p * q is row 2 of p's times column 1 of q's. */
  lemma HomogeneousEntry21(p: Quat, q: Quat)
    ensures var m := Mul(p, q);
      H21(m.q0, m.q1, m.q2, m.q3)
      == Dot3(H20(p.q0, p.q1, p.q2, p.q3), H21(p.q0, p.q1, p.q2, p.q3), H22(p.q0, p.q1, p.q2, p.q3),
              H01(q.q0, q.q1, q.q2, q.q3), H11(q.q0, q.q1, q.q2, q.q3), H21(q.q0, q.q1, q.q2, q.q3))
  {
    EntryIdentity21(p, q);
    EntryFactors21(p, q);
  }

  /** Entry (2, 2) of the homogeneous form of p * q is row 2 of p's times column 2 of q's. */
  lemma HomogeneousEntry22(p: Quat, q: Quat)
    ensures var m := Mul(p, q);
      H22(m.q0, m.q1, m.q2, m.q3)
      == Dot3(H20(p.q0, p.q1, p.q2, p.q3), H21(p.q0, p.q1, p.q2, p.q3), H22(p.q0, p.q1, p.q2, p.q3),
              H02(q.q0, q.q1, q.q2, q.q3), H12(q.q0, q.q1, q.q2, q.q3), H22(q.q0, q.q1, q.q2, q.q3))
  {
    EntryIdentity22(p, q);
    EntryFactors22(p, q);
  }

  /** The homogeneous form turns the quaternion product into the matrix product. */
  lemma HomogeneousProduct(p: Quat, q: Quat)
    ensures Homogeneous(Mul(p, q)) == Product(Homogeneous(p), 3, 3, Homogeneous(q), 3)
  {
    var m, x, y := Mul(p, q), Homogeneous(p), Homogeneous(q);
    assert m.q0 == p.q0 * q.q0 - p.q1 * q.q1 - p.q2 * q.q2 - p.q3 * q.q3;
    assert m.q1 == p.q1 * q.q0 + p.q0 * q.q1 - p.q3 * q.q2 + p.q2 * q.q3;
    assert m.q2 == p.q2 * q.q0 + p.q3 * q.q1 + p.q0 * q.q2 - p.q1 * q.q3;
    assert m.q3 == p.q3 * q.q0 - p.q2 * q.q1 + p.q1 * q.q2 + p.q0 * q.q3;
    assert H00(m.q0, m.q1, m.q2, m.q3) == Dot3(x[0], x[1], x[2], y[0], y[3], y[6]) by {
      HomogeneousEntry00(p, q);
    }
    assert H01(m.q0, m.q1, m.q2, m.q3) == Dot3(x[0], x[1], x[2], y[1], y[4], y[7]) by {
      HomogeneousEntry01(p, q);
    }
    assert H02(m.q0, m.q1, m.q2, m.q3) == Dot3(x[0], x[1], x[2], y[2], y[5], y[8]) by {
      HomogeneousEntry02(p, q);
    }
    assert H10(m.q0, m.q1, m.q2, m.q3) == Dot3(x[3], x[4], x[5], y[0], y[3], y[6]) by {
      HomogeneousEntry10(p, q);
    }
    assert H11(m.q0, m.q1, m.q2, m.q3) == Dot3(x[3], x[4], x[5], y[1], y[4], y[7]) by {
      HomogeneousEntry11(p, q);
    }
    assert H12(m.q0, m.q1, m.q2, m.q3) == Dot3(x[3], x[4], x[5], y[2], y[5], y[8]) by {
      HomogeneousEntry12(p, q);
    }
    assert H20(m.q0, m.q1, m.q2, m.q3) == Dot3(x[6], x[7], x[8], y[0], y[3], y[6]) by {
      HomogeneousEntry20(p, q);
    }
    assert H21(m.q0, m.q1, m.q2, m.q3) == Dot3(x[6], x[7], x[8], y[1], y[4], y[7]) by {
      HomogeneousEntry21(p, q);
    }
    assert H22(m.q0, m.q1, m.q2, m.q3) == Dot3(x[6], x[7], x[8], y[2], y[5], y[8]) by {
      HomogeneousEntry22(p, q);
    }
    Product3Flat(x, y);
  }

  /** The polynomial identity behind the determinant: the expanded determinant of the homogeneous form is norm cubed. */
  lemma DeterminantIdentity(q: Quat)
    ensures Det3Of(q.q0 * q.q0 + q.q1 * q.q1 - q.q2 * q.q2 - q.q3 * q.q3, 2.0 * (q.q1 * q.q2 - q.q3 * q.q0), 2.0 * (q.q1 * q.q3 + q.q2 * q.q0),
                   2.0 * (q.q1 * q.q2 + q.q3 * q.q0), q.q0 * q.q0 - q.q1 * q.q1 + q.q2 * q.q2 - q.q3 * q.q3, 2.0 * (q.q2 * q.q3 - q.q1 * q.q0),
                   2.0 * (q.q1 * q.q3 - q.q2 * q.q0), 2.0 * (q.q2 * q.q3 + q.q1 * q.q0), q.q0 * q.q0 - q.q1 * q.q1 - q.q2 * q.q2 + q.q3 * q.q3)
      == (q.q0 * q.q0 + q.q1 * q.q1 + q.q2 * q.q2 + q.q3 * q.q3) * (q.q0 * q.q0 + q.q1 * q.q1 + q.q2 * q.q2 + q.q3 * q.q3) * (q.q0 * q.q0 + q.q1 * q.q1 + q.q2 * q.q2 + q.q3 * q.q3)
  {
  }

  /** norm(q) cubed, with the sum of squares written out. */
  lemma NormCubed(q: Quat)
    ensures Norm(q) * Norm(q) * Norm(q) == (q.q0 * q.q0 + q.q1 * q.q1 + q.q2 * q.q2 + q.q3 * q.q3) * (q.q0 * q.q0 + q.q1 * q.q1 + q.q2 * q.q2 + q.q3 * q.q3) * (q.q0 * q.q0 + q.q1 * q.q1 + q.q2 * q.q2 + q.q3 * q.q3)
  {
  }

  /** The determinant of the homogeneous form is norm(q) cubed. */
  lemma HomogeneousDeterminant(q: Quat)
    ensures var n := Norm(q); Det3(Homogeneous(q)) == n * n * n
  {
    HomogeneousDetEntries(q);
    DeterminantIdentity(q);
    NormCubed(q);
  }

  /** The determinant of the homogeneous form, with its entries written out. */
  lemma HomogeneousDetEntries(q: Quat)
    ensures Det3(Homogeneous(q))
         == Det3Of(q.q0 * q.q0 + q.q1 * q.q1 - q.q2 * q.q2 - q.q3 * q.q3,
                   2.0 * (q.q1 * q.q2 - q.q3 * q.q0),
                   2.0 * (q.q1 * q.q3 + q.q2 * q.q0),
                   2.0 * (q.q1 * q.q2 + q.q3 * q.q0),
                   q.q0 * q.q0 - q.q1 * q.q1 + q.q2 * q.q2 - q.q3 * q.q3,
                   2.0 * (q.q2 * q.q3 - q.q1 * q.q0),
                   2.0 * (q.q1 * q.q3 - q.q2 * q.q0),
                   2.0 * (q.q2 * q.q3 + q.q1 * q.q0),
                   q.q0 * q.q0 - q.q1 * q.q1 - q.q2 * q.q2 + q.q3 * q.q3)
  {
    var h := Homogeneous(q);
    Det3Flat(h);
    assert h[0] == q.q0 * q.q0 + q.q1 * q.q1 - q.q2 * q.q2 - q.q3 * q.q3;
    assert h[1] == 2.0 * (q.q1 * q.q2 - q.q3 * q.q0);
    assert h[2] == 2.0 * (q.q1 * q.q3 + q.q2 * q.q0);
    assert h[3] == 2.0 * (q.q1 * q.q2 + q.q3 * q.q0);
    assert h[4] == q.q0 * q.q0 - q.q1 * q.q1 + q.q2 * q.q2 - q.q3 * q.q3;
    assert h[5] == 2.0 * (q.q2 * q.q3 - q.q1 * q.q0);
    assert h[6] == 2.0 * (q.q1 * q.q3 - q.q2 * q.q0);
    assert h[7] == 2.0 * (q.q2 * q.q3 + q.q1 * q.q0);
    assert h[8] == q.q0 * q.q0 - q.q1 * q.q1 - q.q2 * q.q2 + q.q3 * q.q3;
  }

  // ---------------------------------------------------------------------
  // Laws of DCM(q)
  // ---------------------------------------------------------------------

  /** DCM(1, 0, 0, 0) is the identity. */
  lemma DcmOfOne()
    ensures DcmOf(One) == IdentityOf(3)
  {
    Identity3();
  }

  /** Every entry is quadratic in q, so q and -q give the same matrix. */
  lemma DcmOfNeg(q: Quat)
    ensures DcmOf(Neg(q)) == DcmOf(q)
  {
    var d, e := DcmOf(Neg(q)), DcmOf(q);
    assert d[0] == e[0];
    assert d[1] == e[1];
    assert d[2] == e[2];
    assert d[3] == e[3];
    assert d[4] == e[4];
    assert d[5] == e[5];
    assert d[6] == e[6];
    assert d[7] == e[7];
    assert d[8] == e[8];
    assert |d| == |e|;
  }

  /** The conjugate quaternion gives the transposed matrix. */
  lemma DcmOfConjugate(q: Quat)
    ensures DcmOf(Conjugate(q)) == Transposed(DcmOf(q), 3, 3)
  {
    ConjugateEntries(q);
    Transposed3(DcmOf(q));
  }

  /** Negating q1, q2 and q3 swaps each off-diagonal entry with its mirror image. */
  lemma ConjugateEntries(q: Quat)
    ensures var d, e := DcmOf(Conjugate(q)), DcmOf(q);
      d == [e[0], e[3], e[6], e[1], e[4], e[7], e[2], e[5], e[8]]
  {
    var d, e := DcmOf(Conjugate(q)), DcmOf(q);
    NineEntries();
    assert d[0] == e[0];
    assert d[1] == e[3];
    assert d[2] == e[6];
    assert d[3] == e[1];
    assert d[4] == e[4];
    assert d[5] == e[7];
    assert d[6] == e[2];
    assert d[7] == e[5];
    assert d[8] == e[8];
  }

  /** For unit p and q, DCM(p * q) == DCM(p) * DCM(q). */
  lemma DcmOfProduct(p: Quat, q: Quat)
    requires Norm(p) == 1.0 && Norm(q) == 1.0
    ensures DcmOf(Mul(p, q)) == Product(DcmOf(p), 3, 3, DcmOf(q), 3)
  {
    NormMultiplicative(p, q);
    UnitDcmIsHomogeneous(p);
    UnitDcmIsHomogeneous(q);
    UnitDcmIsHomogeneous(Mul(p, q));
    HomogeneousProduct(p, q);
  }

  /** For a unit quaternion DCM(q) is orthogonal: D * D^T == D^T * D == I. */
  lemma UnitDcmOrthogonal(q: Quat)
    requires Norm(q) == 1.0
    ensures Product(DcmOf(q), 3, 3, Transposed(DcmOf(q), 3, 3), 3) == IdentityOf(3)
    ensures Product(Transposed(DcmOf(q), 3, 3), 3, 3, DcmOf(q), 3) == IdentityOf(3)
  {
    ConjugateInvolution(q);
    DcmOfConjugate(q);
    MulConjugate(q);
    DcmOfProduct(q, Conjugate(q));
    DcmOfProduct(Conjugate(q), q);
    assert Quat(Norm(q), 0.0, 0.0, 0.0) == One;
    DcmOfOne();
  }

  /** For a unit quaternion DCM(q) is a rotation: its determinant is 1. */
  lemma UnitDcmDeterminant(q: Quat)
    requires Norm(q) == 1.0
    ensures Det3(DcmOf(q)) == 1.0
  {
    UnitDcmIsHomogeneous(q);
    HomogeneousDeterminant(q);
  }

  /** DCM(0, 1, 0, 0), the half turn about x, printed by the library's tests. */
  lemma DcmExample()
    ensures DcmOf(I) == [1.0, 0.0, 0.0, 0.0, -1.0, 0.0, 0.0, 0.0, -1.0]
  {
  }

  // ---------------------------------------------------------------------
  // Constructors
  // ---------------------------------------------------------------------

  /** DCM(): the 3-by-3 identity. */
  method Default() returns (d: Matrix)
    ensures fresh(d) && fresh(d.data) && IsDcm(d)
    ensures d.Contents() == IdentityOf(3)
  {
    NineEntries();
    d := Identity(3);
  }

  /** DCM(values[3][3]): row i of values becomes row i of the matrix. */
  method FromRows(values: seq<seq<real>>) returns (d: Matrix)
    requires |values| == 3 && forall i :: 0 <= i < 3 ==> |values[i]| == 3
    ensures fresh(d) && fresh(d.data) && IsDcm(d)
    ensures d.Contents() == Grid(values, 3, 3)
    ensures forall i: nat, j: nat :: i < 3 && j < 3 ==> At(d.Contents(), 3, 3, i, j) == values[i][j]
  {
    NineEntries();
    d := new Matrix.FromGrid(3, 3, values);
    GridEntries(values, 3, 3);
  }

  /** DCM(values[9]): the nine values in row-major order. */
  method FromFlat(values: seq<real>) returns (d: Matrix)
    requires |values| == 9
    ensures fresh(d) && fresh(d.data) && IsDcm(d)
    ensures d.Contents() == values
  {
    NineEntries();
    d := new Matrix.FromFlat(3, 3, values);
  }

  /** DCM(Matrix<T,3,3>) and DCM(SquareMatrix<T,3>): a copy of all nine entries. */
  method FromMatrix(other: Matrix) returns (d: Matrix)
    requires other.Valid() && other.M == 3 && other.N == 3
    ensures fresh(d) && fresh(d.data) && IsDcm(d)
    ensures d.Contents() == other.Contents()
  {
    NineEntries();
    d := new Matrix.Copy(other);
  }

  /** The nine entries of DCM(q), one by one. */
  lemma DcmOfEntries(q: Quat)
    ensures DcmOf(q)[0] == 1.0 - 2.0 * (q.q2 * q.q2 + q.q3 * q.q3)
    ensures DcmOf(q)[1] == 2.0 * (q.q1 * q.q2 - q.q3 * q.q0)
    ensures DcmOf(q)[2] == 2.0 * (q.q1 * q.q3 + q.q2 * q.q0)
    ensures DcmOf(q)[3] == 2.0 * (q.q1 * q.q2 + q.q3 * q.q0)
    ensures DcmOf(q)[4] == 1.0 - 2.0 * (q.q1 * q.q1 + q.q3 * q.q3)
    ensures DcmOf(q)[5] == 2.0 * (q.q2 * q.q3 - q.q1 * q.q0)
    ensures DcmOf(q)[6] == 2.0 * (q.q1 * q.q3 - q.q2 * q.q0)
    ensures DcmOf(q)[7] == 2.0 * (q.q2 * q.q3 + q.q1 * q.q0)
    ensures DcmOf(q)[8] == 1.0 - 2.0 * (q.q1 * q.q1 + q.q2 * q.q2)
  {
  }

  /** DCM(q): nine straight-line writes of the quadratic formula into a fresh buffer. */
  method FromQuaternion(q: Quaternion) returns (d: Matrix)
    requires q.Valid()
    ensures fresh(d) && fresh(d.data) && IsDcm(d)
    ensures d.Contents() == DcmOf(q.Value())
  {
    NineEntries();
    var v := q.Value();
    ghost var e := DcmOf(v);
    DcmOfEntries(v);
    d := new Matrix.Zero(3, 3);
    d.data[0] := 1.0 - 2.0 * (v.q2 * v.q2 + v.q3 * v.q3);
    d.data[1] := 2.0 * (v.q1 * v.q2 - v.q3 * v.q0);
    d.data[2] := 2.0 * (v.q1 * v.q3 + v.q2 * v.q0);
    d.data[3] := 2.0 * (v.q1 * v.q2 + v.q3 * v.q0);
    d.data[4] := 1.0 - 2.0 * (v.q1 * v.q1 + v.q3 * v.q3);
    d.data[5] := 2.0 * (v.q2 * v.q3 - v.q1 * v.q0);
    d.data[6] := 2.0 * (v.q1 * v.q3 - v.q2 * v.q0);
    d.data[7] := 2.0 * (v.q2 * v.q3 + v.q1 * v.q0);
    d.data[8] := 1.0 - 2.0 * (v.q1 * v.q1 + v.q2 * v.q2);
    assert d.data[..] == e;
  }
}
