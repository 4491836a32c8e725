/**
 * Quaternion algebra, scalar first: q = (q0, q1, q2, q3) with q0 the scalar
 * part. The value-returning operators are functions on the datatype Quat; the
 * compound operators and invert() change a Quaternion object's four-entry
 * buffer in place and are proved to leave exactly the value the matching
 * function describes.
 */
module Quaternions {
  import opened RowMajor
  import opened MatrixAlgebra

  datatype Quat = Quat(q0: real, q1: real, q2: real, q3: real)

  /** The value of a default-constructed quaternion, (1, 0, 0, 0). */
  const One: Quat := Quat(1.0, 0.0, 0.0, 0.0)

  /** The three basis units i, j and k. */
  const I: Quat := Quat(0.0, 1.0, 0.0, 0.0)
  const J: Quat := Quat(0.0, 0.0, 1.0, 0.0)
  const K: Quat := Quat(0.0, 0.0, 0.0, 1.0)

  /** The four entries of q as the Vector<T,4> buffer that stores them. */
  function Entries(q: Quat): (r: seq<real>)
    ensures |r| == 4
  {
    [q.q0, q.q1, q.q2, q.q3]
  }

  /** The quaternion stored in a four-entry buffer, entry k going to qk. */
  function FromEntries(s: seq<real>): (r: Quat)
    requires |s| == 4
    ensures Entries(r) == s
  {
    Quat(s[0], s[1], s[2], s[3])
  }

  // ---------------------------------------------------------------------
  // Value-returning operators
  // ---------------------------------------------------------------------

  /** operator+(Quaternion): component-wise sum. */
  function Add(p: Quat, q: Quat): (r: Quat)
    ensures Entries(r) == Sum(Entries(p), Entries(q))
    ensures Sub(r, q) == p
  {
    Quat(p.q0 + q.q0, p.q1 + q.q1, p.q2 + q.q2, p.q3 + q.q3)
  }

  /** operator-(Quaternion): component-wise difference. */
  function Sub(p: Quat, q: Quat): (r: Quat)
    ensures Entries(r) == Difference(Entries(p), Entries(q))
  {
    Quat(p.q0 - q.q0, p.q1 - q.q1, p.q2 - q.q2, p.q3 - q.q3)
  }

  /**
   * The Hamilton product p * q, with the sign pattern of the source. In
   * scalar-vector form, with u and v the vector parts of p and q, it is
   * (p0 q0 - u . v,  p0 v + q0 u + u x v).
   */
  function Mul(p: Quat, q: Quat): (r: Quat)
    ensures r.q0 == p.q0 * q.q0 - Dot3(p.q1, p.q2, p.q3, q.q1, q.q2, q.q3)
    ensures r.q1 == p.q0 * q.q1 + q.q0 * p.q1 + (p.q2 * q.q3 - p.q3 * q.q2)
    ensures r.q2 == p.q0 * q.q2 + q.q0 * p.q2 + (p.q3 * q.q1 - p.q1 * q.q3)
    ensures r.q3 == p.q0 * q.q3 + q.q0 * p.q3 + (p.q1 * q.q2 - p.q2 * q.q1)
  {
    Quat(p.q0 * q.q0 - p.q1 * q.q1 - p.q2 * q.q2 - p.q3 * q.q3,
         p.q1 * q.q0 + p.q0 * q.q1 - p.q3 * q.q2 + p.q2 * q.q3,
         p.q2 * q.q0 + p.q3 * q.q1 + p.q0 * q.q2 - p.q1 * q.q3,
         p.q3 * q.q0 - p.q2 * q.q1 + p.q1 * q.q2 + p.q0 * q.q3)
  }

  /** operator+(T): adds the scalar to q0 only. */
  function AddScalar(q: Quat, v: real): (r: Quat)
    ensures r == Add(q, Quat(v, 0.0, 0.0, 0.0))
  {
    Quat(q.q0 + v, q.q1, q.q2, q.q3)
  }

  /** operator-(T): subtracts the scalar from q0 only. */
  function SubScalar(q: Quat, v: real): (r: Quat)
    ensures r == Sub(q, Quat(v, 0.0, 0.0, 0.0))
    ensures AddScalar(r, v) == q
  {
    Quat(q.q0 - v, q.q1, q.q2, q.q3)
  }

  /** operator*(T): scales all four components. */
  function Scale(q: Quat, v: real): (r: Quat)
    ensures r == Mul(q, Quat(v, 0.0, 0.0, 0.0))
    ensures r == Mul(Quat(v, 0.0, 0.0, 0.0), q)
  {
    Quat(q.q0 * v, q.q1 * v, q.q2 * v, q.q3 * v)
  }

  /** The free operator*(T, Quaternion), which is q * value. */
  function ScalarTimes(v: real, q: Quat): (r: Quat)
    ensures r == Mul(Quat(v, 0.0, 0.0, 0.0), q)
  {
    Scale(q, v)
  }

  /** The negated quaternion, every component negated; used to state DCM(-q) == DCM(q). */
  function Neg(q: Quat): Quat {
    Quat(-q.q0, -q.q1, -q.q2, -q.q3)
  }

  /** norm(): the SQUARED norm, the sum of the four squares, with no square root. */
  function Norm(q: Quat): (r: real)
    ensures r >= 0.0
  {
    SumOfSquares(q.q0, q.q1, q.q2, q.q3)
  }

  function SumOfSquares(a: real, b: real, c: real, d: real): (r: real)
    ensures r >= 0.0
  {
    SquareNonNegative(a);
    SquareNonNegative(b);
    SquareNonNegative(c);
    SquareNonNegative(d);
    a * a + b * b + c * c + d * d
  }

  /** conjugate(): keeps q0 and negates the vector part. */
  function Conjugate(q: Quat): (r: Quat)
    ensures Add(q, r) == Quat(2.0 * q.q0, 0.0, 0.0, 0.0)
  {
    Quat(q.q0, -q.q1, -q.q2, -q.q3)
  }

  /**
   * inverse(): the conjugate divided component-wise by norm(). The source has
   * no guard against a zero norm; here the division needs a non-zero norm.
   */
  function Inverse(q: Quat): (r: Quat)
    requires Norm(q) != 0.0
    ensures Mul(q, r) == One && Mul(r, q) == One
  {
    InverseComponents(q.q0, q.q1, q.q2, q.q3);
    var c := Conjugate(q);
    var n := Norm(q);
    Quat(c.q0 / n, c.q1 / n, c.q2 / n, c.q3 / n)
  }

  // ---------------------------------------------------------------------
  // Laws of the component-wise and scalar operators
  // ---------------------------------------------------------------------

  /** Unary minus is the element-wise negation of the buffer, and an involution. */
  lemma NegElementwise(q: Quat)
    ensures Entries(Neg(q)) == Negation(Entries(q))
    ensures Neg(Neg(q)) == q && Neg(q) == Scale(q, -1.0)
  {
  }

  /**
   * The scalar operators act on q0 alone: adding or subtracting v is adding or
   * subtracting the real quaternion (v, 0, 0, 0), and the two undo each other.
   */
  lemma ScalarShiftsOnlyQ0(q: Quat, v: real)
    ensures AddScalar(q, v) == Add(q, Quat(v, 0.0, 0.0, 0.0))
    ensures SubScalar(q, v) == Sub(q, Quat(v, 0.0, 0.0, 0.0))
    ensures SubScalar(AddScalar(q, v), v) == q
    ensures AddScalar(q, v).q1 == q.q1 && AddScalar(q, v).q2 == q.q2 && AddScalar(q, v).q3 == q.q3
  {
  }

  // ---------------------------------------------------------------------
  // Laws of the Hamilton product
  // ---------------------------------------------------------------------

  /** (1, 0, 0, 0) is a two-sided unit of the product. */
  lemma OneIsUnit(q: Quat)
    ensures Mul(One, q) == q && Mul(q, One) == q
  {
  }

  /** i * j = k. */
  lemma BasisIJ()
    ensures Mul(I, J) == K
  {
  }

  /** j * k = i. */
  lemma BasisJK()
    ensures Mul(J, K) == I
  {
  }

  /** k * i = j. */
  lemma BasisKI()
    ensures Mul(K, I) == J
  {
  }

  /** The basis units anticommute: j * i = -k, k * j = -i and i * k = -j. */
  lemma BasisAnticommute()
    ensures Mul(J, I) == Neg(K)
    ensures Mul(K, J) == Neg(I)
    ensures Mul(I, K) == Neg(J)
  {
  }

  /** Each basis unit squares to -1. */
  lemma BasisSquares()
    ensures Mul(I, I) == Neg(One)
    ensures Mul(J, J) == Neg(One)
    ensures Mul(K, K) == Neg(One)
  {
  }

  /** Negating one factor negates the product. */
  lemma MulNegLeft(p: Quat, q: Quat)
    ensures Mul(Neg(p), q) == Neg(Mul(p, q))
  {
    NegateThroughProduct(p.q0, p.q1, p.q2, p.q3, q.q0, q.q1, q.q2, q.q3);
    var m, a := Mul(p, q), Mul(Neg(p), q);
    assert a.q0 == -m.q0;
    assert a.q1 == -m.q1;
    assert a.q2 == -m.q2;
    assert a.q3 == -m.q3;
  }

  /** Negating both factors leaves the product unchanged. */
  lemma MulNegBoth(p: Quat, q: Quat)
    ensures Mul(Neg(p), Neg(q)) == Mul(p, q)
  {
    NegateThroughProduct(p.q0, p.q1, p.q2, p.q3, q.q0, q.q1, q.q2, q.q3);
    var m, a := Mul(p, q), Mul(Neg(p), Neg(q));
    assert a.q0 == m.q0;
    assert a.q1 == m.q1;
    assert a.q2 == m.q2;
    assert a.q3 == m.q3;
  }

  /** Negation passes through a component of the product, from either or both factors. */
  lemma NegateThroughProduct(a0: real, a1: real, a2: real, a3: real, b0: real, b1: real, b2: real, b3: real)
    ensures (-a0) * b0 - (-a1) * b1 - (-a2) * b2 - (-a3) * b3
         == -(a0 * b0 - a1 * b1 - a2 * b2 - a3 * b3)
    ensures (-a1) * b0 + (-a0) * b1 - (-a3) * b2 + (-a2) * b3
         == -(a1 * b0 + a0 * b1 - a3 * b2 + a2 * b3)
    ensures (-a2) * b0 + (-a3) * b1 + (-a0) * b2 - (-a1) * b3
         == -(a2 * b0 + a3 * b1 + a0 * b2 - a1 * b3)
    ensures (-a3) * b0 - (-a2) * b1 + (-a1) * b2 + (-a0) * b3
         == -(a3 * b0 - a2 * b1 + a1 * b2 + a0 * b3)
    ensures (-a0) * (-b0) - (-a1) * (-b1) - (-a2) * (-b2) - (-a3) * (-b3)
         == a0 * b0 - a1 * b1 - a2 * b2 - a3 * b3
    ensures (-a1) * (-b0) + (-a0) * (-b1) - (-a3) * (-b2) + (-a2) * (-b3)
         == a1 * b0 + a0 * b1 - a3 * b2 + a2 * b3
    ensures (-a2) * (-b0) + (-a3) * (-b1) + (-a0) * (-b2) - (-a1) * (-b3)
         == a2 * b0 + a3 * b1 + a0 * b2 - a1 * b3
    ensures (-a3) * (-b0) - (-a2) * (-b1) + (-a1) * (-b2) + (-a0) * (-b3)
         == a3 * b0 - a2 * b1 + a1 * b2 + a0 * b3
  {
  }

  /** The product of the conjugates, in reverse order, has the components of the conjugated product. */
  lemma ConjugateThroughProduct(a0: real, a1: real, a2: real, a3: real, b0: real, b1: real, b2: real, b3: real)
    ensures (b0) * (a0) - (-b1) * (-a1) - (-b2) * (-a2) - (-b3) * (-a3)
         == (a0 * b0 - a1 * b1 - a2 * b2 - a3 * b3)
    ensures (-b1) * (a0) + (b0) * (-a1) - (-b3) * (-a2) + (-b2) * (-a3)
         == -(a1 * b0 + a0 * b1 - a3 * b2 + a2 * b3)
    ensures (-b2) * (a0) + (-b3) * (-a1) + (b0) * (-a2) - (-b1) * (-a3)
         == -(a2 * b0 + a3 * b1 + a0 * b2 - a1 * b3)
    ensures (-b3) * (a0) - (-b2) * (-a1) + (-b1) * (-a2) + (b0) * (-a3)
         == -(a3 * b0 - a2 * b1 + a1 * b2 + a0 * b3)
  {
  }

  // ---------------------------------------------------------------------
  // Conjugate, norm and inverse
  // ---------------------------------------------------------------------

  /** The conjugate is an involution and keeps the norm. */
  lemma ConjugateInvolution(q: Quat)
    ensures Conjugate(Conjugate(q)) == q
    ensures Norm(Conjugate(q)) == Norm(q)
  {
  }

  /** The conjugate of a product is the product of the conjugates in reverse order. */
  lemma ConjugateOfProduct(p: Quat, q: Quat)
    ensures Conjugate(Mul(p, q)) == Mul(Conjugate(q), Conjugate(p))
  {
    ConjugateThroughProduct(p.q0, p.q1, p.q2, p.q3, q.q0, q.q1, q.q2, q.q3);
    var m := Mul(p, q);
    var a, b := Conjugate(m), Mul(Conjugate(q), Conjugate(p));
    assert a == Quat(m.q0, -m.q1, -m.q2, -m.q3);
    assert b.q0 == m.q0;
    assert b.q1 == -m.q1;
    assert b.q2 == -m.q2;
    assert b.q3 == -m.q3;
  }

  /** q times its conjugate, on either side, is the real quaternion (norm(q), 0, 0, 0). */
  lemma MulConjugate(q: Quat)
    ensures Mul(q, Conjugate(q)) == Quat(Norm(q), 0.0, 0.0, 0.0)
    ensures Mul(Conjugate(q), q) == Quat(Norm(q), 0.0, 0.0, 0.0)
  {
  }

  /** The squared norm is multiplicative: norm(p * q) == norm(p) * norm(q). */
  lemma NormMultiplicative(p: Quat, q: Quat)
    ensures Norm(Mul(p, q)) == Norm(p) * Norm(q)
  {
    var m := Mul(p, q);
    assert Norm(m) == SumOfSquares(m.q0, m.q1, m.q2, m.q3);
    assert m.q0 == p.q0 * q.q0 - p.q1 * q.q1 - p.q2 * q.q2 - p.q3 * q.q3;
    assert m.q1 == p.q1 * q.q0 + p.q0 * q.q1 - p.q3 * q.q2 + p.q2 * q.q3;
    assert m.q2 == p.q2 * q.q0 + p.q3 * q.q1 + p.q0 * q.q2 - p.q1 * q.q3;
    assert m.q3 == p.q3 * q.q0 - p.q2 * q.q1 + p.q1 * q.q2 + p.q0 * q.q3;
    FourSquares(p.q0, p.q1, p.q2, p.q3, q.q0, q.q1, q.q2, q.q3);
  }

  /** Euler's four-square identity, with the product written as the Hamilton product writes it. */
  lemma FourSquares(p0: real, p1: real, p2: real, p3: real, q0: real, q1: real, q2: real, q3: real)
    ensures SumOfSquares(p0, p1, p2, p3) * SumOfSquares(q0, q1, q2, q3)
         == SumOfSquares(p0 * q0 - p1 * q1 - p2 * q2 - p3 * q3,
                         p1 * q0 + p0 * q1 - p3 * q2 + p2 * q3,
                         p2 * q0 + p3 * q1 + p0 * q2 - p1 * q3,
                         p3 * q0 - p2 * q1 + p1 * q2 + p0 * q3)
  {
  }

  /** The inverse is the conjugate scaled by 1 / norm(q). */
  lemma InverseIsScaledConjugate(q: Quat)
    requires Norm(q) != 0.0
    ensures Inverse(q) == Scale(Conjugate(q), 1.0 / Norm(q))
  {
  }

  /**
   * The components of q * inverse(q) and inverse(q) * q, written out over the
   * components of q and its squared norm n.
   */
  lemma InverseComponents(a0: real, a1: real, a2: real, a3: real)
    requires SumOfSquares(a0, a1, a2, a3) != 0.0
    ensures var n := SumOfSquares(a0, a1, a2, a3);
      && a0 * (a0 / n) - a1 * (-a1 / n) - a2 * (-a2 / n) - a3 * (-a3 / n) == 1.0
      && a1 * (a0 / n) + a0 * (-a1 / n) - a3 * (-a2 / n) + a2 * (-a3 / n) == 0.0
      && a2 * (a0 / n) + a3 * (-a1 / n) + a0 * (-a2 / n) - a1 * (-a3 / n) == 0.0
      && a3 * (a0 / n) - a2 * (-a1 / n) + a1 * (-a2 / n) + a0 * (-a3 / n) == 0.0
      && (a0 / n) * a0 - (-a1 / n) * a1 - (-a2 / n) * a2 - (-a3 / n) * a3 == 1.0
      && (-a1 / n) * a0 + (a0 / n) * a1 - (-a3 / n) * a2 + (-a2 / n) * a3 == 0.0
      && (-a2 / n) * a0 + (-a3 / n) * a1 + (a0 / n) * a2 - (-a1 / n) * a3 == 0.0
      && (-a3 / n) * a0 - (-a2 / n) * a1 + (-a1 / n) * a2 + (a0 / n) * a3 == 0.0
  {
    var n := SumOfSquares(a0, a1, a2, a3);
    assert a0 * (a0 / n) + a1 * (a1 / n) + a2 * (a2 / n) + a3 * (a3 / n) == n / n;
  }

  /** A unit quaternion's inverse is its conjugate. */
  lemma UnitInverseIsConjugate(q: Quat)
    requires Norm(q) == 1.0
    ensures Inverse(q) == Conjugate(q)
  {
  }

  // ---------------------------------------------------------------------
  // Examples of the unit tests
  // ---------------------------------------------------------------------

  lemma ProductExample()
    ensures Mul(Quat(1.3, 5.1, 3.2, 1.1), Quat(0.2, 4.4, 6.1, -2.0)) == Quat(-39.5, -6.37, 23.61, 14.65)
  {
  }

  lemma OperatorExamples()
    ensures Add(Quat(0.5, -0.5, 1.0, 2.0), Quat(0.5, 0.5, -4.0, 3.0)) == Quat(1.0, 0.0, -3.0, 5.0)
    ensures Sub(Quat(0.5, -0.5, 1.0, 2.0), Quat(0.5, 0.5, -4.0, 3.0)) == Quat(0.0, -1.0, 5.0, -1.0)
  {
  }

  lemma ScalarOperatorExamples()
    ensures AddScalar(Quat(-4.3, 0.5, 5.5, 1.2), 3.0) == Quat(-1.3, 0.5, 5.5, 1.2)
    ensures SubScalar(Quat(-4.3, 0.5, 5.5, 1.2), 3.0) == Quat(-7.3, 0.5, 5.5, 1.2)
    ensures Scale(Quat(3.4, -2.3, 1.1, 0.5), 4.3) == Quat(14.62, -9.89, 4.73, 2.15)
    ensures ScalarTimes(4.3, Quat(3.4, -2.3, 1.1, 0.5)) == Quat(14.62, -9.89, 4.73, 2.15)
  {
  }

  // ---------------------------------------------------------------------
  // The quaternion object and its in-place operators
  // ---------------------------------------------------------------------

  class Quaternion {
    const data: array<real>

    ghost predicate Valid()
      reads this
    {
      data.Length == 4
    }

    /** The quaternion the buffer holds. */
    function Value(): Quat
      reads this, data
      requires Valid()
    {
      Quat(data[0], data[1], data[2], data[3])
    }

    /** The default constructor: (1, 0, 0, 0). */
    constructor ()
      ensures Valid() && fresh(data) && Value() == One
    {
      var d := new real[4];
      d[0], d[1], d[2], d[3] := 1.0, 0.0, 0.0, 0.0;
      data := d;
    }

    /** The constructor from individual values: stores q0 .. q3 in that order. */
    constructor FromValues(q0: real, q1: real, q2: real, q3: real)
      ensures Valid() && fresh(data) && Value() == Quat(q0, q1, q2, q3)
    {
      var d := new real[4];
      d[0], d[1], d[2], d[3] := q0, q1, q2, q3;
      data := d;
    }

    /** The constructor from a flat array of four values. */
    constructor FromArray(values: seq<real>)
      requires |values| == 4
      ensures Valid() && fresh(data) && Entries(Value()) == values
    {
      var d := new real[4];
      d[0], d[1], d[2], d[3] := values[0], values[1], values[2], values[3];
      data := d;
    }

    /** operator+=(Quaternion). */
    method AddAssign(other: Quaternion)
      requires Valid() && other.Valid()
      modifies data
      ensures Value() == Add(old(Value()), old(other.Value()))
    {
      data[0] := data[0] + other.data[0];
      data[1] := data[1] + other.data[1];
      data[2] := data[2] + other.data[2];
      data[3] := data[3] + other.data[3];
    }

    /** operator-=(Quaternion). */
    method SubAssign(other: Quaternion)
      requires Valid() && other.Valid()
      modifies data
      ensures Value() == Sub(old(Value()), old(other.Value()))
    {
      data[0] := data[0] - other.data[0];
      data[1] := data[1] - other.data[1];
      data[2] := data[2] - other.data[2];
      data[3] := data[3] - other.data[3];
    }

    /** operator*=(Quaternion): this becomes this * other. */
    method MulAssign(other: Quaternion)
      requires Valid() && other.Valid()
      modifies data
      ensures Value() == Mul(old(Value()), old(other.Value()))
    {
      var r := Mul(Value(), other.Value());
      data[0], data[1], data[2], data[3] := r.q0, r.q1, r.q2, r.q3;
    }

    /** operator+=(T): only q0 changes. */
    method AddScalarAssign(v: real)
      requires Valid()
      modifies data
      ensures Value() == AddScalar(old(Value()), v)
    {
      data[0] := data[0] + v;
    }

    /** operator-=(T): only q0 changes. */
    method SubScalarAssign(v: real)
      requires Valid()
      modifies data
      ensures Value() == SubScalar(old(Value()), v)
    {
      data[0] := data[0] - v;
    }

    /** operator*=(T): all four components are scaled. */
    method MulScalarAssign(v: real)
      requires Valid()
      modifies data
      ensures Value() == Scale(old(Value()), v)
    {
      var r := Scale(Value(), v);
      data[0], data[1], data[2], data[3] := r.q0, r.q1, r.q2, r.q3;
    }

    /** invert(): this becomes inverse(this). */
    method Invert()
      requires Valid() && Norm(Value()) != 0.0
      modifies data
      ensures Value() == Inverse(old(Value()))
      ensures Mul(old(Value()), Value()) == One
    {
      var r := Inverse(Value());
      data[0], data[1], data[2], data[3] := r.q0, r.q1, r.q2, r.q3;
    }
  }
}
