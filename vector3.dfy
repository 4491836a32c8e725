/**
 * Three-component vectors (x, y, z) = (v(0), v(1), v(2)). Every operator of
 * Vector3 builds a new vector from a single expression, so they are functions
 * on a value. Buffer gives the 3-by-1 row-major buffer a Vector3 shares with
 * Vector and Matrix, and each override is proved to agree with the generic
 * operation it shadows.
 */
module Vector3s {
  import opened RowMajor
  import opened MatrixAlgebra
  import opened Vectors

  datatype Vec3 = Vec3(x: real, y: real, z: real)

  /** Vector3(): the zero vector. */
  const Zero3: Vec3 := Vec3(0.0, 0.0, 0.0)

  /** The buffer data[0..2] of the vector. */
  function Buffer(v: Vec3): (r: seq<real>)
    ensures |r| == 3 && |r| == Size(3, 1)
    ensures r[0] == v.x && r[1] == v.y && r[2] == v.z
  {
    ColumnLayout(3, 0);
    [v.x, v.y, v.z]
  }

  /** The copy constructors from a Vector or a 3-by-1 Matrix, and the array constructor. */
  function FromBuffer(s: seq<real>): (v: Vec3)
    requires |s| == 3
    ensures Buffer(v) == s
  {
    Vec3(s[0], s[1], s[2])
  }

  /** Buffer and FromBuffer are inverse to each other. */
  lemma BufferRoundTrip(v: Vec3)
    ensures FromBuffer(Buffer(v)) == v
  {
  }

  /** Vector's dot() loop on two three-entry buffers, written out. */
  lemma DotOfThree(s: seq<real>, t: seq<real>)
    requires |s| == 3 && |t| == 3
    ensures DotOf(s, t) == s[0] * t[0] + s[1] * t[1] + s[2] * t[2]
  {
    assert DotOf(s[..1], t[..1]) == s[0] * t[0] by { assert s[..1][..0] == [] && t[..1][..0] == []; }
    assert DotOf(s[..2], t[..2]) == s[0] * t[0] + s[1] * t[1] by { assert s[..2][..1] == s[..1] && t[..2][..1] == t[..1]; }
    assert s[..2] == s[..|s| - 1] && t[..2] == t[..|t| - 1];
  }

  /** Matrix's operator*(T) on a three-entry buffer, written out. */
  lemma ScaledThree(x: real, y: real, z: real, v: real)
    ensures Scaled([x, y, z], v) == [x * v, y * v, z * v]
  {
    var s := Scaled([x, y, z], v);
    assert s[0] == x * v && s[1] == y * v && s[2] == z * v;
  }

  // ---------------------------------------------------------------------
  // Operators
  // ---------------------------------------------------------------------

  /** operator+(Vector3): the buffer of Matrix's element-wise sum. */
  function Add(a: Vec3, b: Vec3): (r: Vec3)
    ensures Buffer(r) == Sum(Buffer(a), Buffer(b))
  {
    Vec3(a.x + b.x, a.y + b.y, a.z + b.z)
  }

  /** operator-(Vector3): the element-wise difference, which + undoes. */
  function Sub(a: Vec3, b: Vec3): (r: Vec3)
    ensures Buffer(r) == Difference(Buffer(a), Buffer(b))
    ensures Add(r, b) == a
  {
    Vec3(a.x - b.x, a.y - b.y, a.z - b.z)
  }

  /** operator*(Vector3): the dot product, written out. */
  function Dot(a: Vec3, b: Vec3): (r: real)
    ensures a == b ==> r >= 0.0
  {
    SquareNonNegative(a.x);
    SquareNonNegative(a.y);
    SquareNonNegative(a.z);
    a.x * b.x + a.y * b.y + a.z * b.z
  }

  /** operator+(T): v added to every entry. */
  function AddScalar(a: Vec3, v: real): (r: Vec3)
    ensures Buffer(r) == Shift(Buffer(a), v)
  {
    Vec3(a.x + v, a.y + v, a.z + v)
  }

  /** operator-(T): v subtracted from every entry, which operator+(T) undoes. */
  function SubScalar(a: Vec3, v: real): (r: Vec3)
    ensures Buffer(r) == Shift(Buffer(a), -v)
    ensures AddScalar(r, v) == a
  {
    Vec3(a.x - v, a.y - v, a.z - v)
  }

  /** Unary operator-: the additive inverse. */
  function Neg(a: Vec3): (r: Vec3)
    ensures Buffer(r) == Negation(Buffer(a))
    ensures Add(a, r) == Zero3
  {
    Vec3(-a.x, -a.y, -a.z)
  }

  /** operator*(T): every entry times v. */
  function Scale(a: Vec3, v: real): (r: Vec3)
    ensures Buffer(r) == Scaled(Buffer(a), v)
  {
    ScaledThree(a.x, a.y, a.z, v);
    Vec3(a.x * v, a.y * v, a.z * v)
  }

  /** cross(other): (a1 b2 - a2 b1, -(a0 b2 - a2 b0), a0 b1 - a1 b0). */
  function Cross(a: Vec3, b: Vec3): (r: Vec3)
    ensures a == b ==> r == Zero3
  {
    Vec3(a.y * b.z - a.z * b.y, -(a.x * b.z - a.z * b.x), a.x * b.y - a.y * b.x)
  }

  /**
   * tilde(): a zero 3-by-3 matrix with six slots filled, the matrix whose
   * product with w is the cross product with w.
   */
  function Tilde(v: Vec3): (r: seq<real>)
    ensures |r| == Size(3, 3)
  {
    IdxIsRowMajor(3, 3, 0);
    [0.0, -1.0 * v.z, v.y,
     v.z, 0.0, -1.0 * v.x,
     -1.0 * v.y, v.x, 0.0]
  }

  // ---------------------------------------------------------------------
  // The overrides agree with the generic Vector and Matrix operations
  // ---------------------------------------------------------------------

  lemma DotSymmetric3(a: Vec3, b: Vec3)
    ensures Dot(a, b) == Dot(b, a)
  {
  }

  // ---------------------------------------------------------------------
  // Cross product laws
  // ---------------------------------------------------------------------

  /** The written-out dot product is Vector's dot() loop on the same buffers. */
  lemma DotAgrees(a: Vec3, b: Vec3)
    ensures Dot(a, b) == DotOf(Buffer(a), Buffer(b))
  {
    DotOfThree(Buffer(a), Buffer(b));
  }

  /** a x b is orthogonal to both a and b. */
  lemma CrossOrthogonal(a: Vec3, b: Vec3)
    ensures Dot(a, Cross(a, b)) == 0.0
    ensures Dot(b, Cross(a, b)) == 0.0
  {
  }

  /** Swapping the operands negates the cross product, so a x a is zero. */
  lemma CrossAnticommutes(a: Vec3, b: Vec3)
    ensures Cross(b, a) == Neg(Cross(a, b))
    ensures Cross(a, a) == Zero3
  {
  }

  /** Lagrange's identity: |a x b|^2 = |a|^2 |b|^2 - (a . b)^2. */
  lemma CrossLagrange(a: Vec3, b: Vec3)
    ensures Dot(Cross(a, b), Cross(a, b)) == Dot(a, a) * Dot(b, b) - Dot(a, b) * Dot(a, b)
  {
    LagrangeIdentity(a.x, a.y, a.z, b.x, b.y, b.z);
  }

  lemma LagrangeIdentity(a0: real, a1: real, a2: real, b0: real, b1: real, b2: real)
    ensures (a1 * b2 - a2 * b1) * (a1 * b2 - a2 * b1)
          + (-(a0 * b2 - a2 * b0)) * (-(a0 * b2 - a2 * b0))
          + (a0 * b1 - a1 * b0) * (a0 * b1 - a1 * b0)
         == (a0 * a0 + a1 * a1 + a2 * a2) * (b0 * b0 + b1 * b1 + b2 * b2)
          - (a0 * b0 + a1 * b1 + a2 * b2) * (a0 * b0 + a1 * b1 + a2 * b2)
  {
  }

  // ---------------------------------------------------------------------
  // The tilde matrix
  // ---------------------------------------------------------------------

  /** tilde(v) has a zero diagonal and is skew-symmetric: t(i,j) == -t(j,i). */
  lemma TildeSkew(v: Vec3)
    ensures forall i: nat :: i < 3 ==> At(Tilde(v), 3, 3, i, i) == 0.0
    ensures forall i: nat, j: nat :: i < 3 && j < 3 ==> At(Tilde(v), 3, 3, i, j) == -At(Tilde(v), 3, 3, j, i)
    ensures Transposed(Tilde(v), 3, 3) == Negation(Tilde(v))
  {
    var t := Tilde(v);
    forall i: nat, j: nat | i < 3 && j < 3
      ensures At(t, 3, 3, i, j) == -At(t, 3, 3, j, i)
    {
      AtIdx(t, 3, 3, i, j);
      AtIdx(t, 3, 3, j, i);
      IdxIsRowMajor(3, i, j);
      IdxIsRowMajor(3, j, i);
    }
    Transposed3(t);
  }

  /** tilde(v) times w, taken as a 3-by-1 matrix, is v.cross(w). */
  lemma TildeIsCross(v: Vec3, w: Vec3)
    ensures Product(Tilde(v), 3, 3, Buffer(w), 1) == Buffer(Cross(v, w))
  {
    var t, b := Tilde(v), Buffer(w);
    var p := Product(t, 3, 3, b, 1);
    ColumnLayout(3, 0);
    IdxIsRowMajor(3, 3, 0);
    forall i: nat | i < 3
      ensures p[i] == Buffer(Cross(v, w))[i]
    {
      ColumnLayout(3, i);
      ProductAt(t, 3, 3, b, 1, i, 0);
      AtIdx(p, 3, 1, i, 0);
      RowDot3(t, 3, b, 1, i, 0);
      ColumnLayout(3, 1);
      ColumnLayout(3, 2);
      AtIdx(b, 3, 1, 0, 0);
      AtIdx(b, 3, 1, 1, 0);
      AtIdx(b, 3, 1, 2, 0);
      IdxIsRowMajor(3, i, 0);
      IdxIsRowMajor(3, i, 1);
      IdxIsRowMajor(3, i, 2);
      AtIdx(t, 3, 3, i, 0);
      AtIdx(t, 3, 3, i, 1);
      AtIdx(t, 3, 3, i, 2);
    }
  }

  // ---------------------------------------------------------------------
  // The values checked by the library's tests
  // ---------------------------------------------------------------------

  lemma CrossExample()
    ensures Cross(Vec3(3.0, 6.0, -2.0), Vec3(7.0, 1.0, 0.0)) == Vec3(2.0, -14.0, -39.0)
    ensures Dot(Vec3(3.0, 6.0, -2.0), Vec3(7.0, 1.0, 0.0)) == 27.0
  {
  }

  lemma TildeExample()
    ensures Tilde(Vec3(-7.0, 2.0, 4.0)) == [0.0, -4.0, 2.0, 4.0, 0.0, 7.0, -2.0, -7.0, 0.0]
  {
  }

  lemma OperatorExamples()
    ensures Add(Vec3(1.0, 2.0, 3.0), Vec3(4.0, 5.0, 6.0)) == Vec3(5.0, 7.0, 9.0)
    ensures Sub(Vec3(7.0, -2.0, 4.0), Vec3(2.0, 3.0, 1.0)) == Vec3(5.0, -5.0, 3.0)
    ensures AddScalar(Vec3(-4.0, 3.0, 6.0), 4.0) == Vec3(0.0, 7.0, 10.0)
    ensures SubScalar(Vec3(6.0, 1.0, -2.0), 5.0) == Vec3(1.0, -4.0, -7.0)
    ensures Neg(Vec3(7.0, 7.0, 7.0)) == Vec3(-7.0, -7.0, -7.0)
    ensures Scale(Vec3(7.0, 3.0, 4.0), 3.0) == Vec3(21.0, 9.0, 12.0)
  {
  }
}
