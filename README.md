# MTL exact-arithmetic core in Dafny

This project models the numeric core of MTL, a small header-only C++ matrix
library for flight and attitude code. The model covers:

- `Matrix<T,M,N>`: row-major storage, bounds-checked `(i,j)`, element-wise,
  scalar and product operators, compound assignment, `==`/`!=`, `transpose`,
  `swapRows`/`swapCols`, `setValue`, `abs`, `submatrix` and scalar-times-matrix.
- `SquareMatrix<T,M>`: `identity`, `trace`, and the 2-by-2 and 3-by-3
  `determinant` and `inverse`.
- `Vector<T,M>`: a column matrix with `dot`, `operator*` and element access.
- `Vector3<T>`: the three-component vector with `cross` and `tilde`.
- `Quaternion<T>`: the Hamilton product, `norm`, `conjugate`, `inverse` and `invert`.
- `DCM<T>`: the direction cosine matrix, built from nothing (the identity),
  from nine values, from a matrix, or from a quaternion.

Every scalar is a Dafny `real`. The model is therefore exact: it shows what
the formulas compute over the rationals, not what IEEE doubles or C++ `int`
arithmetic round them to.

The modules follow the headers:

- `RowMajor` and `MatrixAlgebra` hold the specification functions on flat
  row-major buffers. `At(s, m, n, i, j)` reads `s[i*n + j]`.
- `Matrices.Matrix` is a class over an `array<real>`. Its methods change or
  build arrays, and are proved against those functions.
- `SquareMatrices`, `Vectors` and `Dcms` are module-level methods on
  `Matrix` objects of the right shape. Composition stands in for C++
  inheritance.
- `Vector3s.Vec3` and `Quaternions.Quat` are values, because their operators
  return new objects built by a single expression.
- `Quaternions.Quaternion` is a class for the compound operators, which
  overwrite the four components in place.
- C++ exceptions (`std::domain_error`, `std::invalid_argument`,
  `std::runtime_error`) become the `Errors.Error` cases of a `Result` or
  `Status` value.

Two points follow the code rather than the comments around it:

- The range check of `submatrix` (Matrix.hpp:519) is written
  `rowA >= M || rowB >= M || colA >= N, colB >= N`. The comma operator leaves
  only `colB >= N` in force, and the model keeps that.
  `MatrixAlgebra.SubmatrixRangeCheckGaps` shows two requests that the check
  lets through as a result.
- `DCM(q)` (DCM.hpp:92-100) uses the form `1 - 2(q2^2 + q3^2)` on the
  diagonal, not the homogeneous form `q0^2 + q1^2 - q2^2 - q3^2`. The two
  agree only when `norm(q) == 1`. Orthogonality, the determinant and the
  product law are therefore proved for unit quaternions, through the
  homogeneous form `Dcms.Homogeneous`.

## Model

| member | source | states |
|---|---|---|
| RowMajor.IdxIsRowMajor | src/Matrix.hpp:202-212 | the flat index of entry (i, j) in an n-column buffer is i*n + j, and an m-by-n buffer has m*n cells |
| RowMajor.IdxBound | src/Matrix.hpp:202-212 | every in-range (i, j) lands inside the buffer |
| RowMajor.IdxInjective | src/Matrix.hpp:202-212 | two in-range positions with the same flat index are the same position |
| RowMajor.IdxOnto | src/Matrix.hpp:202-212 | every cell of the buffer is the flat index of some in-range (i, j) |
| RowMajor.AtIdx | src/Matrix.hpp:202-212 | the abstract accessor At reads data[i*N + j] inside the matrix |
| RowMajor.AtPut | src/Matrix.hpp:216-226 | writing (i, j) changes that entry to v and leaves every other entry unchanged |
| RowMajor.Tabulate | src/Matrix.hpp:424-436 | the m-by-n buffer built row by row has f(i, j) at every (i, j) |
| RowMajor.SameEntries | src/Matrix.hpp:403-413 | two buffers of the same shape with equal entries are equal |
| MatrixAlgebra.DifferenceUndoesSum | src/Matrix.hpp:230-250 | (a + b) - b == a for the element-wise operators |
| MatrixAlgebra.SumCommutes | src/Matrix.hpp:230-238 | element-wise + is commutative |
| MatrixAlgebra.NegationLaws | src/Matrix.hpp:302-310 | unary minus is scaling by -1, and a + (-a) is the zero matrix |
| MatrixAlgebra.ShiftInverse | src/Matrix.hpp:314-334 | subtracting the scalar v undoes adding it |
| MatrixAlgebra.QuotientUndoesScaled | src/Matrix.hpp:338-359 | for v != 0, dividing by v and multiplying by v undo each other |
| MatrixAlgebra.MagnitudesLaws | src/Matrix.hpp:496-505 | abs() gives non-negative entries, each equal to the entry or its negation, and is idempotent |
| MatrixAlgebra.FilledAt | src/Matrix.hpp:482-492 | setValue(v) and the default constructor leave v (0) at every (i, j) |
| MatrixAlgebra.AtScaled | src/Matrix.hpp:338-347 | entry (i, j) of a * v is a(i, j) * v |
| MatrixAlgebra.AtQuotient | src/Matrix.hpp:351-359 | entry (i, j) of a / v is a(i, j) / v |
| MatrixAlgebra.TransposeInvolution | src/Matrix.hpp:424-436 | transpose moves (i, j) to (j, i), and transposing twice gives the matrix back |
| MatrixAlgebra.TransposedAt | src/Matrix.hpp:424-436 | entry (j, i) of the transpose is entry (i, j) of the matrix |
| MatrixAlgebra.RowDotTransposed | src/Matrix.hpp:255-270 | the partial row-times-column sum of B^T A^T at (j, i) equals that of A B at (i, j) |
| MatrixAlgebra.TransposeOfProduct | src/Matrix.hpp:255-270 | (A B)^T == B^T A^T for the triple-loop product |
| MatrixAlgebra.ProductAt | src/Matrix.hpp:255-270 | entry (i, j) of the product is the sum over k of a(i, k) * b(k, j) |
| MatrixAlgebra.RowsSwappedEntries | src/Matrix.hpp:440-457 | after swapRows(r1, r2), row r1 holds old row r2, row r2 holds old row r1, and every other row is unchanged |
| MatrixAlgebra.RowsSwappedTwice | src/Matrix.hpp:440-457 | swapping the same two rows twice restores the matrix |
| MatrixAlgebra.ColsSwappedEntries | src/Matrix.hpp:461-478 | after swapCols(c1, c2), the two columns are exchanged and every other column is unchanged |
| MatrixAlgebra.ColsSwappedTwice | src/Matrix.hpp:461-478 | swapping the same two columns twice restores the matrix |
| MatrixAlgebra.GridAt | src/Matrix.hpp:152-161 | the values[M][N] constructor puts values[i][j] at (i, j) |
| MatrixAlgebra.GridEntries | src/Matrix.hpp:152-161 | the buffer filled from values[M][N] holds values[i][j] at i*N + j |
| MatrixAlgebra.BlockEntries | src/Matrix.hpp:510-537 | when submatrix does not throw, entry (i - rowA, j - colA) of the result is a(i, j) for every copied (i, j) |
| MatrixAlgebra.SubmatrixRangeCheckGaps | src/Matrix.hpp:519 | the comma-operator range check accepts a start row past the end of the matrix and an end row equal to M |
| MatrixAlgebra.Product3Flat | src/Matrix.hpp:255-270 | the 3-by-3 product, entry by entry, as sums of three products of flat entries |
| MatrixAlgebra.Transposed3 | src/Matrix.hpp:424-436 | the 3-by-3 transpose, written out on flat indices |
| MatrixAlgebra.ProductExample | src/Matrix.hpp:255-270 | the row-times-column product of two sample 3-by-3 matrices, exactly |
| Matrices.Matrix.Zero | src/Matrix.hpp:142-148 | Matrix(): a fresh M-by-N matrix of zeros |
| Matrices.Matrix.FromGrid | src/Matrix.hpp:152-161 | Matrix(values[M][N]): a fresh matrix holding values[i][j] at (i, j) |
| Matrices.Matrix.FromFlat | src/Matrix.hpp:165-171 | Matrix(values[M*N]): a fresh matrix whose buffer is the given values |
| Matrices.Matrix.FromList | src/Matrix.hpp:174-198 | the nested initializer-list constructor: InvalidArgument exactly when the list does not have M rows or its first row does not have N entries; otherwise the rows laid out row-major |
| Matrices.Matrix.Copy | src/Matrix.hpp:40-41 | the copy constructor: a fresh buffer with the same dimensions and contents |
| Matrices.Matrix.Get | src/Matrix.hpp:202-212 | operator()(i, j) const: DomainError exactly when i >= M or j >= N; otherwise data[i*N + j] |
| Matrices.Matrix.Set | src/Matrix.hpp:216-226 | writing through operator()(i, j): DomainError and no change out of range; otherwise only entry (i, j) changes |
| Matrices.Matrix.Add | src/Matrix.hpp:230-238 | a fresh matrix holding the element-wise sum |
| Matrices.Matrix.Sub | src/Matrix.hpp:242-250 | a fresh matrix holding the element-wise difference |
| Matrices.Matrix.Mul | src/Matrix.hpp:255-270 | a fresh M-by-P matrix holding the row-times-column product |
| Matrices.Matrix.AddAssign | src/Matrix.hpp:274-280 | += replaces the contents with the element-wise sum |
| Matrices.Matrix.SubAssign | src/Matrix.hpp:284-290 | -= replaces the contents with the element-wise difference |
| Matrices.Matrix.MulAssign | src/Matrix.hpp:295-298 | *= by an N-by-N matrix replaces the contents with the product |
| Matrices.Matrix.Neg | src/Matrix.hpp:302-310 | unary minus negates every entry |
| Matrices.Matrix.AddScalar | src/Matrix.hpp:314-322 | + value adds value to every entry |
| Matrices.Matrix.SubScalar | src/Matrix.hpp:326-334 | - value subtracts value from every entry |
| Matrices.Matrix.MulScalar | src/Matrix.hpp:338-347 | * value scales every entry |
| Matrices.Matrix.DivScalar | src/Matrix.hpp:351-359 | / value divides every entry |
| Matrices.Matrix.AddScalarAssign | src/Matrix.hpp:363-369 | += value adds value to every entry in place |
| Matrices.Matrix.SubScalarAssign | src/Matrix.hpp:373-379 | -= value subtracts value from every entry in place |
| Matrices.Matrix.MulScalarAssign | src/Matrix.hpp:383-389 | *= value scales every entry in place |
| Matrices.Matrix.DivScalarAssign | src/Matrix.hpp:393-399 | /= value divides every entry in place |
| Matrices.Matrix.Equal | src/Matrix.hpp:403-413 | == is true exactly when all entries are equal |
| Matrices.Matrix.NotEqual | src/Matrix.hpp:417-420 | != is the negation of == |
| Matrices.Matrix.Transpose | src/Matrix.hpp:424-436 | a fresh N-by-M matrix with (j, i) holding (i, j) |
| Matrices.Matrix.SwapRows | src/Matrix.hpp:440-457 | DomainError and no change when a row is out of range; otherwise the two rows are exchanged |
| Matrices.Matrix.SwapCols | src/Matrix.hpp:461-478 | DomainError and no change when a column is out of range; otherwise the two columns are exchanged |
| Matrices.Matrix.SetValue | src/Matrix.hpp:482-492 | every entry becomes value |
| Matrices.Matrix.Abs | src/Matrix.hpp:496-505 | a fresh matrix of the entries' absolute values |
| Matrices.Matrix.Submatrix | src/Matrix.hpp:510-537 | DomainError exactly when the checks as written or a bounds-checked access in the copy loop throw; otherwise a fresh P-by-Q matrix with the block at the top left and zeros elsewhere |
| Matrices.FillGrid | src/Matrix.hpp:152-161 | the nested copy loop leaves values[i][j] at i*N + j |
| Matrices.ScalarTimes | src/Matrix.hpp:540-543 | value * matrix equals matrix * value |
| SquareMatrices.IdentityOf | src/SquareMatrix.hpp:87-98 | the identity has 1 on the diagonal and 0 elsewhere |
| SquareMatrices.DiagonalPosition | src/SquareMatrix.hpp:87-98 | the diagonal entry (i, i) sits at i*(M+1), the index the source writes |
| SquareMatrices.MakeIdentity | src/SquareMatrix.hpp:87-98 | identity(): after zeroing all cells and writing 1 at i*(M+1), the matrix is the identity |
| SquareMatrices.Identity | src/SquareMatrix.hpp:102-107 | the free identity<T,M>() returns a fresh identity matrix |
| SquareMatrices.IdentityLeftUnit | src/SquareMatrix.hpp:87-98 | I * A == A |
| SquareMatrices.IdentityRightUnit | src/SquareMatrix.hpp:87-98 | A * I == A |
| SquareMatrices.Trace | src/SquareMatrix.hpp:111-119 | the accumulator loop returns the sum of the diagonal entries |
| SquareMatrices.TraceIdentity | src/SquareMatrix.hpp:111-119 | the trace of the M-by-M identity is M |
| SquareMatrices.TraceOfSum | src/SquareMatrix.hpp:111-119 | the trace is additive |
| SquareMatrices.TraceOf | src/SquareMatrix.hpp:111-119 | the trace, the sum of the diagonal entries, equals the diagonal sum of the transpose: a matrix and its transpose have the same trace |
| SquareMatrices.TraceExample | unit-test/TestSquareMatrix.cpp:400-405 | the trace of the test's 3-by-3 matrix is 5 |
| SquareMatrices.Det2 | src/SquareMatrix.hpp:123-126 | a(0,0) a(1,1) - a(0,1) a(1,0), which equals the same expansion taken down the first column |
| SquareMatrices.Det3 | src/SquareMatrix.hpp:130-135 | the first-row cofactor expansion, which equals the expansion of the transposed entries |
| SquareMatrices.Det3Flat | src/SquareMatrix.hpp:130-135 | the 3-by-3 determinant as the source's first-row expansion of the nine flat entries |
| SquareMatrices.DetIdentity | src/SquareMatrix.hpp:123-135 | the 2-by-2 and 3-by-3 identities have determinant 1 |
| SquareMatrices.DetTransposed | src/SquareMatrix.hpp:123-135 | transposing does not change the 2-by-2 or 3-by-3 determinant |
| SquareMatrices.DetExamples | unit-test/TestSquareMatrix.cpp:481-491 | the determinants -2 and -127 of the library's tests |
| SquareMatrices.ExpansionAlongRow0 | src/SquareMatrix.hpp:130-135 | row 0 dotted with its cofactors is the determinant; with another row's cofactors it is 0 |
| SquareMatrices.ExpansionAlongColumn0 | src/SquareMatrix.hpp:130-135 | column 0 dotted with its cofactors is the determinant; with another column's cofactors it is 0 |
| SquareMatrices.Adjugate2 | src/SquareMatrix.hpp:148-154 | the four cells inverse() writes before dividing by det, a 2-by-2 buffer; Adjugate2Cells states what they multiply to |
| SquareMatrices.Adjugate3 | src/SquareMatrix.hpp:171-179 | the nine transposed cofactors inverse() scales by 1/det, a 3-by-3 buffer; ScaledAdjugate3 and the expansion lemmas state what they multiply to |
| SquareMatrices.Adjugate2Cells | src/SquareMatrix.hpp:148-154 | the 2-by-2 adjugate times A (either side) is det(A) times the identity |
| SquareMatrices.Inverse2Of | src/SquareMatrix.hpp:139-156 | RuntimeError exactly when abs(det) < 1e-9; otherwise a 2-by-2 result |
| SquareMatrices.Inverse2IsInverse | src/SquareMatrix.hpp:139-156 | whenever inverse succeeds, A * inverse(A) and inverse(A) * A are the identity |
| SquareMatrices.Inverse2 | src/SquareMatrix.hpp:139-156 | the method writes the adjugate, divides in place by det, and returns Inverse2Of |
| SquareMatrices.Inverse3Of | src/SquareMatrix.hpp:160-181 | RuntimeError exactly when abs(det) < 1e-9; otherwise a 3-by-3 result |
| SquareMatrices.Inverse3IsInverse | src/SquareMatrix.hpp:160-181 | whenever inverse succeeds, A * inverse(A) and inverse(A) * A are the identity |
| SquareMatrices.Inverse3 | src/SquareMatrix.hpp:160-181 | the method writes detinv times each cofactor and returns Inverse3Of |
| SquareMatrices.SingularExample | unit-test/TestSquareMatrix.cpp:516-521 | the test's singular 2-by-2 matrix makes inverse throw |
| SquareMatrices.InverseExample | unit-test/TestSquareMatrix.cpp:505-514 | the inverse of the test's 2-by-2 matrix, exactly |
| Vectors.ColumnLayout | src/Vector.hpp:118-130 | entry i of an M-by-1 vector is data[i], and the buffer has M cells |
| Vectors.DotSymmetric | src/Vector.hpp:134-143 | the dot product is symmetric |
| Vectors.DotOf | src/Vector.hpp:134-143 | the sum a(0) b(0) + ... + a(M-1) b(M-1) accumulated from the front; v . v >= 0 |
| Vectors.DotScaled | src/Vector.hpp:134-143 | (x a) . b == x (a . b) |
| Vectors.DotSum | src/Vector.hpp:134-143 | (a + c) . b == a . b + c . b |
| Vectors.DotIsProduct | src/Vector.hpp:134-143 | the dot product is the single entry of the 1-by-M times M-by-1 matrix product |
| Vectors.DotExamples | unit-test/TestVector.cpp:239-260 | the dot products of the library's tests, in both orders |
| Vectors.Zeros | src/Vector.hpp:71-74 | Vector(): a fresh M-by-1 matrix of zeros |
| Vectors.FromArray | src/Vector.hpp:78-81 | Vector(values[M]): a fresh vector holding the values |
| Vectors.FromList | src/Vector.hpp:85-100 | the initializer-list constructor: InvalidArgument exactly when the list does not have M items; otherwise the list |
| Vectors.FromMatrix | src/Vector.hpp:111-114 | Vector(Matrix<M,1>): a copy of the column's entries |
| Vectors.Element | src/Vector.hpp:118-122 | v(i): DomainError exactly when i >= M; otherwise entry i |
| Vectors.SetElement | src/Vector.hpp:126-130 | writing v(i): DomainError and no change out of range; otherwise only entry i changes |
| Vectors.Dimension | src/Vector.hpp:45 | size() is the number of entries |
| Vectors.Dot | src/Vector.hpp:134-143 | the accumulator loop returns the sum of a(i) * b(i) |
| Vectors.Times | src/Vector.hpp:147-151 | operator*(b) is dot(b), which equals b.dot(a) |
| Vectors.TimesScalar | src/Vector.hpp:155-158 | operator*(value) scales every entry |
| Vectors.ScaledExamples | unit-test/TestVector.cpp:145-167 | the scaled vectors of the library's test, exactly |
| Vector3s.Buffer | src/Vector3.hpp:100-106 | Vector3(x, y, z) stores x, y, z at data[0..2] |
| Vector3s.FromBuffer | src/Vector3.hpp:86-96 | the copy constructors from a Vector or 3-by-1 Matrix keep the buffer |
| Vector3s.BufferRoundTrip | src/Vector3.hpp:86-106 | reading the buffer back gives the same vector |
| Vector3s.Add | src/Vector3.hpp:117-120 | the buffer of the element-wise sum Matrix's + would give |
| Vector3s.Sub | src/Vector3.hpp:124-127 | the element-wise difference, and (a - b) + b == a |
| Vector3s.AddScalar | src/Vector3.hpp:138-141 | value added to every entry, as Matrix's operator+(T) |
| Vector3s.SubScalar | src/Vector3.hpp:145-148 | value subtracted from every entry, undone by adding it back |
| Vector3s.Neg | src/Vector3.hpp:152-155 | every entry negated, and a + (-a) == 0 |
| Vector3s.Scale | src/Vector3.hpp:159-162 | every entry times value, as Matrix's operator*(T) |
| Vector3s.Dot | src/Vector3.hpp:131-134 | the three-term dot product; a . a >= 0 |
| Vector3s.DotAgrees | src/Vector3.hpp:131-134 | the written-out Vector3 dot product equals Vector's dot() loop |
| Vector3s.DotSymmetric3 | src/Vector3.hpp:131-134 | the dot product is symmetric |
| Vector3s.Cross | src/Vector3.hpp:166-171 | the cross product with the source's sign pattern; a x a == 0 |
| Vector3s.CrossOrthogonal | src/Vector3.hpp:166-171 | a x b is orthogonal to a and to b |
| Vector3s.CrossAnticommutes | src/Vector3.hpp:166-171 | b x a == -(a x b), and a x a == 0 |
| Vector3s.CrossLagrange | src/Vector3.hpp:166-171 | the squared length of a x b is (a.a)(b.b) - (a.b)^2 |
| Vector3s.Tilde | src/Vector3.hpp:175-186 | a zero 3-by-3 matrix with the six off-diagonal slots the source writes; TildeSkew and TildeIsCross state its meaning |
| Vector3s.TildeSkew | src/Vector3.hpp:175-186 | tilde() has a zero diagonal and equals minus its transpose |
| Vector3s.TildeIsCross | src/Vector3.hpp:175-186 | tilde(v) * w == v.cross(w) |
| Vector3s.CrossExample | unit-test/TestVector3.cpp:186-207 | the cross product of the library's test |
| Vector3s.TildeExample | unit-test/TestVector3.cpp:209-223 | the tilde matrix of the library's test |
| Vector3s.OperatorExamples | unit-test/TestVector3.cpp:55-139 | the sums, differences, shifts, negation and scaling of the library's tests |
| Quaternions.FromEntries | src/Quaternion.hpp:135-138 | the array constructor keeps the four values in order |
| Quaternions.ScalarTimes | src/Quaternion.hpp:444-447 | value * q is the product of the real quaternion (value, 0, 0, 0) and q |
| Quaternions.Norm | src/Quaternion.hpp:402-405 | norm() is the sum of the four squares, so it is never negative |
| Quaternions.Add | src/Quaternion.hpp:303-306 | the element-wise sum of the four-entry buffers, and (p + q) - q == p |
| Quaternions.Sub | src/Quaternion.hpp:310-313 | the element-wise difference of the four-entry buffers |
| Quaternions.Mul | src/Quaternion.hpp:317-326 | the Hamilton product: in scalar-vector form (p0 q0 - u . v, p0 v + q0 u + u x v) for the vector parts u, v |
| Quaternions.NegElementwise | src/Quaternion.hpp:372-375 | the negated quaternion (used to state DCM(-q) == DCM(q)) is q * -1, negates every entry, and is an involution |
| Quaternions.AddScalar | src/Quaternion.hpp:358-361 | q + value is q plus the real quaternion (value, 0, 0, 0) |
| Quaternions.SubScalar | src/Quaternion.hpp:365-368 | q - value is q minus (value, 0, 0, 0), and adding value back gives q |
| Quaternions.ScalarShiftsOnlyQ0 | src/Quaternion.hpp:358-368 | adding or subtracting a scalar changes only q0, as with the real quaternion (v, 0, 0, 0) |
| Quaternions.Scale | src/Quaternion.hpp:372-375 | q * value is the Hamilton product with (value, 0, 0, 0) on either side |
| Quaternions.OneIsUnit | src/Quaternion.hpp:124-131 | the default quaternion (1, 0, 0, 0) is the unit of the product |
| Quaternions.BasisIJ | src/Quaternion.hpp:317-326 | i j == k |
| Quaternions.BasisJK | src/Quaternion.hpp:317-326 | j k == i |
| Quaternions.BasisKI | src/Quaternion.hpp:317-326 | k i == j |
| Quaternions.BasisAnticommute | src/Quaternion.hpp:317-326 | j i == -k, k j == -i, i k == -j |
| Quaternions.BasisSquares | src/Quaternion.hpp:317-326 | i^2 == j^2 == k^2 == -1 |
| Quaternions.MulNegLeft | src/Quaternion.hpp:317-326 | (-p) q == -(p q) |
| Quaternions.MulNegBoth | src/Quaternion.hpp:317-326 | (-p)(-q) == p q |
| Quaternions.Conjugate | src/Quaternion.hpp:409-413 | keeps q0 and negates the vector part, so q + conj(q) == (2 q0, 0, 0, 0) |
| Quaternions.ConjugateInvolution | src/Quaternion.hpp:409-413 | conjugating twice gives q back, and the conjugate has the same norm |
| Quaternions.ConjugateOfProduct | src/Quaternion.hpp:409-413 | conj(p q) == conj(q) conj(p) |
| Quaternions.MulConjugate | src/Quaternion.hpp:409-413 | q conj(q) == conj(q) q == (norm(q), 0, 0, 0) |
| Quaternions.NormMultiplicative | src/Quaternion.hpp:402-405 | norm(p q) == norm(p) norm(q) |
| Quaternions.InverseIsScaledConjugate | src/Quaternion.hpp:426-432 | inverse() is the conjugate divided by norm() |
| Quaternions.Inverse | src/Quaternion.hpp:426-432 | for a non-zero norm, q inverse(q) == inverse(q) q == (1, 0, 0, 0) |
| Quaternions.UnitInverseIsConjugate | src/Quaternion.hpp:426-432 | for a unit quaternion the inverse is the conjugate |
| Quaternions.ProductExample | unit-test/TestQuaternion.cpp:604-617 | the Hamilton product of the library's test, exactly |
| Quaternions.OperatorExamples | src/Quaternion.hpp:303-313 | sums and differences of sample quaternions |
| Quaternions.ScalarOperatorExamples | src/Quaternion.hpp:358-375 | scalar shifts and both scalar products on sample quaternions |
| Quaternions.Quaternion.constructor | src/Quaternion.hpp:124-131 | Quaternion(): a fresh buffer holding (1, 0, 0, 0) |
| Quaternions.Quaternion.FromValues | src/Quaternion.hpp:142-149 | Quaternion(q0, q1, q2, q3): a fresh buffer holding the four values |
| Quaternions.Quaternion.FromArray | src/Quaternion.hpp:135-138 | Quaternion(values[4]): a fresh buffer holding the values |
| Quaternions.Quaternion.AddAssign | src/Quaternion.hpp:330-336 | += replaces the value with the sum |
| Quaternions.Quaternion.SubAssign | src/Quaternion.hpp:340-346 | -= replaces the value with the difference |
| Quaternions.Quaternion.MulAssign | src/Quaternion.hpp:350-354 | *= replaces the value with the Hamilton product, both operands read before the write |
| Quaternions.Quaternion.AddScalarAssign | src/Quaternion.hpp:380-383 | += value adds value to q0 only |
| Quaternions.Quaternion.SubScalarAssign | src/Quaternion.hpp:387-390 | -= value subtracts value from q0 only |
| Quaternions.Quaternion.MulScalarAssign | src/Quaternion.hpp:394-398 | *= value scales all four components |
| Quaternions.Quaternion.Invert | src/Quaternion.hpp:436-440 | invert() replaces q by inverse(q), so the old value times the new one is (1, 0, 0, 0) |
| Dcms.DcmOf | src/DCM.hpp:89-101 | DCM(q) is a 3-by-3 buffer; its entries are given by Dcms.DcmOfEntries |
| Dcms.DcmOfEntries | src/DCM.hpp:92-100 | the nine entries of DCM(q), in the source's order |
| Dcms.UnitDcmIsHomogeneous | src/DCM.hpp:92-100 | for norm(q) == 1, DCM(q) equals the homogeneous quadratic form |
| Dcms.HomogeneousProduct | src/DCM.hpp:92-100 | the homogeneous form of p q is the matrix product of the forms of p and q, for all p and q |
| Dcms.HomogeneousDeterminant | src/DCM.hpp:92-100 | the determinant of the homogeneous form is norm(q)^3 |
| Dcms.DcmOfOne | src/DCM.hpp:89-101 | DCM(1, 0, 0, 0) is the identity |
| Dcms.DcmOfNeg | src/DCM.hpp:89-101 | DCM(-q) == DCM(q) |
| Dcms.DcmOfConjugate | src/DCM.hpp:89-101 | DCM(conj(q)) is the transpose of DCM(q) |
| Dcms.DcmOfProduct | src/DCM.hpp:89-101 | for unit p and q, DCM(p q) == DCM(p) DCM(q) |
| Dcms.UnitDcmOrthogonal | src/DCM.hpp:89-101 | for unit q, D D^T == D^T D == I |
| Dcms.UnitDcmDeterminant | src/DCM.hpp:89-101 | for unit q, det(DCM(q)) == 1 |
| Dcms.DcmExample | unit-test/TestDCM.cpp:76-78 | DCM(0, 1, 0, 0), the half turn about x, is diag(1, -1, -1) |
| Dcms.Default | src/DCM.hpp:54-57 | DCM(): a fresh 3-by-3 identity |
| Dcms.FromRows | src/DCM.hpp:61-64 | DCM(values[3][3]): entry (i, j) is values[i][j] |
| Dcms.FromFlat | src/DCM.hpp:68-71 | DCM(values[9]): the nine values in row-major order |
| Dcms.FromMatrix | src/DCM.hpp:75-85 | DCM(Matrix<3,3>) and DCM(SquareMatrix<3>): a copy of all nine entries |
| Dcms.FromQuaternion | src/DCM.hpp:89-101 | DCM(q): the nine straight-line writes leave exactly DcmOf(q) in a fresh buffer |

## Left out

- Floating point: every `T` is an exact `real`. IEEE rounding, the `int`
  instantiations' truncating division and overflow, and the
  `EXPECT_DOUBLE_EQ` tolerances are not modelled. The test values are
  restated as exact rationals.
- Square roots and trigonometry are not part of this model. This covers
  `Vector::norm`, `normalize`, `length` and `unit`; the axis-angle, Euler,
  DCM and two-vector quaternion constructors; and `DCM(Euler)`.
- Euler.hpp, RotationSequence.hpp and AxisAngle.hpp are not part of this
  model.
- `Quaternion::derivA2B` is not part of this model. It builds a quaternion
  from a Vector3 through a constructor that is not in the modelled core.
- `operator<<` on Matrix and Vector is left out: it is output only.
- `snprintf` error messages are left out. Each throw is modelled only by its
  exception kind.
- The template machinery is represented by runtime dimensions. This covers
  compile-time `M`, `N`, `P`, `Q`, the `SquareMatrix`/`Vector`/`DCM`
  inheritance, and `SquareMatrix::operator=`.
- Matrices.Matrix.FromList: requires a non-empty list, and, when the list
  passes the source's checks, every later row to have at least N entries.
  The source reads the first row's size without checking that a row exists,
  and it reads past the end of a shorter later row without a check. Neither
  read has a value to model.
- Matrices.Matrix.DivScalar, Matrices.Matrix.DivScalarAssign: require a
  non-zero divisor, as does `MatrixAlgebra.Quotient`, which specifies them. The source divides without a check, which for `double`
  gives infinities or NaN; division by zero has no counterpart over the
  reals.
- Determinants and inverses above 3-by-3 are not part of the source, so
  they are not modelled. The 4-by-4 and 5-by-5 determinant tests use
  templates that are not part of this model.
- Quaternions.Inverse: requires `norm(q) != 0`. The source divides by a
  zero norm without a check, and the C++ result (infinities or NaN) has no
  counterpart over the reals.
- Quaternions.Quaternion.Invert: requires `norm(q) != 0`, for the same
  reason.
- Quaternions.Norm: states only that the result is non-negative. The
  "zero exactly for the zero quaternion" direction is not stated.
- Quaternions: associativity of the Hamilton product is not stated.
- Dcms.DcmOfProduct, Dcms.UnitDcmOrthogonal and Dcms.UnitDcmDeterminant:
  each requires `norm == 1`. DCM(q) is the rotation matrix only for unit
  quaternions, because the source's diagonal form `1 - 2(...)` assumes it.
- Aliasing: the compound operators are specified on the old values of both
  operands, which may be one object. This matches the source: `+=` and `-=`
  read each cell just before writing it, and `*=` forms the whole product
  before it assigns it.
