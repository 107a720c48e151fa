# Verified model of the Graphics coursework's linear algebra

This project models, in Dafny, the linear-algebra core that the labs of the WebGL
coursework share. It also models the code built on that core: the procedural meshes and
the model transforms. Numbers are real numbers. `Math.PI`, `Math.cos` and `Math.sin` are
a parameter of type `Trigonometry.Trig`, and `Math.sqrt` is a function parameter. Every
statement proved about them therefore holds whatever those functions are.

Modules and what they model:

- **Generic matrix library** (final_project/common/matrix.js).
  - `Matrix.Mat` is the class for `Mat` and `SquareMat`. Its fields are a kind (`General`
    or `Square`), the dimensions m and n, and the entries as a flat column-major
    sequence, with entry (i, j) at `i + m*j`.
  - What the model covers:
    - construction and `__mult__`/`mult`;
    - `rref` and `ref`, which work in place;
    - `det`, and `invert`, which appends an identity block, reduces, then shifts the left
      block off;
    - the shape constructors `identity`, `reset`, `rot`, `transpose`, `scale`,
      `translation` and `padded`;
    - `SquareMat3.rotx/roty/rotz`.
  - The loops of `rref` and `ref` are methods. Each is proved equal to a recursive
    specification in `Reduce`. The echelon shape, the determinant scale factor and the
    triangular form are lemmas about those specifications, in `Echelon` and
    `Determinant`. The specifications build on the row operations of `RowOps`.
  - `Layout` holds the index arithmetic and the product. `Sums` holds finite sums.
    `Shapes` holds the fixed shapes. `Cofactors` holds polynomial identities.
  - `Elementary` proves that each row operation of `rref` is a multiplication on the left
    by an invertible matrix. `Inverse` builds on it: the result of `invert` is a two-sided
    inverse exactly when the matrix has one. `Determinant` also proves that `det` of a 3×3
    matrix is `M3.determinant` of math.js, and `Vectors` that `cross` of two 3-vectors is
    `V3.cross`.
- **`Vec`** (`Vectors.Vec`). It is a one-column matrix whose live components (`contents`)
  change in place. It also keeps the array it was constructed from (`data`), which `mag`
  reads.
- **Fixed-size library** (lab8/common/math.js; lab6/common/math2d.js is identical to its
  lines 1-569 and is modelled once).
  - `FixedVectors.V2` and `V3` are classes whose methods update x, y and z in place and
    return the vector itself, as the source does to chain calls.
  - The `M3` and `M4` static methods are functions on 9 or 16 entries, in
    `FixedMatrices`. `M3.reset`, `M4.reset` and `M4.resetRotation` are methods of the
    classes `M3` and `M4`.
- **Meshes** (lab8/lab08-lighting/primitives.js), module `Primitives`.
  - `Plane`, `Sphere`, `Cylinder` and `Cube`, with the `MeshCache` dictionary as a class
    holding a map.
  - Each nested loop is a method proved to produce a specification sequence. The counts,
    the index bounds and the normals are lemmas about those specifications.
- **Model transforms**. Each is a class with the position, rotation, scale and model
  matrix fields of its source:
  - `LightingTransform`: lab8/lab08-lighting/modeltransform.js;
  - `BasicTransform`: lab7/lab07-exercise01-3d/modeltransform.js, built on the lab8
    library;
  - `ProjectTransform`: final_project/modeltransform.js, built on `Matrix` and `Vectors`;
  - `Engine2DTransform`: lab6/lab06-exercise01-engine2D/modeltransform.js, the 2D
    transform.

  The composed matrix of each is a function (`ModelMatrix`). The lemmas state where the
  position lands, what the axes are, and what the defaults give. The lab7 and
  final_project matrices are proved equal to the lab8 one.

Where the source behaves unexpectedly, the model keeps the code as written and a second
member gives the evidently intended behaviour. The cases are listed under "Findings".

## Model

| member | source | states |
|---|---|---|
| Matrix.Mat.New | final_project/common/matrix.js:25-36 | succeeds exactly when the contents have m·n entries, and then gives an m×n matrix holding them; otherwise fails with "matrix contents of incorrect size for m x n matrix" |
| Matrix.Mat.constructor | final_project/common/matrix.js:25-36 | for contents of length m·n, a well-formed matrix with those dimensions and entries |
| Matrix.Mat.NewSquare | final_project/common/matrix.js:204-211 | succeeds exactly when the length is a perfect square, with n its integer root; otherwise fails with "contents size is not perfect square" |
| Matrix.Mat.MultRaw | final_project/common/matrix.js:38-53 | fails exactly when left.n ≠ right.m; otherwise the pushed buffer is the column-major product of the two matrices |
| Layout.MatMulEntries | final_project/common/matrix.js:43-51 | entry (i, j) of the product is the sum over k of left(i, k)·right(k, j) |
| Layout.MulAssoc | final_project/common/matrix.js:38-53 | the product is associative for any compatible dimensions |
| Layout.MulIdentityLeft | final_project/common/matrix.js:38-53 | the identity on the left leaves an m×n matrix unchanged |
| Layout.MulIdentityRight | final_project/common/matrix.js:38-53 | the identity on the right leaves an m×n matrix unchanged |
| Matrix.Mat.Mult | final_project/common/matrix.js:61-63 | fails exactly on a size mismatch; otherwise a fresh General left.m × right.n matrix holding the product |
| Matrix.Mat.SquareMult | final_project/common/matrix.js:274-276 | fails on a size mismatch or a non-square product; otherwise a fresh square matrix holding the product |
| Matrix.Mat.CopyContents | final_project/common/matrix.js:170-177 | copies the source exactly when its length is m·n; otherwise the entries stay as they were; the shape never changes |
| Matrix.Mat.Clone | final_project/common/matrix.js:183-189 | a fresh matrix of the same kind, dimensions and entries |
| Matrix.Mat.PivotCandidate | final_project/common/matrix.js:77-87 | the pivot row found by the scan of rows h..m-1, and whether its entry in column k is 0 (the column is skipped) |
| Reduce.PivotRowMax | final_project/common/matrix.js:77-82 | the chosen row has the largest absolute value in column k among rows h..m-1, and is the first row that does |
| Echelon.ZeroColumn | final_project/common/matrix.js:83-87 | when the chosen entry is 0, the whole of column k from row h down is 0, so skipping the column loses no pivot |
| Matrix.Mat.SwapInPlace | final_project/common/matrix.js:89-96 | rows r and h are exchanged in every column, and nothing else changes |
| Matrix.Mat.DividePivotRow | final_project/common/matrix.js:101-104 | row h is divided by its pivot from column k on; the loop runs right to left, so the pivot is divided last |
| Reduce.DividedPivot | final_project/common/matrix.js:101-104 | after the division the pivot entry is 1 |
| Matrix.Mat.ClearColumn | final_project/common/matrix.js:106-115 | every other row has the multiple of the pivot row subtracted that zeroes its entry in column k |
| Matrix.Mat.RrefPivot | final_project/common/matrix.js:88-118 | one pivot step: swap, divide, eliminate; the scale is negated on a swap and divided by the pivot; the rest of the reduction is unchanged by taking this step |
| Matrix.Mat.RrefColumn | final_project/common/matrix.js:77-118 | one pass of the while loop, either skipping column k or pivoting on it, preserves the remaining reduction |
| Matrix.Mat.Rref | final_project/common/matrix.js:72-121 | the matrix ends as the recursive Gauss-Jordan specification `Reduce.Rref` of its old entries, and the returned factor is that specification's scale |
| Echelon.RrefShape | final_project/common/matrix.js:72-121 | the result is in reduced row echelon form: pivot columns increase, each pivot column is a unit vector with its 1 in the pivot's row, entries left of a pivot are 0, and rows below the last pivot are 0 |
| Echelon.RrefScale | final_project/common/matrix.js:72-121 | the returned scale times the product of the pivots is (−1)^swaps, and the pivots are nonzero, so the scale is (−1)^swaps divided by the product of the pivots |
| Matrix.Mat.RefPivot | final_project/common/matrix.js:143-161 | one pivot step of `ref`: the swap, then elimination below row h; the scale is negated on a swap and never divided |
| Matrix.Mat.Ref | final_project/common/matrix.js:128-164 | the matrix ends as the recursive Gaussian-elimination specification `Reduce.Ref` of its old entries, and the returned factor is its scale |
| Echelon.RefShape | final_project/common/matrix.js:128-164 | the result is in row echelon form; every entry below a pivot is 0; for a square matrix, every entry below the diagonal is 0 |
| Echelon.RefScale | final_project/common/matrix.js:128-164 | the scale returned by `ref` is (−1)^swaps, so it is 1 or −1 |
| Matrix.Mat.Det | final_project/common/matrix.js:349-356 | returns the determinant specification of the unchanged entries: the scale of `ref` on a clone times the product of that clone's diagonal |
| Determinant.DetTriangular | final_project/common/matrix.js:349-356 | that value is ± the product of the diagonal of the row echelon form of the matrix, and that form is upper triangular |
| Determinant.RefLoopCofactor3 | final_project/common/matrix.js:128-164 | on a 3×3 matrix, every swap and elimination step of `ref` keeps the scale times the first-row cofactor expansion of the current matrix unchanged |
| Determinant.DetOf3 | final_project/common/matrix.js:349-356 | for a 3×3 matrix, `det` is the cofactor expansion along the first row |
| Determinant.Cofactor3IsDet3 | lab8/common/math.js:396-403 | the first-row expansion of a 3×3 column-major buffer is `M3.determinant` of it |
| Determinant.DetOfIsDet3 | final_project/common/matrix.js:349-356 | `det` of matrix.js and `M3.determinant` of math.js agree on every 3×3 matrix |
| Matrix.Mat.AppendIdentity | final_project/common/matrix.js:367-377 | the n×n identity is appended after the entries in column-major order, which is the right block of [A \| I] |
| Matrix.Mat.ShiftOff | final_project/common/matrix.js:380-382 | the first `count` entries are dropped and the rest kept in order |
| Matrix.Mat.Invert | final_project/common/matrix.js:364-384 | n is as before and the entries are the right n×n block of rref([A \| I]); they are a two-sided inverse of A exactly when A has a right inverse |
| Elementary.SwapLinear | final_project/common/matrix.js:89-96 | exchanging two rows of a product x·y is exchanging them in x |
| Elementary.MultiplyLinear | final_project/common/matrix.js:101-104 | multiplying a row of a product x·y by c is multiplying that row of x |
| Elementary.SubtractLinear | final_project/common/matrix.js:106-115 | subtracting multiples of row h from the other rows of x·y is doing so in x |
| Elementary.SwapTwice | final_project/common/matrix.js:89-96 | exchanging the same two rows twice restores the matrix |
| Elementary.MultiplyUndone | final_project/common/matrix.js:101-104 | for c ≠ 0, multiplying a row by c then by 1/c, or the reverse, restores the matrix |
| Elementary.SubtractUndone | final_project/common/matrix.js:106-115 | subtracting multiples g of row h then adding them back, or the reverse, restores the matrix |
| Elementary.Compose | final_project/common/matrix.js:72-121 | two row transformations in a row are one, by the product of their matrices, undone by the product of the inverses in reverse order |
| Elementary.RrefTransforms | final_project/common/matrix.js:72-121 | `rref` multiplies its matrix on the left by an invertible matrix T: rref(a) = T·a and a = U·rref(a), with T·U = U·T = I |
| Inverse.ReducedFactors | final_project/common/matrix.js:364-384 | reducing [A \| I] multiplies it on the left by an invertible T: the right block `invert` keeps is T itself and the left block is T·A |
| Inverse.LeftIdentityInverse | final_project/common/matrix.js:364-384 | when the left block reduces to the identity, the right block is a two-sided inverse of A |
| Inverse.RightInverseLeftIdentity | final_project/common/matrix.js:364-384 | when A has a right inverse, the left block reduces to the identity |
| Inverse.InvertedInverse | final_project/common/matrix.js:364-384 | A has a right inverse exactly when the result of `invert` is a two-sided inverse of A, which is exactly when the left block reduces to the identity |
| Inverse.RightInverseInverted | final_project/common/matrix.js:364-384 | any right inverse of A is the matrix `invert` computes, so the inverse is unique |
| Matrix.Mat.Identity | final_project/common/matrix.js:217-221 | a fresh square n×n matrix whose entries are the identity |
| Matrix.Mat.Reset | final_project/common/matrix.js:223-229 | the same n×n matrix, now holding the identity |
| Layout.IdentityGet | final_project/common/matrix.js:223-229 | entry (i, j) of the identity is 1 exactly when i == j, and 0 otherwise |
| Matrix.Mat.RotAsWritten | final_project/common/matrix.js:238-266 | fails exactly for the bounds test as written (a > n, n > n, a < 0 or b < 0); otherwise the n×n rotation in the (a, b) plane |
| Matrix.Mat.Rot | final_project/common/matrix.js:238-266 | fails exactly when a or b lies outside 0..n-1; otherwise the n×n rotation in the (a, b) plane |
| Shapes.RotationGet | final_project/common/matrix.js:246-263 | entry (i, j) is c on the two axis diagonals, −s at (a, b), s at (b, a), 1 on the other diagonal entries, and 0 elsewhere |
| Shapes.RotationOrthogonal | final_project/common/matrix.js:238-266 | for distinct in-range axes and c² + s² = 1, RᵀR is the identity |
| Shapes.RotOutOfRangeNotOrthogonal | final_project/common/matrix.js:240 | the test as written accepts n = 3, a = 0, b = 5, which the intended test rejects, and the matrix built then has RᵀR(0,0) = 0, not 1 |
| Matrix.Mat.RotX | final_project/common/matrix.js:463-465 | rot(3, 1, 2): the 3×3 rotation about x, entries spelled out |
| Matrix.Mat.RotY | final_project/common/matrix.js:469-471 | rot(3, 2, 0): the 3×3 rotation about y, entries spelled out |
| Matrix.Mat.RotZ | final_project/common/matrix.js:475-477 | rot(3, 0, 1): the 3×3 rotation about z, entries spelled out |
| Shapes.Rotations3 | final_project/common/matrix.js:463-477 | the three 3×3 rotations `rotx`, `roty` and `rotz` build, entry by entry |
| Matrix.Mat.Transpose | final_project/common/matrix.js:282-290 | a fresh square matrix holding the transpose of the entries |
| Shapes.TransposeGet | final_project/common/matrix.js:282-290 | entry (i, j) of the transpose is entry (j, i) of the matrix |
| Shapes.TransposeInvolution | final_project/common/matrix.js:282-290 | transposing twice gives back the matrix |
| Matrix.Mat.Scale | final_project/common/matrix.js:296-304 | a fresh square |v|×|v| diagonal matrix |
| Shapes.DiagonalGet | final_project/common/matrix.js:296-304 | entry (i, j) is v[i] when i == j, and 0 otherwise |
| Matrix.Mat.Translation | final_project/common/matrix.js:310-320 | a fresh square (|d|+1)×(|d|+1) translation matrix |
| Shapes.TranslationGet | final_project/common/matrix.js:310-320 | the first |d| columns are those of the identity, and the last column is [d…, 1] |
| Shapes.TranslationMoves | final_project/common/matrix.js:310-320 | the translation applied to the point [v…, 1] gives v + d in the first |d| entries |
| Matrix.Mat.Padded | final_project/common/matrix.js:327-341 | a fresh square (n+1)×(n+1) matrix, the padding of the entries |
| Shapes.PaddedGet | final_project/common/matrix.js:327-341 | the n×n block in the upper left is kept, entry (n, n) is 1, and the rest of the border is 0 |
| Vectors.Vec.constructor | final_project/common/matrix.js:537-540 | the live components and `data` are both the given array |
| Vectors.Vec.Equals | final_project/common/matrix.js:550-560 | true exactly when the lengths agree and every component differs by at most 0.0001 |
| Vectors.CloseSymmetric | final_project/common/matrix.js:550-560 | `equals` is symmetric and reflexive |
| Vectors.Vec.Dot | final_project/common/matrix.js:624-633 | fails with "dimension mismatch" exactly when the lengths differ; otherwise the sum of the products of the components |
| Vectors.DotSymmetric | final_project/common/matrix.js:624-633 | the dot product is symmetric |
| Vectors.DotIsProduct | final_project/common/matrix.js:624-633 | the dot product is the single entry of the 1×n by n×1 matrix product |
| Vectors.Vec.Set | final_project/common/matrix.js:635-642 | copies the values exactly when their length equals the vector's; otherwise fails with "dimension mismatch" and the vector is unchanged |
| Vectors.Vec.Clone | final_project/common/matrix.js:647-653 | a fresh vector with the same components |
| Vectors.Vec.Scale | final_project/common/matrix.js:566-570 | every live component is multiplied by s, and `data` is untouched |
| Vectors.ScaledCompose | final_project/common/matrix.js:566-570 | scaling by a then by b is scaling by a·b, and scaling by 1 changes nothing |
| Vectors.Vec.Normalize | final_project/common/matrix.js:572-577 | every component is divided by the magnitude `mag` reported before the loop |
| Vectors.Vec.Invert | final_project/common/matrix.js:581-585 | every component is negated |
| Vectors.NegatedInvolution | final_project/common/matrix.js:581-585 | negating twice restores the vector, and negation is scaling by −1 |
| Vectors.Vec.Subtract | final_project/common/matrix.js:586-590 | each component has the other vector's component subtracted |
| Vectors.DifferenceRoundTrip | final_project/common/matrix.js:586-590 | adding the other vector back restores each component, and a vector minus itself is 0 |
| Vectors.Vec.CrossBlockData | final_project/common/matrix.js:597-610 | fails with "cant cross vecs of different dimension" exactly when some vector's length differs; otherwise the block of minors for component i |
| Vectors.CrossBlock3 | final_project/common/matrix.js:597-610 | for two 3-vectors the block is the 3×3 matrix with rows e_i, u and v |
| Vectors.Vec.Cross | final_project/common/matrix.js:595-613 | fails exactly on a dimension mismatch or a non-square block, with the source's message; otherwise a fresh vector whose component i is the determinant of the i-th block |
| Vectors.CrossComponents3 | final_project/common/matrix.js:595-613 | for two 3-vectors, component i of `cross` is the 2×2 minor of u and v for i: (u1v2 − u2v1, u2v0 − u0v2, u0v1 − u1v0) |
| Vectors.CrossProduct3 | final_project/common/matrix.js:595-613 | for two 3-vectors, `cross` with one argument is the 3D cross product |
| Vectors.CrossProductIsCross3 | lab8/common/math.js:275-279 | for two 3-vectors, `Vec.cross` of matrix.js equals `V3.cross` of math.js (`Cross3`) |
| Vectors.Vec.Mag | final_project/common/matrix.js:562-564 | with a true square root, a nonnegative value whose square is the sum of squares of `data`; it is the magnitude of the live components whenever those still equal `data` |
| Vectors.Vec.MagLive | final_project/common/matrix.js:562-570 | with a true square root, a nonnegative value whose square is the sum of squares of the live components |
| Vectors.SumSquaresNonnegative | final_project/common/matrix.js:562-564 | the sum of squares under the root is never negative |
| Vectors.MagAfterScale | final_project/common/matrix.js:562-564 | after [1] is scaled to [2], `mag` still reports sqrt(1), while the live magnitude is sqrt(4) |
| Vectors.MagLiveAfterScale | final_project/common/matrix.js:566-570 | the live magnitude after scaling by s is the root of s² times the old sum of squares |
| Vectors.SumSquaresScaled | final_project/common/matrix.js:562-570 | the sum of squares of s·u is s² times that of u |
| FixedVectors.V2.constructor | lab6/common/math2d.js:39-49 | a vector with the given x and y |
| FixedVectors.V2.Default | lab6/common/math2d.js:39-49 | without numbers, the zero vector |
| FixedVectors.V2.FromArray | lab6/common/math2d.js:39-49 | from an array, its first two entries |
| FixedVectors.V2.Set | lab6/common/math2d.js:83-87 | the vector now holds (x, y), and `set` returns the vector itself |
| FixedVectors.V2.MultiplyScalar | lab6/common/math2d.js:93-97 | both components are multiplied by s, in place |
| FixedVectors.V2.AddV | lab6/common/math2d.js:111-115 | the other vector, as it was before the call, is added in place |
| FixedVectors.V2.Add | lab6/common/math2d.js:122-126 | (x, y) is added in place |
| FixedVectors.V2.SubtractV | lab6/common/math2d.js:132-136 | the other vector, as it was before the call, is subtracted in place |
| FixedVectors.V2.Subtract | lab6/common/math2d.js:143-147 | (x, y) is subtracted in place |
| FixedVectors.V2.Invert | lab6/common/math2d.js:152-156 | both components are negated in place |
| FixedVectors.V2.Clone | lab6/common/math2d.js:164 | a fresh vector with the same value |
| FixedVectors.V2.Dot | lab6/common/math2d.js:103-105 | the dot product x·vx + y·vy, nonnegative for a vector with itself |
| FixedVectors.V2.Equals | lab6/common/math2d.js:158-162 | true exactly when both components are equal |
| FixedVectors.V2.ToV3 | lab6/common/math2d.js:166 | a fresh V3 (x, y, 0) |
| FixedVectors.RoundTrips2 | lab6/common/math2d.js:111-156 | invert twice restores a V2; adding then subtracting v, or the reverse, restores it; invert is scaling by −1 |
| FixedVectors.V3.constructor | lab8/common/math.js:191-201 | a vector with the given x, y and z |
| FixedVectors.V3.Default | lab8/common/math.js:191-201 | without numbers, the zero vector |
| FixedVectors.V3.FromArray | lab8/common/math.js:191-201 | from an array, its first three entries |
| FixedVectors.V3.Set | lab8/common/math.js:245-250 | the vector now holds (x, y, z), and `set` returns the vector itself |
| FixedVectors.V3.MultiplyScalar | lab8/common/math.js:256-261 | all components are multiplied by s, in place |
| FixedVectors.V3.Cross | lab8/common/math.js:275-279 | a fresh vector (y·vz − z·vy, z·vx − x·vz, x·vy − y·vx), the value of `Cross3` |
| FixedVectors.CrossOfBasis | lab8/common/math.js:183-189 | RIGHT × UP = FORWARD, UP × FORWARD = RIGHT, FORWARD × RIGHT = UP |
| FixedVectors.CrossAnticommutes | lab8/common/math.js:275-279 | u × v = −(v × u), and u × u = 0 |
| FixedVectors.CrossOrthogonal | lab8/common/math.js:275-279 | u × v is orthogonal to u and to v |
| FixedVectors.Opposites | lab8/common/math.js:183-189 | LEFT, DOWN and BACK are the negations of RIGHT, UP and FORWARD, in both V2 and V3 |
| FixedVectors.DotSymmetric | lab8/common/math.js:267-269 | the dot products of V2 and V3 are symmetric |
| FixedVectors.V3.AddV | lab8/common/math.js:285-290 | the other vector, as it was before the call, is added in place |
| FixedVectors.V3.Add | lab8/common/math.js:298-303 | (x, y, z) is added in place |
| FixedVectors.V3.SubtractV | lab8/common/math.js:309-314 | the other vector, as it was before the call, is subtracted in place |
| FixedVectors.V3.Subtract | lab8/common/math.js:322-327 | (x, y, z) is subtracted in place |
| FixedVectors.V3.Invert | lab8/common/math.js:332-337 | all components are negated in place |
| FixedVectors.V3.Clone | lab8/common/math.js:345 | a fresh vector with the same value |
| FixedVectors.V3.Dot | lab8/common/math.js:267-269 | the dot product x·vx + y·vy + z·vz, nonnegative for a vector with itself |
| FixedVectors.V3.Equals | lab8/common/math.js:339-343 | true exactly when all three components are equal |
| FixedVectors.V3.ToV2 | lab8/common/math.js:347 | a fresh V2 (x, y) |
| FixedVectors.RoundTrips3 | lab8/common/math.js:285-337 | invert twice restores a V3; adding then subtracting v, or the reverse, restores it; invert is scaling by −1 |
| FixedVectors.AddThenSubtract | lab8/common/math.js:285-314 | `addV(v)` followed by `subtractV(v)`, for another vector v, leaves the vector as it was |
| FixedVectors.AddSelfThenSubtractSelf | lab8/common/math.js:285-314 | with v the vector itself, `addV` doubles it and `subtractV` then zeroes it |
| FixedMatrices.M3.constructor | lab6/common/math2d.js:362-370 | without data, nine zero entries |
| FixedMatrices.M3.Of | lab6/common/math2d.js:362-370 | with data, its first nine entries |
| FixedMatrices.M3.Clone | lab6/common/math2d.js:378-380 | a fresh matrix with the same entries |
| FixedMatrices.M3.Reset | lab6/common/math2d.js:385-391 | the matrix holds exactly the identity, and `reset` returns it |
| FixedMatrices.M3.Determinant | lab6/common/math2d.js:396-403 | `determinant()` is `Det3` of the entries, and when it is nonzero, `multM3(m, invert(m))` is the identity |
| FixedMatrices.Mult3IsMatMul | lab6/common/math2d.js:456-486 | `multM3` (`Mult3`) is the general column-major product of two 3×3 matrices |
| FixedMatrices.Mult3Assoc | lab6/common/math2d.js:456-486 | `multM3` is associative |
| FixedMatrices.MultV3by3Composes | lab6/common/math2d.js:494-500 | `multV3` (`MultV3by3`) of a product is `multV3` by b then by a |
| FixedMatrices.MultV2by3IsPoint | lab6/common/math2d.js:510-517 | `multV2` (`MultV2by3`) is `multV3` of the point (x, y, 1), with the third component dropped |
| FixedMatrices.MultV2by3Composes | lab6/common/math2d.js:510-517 | when b's last row is (0, 0, 1), `multV2` of a·b is `multV2` by b then by a |
| FixedMatrices.Mult3Identity | lab6/common/math2d.js:456-486 | `multM3` with IDENTITY on either side gives back m |
| FixedMatrices.Mult3LastColumn | lab6/common/math2d.js:456-486 | when b's last column is (0, 0, 1), the product keeps a's last column |
| FixedMatrices.Affine3 | lab6/common/math2d.js:428-448 | the rotation and scale matrices (`Rotation3`, `Scale3`) have last column (0, 0, 1) |
| FixedMatrices.TranslationMovesPoint3 | lab6/common/math2d.js:510-517 | `multV2(translationMatrix(x, y), v)` (`MultV2by3`, `Translation3`) is v + (x, y), and `multV3` (`MultV3by3`) moves (v, 1) the same way |
| FixedMatrices.Adjugate3Identity | lab6/common/math2d.js:523-551 | m times its adjugate is `Det3`(m) times the identity |
| FixedMatrices.Invert3Correct | lab6/common/math2d.js:523-551 | when `determinant()` is nonzero, `multM3(m, invert(m))` (`Mult3`, `Invert3`) is the identity |
| FixedMatrices.Transpose3AsWritten | lab6/common/math2d.js:557-566 | `M3.transpose` (`Transpose3`) agrees with the transpose exactly when m's diagonal is 0; for IDENTITY it returns the zero matrix |
| FixedMatrices.Transposed3Swaps | lab6/common/math2d.js:557-566 | the corrected transpose (`Transposed3`) maps entry (i, j) to (j, i) and is an involution |
| FixedMatrices.Det3Transposed | lab6/common/math2d.js:396-403 | `determinant` of the corrected transpose (`Transposed3`) is that of m |
| FixedMatrices.M4.constructor | lab8/common/math.js:579-587 | without data, sixteen zero entries |
| FixedMatrices.M4.Of | lab8/common/math.js:579-587 | with data, its first sixteen entries |
| FixedMatrices.M4.Clone | lab8/common/math.js:610 | a fresh matrix with the same entries |
| FixedMatrices.M4.Reset | lab8/common/math.js:593-598 | the matrix holds exactly the identity, and `reset` returns it |
| FixedMatrices.M4.ResetRotation | lab8/common/math.js:601-608 | entries 0-11 become those of the identity, entries 12-14 are kept, and entry 15 is 1 |
| FixedMatrices.Mult4IsMatMul | lab8/common/math.js:948-981 | `multM4` (`Mult4`) is the general column-major product of two 4×4 matrices |
| FixedMatrices.Mult4Identity | lab8/common/math.js:948-981 | `multM4` with the identity on either side gives back m |
| FixedMatrices.Mult4Assoc | lab8/common/math.js:948-981 | `multM4` is associative |
| FixedMatrices.Mult4LastColumn | lab8/common/math.js:948-981 | when b's last column is e4, the product keeps a's last column |
| FixedMatrices.Mult4Affine | lab8/common/math.js:948-981 | the product of two matrices with last row (0, 0, 0, 1) has that last row |
| FixedMatrices.TranslationMovesPoint4 | lab8/common/math.js:932-941 | `multV3(translationMatrix(x, y, z), v)` (`MultV3by4`, `Translation4`) is v + (x, y, z) |
| FixedMatrices.MultV3by4Composes | lab8/common/math.js:932-941 | when b's last row is (0, 0, 0, 1), `multV3` (`MultV3by4`) of `multM4(a, b)` is `multV3` by b then by a |
| FixedMatrices.TranslationKeepsAxes4 | lab8/common/math.js:692-699 | a translation on the left keeps the first three columns of an affine matrix |
| FixedMatrices.ScaleColumns4 | lab8/common/math.js:707-714 | a scale (`Scale4`) on the right multiplies column k by the k-th scale factor |
| FixedMatrices.Linear4 | lab8/common/math.js:707-766 | the scale and the three rotations (`RotationX4`, `RotationY4`, `RotationZ4`) have last column e4 |
| FixedMatrices.RotationXOrthogonal | lab8/common/math.js:720-732 | for c² + s² = 1, RxᵀRx is the identity |
| FixedMatrices.RotationYOrthogonal | lab8/common/math.js:738-749 | for c² + s² = 1, RyᵀRy is the identity |
| FixedMatrices.RotationZOrthogonal | lab8/common/math.js:755-766 | for c² + s² = 1, RzᵀRz is the identity |
| FixedMatrices.OrthoCorners | lab8/common/math.js:660-684 | `ortho` (`Ortho`) maps the corner (left, bottom, −near) to (−1, −1, −1) and (right, top, −far) to (1, 1, 1) |
| FixedMatrices.LookAtSamePointMovesOrigin | lab8/common/math.js:809-821 | when from == to, `lookAtMatrix` (`LookAtSamePoint`) is the identity with the second column set to up (default (0, 1, 0)) and the translation set to from; it maps the origin to from |
| FixedMatrices.Transpose4Swaps | lab8/common/math.js:859-878 | `M4.transpose` (`Transpose4`) sets `result[4i+j] = m[4j+i]` for all 16 entries, and transposing twice gives back m |
| FixedMatrices.Adjugate4Identity | lab8/common/math.js:989-1036 | m times the matrix of cofactors `invert` computes is `Det4`(m) times the identity |
| FixedMatrices.Det4Laplace | lab8/common/math.js:989-1036 | the cofactor determinant `Det4` of `invert` is the Laplace expansion along m[0], m[1], m[2] and m[3], with `Det3` of their four 3×3 minors |
| FixedMatrices.Invert4Correct | lab8/common/math.js:989-1036 | `invert` (`Invert4`) fails exactly when the cofactor determinant is 0; otherwise `multM4(m, invert(m))` is the identity |
| FixedMatrices.InverseTransposeOfInverse | lab8/common/math.js:885-925 | `inverseTranspose3x3` (`InverseTranspose3x3`) is null exactly when `invert` fails; otherwise its entry r + 3c is invert(m)[c + 4r] for r, c < 3 |
| Primitives.PlaneVertexBuffers | lab8/lab08-lighting/primitives.js:323-336 | the two nested loops push exactly the plane's position and normal specifications, 3·xRes·zRes floats each |
| Primitives.PlanePositionCount | lab8/lab08-lighting/primitives.js:323-336 | the plane has 3·xRes·zRes position floats |
| Primitives.PlaneNormalsUp | lab8/lab08-lighting/primitives.js:323-336 | every one of the xRes·zRes normals is (0, 1, 0) |
| Primitives.PlaneCorners | lab8/lab08-lighting/primitives.js:323-330 | the first vertex is (−2, 0, 2) and the last is (2, 0, −2): the plane spans 4×4 |
| Primitives.PlaneIndexBuffer | lab8/lab08-lighting/primitives.js:338-353 | the loops push the plane's index specification: 6·(xRes−1)·(zRes−1) indices, each below xRes·zRes |
| Primitives.PlaneIndexCount | lab8/lab08-lighting/primitives.js:338-353 | the plane has 6·(xRes−1)·(zRes−1) indices |
| Primitives.PlaneIndicesBelow | lab8/lab08-lighting/primitives.js:338-353 | every index is below the vertex count xRes·zRes |
| Primitives.PlaneNameBeforeClamp | lab8/lab08-lighting/primitives.js:307-313 | the cache name is built before the clamp to 2: "plane1x1" and "plane2x2" are different entries holding the same mesh |
| Primitives.GetPlane | lab8/lab08-lighting/primitives.js:306-357 | on a cache hit, the stored mesh with the cache unchanged; otherwise the clamped plane, stored under the unclamped name |
| Primitives.PlaneMesh | lab8/lab08-lighting/primitives.js:306-357 | the stored plane has the unclamped name, (x·z) vertices with as many normals, 2(x−1)(z−1) triangles whose indices are all vertices, and every normal (0, 1, 0), with x, z the resolutions clamped to 2 |
| Primitives.SphereStackVertices | lab8/lab08-lighting/primitives.js:383-413 | one pass of the outer loop appends the sectorCount+1 vertices of stack i to both buffers |
| Primitives.SphereVertexBuffers | lab8/lab08-lighting/primitives.js:382-414 | the loops produce the sphere's positions; the normals equal them; there are 3·(stackCount+1)·(sectorCount+1) floats |
| Primitives.SphereVertexCounts | lab8/lab08-lighting/primitives.js:382-414 | (stackCount+1)·(sectorCount+1) vertices, and each normal equals its position (radius 1) |
| Primitives.SphereBandIndices | lab8/lab08-lighting/primitives.js:424-446 | one pass of the outer loop appends the triangles of band i: none for k1 in the first band, none for k1+1 in the last |
| Primitives.SphereIndexBuffer | lab8/lab08-lighting/primitives.js:423-447 | the loops push the sphere's index specification: 6·sectorCount·(stackCount−1) indices, all below the vertex count |
| Primitives.SphereIndexCount | lab8/lab08-lighting/primitives.js:423-447 | the sphere has 6·sectorCount·(stackCount−1) indices when stackCount ≥ 1 |
| Primitives.SphereIndicesBelow | lab8/lab08-lighting/primitives.js:423-447 | every index is below (stackCount+1)·(sectorCount+1) |
| Primitives.GetSphere | lab8/lab08-lighting/primitives.js:363-450 | the fixed key "sphere": on a hit, the stored mesh whatever the parameters; otherwise the generated mesh, stored |
| Primitives.SphereMesh | lab8/lab08-lighting/primitives.js:363-450 | the stored sphere is named "sphere", its normals are its positions, and it has (stackCount+1)(sectorCount+1) vertices and 2·sectorCount·(stackCount−1) triangles whose indices are all vertices |
| Primitives.CylinderTopRim | lab8/lab08-lighting/primitives.js:485-497 | the loop appends the sectorCount upper rim vertices, each with normal (0, 1, 0) |
| Primitives.CylinderBottomRim | lab8/lab08-lighting/primitives.js:520-532 | the loop appends the sectorCount lower rim vertices, each with normal (0, −1, 0) |
| Primitives.CylinderSideRing | lab8/lab08-lighting/primitives.js:548-570 | one pass of the side loop appends the sectorCount+1 vertices of ring i, with normals scaled by 1/radius |
| Primitives.CylinderSide | lab8/lab08-lighting/primitives.js:546-571 | the side loop appends both rings |
| Primitives.CylinderVertexBuffers | lab8/lab08-lighting/primitives.js:474-571 | the vertex code produces the cylinder's positions and normals, 3·(4·sectorCount+4) floats each |
| Primitives.CylinderVertexCount | lab8/lab08-lighting/primitives.js:474-571 | the cylinder has 4·sectorCount+4 vertices |
| Primitives.CylinderCapNormals | lab8/lab08-lighting/primitives.js:474-533 | the first 2·(sectorCount+1) normals are sectorCount+1 copies of (0, 1, 0), then sectorCount+1 copies of (0, −1, 0) |
| Primitives.CylinderTopFan | lab8/lab08-lighting/primitives.js:499-507 | the loop pushes the top fan specification |
| Primitives.CylinderBottomFan | lab8/lab08-lighting/primitives.js:535-543 | the loop appends the bottom fan specification |
| Primitives.CylinderFansWrap | lab8/lab08-lighting/primitives.js:499-543 | the last triangle of each cap fan wraps to the cap's first rim vertex (1, or start+1); the other top triangles are (i+1, 0, i+2) |
| Primitives.CylinderSideQuads | lab8/lab08-lighting/primitives.js:577-592 | the loop appends two triangles per sector, from k1 = 2·sectorCount+2 and k2 = k1+sectorCount+1 |
| Primitives.CylinderIndexBuffer | lab8/lab08-lighting/primitives.js:499-592 | the cylinder's index specification: 12·sectorCount indices, all below 4·sectorCount+4 |
| Primitives.CylinderIndexCounts | lab8/lab08-lighting/primitives.js:499-592 | 12·sectorCount indices, each below the vertex count 4·sectorCount+4 |
| Primitives.GetCylinder | lab8/lab08-lighting/primitives.js:455-595 | the fixed key "cylinder": on a hit, the stored mesh whatever sectorCount is; otherwise the generated mesh, stored |
| Primitives.CylinderMesh | lab8/lab08-lighting/primitives.js:455-595 | the stored cylinder is named "cylinder" and has 4·sectorCount+4 vertices with as many normals and 4·sectorCount triangles whose indices are all vertices |
| Primitives.CubeShape | lab8/lab08-lighting/primitives.js:68-144 | 24 vertices with 24 normals and 36 indices; each vertex lies on its face's plane (position·normal = 1/2); the indices of face f are among its own four vertices 4f..4f+3 |
| Primitives.GetCube | lab8/lab08-lighting/primitives.js:63-148 | on a hit, the stored cube; otherwise the constant cube mesh, stored under "cube" |
| LightingTransform.ModelMatrixChain | lab8/lab08-lighting/modeltransform.js:44-48 | the model matrix is (((T·Ry)·Rx)·Rz)·S, multiplied left to right |
| LightingTransform.FactorsLinear | lab8/lab08-lighting/modeltransform.js:45-48 | each of Ry, Rx, Rz and S keeps e4 as its last column, and its last row is (0, 0, 0, 1) |
| LightingTransform.ModelMatrixPosition | lab8/lab08-lighting/modeltransform.js:44-48 | entries 12-14 of the model matrix are the position, entry 15 is 1, and the matrix is affine |
| LightingTransform.ModelMatrixAxes | lab8/lab08-lighting/modeltransform.js:44-48 | column k of the model matrix is column k of Ry·Rx·Rz scaled by the k-th scale factor |
| LightingTransform.DefaultModelMatrix | lab8/lab08-lighting/modeltransform.js:19-30 | with cos 0 = 1 and sin 0 = 0, the defaults (position 0, rotation 0, scale 1) give the identity |
| LightingTransform.ComposeModelMatrix | lab8/lab08-lighting/modeltransform.js:44-48 | the five assignments leave a fresh M4 holding the model matrix |
| LightingTransform.CloneOr | lab8/lab08-lighting/modeltransform.js:19-26 | a fresh copy of the given vector, or a fresh default |
| LightingTransform.SameOr | lab8/lab08-lighting/modeltransform.js:22-23 | the given rotation itself (aliased), or a fresh zero vector |
| LightingTransform.ModelTransform.constructor | lab8/lab08-lighting/modeltransform.js:11-31 | position and scale are fresh copies or (0,0,0) and (1,1,1); rotation is the given object or a fresh zero; the matrix is the model matrix of those |
| LightingTransform.ModelTransform.UpdateMatrix | lab8/lab08-lighting/modeltransform.js:41-49 | the matrix is a fresh M4 holding T·Ry·Rx·Rz·S of the current vectors; the vectors are unchanged |
| LightingTransform.ModelTransform.Update | lab8/lab08-lighting/modeltransform.js:36-39 | `updateMatrix`, then returns the transform itself |
| LightingTransform.ModelTransform.LocalRight | lab8/lab08-lighting/modeltransform.js:54 | a fresh V3 of entries 0-2 |
| LightingTransform.ModelTransform.LocalUp | lab8/lab08-lighting/modeltransform.js:55 | a fresh V3 of entries 4-6 |
| LightingTransform.ModelTransform.LocalForward | lab8/lab08-lighting/modeltransform.js:56 | a fresh V3 of entries 8-10 |
| LightingTransform.ModelTransform.Reset | lab8/lab08-lighting/modeltransform.js:58-64 | position (0,0,0), scale (1,1,1), rotation (0,0,0) and the matrix the identity, in place; with exact cos 0 and sin 0 that identity is the model matrix of the defaults |
| BasicTransform.ModelMatrixNested | lab7/lab07-exercise01-3d/modeltransform.js:43-48 | the model matrix is T·(Ry·(Rx·(Rz·S))), with the rotation read as [0] = x, [1] = y, [2] = z |
| BasicTransform.MatchesLighting | lab7/lab07-exercise01-3d/modeltransform.js:48 | by associativity the nested product equals the left-to-right product of the lab8 transform |
| BasicTransform.ModelMatrixPosition | lab7/lab07-exercise01-3d/modeltransform.js:43-48 | entries 12-14 are the position, entry 15 is 1 |
| BasicTransform.DefaultModelMatrix | lab7/lab07-exercise01-3d/modeltransform.js:19-30 | with exact cos 0 and sin 0, the defaults give the identity |
| BasicTransform.ComposeModelMatrix | lab7/lab07-exercise01-3d/modeltransform.js:43-48 | the nested expression leaves a fresh M4 holding the model matrix |
| BasicTransform.ModelTransform.constructor | lab7/lab07-exercise01-3d/modeltransform.js:11-31 | cloned position and scale, aliased rotation, defaults 0, 0 and 1, and the matrix computed from them |
| BasicTransform.ModelTransform.UpdateMatrix | lab7/lab07-exercise01-3d/modeltransform.js:41-54 | a fresh M4 holding the nested product of the current vectors; the vectors are unchanged |
| BasicTransform.ModelTransform.Update | lab7/lab07-exercise01-3d/modeltransform.js:36-39 | `updateMatrix`, then returns the transform itself |
| BasicTransform.ModelTransform.LocalRight | lab7/lab07-exercise01-3d/modeltransform.js:59 | a fresh V3 of entries 0-2 |
| BasicTransform.ModelTransform.LocalUp | lab7/lab07-exercise01-3d/modeltransform.js:60 | a fresh V3 of entries 4-6 |
| BasicTransform.ModelTransform.LocalForward | lab7/lab07-exercise01-3d/modeltransform.js:61 | a fresh V3 of entries 8-10 |
| BasicTransform.ModelTransform.Reset | lab7/lab07-exercise01-3d/modeltransform.js:63-69 | the defaults restored in place and the matrix the identity |
| ProjectTransform.ProductIs4 | final_project/modeltransform.js:42-46 | the left-to-right chain of general 4×4 products equals the chain of `multM4` |
| ProjectTransform.TranslationIs4 | final_project/common/matrix.js:310-320 | `SquareMat.translation([x, y, z])` is the lab8 translation matrix |
| ProjectTransform.ScaleIs4 | final_project/common/matrix.js:296-304 | `SquareMat.scale([x, y, z, 1])` is the lab8 scale matrix |
| ProjectTransform.PaddedIs4 | final_project/common/matrix.js:327-341 | the padding of a 3×3 matrix, entry by entry |
| ProjectTransform.PaddedRotationY | final_project/modeltransform.js:43 | `roty(θ).padded()` is the lab8 rotation about y |
| ProjectTransform.PaddedRotationX | final_project/modeltransform.js:44 | `rotx(θ).padded()` is the lab8 rotation about x |
| ProjectTransform.PaddedRotationZ | final_project/modeltransform.js:45 | `rotz(θ).padded()` is the lab8 rotation about z |
| ProjectTransform.MatchesLighting | final_project/modeltransform.js:42-46 | translation·pad(roty)·pad(rotx)·pad(rotz)·scale([s, 1]) equals the lab8 model matrix |
| ProjectTransform.ModelMatrixPosition | final_project/modeltransform.js:42-46 | entries 12-14 are the position, entry 15 is 1 |
| ProjectTransform.DefaultModelMatrix | final_project/modeltransform.js:19-30 | with exact cos 0 and sin 0, the defaults give the 4×4 identity |
| ProjectTransform.PaddedRotY | final_project/modeltransform.js:43 | `SquareMat3.roty(θ).padded()` is a fresh 4×4 matrix holding the lab8 rotation about y |
| ProjectTransform.PaddedRotX | final_project/modeltransform.js:44 | `SquareMat3.rotx(θ).padded()` is a fresh 4×4 matrix holding the lab8 rotation about x |
| ProjectTransform.PaddedRotZ | final_project/modeltransform.js:45 | `SquareMat3.rotz(θ).padded()` is a fresh 4×4 matrix holding the lab8 rotation about z |
| ProjectTransform.ComposeAsWritten | final_project/modeltransform.js:41-47 | the five assignments with `Mat.mult` leave a fresh 4×4 matrix of kind General holding the model matrix |
| ProjectTransform.Compose | final_project/modeltransform.js:41-47 | the same product with `SquareMat.mult` gives a square 4×4 matrix |
| ProjectTransform.SquareIdentity4 | final_project/common/matrix.js:495-497 | `SquareMat4.identity()` is a fresh square 4×4 identity |
| ProjectTransform.CloneOr | final_project/modeltransform.js:19-26 | a fresh copy of the given `Vec`, or a fresh default |
| ProjectTransform.SameOr | final_project/modeltransform.js:22-23 | the given rotation itself (aliased), or a fresh [0, 0, 0] |
| ProjectTransform.ModelTransform.constructor | final_project/modeltransform.js:11-31 | defaults [0,0,0], [0,0,0] and [1,1,1]; cloned position and scale; aliased rotation; a square matrix holding the model matrix |
| ProjectTransform.ModelTransform.UpdateMatrix | final_project/modeltransform.js:41-47 | with `SquareMat.mult`: a fresh square matrix holding the model matrix of the current components; the vectors are unchanged |
| ProjectTransform.ModelTransform.UpdateMatrixAsWritten | final_project/modeltransform.js:41-47 | with `Mat.mult`, as written: the same entries, in a matrix of kind General |
| ProjectTransform.ModelTransform.Update | final_project/modeltransform.js:36-39 | `updateMatrix`, then returns the transform itself |
| ProjectTransform.ModelTransform.Reset | final_project/modeltransform.js:56-62 | the three `set` calls in order, each throwing "dimension mismatch" on a length other than 3; then succeeds exactly when the matrix is a `SquareMat`, with the identity in it; otherwise throws because `reset` is missing |
| ProjectTransform.DefaultIsIdentity | final_project/modeltransform.js:19-30 | the transform built with the defaults holds the 4×4 identity |
| ProjectTransform.DefaultAsWritten | final_project/modeltransform.js:11-31 | a transform whose `updateMatrix` uses `Mat.mult` holds a matrix of kind General |
| ProjectTransform.ResetAsWritten | final_project/modeltransform.js:56-62 | on such a transform, `reset` always throws "modelMatrix.reset is not a function" |
| ProjectTransform.ResetCorrected | final_project/modeltransform.js:56-62 | with `SquareMat.mult`, `reset` on a default transform succeeds and leaves the identity |
| Engine2DTransform.ModelMatrixPosition | lab6/lab06-exercise01-engine2D/modeltransform.js:43-49 | entries 6-7 of (T·R)·S are the position, entry 8 is 1, and the origin is mapped to the position |
| Engine2DTransform.ModelMatrixAxes | lab6/lab06-exercise01-engine2D/modeltransform.js:43-49 | entries 0-1 are (cos θ, sin θ) scaled by sx, and entries 3-4 are (−sin θ, cos θ) scaled by sy |
| Engine2DTransform.DefaultModelMatrix | lab6/lab06-exercise01-engine2D/modeltransform.js:20-31 | with exact cos 0 and sin 0, the defaults give the 3×3 identity |
| Engine2DTransform.ComposeModelMatrix | lab6/lab06-exercise01-engine2D/modeltransform.js:43-49 | the two `multM3` steps leave a fresh M3 holding (T·R)·S |
| Engine2DTransform.CloneOr | lab6/lab06-exercise01-engine2D/modeltransform.js:20-27 | a fresh copy of the given V2, or a fresh default |
| Engine2DTransform.ModelTransform.constructor | lab6/lab06-exercise01-engine2D/modeltransform.js:12-32 | cloned position and scale, (0, 0) and (1, 1) by default; rotation the given number or 0; the matrix computed from them |
| Engine2DTransform.ModelTransform.UpdateMatrix | lab6/lab06-exercise01-engine2D/modeltransform.js:40-50 | a fresh M3 holding (T·R)·S of the current fields; the fields are unchanged |
| Engine2DTransform.ModelTransform.Update | lab6/lab06-exercise01-engine2D/modeltransform.js:36-38 | `updateMatrix`, returning nothing |
| Engine2DTransform.ModelTransform.LocalRight | lab6/lab06-exercise01-engine2D/modeltransform.js:55 | a fresh V2 of entries 0-1 |
| Engine2DTransform.ModelTransform.LocalUp | lab6/lab06-exercise01-engine2D/modeltransform.js:56 | a fresh V2 of entries 3-4 |
| Engine2DTransform.ModelTransform.Reset | lab6/lab06-exercise01-engine2D/modeltransform.js:58-64 | position (0, 0), scale (1, 1), rotation 0 and the matrix the identity, in place |

## Left out

- Floating point. Numbers are reals, so rounding, NaN and infinities are not modelled. `Vec.equals` compares within 0.0001 of exact values.
- `Math.cos`, `Math.sin` and `Math.PI` are a parameter. `Math.sqrt` is a function parameter of `Vec.mag`/`normalize`. Nothing is proved about their values beyond what a statement assumes (cos 0 = 1 and sin 0 = 0 for the defaults).
- `angleBetween`, `V2`/`V3` `magnitude`, `sqrMagnitude`, `distanceTo` and `normalize`, `M4.perspective`, `SquareMat4.perspective`, `rotationMatrixAxis`, and the general branch of `lookAtMatrix`: they are built on square roots, `acos` or `tan`, which are left out with the floating-point functions. Only the `from == to` branch of `lookAtMatrix` is modelled.
- `SquareMat.lookat`, `SquareMat3.identity`, the `clone` overrides of `SquareMat` and `SquareMat3`, `toFloat32`, `toString` and `Vec`'s x/y/z accessors: no logic beyond what is modelled elsewhere, or only conversions for WebGL.
- Vectors.Vec.Normalize: requires a nonzero `mag`. A zero magnitude gives NaN or infinities in the source.
- Vectors.Vec.Subtract: requires the other vector to have at least as many components. In the source the missing ones read as `undefined` and give NaN.
- FixedMatrices.Invert3 (`M3.invert`): requires a nonzero determinant. The source divides without a check, which gives infinities or NaN.
- FixedMatrices.Ortho: requires left ≠ right, bottom ≠ top and near ≠ far. The source divides by the three differences without a check, which gives infinities or NaN.
- FixedVectors.V2.FromArray: requires at least two entries, and FixedVectors.V3.FromArray at least three. The source reads the missing ones as `undefined`.
- Vectors.Vec.constructor: stores `data` as a value. At final_project/common/matrix.js:539 the source keeps a reference to the caller's array, so a caller that later writes to that array changes what `mag` reads; that aliasing is not modelled.
- Primitives.GetSphere: requires sectorCount ≥ 1 and stackCount ≥ 1. With a count of 0 the source divides by zero in the step angle, and a negative count gives empty loops.
- Primitives.GetCylinder: requires sectorCount ≥ 1, for the same reason.
- The default arguments of `getMesh` (xRes = zRes = 10 at lab8/lab08-lighting/primitives.js:306, sectorCount = stackCount = 20 at line 363, sectorCount = 20 at line 455): the model's callers always pass every argument.
- `SquareMat` in the source is a subclass. Here it is a kind tag on `Mat`, and the missing `reset` of a plain `Mat` is that tag being `General`.
- Triangle, Quad, Tetrahedron and Pyramid meshes: their vertex constants involve square roots and they have no loops.
- `GLUtils.createMesh`, GPU buffers and `gl.TRIANGLES`: a mesh is the record of its name, indices, positions and normals.
- The mesh and material fields of every `ModelTransform`: they are stored untouched.
- The `localRight`, `localUp` and `localForward` getters of final_project/modeltransform.js: they call `new Vec` with three numbers instead of an array.
- ProjectTransform.ModelTransform.constructor: requires the vectors it is given to have at least three components. The source reads the missing ones as `undefined` and computes NaN.
- ProjectTransform.Factors: is stated with the lab8 rotation matrices, and the padded `SquareMat3` rotations are proved equal to them (`PaddedRotationY/X/Z`).
- LightingTransform.ModelTransform.UpdateMatrix: does not state that the old M4 object is reset before it is replaced. It states the fields and the new matrix.
- BasicTransform.ModelTransform.UpdateMatrix: as above, the reset of the replaced M4 object is not stated.
- Engine2DTransform.ModelTransform.UpdateMatrix: as above, the reset of the replaced M3 object is not stated.
- The ModelTransform classes assume distinct position, rotation, scale and matrix objects. A caller aliasing position and scale is outside the model.
- lab5's math2d.js and modeltransform.js, both camera files, gl-utils, the renderers, the render loop, the grid and the lab4/lab6 hard-coded shapes: they are browser and GPU plumbing, or unfinished.

## Findings

| source | as written | input that shows it | evidently intended | confidence | as-written member | corrected member |
|---|---|---|---|---|---|---|
| final_project/common/matrix.js:240 | `rot` tests `a > n \|\| n > n \|\| a < 0 \|\| b < 0`: `n > n` is never true, b is never bounded above, and a = n passes | rot(3, 0, 5, θ), with cos θ = 0 and sin θ = 1, builds a matrix with a zero first column | reject axes outside 0..n-1 | high (not executed) | Matrix.Mat.RotAsWritten | Matrix.Mat.Rot |
| final_project/common/matrix.js:562-564 | `mag` reads `this.data`, the array given to the constructor, which `scale`, `invert`, `subtract` and `set` never update | new Vec([1]), then scale(2): mag() reports 1, while the components are [2] | the magnitude of the live components | high (not executed) | Vectors.MagAfterScale | Vectors.MagLiveAfterScale |
| lab8/common/math.js:557-566 | `M3.transpose` starts from the all-zero `new M3()` and copies only the off-diagonal entries | M3.transpose(M3.IDENTITY) is the zero matrix | copy the diagonal too | high (not executed) | FixedMatrices.Transpose3AsWritten | FixedMatrices.Transposed3Swaps |
| final_project/modeltransform.js:41-47 | `updateMatrix` multiplies with `Mat.mult`, which returns a plain `Mat` without `reset`, so `reset` at line 60 throws | a transform built with the defaults, then reset() | multiply with `SquareMat.mult`, whose result keeps `reset` | high (not executed) | ProjectTransform.ResetAsWritten | ProjectTransform.ResetCorrected |
